/**
 The session lock as a state machine: what each event from the compositor,
 logind, the screensaver loader or the user makes of it, and what is asked of
 the compositor and of logind meanwhile.
 */
module LockSession {
  import opened Bytes
  import opened LockSurface

  datatype State = Unlocked | Pending | Locked

  /** Requests on the lock object, and its events, in the order they happen. */
  datatype Wire =
    | AskLock(lock: nat)
    | UnlockAndDestroy(lock: nat)
    | DestroyLock(lock: nat)
    | GetLockSurface(lock: nat, output: nat)
    | DestroyLockSurface(output: nat)
    | LockedEvent(lock: nat)
    | FinishedEvent(lock: nat)

  type Framed = f: Surface | Shaped(f) witness NEW_SURFACE

  /** A lock surface, and all that has been asked of the compositor for it. */
  datatype LockSurf = LockSurf(id: nat, output: nat, surface: Framed, requests: seq<Request>)

  /** One of the client's outputs: its wl_output global's name, 0 if it has none yet. */
  datatype OutputInfo = OutputInfo(id: nat, name: nat, removed: bool)

  /**
   `trace` and `hints` are what has gone out (and come in) so far, `buried` the
   surfaces that are gone, `sent` what is on its way to the loader.
   */
  datatype Session = Session(
    state: State, lock: Option<nat>, nextLock: nat, unlockWhenLocked: bool, sleepPending: bool, inhibitor: bool,
    surfaces: seq<LockSurf>, buried: seq<LockSurf>, nextId: nat, running: bool,
    trace: seq<Wire>, hints: seq<bool>, sent: seq<Letter>)

  datatype Letter = Letter(id: nat, body: Down)

  datatype Event =
    | LockAsked(obstacle: bool, outputs: seq<OutputInfo>, loader: bool, sent: Sent)
    | UnlockAsked
    | GoingToSleep(obstacle: bool, outputs: seq<OutputInfo>, loader: bool, sent: Sent)
    | WokeUp(inhibited: bool)
    | LockLocked
    | LockFinished
    | OutputAdded(output: OutputInfo)
    | OutputRemoved(gone: nat, sent: Sent)
    | SizeGiven(id: nat, size: Size, hasMemory: bool, sent: Sent, blurSent: Sent)
    | LoaderSays(id: nat, message: Up, whole: bool)
    | LoaderFailed
    | ImportDone(id: nat, slot: nat)
    | ImportFailed(id: nat, slot: nat)
    | FrameDue(id: nat, sent: Sent)
    | BufferFreed(id: nat, slot: nat, sent: Sent)

  const FRESH: Session := Session(Unlocked, None, 0, false, false, false, [], [], 1, false, [], [], [])

  // ---------- surfaces ----------

  function Act(x: LockSurf, e: Effect): LockSurf
    requires Shaped(e.surface)
  {
    x.(surface := e.surface, requests := x.requests + e.requests)
  }

  function StopAll(xs: seq<LockSurf>): (r: seq<LockSurf>)
    ensures |r| == |xs| && forall i :: 0 <= i < |xs| ==> r[i] == Act(xs[i], DestroyBuffers(xs[i].surface))
  {
    seq(|xs|, i requires 0 <= i < |xs| => Act(xs[i], DestroyBuffers(xs[i].surface)))
  }

  function BlackAll(xs: seq<LockSurf>): (r: seq<LockSurf>)
    ensures |r| == |xs| && forall i :: 0 <= i < |xs| ==> r[i] == Act(xs[i], Stopped(xs[i].surface))
  {
    seq(|xs|, i requires 0 <= i < |xs| => Act(xs[i], Stopped(xs[i].surface)))
  }

  /** The surface with an id, the number of surfaces if there is none. */
  function IndexOf(xs: seq<LockSurf>, id: nat): (k: nat)
    ensures k <= |xs| && (k < |xs| ==> xs[k].id == id)
    ensures forall j :: 0 <= j < k ==> xs[j].id != id
  {
    if xs == [] || xs[0].id == id then 0 else 1 + IndexOf(xs[1..], id)
  }

  predicate HasSurfaceOn(xs: seq<LockSurf>, output: nat) {
    exists k :: 0 <= k < |xs| && xs[k].output == output
  }

  function SurfaceOn(xs: seq<LockSurf>, output: nat): (k: nat)
    ensures k <= |xs| && (k < |xs| ==> xs[k].output == output)
    ensures forall j :: 0 <= j < k ==> xs[j].output != output
  {
    if xs == [] || xs[0].output == output then 0 else 1 + SurfaceOn(xs[1..], output)
  }

  function StopScreensaver(s: Session): Session {
    s.(running := false, surfaces := StopAll(s.surfaces))
  }

  function ScreensaverFailed(s: Session): Session {
    if s.running then s.(running := false, surfaces := BlackAll(s.surfaces)) else s
  }

  function ScrSend(s: Session, id: nat, m: Down, sent: Sent): Session {
    if !s.running then s
    else
      match sent
      case Delivered => s.(sent := s.sent + [Letter(id, m)])
      case Dropped => s
      case Broken => ScreensaverFailed(s)
  }

  /** MODIFIERS and BLUR messages leave no mark on the frame exchange unless the socket is broken. */
  function ScrTell(s: Session, sent: Sent): Session {
    if sent.Broken? then ScreensaverFailed(s) else s
  }

  function CreateSurface(s: Session, o: OutputInfo): Session {
    if s.lock.None? || o.name == 0 || o.removed || HasSurfaceOn(s.surfaces, o.id) then s
    else
      s.(surfaces := s.surfaces + [LockSurf(s.nextId, o.id, NEW_SURFACE, [])], nextId := s.nextId + 1,
         trace := s.trace + [GetLockSurface(s.lock.value, o.id)])
  }

  function CreateAll(s: Session, outputs: seq<OutputInfo>): Session {
    if outputs == [] then s else CreateSurface(CreateAll(s, outputs[..|outputs| - 1]), outputs[|outputs| - 1])
  }

  function DestroySurface(s: Session, k: nat, sent: Sent): Session
    requires k < |s.surfaces|
  {
    var s' := ScrSend(s, s.surfaces[k].id, Remove, sent);
    var x := s'.surfaces[k];
    s'.(surfaces := s'.surfaces[..k] + s'.surfaces[k + 1..], buried := s'.buried + [Act(x, DestroyBuffers(x.surface))],
        trace := s'.trace + [DestroyLockSurface(s.surfaces[k].output)])
  }

  /** The screensaver having been stopped, nothing is sent for them. */
  function DestroySurfaces(s: Session): Session
    decreases |s.surfaces|
  {
    if s.surfaces == [] then s else DestroySurfaces(DestroySurface(s, 0, Dropped))
  }

  // ---------- locking and unlocking ----------

  function SleepReady(s: Session): Session {
    if s.sleepPending then s.(sleepPending := false, inhibitor := false) else s
  }

  function StartScreensaver(s: Session, loader: bool, sent: Sent): Session {
    if loader then ScrTell(s.(running := true, sent := []), sent) else s
  }

  function DoLock(s: Session, obstacle: bool, outputs: seq<OutputInfo>, loader: bool, sent: Sent): Session {
    if s.state != Unlocked then s
    else if obstacle then SleepReady(s)
    else
      var asked := s.(unlockWhenLocked := false, lock := Some(s.nextLock), nextLock := s.nextLock + 1,
                      trace := s.trace + [AskLock(s.nextLock)], state := Pending);
      CreateAll(StartScreensaver(asked, loader, sent), outputs)
  }

  function Unlock(s: Session): Session {
    if s.state == Pending then s.(unlockWhenLocked := true)
    else if s.state != Locked || s.lock.None? then s
    else
      var ended := s.(trace := s.trace + [UnlockAndDestroy(s.lock.value)], lock := None, state := Unlocked);
      var gone := DestroySurfaces(StopScreensaver(ended));
      gone.(hints := gone.hints + [false])
  }

  function PrepareForSleep(s: Session, obstacle: bool, outputs: seq<OutputInfo>, loader: bool, sent: Sent): Session {
    var s' := s.(sleepPending := true);
    if s.state == Locked then SleepReady(s') else DoLock(s', obstacle, outputs, loader, sent)
  }

  function OnLocked(s: Session): Session
    requires s.lock.Some?
  {
    var s' := SleepReady(s.(trace := s.trace + [LockedEvent(s.lock.value)], state := Locked,
                            hints := s.hints + [true]));
    if s.unlockWhenLocked then Unlock(s'.(unlockWhenLocked := false)) else s'
  }

  function OnFinished(s: Session): Session
    requires s.lock.Some?
  {
    var heard := s.trace + [FinishedEvent(s.lock.value)];
    var answered :=
      if s.state == Locked then s.(trace := heard + [UnlockAndDestroy(s.lock.value)], hints := s.hints + [false])
      else s.(trace := heard + [DestroyLock(s.lock.value)]);
    SleepReady(DestroySurfaces(StopScreensaver(answered.(lock := None, state := Unlocked, unlockWhenLocked := false))))
  }

  // ---------- events of one surface ----------

  function ActOn(s: Session, k: nat, e: Effect): Session
    requires k < |s.surfaces| && Shaped(e.surface)
  {
    s.(surfaces := s.surfaces[k := Act(s.surfaces[k], e)])
  }

  function Shell(s: Session, k: nat, e: Effect, sent: Sent): Session
    requires k < |s.surfaces| && Shaped(e.surface)
  {
    var s' := ActOn(s, k, e);
    if e.message.Some? then ScrSend(s', s.surfaces[k].id, e.message.value, sent) else s'
  }

  function ConfigureSurface(s: Session, k: nat, size: Size, hasMemory: bool, sent: Sent, blurSent: Sent): Session
    requires k < |s.surfaces|
  {
    var e := SurfaceConfigure(s.surfaces[k].surface, size, hasMemory);
    var s' := Shell(s, k, e, sent);
    if e.message.Some? then ScrTell(s', blurSent) else s'
  }

  /** What a message from the loader does; none at all for one no sane loader would send. */
  function ScrHandle(s: Session, modifiers: seq<nat>, id: nat, m: Up): Option<Session> {
    var k := IndexOf(s.surfaces, id);
    if (!m.Buffer? && m.fd.Some?) || m.buffer >= SLOTS then None
    else if k == |s.surfaces| then if m.Ready? || (m.Buffer? && m.fd.Some?) then Some(s) else None
    else
      var e := Handle(s.surfaces[k].surface, modifiers, m);
      if e.None? then None else Some(ActOn(s, k, e.value))
  }

  function Receive(s: Session, modifiers: seq<nat>, id: nat, m: Up, whole: bool): Session {
    if !s.running then s
    else
      var handled := ScrHandle(s, modifiers, id, m);
      if !whole || handled.None? then ScreensaverFailed(s) else handled.value
  }

  /** The compositor has been shown buffer i of the surface, and has not let go of it. */
  predicate HasBuffer(x: LockSurf, i: nat) {
    var slots := x.surface.slots;
    i < |slots| && slots[i].Some? && slots[i].value.imported && slots[i].value.dmabuf in Watch({}, x.requests)
  }

  /** One event; an event that cannot happen changes nothing. */
  function Step(s: Session, modifiers: seq<nat>, e: Event): Session {
    match e
    case LockAsked(obstacle, outputs, loader, sent) => DoLock(s, obstacle, outputs, loader, sent)
    case UnlockAsked => Unlock(s)
    case GoingToSleep(obstacle, outputs, loader, sent) => PrepareForSleep(s, obstacle, outputs, loader, sent)
    case WokeUp(inhibited) => s.(inhibitor := s.inhibitor || inhibited)
    case LockLocked => if s.lock.Some? then OnLocked(s) else s
    case LockFinished => if s.lock.Some? then OnFinished(s) else s
    case OutputAdded(o) => CreateSurface(s, o)
    case OutputRemoved(gone, sent) =>
      var k := SurfaceOn(s.surfaces, gone);
      if k < |s.surfaces| then DestroySurface(s, k, sent) else s
    case SizeGiven(id, size, hasMemory, sent, blurSent) =>
      var k := IndexOf(s.surfaces, id);
      if k < |s.surfaces| then ConfigureSurface(s, k, size, hasMemory, sent, blurSent) else s
    case LoaderSays(id, m, whole) => Receive(s, modifiers, id, m, whole)
    case LoaderFailed => ScreensaverFailed(s)
    case ImportDone(id, i) =>
      var k := IndexOf(s.surfaces, id);
      if k < |s.surfaces| && Importing(s.surfaces[k].surface, i)
          then ActOn(s, k, ParamsCreated(s.surfaces[k].surface, i)) else s
    case ImportFailed(id, i) =>
      var k := IndexOf(s.surfaces, id);
      if k < |s.surfaces| && Importing(s.surfaces[k].surface, i) then ScreensaverFailed(s) else s
    case FrameDue(id, sent) =>
      var k := IndexOf(s.surfaces, id);
      if k < |s.surfaces| && s.surfaces[k].surface.frameCallback
          then Shell(s, k, FrameDone(s.surfaces[k].surface), sent) else s
    case BufferFreed(id, i, sent) =>
      var k := IndexOf(s.surfaces, id);
      if k < |s.surfaces| && HasBuffer(s.surfaces[k], i)
          then Shell(s, k, BufferRelease(s.surfaces[k].surface, i), sent) else s
  }

  function Run(modifiers: seq<nat>, events: seq<Event>): Session {
    if events == [] then FRESH
    else Step(Run(modifiers, events[..|events| - 1]), modifiers, events[|events| - 1])
  }
}
