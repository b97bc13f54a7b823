/**
 Shell, loader and compositor together, with every lock surface, one socket in
 each direction and any number of lock sessions: what is proved of the frame
 exchange of one output holds of each surface in every joint run.
 */
module JointRuns {
  import opened Bytes
  import opened LockSurface
  import opened LockSession
  import opened LockInvariant
  import opened FrameRefinement
  import Frames = FrameProtocol
  import Invariant = FrameInvariant
  import Safety = FrameSafety
  import Loader = ScreensaverLoader

  /**
   The shell with what is on its way to the loader, the loader's outputs, and
   what is on its way back. What the compositor has of each surface is in the
   surface's own record.
   */
  datatype World = World(s: Session, outputs: map<nat, Frames.Output>, up: seq<Loader.Outgoing>)

  datatype Deed =
    | ShellDoes(e: Event)
    | ShellHears
    | LoaderHears(driver: Frames.Driver)
    | LoaderDraws(id: nat)

  function Get(outputs: map<nat, Frames.Output>, id: nat): Option<Frames.Output> {
    if id in outputs then Some(outputs[id]) else None
  }

  function Put(outputs: map<nat, Frames.Output>, id: nat, o: Option<Frames.Output>): map<nat, Frames.Output> {
    if o.Some? then outputs[id := o.value] else outputs - {id}
  }

  function Tagged(id: nat, ms: seq<Up>): seq<Loader.Outgoing> {
    if ms == [] then [] else Tagged(id, ms[..|ms| - 1]) + [Loader.Outgoing(id, ms[|ms| - 1])]
  }

  /** A new loader is started, with a socket of its own. */
  predicate StartsLoader(s: Session, e: Event) {
    (e.LockAsked? || e.GoingToSleep?) && s.state == Unlocked && !e.obstacle && e.loader
  }

  /** One deed of one of the three; one that cannot be done changes nothing. */
  function Next(modifiers: seq<nat>, w: World, d: Deed): World {
    match d
    case ShellDoes(e) =>
      if e.LoaderSays? then w
      else if StartsLoader(w.s, e) then World(Step(w.s, modifiers, e), map[], [])
      else w.(s := Step(w.s, modifiers, e))
    case ShellHears =>
      if !w.s.running || w.up == [] then w
      else w.(s := Step(w.s, modifiers, LoaderSays(w.up[0].id, w.up[0].body, true)), up := w.up[1..])
    case LoaderHears(driver) =>
      if w.s.sent == [] then w
      else
        var l := w.s.sent[0];
        var told := Frames.Hear(Get(w.outputs, l.id), l.body, driver);
        World(w.s.(sent := w.s.sent[1..]), Put(w.outputs, l.id, told.output), w.up + Tagged(l.id, told.messages))
    case LoaderDraws(id) =>
      if id !in w.outputs then w
      else
        var told := Frames.OutputDraw(w.outputs[id]);
        w.(outputs := Put(w.outputs, id, told.output), up := w.up + Tagged(id, told.messages))
  }

  const BEGINNING: World := World(FRESH, map[], [])

  function JointRun(modifiers: seq<nat>, deeds: seq<Deed>): World {
    if deeds == [] then BEGINNING
    else Next(modifiers, JointRun(modifiers, deeds[..|deeds| - 1]), deeds[|deeds| - 1])
  }

  // ---------- what is on its way ----------

  lemma AboutFirst(id: nat, sent: seq<Letter>)
    requires sent != []
    ensures About(id, sent) == (if sent[0].id == id then [sent[0].body] else []) + About(id, sent[1..])
    decreases |sent|
  {
    if |sent| > 1 {
      var before := sent[..|sent| - 1];
      AboutFirst(id, before);
      assert before[1..] == sent[1..][..|sent[1..]| - 1] && before[0] == sent[0];
    }
  }

  lemma UpFirst(id: nat, up: seq<Loader.Outgoing>)
    requires up != []
    ensures Loader.About(id, up) == (if up[0].id == id then [up[0].body] else []) + Loader.About(id, up[1..])
  {
    assert up == [up[0]] + up[1..];
    Loader.AboutJoin(id, [up[0]], up[1..]);
    assert [up[0]][..0] == [];
  }

  lemma {:induction false} TaggedAbout(id: nat, other: nat, ms: seq<Up>)
    ensures Loader.About(id, Tagged(other, ms)) == if id == other then ms else []
    decreases |ms|
  {
    if ms != [] {
      TaggedAbout(id, other, ms[..|ms| - 1]);
      Loader.AboutOne(id, Tagged(other, ms[..|ms| - 1]), other, ms[|ms| - 1]);
    }
  }

  lemma UpMore(id: nat, up: seq<Loader.Outgoing>, other: nat, ms: seq<Up>)
    ensures Loader.About(id, up + Tagged(other, ms)) == Loader.About(id, up) + if id == other then ms else []
  {
    Loader.AboutJoin(id, up, Tagged(other, ms));
    TaggedAbout(id, other, ms);
  }

  lemma {:induction false} AboutNobody(id: nat, sent: seq<Letter>)
    requires forall l :: l in sent ==> l.id != id
    ensures About(id, sent) == []
  {
    if sent != [] {
      AboutNobody(id, sent[..|sent| - 1]);
    }
  }

  lemma {:induction false} UpNobody(id: nat, up: seq<Loader.Outgoing>)
    requires forall m :: m in up ==> m.id != id
    ensures Loader.About(id, up) == []
  {
    if up != [] {
      UpNobody(id, up[..|up| - 1]);
    }
  }

  // ---------- one surface's exchange ----------

  /** What the joint world is to one surface. */
  predicate Linked(w: World, t: Frames.System, id: nat) {
    Agrees(w.s, t, id) && t.up == Loader.About(id, w.up) && t.output == Get(w.outputs, id)
  }

  /** The exchange gets there; with nothing lost on its way to the loader, if `whole`. */
  ghost predicate Exchanged(whole: bool, modifiers: seq<nat>, w: World, id: nat) {
    exists running, events ::
      Linked(w, Frames.Run(running, modifiers, events), id) && (whole ==> !Frames.Run(running, modifiers, events).lossy)
  }

  predicate Drops(x: Frames.Event) {
    (x.Configured? || x.FrameShown? || x.Released? || x.Removed?) && x.sent.Dropped?
  }

  /** A message to the loader about the surface meets a full socket. */
  predicate Loses(d: Deed, id: nat) {
    d.ShellDoes? && OfSurface(d.e) && !d.e.ImportFailed? && d.e.id == id && Drops(Own(d.e))
  }

  predicate Whole(deeds: seq<Deed>, id: nat) {
    forall d :: d in deeds ==> !Loses(d, id)
  }

  predicate DropsNothing(steps: seq<Frames.Event>) {
    forall x :: x in steps ==> !Drops(x)
  }

  lemma TakesWhole(e: Event, id: nat, steps: seq<Frames.Event>)
    requires Takes(e, id, steps) && !Loses(ShellDoes(e), id)
    ensures DropsNothing(steps)
  {
  }

  lemma StepWhole(t: Frames.System, modifiers: seq<nat>, x: Frames.Event)
    requires Frames.Sound(t) && !Drops(x)
    ensures Frames.Step(t, modifiers, x).lossy == t.lossy
  {
    hide Watch, SurfaceConfigure, Stopped, DestroyBuffers, ParamsCreated, Handle, Frames.Hear, Frames.OutputDraw;
  }

  lemma {:induction false} AfterWhole(t: Frames.System, modifiers: seq<nat>, steps: seq<Frames.Event>)
    requires Frames.Sound(t) && DropsNothing(steps)
    ensures Frames.After(t, modifiers, steps).lossy == t.lossy
    decreases |steps|
  {
    if steps != [] {
      AfterWhole(t, modifiers, steps[..|steps| - 1]);
      hide Frames.Step, Drops;
      StepWhole(Frames.After(t, modifiers, steps[..|steps| - 1]), modifiers, steps[|steps| - 1]);
    }
  }

  lemma {:induction false} RunThen(running: bool, modifiers: seq<nat>, events: seq<Frames.Event>,
                                   more: seq<Frames.Event>)
    ensures Frames.Run(running, modifiers, events + more)
            == Frames.After(Frames.Run(running, modifiers, events), modifiers, more)
    decreases |more|
  {
    if more == [] {
      assert events + more == events;
    } else {
      RunThen(running, modifiers, events, more[..|more| - 1]);
      assert (events + more)[..|events + more| - 1] == events + more[..|more| - 1];
      hide Frames.Step;
    }
  }

  /** If the exchange has got somewhere, it gets where a few more steps take it. */
  lemma GetsOn(whole: bool, modifiers: seq<nat>, t: Frames.System, id: nat, w': World, steps: seq<Frames.Event>)
    requires exists running, events :: t == Frames.Run(running, modifiers, events)
    requires Frames.Sound(t) && Linked(w', Frames.After(t, modifiers, steps), id)
    requires whole ==> !t.lossy && DropsNothing(steps)
    ensures Exchanged(whole, modifiers, w', id)
  {
    var running, events :| t == Frames.Run(running, modifiers, events);
    RunThen(running, modifiers, events, steps);
    if whole {
      AfterWhole(t, modifiers, steps);
    }
    hide Linked, Frames.Run, Frames.After, DropsNothing;
    assert Linked(w', Frames.Run(running, modifiers, events + steps), id);
  }

  // ---------- ids ----------

  /** All that is on its way, and all the loader has, is of surfaces that have been made. */
  predicate Known(w: World) {
    && (forall l :: l in w.s.sent ==> l.id < w.s.nextId)
    && (forall m :: m in w.up ==> m.id < w.s.nextId)
    && (forall id :: id in w.outputs ==> id < w.s.nextId)
  }

  predicate SentKnown(s: Session) {
    forall l :: l in s.sent ==> l.id < s.nextId
  }

  lemma ScrSendKnown(s: Session, id: nat, m: Down, sent: Sent)
    requires SentKnown(s) && id < s.nextId
    ensures SentKnown(ScrSend(s, id, m, sent)) && ScrSend(s, id, m, sent).nextId == s.nextId
  {
    hide BlackAll;
  }

  lemma ShellKnown(s: Session, k: nat, e: Effect, sent: Sent)
    requires SentKnown(s) && Apart(s.surfaces, s.nextId) && k < |s.surfaces| && Shaped(e.surface)
    ensures SentKnown(Shell(s, k, e, sent)) && Shell(s, k, e, sent).nextId == s.nextId
  {
    var s1 := ActOn(s, k, e);
    assert SentKnown(s1) && s1.nextId == s.nextId && s.surfaces[k].id < s.nextId;
    hide ScrSend, ActOn, SentKnown;
    if e.message.Some? {
      ScrSendKnown(s1, s.surfaces[k].id, e.message.value, sent);
    }
  }

  lemma {:induction false} CreateAllKnown(s: Session, outputs: seq<OutputInfo>)
    ensures CreateAll(s, outputs).sent == s.sent && CreateAll(s, outputs).nextId >= s.nextId
  {
    if outputs != [] {
      CreateAllKnown(s, outputs[..|outputs| - 1]);
    }
  }

  lemma {:induction false} DestroySurfacesKnown(s: Session)
    requires SentKnown(s) && Apart(s.surfaces, s.nextId)
    ensures SentKnown(DestroySurfaces(s)) && DestroySurfaces(s).nextId == s.nextId
    decreases |s.surfaces|
  {
    if s.surfaces != [] {
      DestroyKnown(s, 0, Dropped);
      var s1 := DestroySurface(s, 0, Dropped);
      assert |s1.surfaces| < |s.surfaces| by {
        ScrSendSame(s, s.surfaces[0].id, Remove, Dropped);
      }
      hide DestroySurface, SentKnown, Apart;
      DestroySurfacesKnown(s1);
    }
  }

  lemma DestroyKnown(s: Session, k: nat, sent: Sent)
    requires SentKnown(s) && Apart(s.surfaces, s.nextId) && k < |s.surfaces|
    ensures var s' := DestroySurface(s, k, sent);
            SentKnown(s') && Apart(s'.surfaces, s'.nextId) && s'.nextId == s.nextId
  {
    ScrSendSame(s, s.surfaces[k].id, Remove, sent);
    ScrSendKnown(s, s.surfaces[k].id, Remove, sent);
    var s1 := ScrSend(s, s.surfaces[k].id, Remove, sent);
    assert Apart(s1.surfaces, s.nextId);
    WithoutOutputs(s1.surfaces, k, s.nextId);
    hide ScrSend, Apart, OutputsOf;
  }

  lemma StoppedKnown(s: Session)
    requires SentKnown(s) && Apart(s.surfaces, s.nextId)
    ensures var s' := DestroySurfaces(StopScreensaver(s)); SentKnown(s') && s'.nextId == s.nextId
  {
    var s1 := StopScreensaver(s);
    assert Apart(s1.surfaces, s1.nextId) && SentKnown(s1) && s1.nextId == s.nextId by {
      hide DestroyBuffers;
    }
    hide StopScreensaver, Apart, SentKnown;
    DestroySurfacesKnown(s1);
  }

  lemma UnlockKnown(s: Session)
    requires SentKnown(s) && Apart(s.surfaces, s.nextId)
    ensures SentKnown(Unlock(s)) && Unlock(s).nextId == s.nextId
  {
    if s.state == Locked && s.lock.Some? {
      var ended := s.(trace := s.trace + [UnlockAndDestroy(s.lock.value)], lock := None, state := Unlocked);
      StoppedKnown(ended);
    }
    hide DestroySurfaces, StopScreensaver, Apart;
  }

  lemma LockedKnown(s: Session)
    requires SentKnown(s) && Apart(s.surfaces, s.nextId) && s.lock.Some?
    ensures SentKnown(OnLocked(s)) && OnLocked(s).nextId == s.nextId
  {
    hide Unlock, Apart, SentKnown;
    var s1 := s.(trace := s.trace + [LockedEvent(s.lock.value)], state := Locked, hints := s.hints + [true]);
    KnownToo(s, SleepReady(s1));
    KnownToo(s, SleepReady(s1).(unlockWhenLocked := false));
    UnlockKnown(SleepReady(s1).(unlockWhenLocked := false));
  }

  lemma FinishedKnown(s: Session)
    requires SentKnown(s) && Apart(s.surfaces, s.nextId) && s.lock.Some?
    ensures SentKnown(OnFinished(s)) && OnFinished(s).nextId == s.nextId
  {
    hide DestroySurfaces, StopScreensaver, Apart, SentKnown;
    var heard := s.trace + [FinishedEvent(s.lock.value)];
    var answered :=
      if s.state == Locked then s.(trace := heard + [UnlockAndDestroy(s.lock.value)], hints := s.hints + [false])
      else s.(trace := heard + [DestroyLock(s.lock.value)]);
    var s1 := answered.(lock := None, state := Unlocked, unlockWhenLocked := false);
    KnownToo(s, s1);
    StoppedKnown(s1);
    var s2 := DestroySurfaces(StopScreensaver(s1));
    KnownToo(s2, SleepReady(s2));
  }

  lemma KnownToo(s: Session, s': Session)
    requires SentKnown(s) && s'.sent == s.sent && s'.nextId == s.nextId
    ensures SentKnown(s')
  {
  }

  lemma AnswerKnown(modifiers: seq<nat>, s: Session, e: Event)
    requires SentKnown(s) && Apart(s.surfaces, s.nextId) && (e.UnlockAsked? || e.LockLocked? || e.LockFinished?)
    ensures SentKnown(Step(s, modifiers, e)) && Step(s, modifiers, e).nextId == s.nextId
  {
    hide Unlock, OnLocked, OnFinished, Apart, SentKnown;
    UnlockKnown(s);
    if s.lock.Some? {
      LockedKnown(s);
      FinishedKnown(s);
    }
  }

  lemma LockAskedKnown(modifiers: seq<nat>, s: Session, e: Event)
    requires SentKnown(s) && (e.LockAsked? || e.GoingToSleep?)
    ensures SentKnown(Step(s, modifiers, e)) && Step(s, modifiers, e).nextId >= s.nextId
  {
    hide CreateAll, BlackAll;
    forall x: Session {
      CreateAllKnown(x, e.outputs);
    }
  }

  lemma FailedKnown(s: Session)
    requires SentKnown(s)
    ensures SentKnown(ScreensaverFailed(s)) && ScreensaverFailed(s).nextId == s.nextId
  {
    hide BlackAll;
  }

  lemma SizeKnown(s: Session, k: nat, e: Event)
    requires SentKnown(s) && Apart(s.surfaces, s.nextId) && k < |s.surfaces| && e.SizeGiven?
    ensures var s' := ConfigureSurface(s, k, e.size, e.hasMemory, e.sent, e.blurSent);
            SentKnown(s') && s'.nextId == s.nextId
  {
    hide *;
    ConfigureSurfaceIs(s, k, e);
    var effect := SurfaceConfigure(s.surfaces[k].surface, e.size, e.hasMemory);
    ShellKnown(s, k, effect, e.sent);
    FailedKnown(Shell(s, k, effect, e.sent));
  }

  lemma ReceivedKnown(modifiers: seq<nat>, s: Session, id: nat, m: Up, whole: bool)
    requires SentKnown(s)
    ensures var s' := Receive(s, modifiers, id, m, whole); SentKnown(s') && s'.nextId == s.nextId
  {
    hide Handle, ScreensaverFailed, IndexOf;
    FailedKnown(s);
  }

  lemma BufferKnown(modifiers: seq<nat>, s: Session, k: nat, e: Event)
    requires (e.ImportDone? || e.FrameDue? || e.BufferFreed?) && k == IndexOf(s.surfaces, e.id) < |s.surfaces|
    requires SentKnown(s) && Apart(s.surfaces, s.nextId)
    ensures SentKnown(Step(s, modifiers, e)) && Step(s, modifiers, e).nextId == s.nextId
  {
    hide Step, Shell, Watch, IndexOf, Apart;
    BufferStep(modifiers, s, k, e);
    if e.FrameDue? {
      ShellKnown(s, k, FrameDone(s.surfaces[k].surface), e.sent);
    } else if e.BufferFreed? && HasBuffer(s.surfaces[k], e.slot) {
      ShellKnown(s, k, BufferRelease(s.surfaces[k].surface, e.slot), e.sent);
    }
  }

  lemma SurfaceKnown(modifiers: seq<nat>, s: Session, e: Event)
    requires SentKnown(s) && Apart(s.surfaces, s.nextId) && OfSurface(e)
    ensures SentKnown(Step(s, modifiers, e)) && Step(s, modifiers, e).nextId == s.nextId
  {
    hide Step, Apart, IndexOf, SentKnown, ConfigureSurface, Receive, ScreensaverFailed, Importing;
    SurfaceStep(modifiers, s, e);
    var k := IndexOf(s.surfaces, e.id);
    FailedKnown(s);
    if e.LoaderSays? {
      ReceivedKnown(modifiers, s, e.id, e.message, e.whole);
    } else if k < |s.surfaces| && e.SizeGiven? {
      SizeKnown(s, k, e);
    } else if k < |s.surfaces| && !e.ImportFailed? {
      BufferKnown(modifiers, s, k, e);
    }
  }

  lemma StepKnown(modifiers: seq<nat>, s: Session, e: Event)
    requires SentKnown(s) && Apart(s.surfaces, s.nextId)
    ensures SentKnown(Step(s, modifiers, e)) && Step(s, modifiers, e).nextId >= s.nextId
  {
    if OfSurface(e) {
      SurfaceKnown(modifiers, s, e);
      hide *;
    } else if e.LockAsked? || e.GoingToSleep? {
      LockAskedKnown(modifiers, s, e);
      hide *;
    } else if e.UnlockAsked? || e.LockLocked? || e.LockFinished? {
      AnswerKnown(modifiers, s, e);
      hide *;
    } else if e.OutputRemoved? {
      var k := SurfaceOn(s.surfaces, e.gone);
      if k < |s.surfaces| {
        DestroyKnown(s, k, e.sent);
      }
      hide DestroySurface, SurfaceOn, Apart;
    } else {
      hide BlackAll;
    }
  }

  lemma {:induction false} TaggedIds(id: nat, ms: seq<Up>)
    ensures forall m :: m in Tagged(id, ms) ==> m.id == id
  {
    if ms != [] {
      TaggedIds(id, ms[..|ms| - 1]);
    }
  }

  lemma NextKnown(modifiers: seq<nat>, w: World, d: Deed)
    requires Known(w) && Apart(w.s.surfaces, w.s.nextId)
    ensures Known(Next(modifiers, w, d))
  {
    match d
    case ShellDoes(e) => StepKnown(modifiers, w.s, e); hide Step, Apart;
    case ShellHears =>
      if w.s.running && w.up != [] {
        StepKnown(modifiers, w.s, LoaderSays(w.up[0].id, w.up[0].body, true));
      }
      hide Step, Apart;
    case LoaderHears(driver) =>
      if w.s.sent != [] {
        var l := w.s.sent[0];
        TaggedIds(l.id, Frames.Hear(Get(w.outputs, l.id), l.body, driver).messages);
        assert l in w.s.sent;
      }
      hide Frames.Hear, Tagged, Apart;
    case LoaderDraws(id) =>
      if id in w.outputs {
        TaggedIds(id, Frames.OutputDraw(w.outputs[id]).messages);
      }
      hide Frames.OutputDraw, Tagged, Apart;
  }

  // ---------- what each deed is to one surface ----------

  /** A surface that was not there before is new, and has an id of its own. */
  lemma {:induction false} CreateAllNew(s: Session, outputs: seq<OutputInfo>, id: nat)
    requires Lookup(s.surfaces, id) == None && Lookup(CreateAll(s, outputs).surfaces, id).Some?
    ensures var x := Lookup(CreateAll(s, outputs).surfaces, id).value;
            x.surface == NEW_SURFACE && x.requests == [] && id >= s.nextId
  {
    if outputs != [] {
      var before := CreateAll(s, outputs[..|outputs| - 1]);
      CreateAllKnown(s, outputs[..|outputs| - 1]);
      hide Lookup, CreateSurface;
      if Lookup(before.surfaces, id).Some? {
        CreateAllNew(s, outputs[..|outputs| - 1], id);
        CreateKeepsLookup(before, outputs[|outputs| - 1], id);
      } else {
        CreateNew(before, outputs[|outputs| - 1], id);
      }
    }
  }

  lemma CreateNew(s: Session, o: OutputInfo, id: nat)
    requires Lookup(s.surfaces, id) == None && Lookup(CreateSurface(s, o).surfaces, id).Some?
    ensures var x := Lookup(CreateSurface(s, o).surfaces, id).value;
            x.surface == NEW_SURFACE && x.requests == [] && id == s.nextId
  {
    var x := LockSurf(s.nextId, o.id, NEW_SURFACE, []);
    if id != s.nextId {
      IndexAppend(s.surfaces, x, id);
    }
    assert forall k :: 0 <= k < |s.surfaces| ==> (s.surfaces + [x])[k] == s.surfaces[k];
  }

  lemma CreateKeepsLookup(s: Session, o: OutputInfo, id: nat)
    requires Lookup(s.surfaces, id).Some?
    ensures Lookup(CreateSurface(s, o).surfaces, id) == Lookup(s.surfaces, id)
  {
    var x := LockSurf(s.nextId, o.id, NEW_SURFACE, []);
    var k := IndexOf(s.surfaces, id);
    var xs := s.surfaces + [x];
    var j := IndexOf(xs, id);
    assert forall i :: 0 <= i < |s.surfaces| ==> xs[i] == s.surfaces[i];
    assert xs[k].id == id;
  }

  lemma LockAskedNew(modifiers: seq<nat>, s: Session, e: Event, id: nat)
    requires Flags(s) && (e.LockAsked? || e.GoingToSleep?)
    requires Lookup(s.surfaces, id) == None && Lookup(Step(s, modifiers, e).surfaces, id).Some?
    ensures var x := Lookup(Step(s, modifiers, e).surfaces, id).value;
            x.surface == NEW_SURFACE && x.requests == [] && id >= s.nextId
  {
    assert s.state == Unlocked && !e.obstacle;
    var s0 := if e.GoingToSleep? then s.(sleepPending := true) else s;
    var asked := s0.(unlockWhenLocked := false, lock := Some(s.nextLock), nextLock := s.nextLock + 1,
                     trace := s.trace + [AskLock(s.nextLock)], state := Pending);
    var begun := StartScreensaver(asked, e.loader, e.sent);
    assert begun.surfaces == [] && begun.nextId == s.nextId by {
      assert BlackAll([]) == [];
    }
    hide StartScreensaver, Lookup;
    assert Step(s, modifiers, e) == CreateAll(begun, e.outputs);
    CreateAllNew(begun, e.outputs, id);
  }

  /** No event but locking and a new output brings a surface. */
  lemma NoneNew(modifiers: seq<nat>, s: Session, e: Event, id: nat)
    requires Apart(s.surfaces, s.nextId) && !e.LockAsked? && !e.GoingToSleep? && !e.OutputAdded?
             && Lookup(s.surfaces, id) == None
    ensures Lookup(Step(s, modifiers, e).surfaces, id) == None
  {
    if e.UnlockAsked? || e.LockLocked? || e.LockFinished? {
      AnswersLeave(modifiers, s, e);
      NoSurfaces(id);
      hide Step, Lookup;
    } else if e.OutputRemoved? {
      var k := SurfaceOn(s.surfaces, e.gone);
      RemovedStepIs(modifiers, s, e, k);
      if k < |s.surfaces| {
        RemovedNone(s, k, e.sent, id);
      }
      hide Step, DestroySurface;
    } else if e.WokeUp? {
    } else {
      SurfaceEventSame(s, modifiers, e);
      IndexSame(s.surfaces, Step(s, modifiers, e).surfaces, id);
      hide Step;
    }
  }

  lemma RemovedNone(s: Session, k: nat, sent: Sent, id: nat)
    requires Apart(s.surfaces, s.nextId) && k < |s.surfaces| && Lookup(s.surfaces, id) == None
    ensures Lookup(DestroySurface(s, k, sent).surfaces, id) == None
  {
    ScrSendSame(s, s.surfaces[k].id, Remove, sent);
    var s1 := ScrSend(s, s.surfaces[k].id, Remove, sent);
    WithoutAt(s1.surfaces, k);
    assert forall j :: 0 <= j < |s.surfaces| ==> s.surfaces[j].id != id;
    var rest := Without(s1.surfaces, k);
    assert forall j :: 0 <= j < |rest| ==> rest[j].id != id;
    hide ScrSend, Without;
  }

  lemma NewIs(modifiers: seq<nat>, s: Session, e: Event, id: nat)
    requires Good(s) && Lookup(s.surfaces, id) == None && Lookup(Step(s, modifiers, e).surfaces, id).Some?
    ensures var x := Lookup(Step(s, modifiers, e).surfaces, id).value;
            x.surface == NEW_SURFACE && x.requests == [] && id >= s.nextId
    ensures e.LockAsked? || e.GoingToSleep? || e.OutputAdded?
  {
    assert Flags(s) && Apart(s.surfaces, s.nextId);
    hide Lookup, Step, Good, Flags, Apart;
    if e.LockAsked? || e.GoingToSleep? {
      LockAskedNew(modifiers, s, e, id);
    } else if e.OutputAdded? {
      AddedStep(modifiers, s, e);
      CreateNew(s, e.output, id);
    } else {
      NoneNew(modifiers, s, e, id);
    }
  }

  /** A surface that was not there before starts an exchange of its own. */
  lemma NewExchange(modifiers: seq<nat>, w: World, e: Event, id: nat)
    requires Good(w.s) && Known(w) && !e.LoaderSays?
    requires var w' := Next(modifiers, w, ShellDoes(e));
             Lookup(w.s.surfaces, id) == None && Lookup(w'.s.surfaces, id).Some?
    ensures Exchanged(true, modifiers, Next(modifiers, w, ShellDoes(e)), id)
  {
    var w' := Next(modifiers, w, ShellDoes(e));
    assert w'.s == Step(w.s, modifiers, e) && (w'.up == w.up || w'.up == [])
           && (w'.outputs == w.outputs || w'.outputs == map[]);
    assert Flags(w.s) && Apart(w.s.surfaces, w.s.nextId);
    hide Step, Good, Lookup, Next, Flags, Apart;
    NewIs(modifiers, w.s, e, id);
    NewSends(modifiers, w.s, e);
    var x := Lookup(w'.s.surfaces, id).value;
    assert forall l :: l in w'.s.sent ==> l in w.s.sent && l.id != id;
    assert forall m :: m in w'.up ==> m.id != id;
    AboutNobody(id, w'.s.sent);
    UpNobody(id, w'.up);
    hide Known;
    var t := Frames.Initial(w'.s.running);
    StartsLinked(w', x, t, id);
    assert Frames.Run(w'.s.running, modifiers, []) == t;
  }

  lemma StartsLinked(w: World, x: LockSurf, t: Frames.System, id: nat)
    requires Lookup(w.s.surfaces, id) == Some(x) && x.surface == NEW_SURFACE && x.requests == []
    requires About(id, w.s.sent) == [] && Loader.About(id, w.up) == [] && id !in w.outputs
             && t == Frames.Initial(w.s.running)
    ensures Linked(w, t, id)
  {
    assert Watch({}, []) == {} && SizesAfter([], []) == [];
    hide Lookup, About, Loader.About;
    assert Keeps(x, t);
  }

  /** Nothing is sent by the events that bring surfaces. */
  lemma NewSends(modifiers: seq<nat>, s: Session, e: Event)
    requires Flags(s) && Apart(s.surfaces, s.nextId)
    ensures e.LockAsked? || e.GoingToSleep? || e.OutputAdded? ==>
              forall l :: l in Step(s, modifiers, e).sent ==> l in s.sent
  {
    if e.LockAsked? || e.GoingToSleep? {
      forall x: Session {
        CreateAllKnown(x, e.outputs);
      }
      hide CreateAll, BlackAll;
    }
  }

  lemma LinkedParts(w: World, t: Frames.System, id: nat)
    requires Linked(w, t, id)
    ensures Frames.Sound(t) && t.running == w.s.running && t.down == About(id, w.s.sent)
    ensures Agrees(w.s, t, id) && t.up == Loader.About(id, w.up) && t.output == Get(w.outputs, id)
  {
    AgreesSound(w.s, t, id);
    hide Keeps, Lookup, Frames.Sound;
  }

  /** What the shell does, for a surface that was there. */
  lemma ShellDoesLinked(modifiers: seq<nat>, w: World, e: Event, t: Frames.System, id: nat)
      returns (steps: seq<Frames.Event>)
    requires Good(w.s) && id < w.s.nextId && Linked(w, t, id) && !e.LoaderSays?
    ensures var w' := Next(modifiers, w, ShellDoes(e));
            Frames.Sound(t) && (Lookup(w'.s.surfaces, id).Some? ==> Linked(w', Frames.After(t, modifiers, steps), id))
    ensures Takes(e, id, steps)
  {
    var w' := Next(modifiers, w, ShellDoes(e));
    LinkedParts(w, t, id);
    NotUnlocked(w.s, t, id);
    assert w' == w.(s := Step(w.s, modifiers, e)) && Says(w.s, t, id, e);
    hide Step, Next, Good, Agrees, Frames.Sound, Frames.After, Lookup;
    steps := EventIsSteps(modifiers, w.s, e, t, id);
    TakesShellOnly(e, id, steps);
    ShellOnlyAfter(t, modifiers, steps);
  }

  /** A loader is only started while there is no surface. */
  lemma NotUnlocked(s: Session, t: Frames.System, id: nat)
    requires Good(s) && Agrees(s, t, id)
    ensures s.state != Unlocked
  {
    NoSurfaces(id);
    hide Apart, Standings, Keeps;
  }

  lemma ShellHearsLinked(modifiers: seq<nat>, w: World, t: Frames.System, id: nat) returns (steps: seq<Frames.Event>)
    requires Good(w.s) && id < w.s.nextId && Linked(w, t, id) && w.s.running && w.up != []
    ensures var w' := Next(modifiers, w, ShellHears);
            Frames.Sound(t) && (Lookup(w'.s.surfaces, id).Some? ==> Linked(w', Frames.After(t, modifiers, steps), id))
    ensures DropsNothing(steps) && (w.up[0].id == id ==> steps == [Frames.ShellReceives])
  {
    var m := w.up[0];
    var e := LoaderSays(m.id, m.body, true);
    LinkedParts(w, t, id);
    UpFirst(id, w.up);
    var w' := Next(modifiers, w, ShellHears);
    assert w' == w.(s := Step(w.s, modifiers, e), up := w.up[1..]) && Says(w.s, t, id, e);
    hide Step, Next, Good, Agrees, Frames.Sound, Frames.After, Lookup, Loader.About;
    steps := EventIsSteps(modifiers, w.s, e, t, id);
    TakesWhole(e, id, steps);
    if m.id == id {
      TakesOne(t, modifiers);
    } else {
      TakesShellOnly(e, id, steps);
      ShellOnlyAfter(t, modifiers, steps);
    }
  }

  lemma TakesOne(t: Frames.System, modifiers: seq<nat>)
    requires Frames.Sound(t) && t.running && t.up != []
    ensures var t' := Frames.After(t, modifiers, [Frames.ShellReceives]); t'.up == t.up[1..] && t'.output == t.output
  {
    OneStep(t, modifiers, Frames.ShellReceives);
    hide Watch, Handle, Stopped, Frames.After;
  }

  // ---------- the loader's deeds ----------

  lemma SentAgrees(s: Session, t: Frames.System, id: nat, sent: seq<Letter>, t': Frames.System)
    requires Agrees(s, t, id) && Frames.Sound(t') && t'.down == About(id, sent)
    requires t' == t.(down := t'.down, up := t'.up, output := t'.output)
    ensures Agrees(s.(sent := sent), t', id)
  {
    hide Lookup, About, Watch, SizesAfter;
  }

  lemma LoaderHearsLinked(modifiers: seq<nat>, w: World, driver: Frames.Driver, t: Frames.System, id: nat)
      returns (steps: seq<Frames.Event>)
    requires Linked(w, t, id) && w.s.sent != []
    ensures Frames.Sound(t) && Linked(Next(modifiers, w, LoaderHears(driver)), Frames.After(t, modifiers, steps), id)
    ensures steps == if w.s.sent[0].id == id then [Frames.LoaderReceives(driver)] else []
  {
    var l := w.s.sent[0];
    var told := Frames.Hear(Get(w.outputs, l.id), l.body, driver);
    var w' := Next(modifiers, w, LoaderHears(driver));
    LinkedParts(w, t, id);
    AboutFirst(id, w.s.sent);
    UpMore(id, w.up, l.id, told.messages);
    Goes(t, modifiers);
    assert w'.s == w.s.(sent := w.s.sent[1..]) && w'.up == w.up + Tagged(l.id, told.messages);
    assert Get(w'.outputs, id) == if l.id == id then told.output else Get(w.outputs, id);
    hide Next, Agrees, Frames.Sound, Frames.After, Frames.Stop, About, Loader.About, Tagged, Frames.Hear;
    if l.id == id {
      steps := [Frames.LoaderReceives(driver)];
      OneStep(t, modifiers, steps[0]);
      var t' := Frames.After(t, modifiers, steps);
      HearsStep(t, modifiers, driver);
      SentAgrees(w.s, t, id, w.s.sent[1..], t');
    } else {
      steps := [];
      assert Loader.About(id, w.up) + [] == Loader.About(id, w.up);
      assert [] + About(id, w.s.sent[1..]) == About(id, w.s.sent[1..]);
      SentAgrees(w.s, t, id, w.s.sent[1..], t);
    }
  }

  lemma HearsStep(t: Frames.System, modifiers: seq<nat>, driver: Frames.Driver)
    requires Frames.Sound(t) && t.down != []
    ensures var told := Frames.Hear(t.output, t.down[0], driver);
            Frames.Step(t, modifiers, Frames.LoaderReceives(driver))
            == t.(down := t.down[1..], output := told.output, up := t.up + told.messages)
  {
    hide Frames.Hear;
  }

  lemma DrawsNext(modifiers: seq<nat>, w: World, other: nat, id: nat)
    requires other in w.outputs
    ensures var told, w' := Frames.OutputDraw(w.outputs[other]), Next(modifiers, w, LoaderDraws(other));
            && w'.s == w.s && w'.up == w.up + Tagged(other, told.messages)
            && Get(w'.outputs, id) == if other == id then told.output else Get(w.outputs, id)
  {
    hide Tagged, Frames.OutputDraw, Step;
  }

  lemma LoaderDrawsLinked(modifiers: seq<nat>, w: World, other: nat, t: Frames.System, id: nat)
      returns (steps: seq<Frames.Event>)
    requires Linked(w, t, id) && other in w.outputs
    ensures Frames.Sound(t) && Linked(Next(modifiers, w, LoaderDraws(other)), Frames.After(t, modifiers, steps), id)
    ensures steps == if other == id then [Frames.LoaderDraws] else []
  {
    hide Next, Agrees, Frames.Sound, Frames.After, Frames.Stop, About, Loader.About, Tagged, Frames.OutputDraw;
    var told := Frames.OutputDraw(w.outputs[other]);
    LinkedParts(w, t, id);
    UpMore(id, w.up, other, told.messages);
    Goes(t, modifiers);
    DrawsNext(modifiers, w, other, id);
    if other == id {
      steps := [Frames.LoaderDraws];
      OneStep(t, modifiers, steps[0]);
      DrawsStep(t, modifiers);
      SentAgrees(w.s, t, id, w.s.sent, Frames.After(t, modifiers, steps));
      assert w.s.(sent := w.s.sent) == w.s;
    } else {
      steps := [];
      assert Loader.About(id, w.up) + [] == Loader.About(id, w.up);
    }
  }

  lemma DrawsStep(t: Frames.System, modifiers: seq<nat>)
    requires Frames.Sound(t) && t.output.Some?
    ensures var told := Frames.OutputDraw(t.output.value);
            Frames.Step(t, modifiers, Frames.LoaderDraws) == t.(output := told.output, up := t.up + told.messages)
  {
    hide Frames.OutputDraw;
  }

  // ---------- joint runs ----------

  lemma NextGood(modifiers: seq<nat>, w: World, d: Deed)
    requires Good(w.s)
    ensures Good(Next(modifiers, w, d).s)
  {
    match d
    case ShellDoes(e) => StepGood(w.s, modifiers, e); hide Step, Good;
    case ShellHears =>
      if w.up != [] {
        StepGood(w.s, modifiers, LoaderSays(w.up[0].id, w.up[0].body, true));
      }
      hide Step, Good;
    case LoaderHears(driver) =>
      if w.s.sent != [] {
        assert SameLock(w.s, w.s.(sent := w.s.sent[1..]));
        SameLockKeeps(w.s, w.s.(sent := w.s.sent[1..]));
      }
      hide Good, SameLock;
    case LoaderDraws(id) => hide Good;
  }

  lemma NextExchanged(whole: bool, modifiers: seq<nat>, w: World, d: Deed, id: nat)
    requires Good(w.s) && Known(w) && (whole ==> !Loses(d, id))
    requires Lookup(w.s.surfaces, id).Some? ==> Exchanged(whole, modifiers, w, id)
    requires Lookup(Next(modifiers, w, d).s.surfaces, id).Some?
    ensures Exchanged(whole, modifiers, Next(modifiers, w, d), id)
  {
    if Next(modifiers, w, d) == w {
      hide *;
    } else if Lookup(w.s.surfaces, id).Some? {
      LookupKnown(w.s, id);
      var running, events :|
        Linked(w, Frames.Run(running, modifiers, events), id)
          && (whole ==> !Frames.Run(running, modifiers, events).lossy);
      hide Linked, Good, Known, Frames.Run, Exchanged, Lookup, Next, Loses;
      ThereExchanged(whole, modifiers, w, d, Frames.Run(running, modifiers, events), id);
    } else {
      NotThereExchanged(modifiers, w, d, id);
      WholeToo(whole, modifiers, Next(modifiers, w, d), id);
      hide *;
    }
  }

  lemma WholeToo(whole: bool, modifiers: seq<nat>, w: World, id: nat)
    requires Exchanged(true, modifiers, w, id)
    ensures Exchanged(whole, modifiers, w, id)
  {
    hide Linked, Frames.Run;
  }

  lemma LookupKnown(s: Session, id: nat)
    requires Good(s) && Lookup(s.surfaces, id).Some?
    ensures id < s.nextId
  {
    hide Flags, Standings;
  }

  lemma ThereExchanged(whole: bool, modifiers: seq<nat>, w: World, d: Deed, t: Frames.System, id: nat)
    requires Good(w.s) && id < w.s.nextId && Linked(w, t, id)
             && exists running, events :: t == Frames.Run(running, modifiers, events)
    requires whole ==> !t.lossy && !Loses(d, id)
    requires Next(modifiers, w, d) != w && Lookup(Next(modifiers, w, d).s.surfaces, id).Some?
    ensures Exchanged(whole, modifiers, Next(modifiers, w, d), id)
  {
    assert Possible(w, d);
    hide *;
    var steps := DeedSteps(modifiers, w, d, t, id);
    GetsOn(whole, modifiers, t, id, Next(modifiers, w, d), steps);
  }

  /** A deed is a few steps of the exchange of a surface that was there; none of them loses anything unless it does. */
  lemma DeedSteps(modifiers: seq<nat>, w: World, d: Deed, t: Frames.System, id: nat) returns (steps: seq<Frames.Event>)
    requires Good(w.s) && id < w.s.nextId && Linked(w, t, id) && Possible(w, d)
    requires Lookup(Next(modifiers, w, d).s.surfaces, id).Some?
    ensures Frames.Sound(t) && Linked(Next(modifiers, w, d), Frames.After(t, modifiers, steps), id)
    ensures !Loses(d, id) ==> DropsNothing(steps)
    ensures d.ShellDoes? ==> Takes(d.e, id, steps)
    ensures d.ShellHears? && w.up[0].id == id ==> steps == [Frames.ShellReceives]
    ensures d.LoaderHears? && w.s.sent[0].id == id ==> steps == [Frames.LoaderReceives(d.driver)]
    ensures d == LoaderDraws(id) ==> steps == [Frames.LoaderDraws]
  {
    hide Next, Good, Linked, Lookup, Frames.Sound, Takes, Loses;
    match d {
      case ShellDoes(e) =>
        steps := ShellDoesLinked(modifiers, w, e, t, id);
        if !Loses(d, id) {
          TakesWhole(e, id, steps);
        }
      case ShellHears => steps := ShellHearsLinked(modifiers, w, t, id);
      case LoaderHears(driver) => steps := LoaderHearsLinked(modifiers, w, driver, t, id);
      case LoaderDraws(other) => steps := LoaderDrawsLinked(modifiers, w, other, t, id);
    }
  }

  predicate Possible(w: World, d: Deed) {
    match d
    case ShellDoes(e) => !e.LoaderSays?
    case ShellHears => w.s.running && w.up != []
    case LoaderHears(_) => w.s.sent != []
    case LoaderDraws(id) => id in w.outputs
  }

  lemma NotThereExchanged(modifiers: seq<nat>, w: World, d: Deed, id: nat)
    requires Good(w.s) && Known(w) && Lookup(w.s.surfaces, id) == None
    requires Next(modifiers, w, d) != w && Lookup(Next(modifiers, w, d).s.surfaces, id).Some?
    ensures Exchanged(true, modifiers, Next(modifiers, w, d), id)
  {
    assert Possible(w, d);
    if d.ShellDoes? {
      hide *;
      NewExchange(modifiers, w, d.e, id);
    } else if d.ShellHears? {
      var e := LoaderSays(w.up[0].id, w.up[0].body, true);
      assert Next(modifiers, w, d).s == Step(w.s, modifiers, e) && Apart(w.s.surfaces, w.s.nextId);
      hide *;
      NoneNew(modifiers, w.s, e, id);
    } else {
      LoaderLeavesSurfaces(modifiers, w, d);
      hide *;
    }
  }

  lemma LoaderLeavesSurfaces(modifiers: seq<nat>, w: World, d: Deed)
    requires d.LoaderHears? || d.LoaderDraws?
    ensures Next(modifiers, w, d).s.surfaces == w.s.surfaces
  {
    hide Frames.Hear, Frames.OutputDraw, Tagged;
  }

  ghost predicate AllLinked(modifiers: seq<nat>, w: World, deeds: seq<Deed>) {
    && Good(w.s) && Known(w)
    && forall id :: Lookup(w.s.surfaces, id).Some? ==> Exchanged(Whole(deeds, id), modifiers, w, id)
  }

  lemma NextLinked(modifiers: seq<nat>, w: World, deeds: seq<Deed>)
    requires deeds != [] && AllLinked(modifiers, w, deeds[..|deeds| - 1])
    ensures AllLinked(modifiers, Next(modifiers, w, deeds[|deeds| - 1]), deeds)
  {
    var before, d := deeds[..|deeds| - 1], deeds[|deeds| - 1];
    assert Apart(w.s.surfaces, w.s.nextId);
    hide Good, Known, Apart, Lookup, Exchanged, Next, Whole;
    NextGood(modifiers, w, d);
    NextKnown(modifiers, w, d);
    forall id | Lookup(Next(modifiers, w, d).s.surfaces, id).Some?
      ensures Exchanged(Whole(deeds, id), modifiers, Next(modifiers, w, d), id)
    {
      WholeBefore(deeds, id);
      if Lookup(w.s.surfaces, id).Some? {
        LessWhole(Whole(before, id), Whole(deeds, id), modifiers, w, id);
      }
      NextExchanged(Whole(deeds, id), modifiers, w, d, id);
    }
  }

  lemma WholeBefore(deeds: seq<Deed>, id: nat)
    requires deeds != []
    ensures Whole(deeds, id) ==> Whole(deeds[..|deeds| - 1], id) && !Loses(deeds[|deeds| - 1], id)
  {
    hide Loses;
  }

  lemma LessWhole(whole: bool, whole': bool, modifiers: seq<nat>, w: World, id: nat)
    requires Exchanged(whole, modifiers, w, id) && (whole' ==> whole)
    ensures Exchanged(whole', modifiers, w, id)
  {
    hide Linked, Frames.Run;
  }

  /** In every joint run, the world is to each surface what a run of its frame exchange makes of it. */
  lemma {:induction false} JointRunLinked(modifiers: seq<nat>, deeds: seq<Deed>)
    ensures AllLinked(modifiers, JointRun(modifiers, deeds), deeds)
  {
    if deeds == [] {
      BeginningLinked(modifiers);
      hide AllLinked;
    } else {
      JointRunLinked(modifiers, deeds[..|deeds| - 1]);
      hide AllLinked, Next;
      NextLinked(modifiers, JointRun(modifiers, deeds[..|deeds| - 1]), deeds);
    }
  }

  lemma BeginningLinked(modifiers: seq<nat>)
    ensures AllLinked(modifiers, BEGINNING, [])
  {
    RunGood(modifiers, []);
    assert LockSession.Run(modifiers, []) == FRESH;
    hide Good;
  }

  /** A surface, as its frame exchange sees it in the joint world. */
  function View(w: World, id: nat): Frames.System
    requires Lookup(w.s.surfaces, id).Some?
  {
    var x := Lookup(w.s.surfaces, id).value;
    Frames.System(Some(x.surface), w.s.running, About(id, w.s.sent), Loader.About(id, w.up), Get(w.outputs, id),
                  Watch({}, x.requests), SizesAfter([], x.requests), false)
  }

  lemma LinkedView(w: World, t: Frames.System, id: nat)
    requires Linked(w, t, id)
    ensures Lookup(w.s.surfaces, id).Some? && t == View(w, id).(lossy := t.lossy) && Frames.Sound(View(w, id))
  {
    hide Lookup, About, Loader.About, Watch, SizesAfter;
  }

  lemma LossyApart(t: Frames.System, lossy: bool)
    requires Frames.Sound(t)
    ensures Invariant.Account(t) <==> Invariant.Account(t.(lossy := lossy))
    ensures Frames.Tearing(t) <==> Frames.Tearing(t.(lossy := lossy))
  {
    var t' := t.(lossy := lossy);
    assert forall d :: Frames.DrawsInto(t, d) <==> Frames.DrawsInto(t', d);
    hide Invariant.Readies, Invariant.Releases, Invariant.Frames, Frames.DrawsInto;
  }

  /**
   In every joint run, for every surface whose usable sizes did not come back:
   the loader is not about to draw into a buffer the compositor has been shown,
   each buffer is in one place at most, and one frame at most is on its way.
   */
  lemma JointlySafe(modifiers: seq<nat>, deeds: seq<Deed>, id: nat)
    requires var w := JointRun(modifiers, deeds);
             Lookup(w.s.surfaces, id).Some? && Invariant.NoReturn(View(w, id).sizes)
    ensures var t := View(JointRun(modifiers, deeds), id);
            Frames.Sound(t) && !Frames.Tearing(t) && Invariant.Account(t)
  {
    var w := JointRun(modifiers, deeds);
    JointRunLinked(modifiers, deeds);
    assert Exchanged(Whole(deeds, id), modifiers, w, id);
    hide AllLinked, JointRun;
    var running, events :| Linked(w, Frames.Run(running, modifiers, events), id);
    var t := Frames.Run(running, modifiers, events);
    LinkedView(w, t, id);
    hide Linked, Frames.Run, View, Lookup, Frames.Sound, Exchanged;
    Safety.NeverTears(running, modifiers, events);
    Safety.RunInv(running, modifiers, events);
    assert Invariant.Account(t) by {
      InvAccount(t);
    }
    hide Invariant.Inv;
    LossyApart(View(w, id), t.lossy);
  }

  lemma InvAccount(t: Frames.System)
    requires Invariant.Inv(t)
    ensures Frames.Sound(t) && Invariant.Account(t)
  {
    hide Invariant.Structure;
  }

  // ---------- a turn of the loader ----------

  function DoAll(modifiers: seq<nat>, w: World, deeds: seq<Deed>): World {
    if deeds == [] then w else Next(modifiers, DoAll(modifiers, w, deeds[..|deeds| - 1]), deeds[|deeds| - 1])
  }

  lemma {:induction false} JointRunThen(modifiers: seq<nat>, deeds: seq<Deed>, more: seq<Deed>)
    ensures JointRun(modifiers, deeds + more) == DoAll(modifiers, JointRun(modifiers, deeds), more)
    decreases |more|
  {
    if more == [] {
      assert deeds + more == deeds;
    } else {
      JointRunThen(modifiers, deeds, more[..|more| - 1]);
      assert (deeds + more)[..|deeds + more| - 1] == deeds + more[..|more| - 1];
      hide Next;
    }
  }

  lemma {:induction false} DoAllThen(modifiers: seq<nat>, w: World, deeds: seq<Deed>, more: seq<Deed>)
    ensures DoAll(modifiers, w, deeds + more) == DoAll(modifiers, DoAll(modifiers, w, deeds), more)
    decreases |more|
  {
    if more == [] {
      assert deeds + more == deeds;
    } else {
      DoAllThen(modifiers, w, deeds, more[..|more| - 1]);
      assert (deeds + more)[..|deeds + more| - 1] == deeds + more[..|more| - 1];
      hide Next;
    }
  }

  function Letters(ms: seq<Loader.Incoming>): seq<Letter> {
    seq(|ms|, i requires 0 <= i < |ms| => Letter(ms[i].id, ms[i].body))
  }

  function Hears(ms: seq<Loader.Incoming>): seq<Deed> {
    seq(|ms|, i requires 0 <= i < |ms| => LoaderHears(ms[i].driver))
  }

  function Draws(ids: seq<nat>): seq<Deed> {
    seq(|ids|, i requires 0 <= i < |ids| => LoaderDraws(ids[i]))
  }

  /** How a loader that has done something stands for one output. */
  predicate Became(w: World, w': World, id: nat, told: Frames.Told) {
    Get(w'.outputs, id) == told.output && Loader.About(id, w'.up) == Loader.About(id, w.up) + told.messages
  }

  lemma {:induction false} HearsAll(modifiers: seq<nat>, w: World, ms: seq<Loader.Incoming>, rest: seq<Letter>)
    requires w.s.sent == Letters(ms) + rest
    ensures var w' := DoAll(modifiers, w, Hears(ms));
            w'.s == w.s.(sent := rest) && forall id :: Became(w, w', id, Loader.HearAll(Get(w.outputs, id), id, ms))
    decreases |ms|
  {
    if ms == [] {
      assert w.s.sent == rest;
    } else {
      var before, m := ms[..|ms| - 1], ms[|ms| - 1];
      var first := Letter(m.id, m.body);
      assert Letters(ms) + rest == Letters(before) + ([first] + rest);
      HearsAll(modifiers, w, before, [first] + rest);
      assert Hears(ms)[..|ms| - 1] == Hears(before) && Hears(ms)[|ms| - 1] == LoaderHears(m.driver);
      var w1 := DoAll(modifiers, w, Hears(before));
      assert ([first] + rest)[1..] == rest;
      var w2 := Next(modifiers, w1, LoaderHears(m.driver));
      assert w2.s == w.s.(sent := rest) by {
        hide Frames.Hear, Tagged, Became;
      }
      forall id
        ensures Became(w, w2, id, Loader.HearAll(Get(w.outputs, id), id, ms))
      {
        assert Became(w, w1, id, Loader.HearAll(Get(w.outputs, id), id, before));
        hide DoAll, Letters, Hears;
        HearsOneMore(modifiers, w, w1, id, ms);
      }
      hide Next, Became, Letters;
    }
  }

  lemma {:induction false} HearsOneMore(modifiers: seq<nat>, w: World, w1: World, id: nat, ms: seq<Loader.Incoming>)
    requires ms != [] && w1.s.sent != [] && w1.s.sent[0] == Letter(ms[|ms| - 1].id, ms[|ms| - 1].body)
    requires Became(w, w1, id, Loader.HearAll(Get(w.outputs, id), id, ms[..|ms| - 1]))
    ensures Became(w, Next(modifiers, w1, LoaderHears(ms[|ms| - 1].driver)), id,
                   Loader.HearAll(Get(w.outputs, id), id, ms))
  {
    hide Frames.Hear, Loader.About, Tagged;
    var m := ms[|ms| - 1];
    UpMore(id, w1.up, m.id, Frames.Hear(Get(w1.outputs, m.id), m.body, m.driver).messages);
  }

  /** Each output of some draws once, the others stay as they are. */
  lemma {:induction false} DrawsAll(modifiers: seq<nat>, w: World, ids: seq<nat>)
    requires forall i, j :: 0 <= i < j < |ids| ==> ids[i] != ids[j]
    ensures var w' := DoAll(modifiers, w, Draws(ids));
            w'.s == w.s && forall id :: Became(w, w', id,
                                               if id in ids then Drawn(Get(w.outputs, id))
                                                   else Frames.Told(Get(w.outputs, id), []))
    decreases |ids|
  {
    if ids != [] {
      var before, last := ids[..|ids| - 1], ids[|ids| - 1];
      DrawsAll(modifiers, w, before);
      assert Draws(ids)[..|ids| - 1] == Draws(before) && Draws(ids)[|ids| - 1] == LoaderDraws(last);
      var w1 := DoAll(modifiers, w, Draws(before));
      var w2 := Next(modifiers, w1, LoaderDraws(last));
      assert last !in before;
      forall id
        ensures Became(w, w2, id, if id in ids then Drawn(Get(w.outputs, id)) else Frames.Told(Get(w.outputs, id), []))
      {
        assert Became(w, w1, id,
                      if id in before then Drawn(Get(w.outputs, id)) else Frames.Told(Get(w.outputs, id), []));
        assert id in ids <==> id in before || id == last;
        assert Became(w, w1, last, Frames.Told(Get(w.outputs, last), []));
        hide DoAll, Draws;
        DrawsOneMore(modifiers, w, w1, last, id);
      }
      hide Became, Frames.OutputDraw, Tagged;
    }
  }

  function Drawn(o: Option<Frames.Output>): Frames.Told {
    if o.None? then Frames.Told(None, []) else Frames.OutputDraw(o.value)
  }

  lemma {:induction false} DrawsOneMore(modifiers: seq<nat>, w: World, w1: World, last: nat, id: nat)
    requires Became(w, w1, last, Frames.Told(Get(w.outputs, last), []))
    ensures var w2 := Next(modifiers, w1, LoaderDraws(last));
            if id == last then Became(w, w2, id, Drawn(Get(w.outputs, id)))
            else Get(w2.outputs, id) == Get(w1.outputs, id) && Loader.About(id, w2.up) == Loader.About(id, w1.up)
  {
    hide Frames.OutputDraw, Loader.About, Tagged;
    if last in w1.outputs {
      UpMore(id, w1.up, last, Frames.OutputDraw(w1.outputs[last]).messages);
      assert Loader.About(id, w1.up) + [] == Loader.About(id, w1.up);
    }
  }

  /**
   A turn of the loader's main loop is a stretch of a joint run: it hears the
   messages that came in, one after the other, and then every output it has
   draws once, in any order.
   */
  lemma {:induction false} TurnIsDeeds(modifiers: seq<nat>, w: World, ms: seq<Loader.Incoming>, rest: seq<Letter>,
                                       ids: seq<nat>)
    requires w.s.sent == Letters(ms) + rest && forall i, j :: 0 <= i < j < |ids| ==> ids[i] != ids[j]
    requires forall id :: Loader.HearAll(Get(w.outputs, id), id, ms).output.Some? ==> id in ids
    ensures var w' := DoAll(modifiers, w, Hears(ms) + Draws(ids));
            && w'.s == w.s.(sent := rest)
            && forall id :: Became(w, w', id, Loader.Turn(Get(w.outputs, id), id, ms))
  {
    hide DoAll, Loader.HearAll, Frames.OutputDraw, Loader.About, Hears, Draws, Letters;
    HearsAll(modifiers, w, ms, rest);
    var w1 := DoAll(modifiers, w, Hears(ms));
    DrawsAll(modifiers, w1, ids);
    DoAllThen(modifiers, w, Hears(ms), Draws(ids));
    var w2 := DoAll(modifiers, w1, Draws(ids));
    forall id
      ensures Became(w, w2, id, Loader.Turn(Get(w.outputs, id), id, ms))
    {
      assert Became(w, w1, id, Loader.HearAll(Get(w.outputs, id), id, ms));
      assert Became(w1, w2, id, if id in ids then Drawn(Get(w1.outputs, id)) else Frames.Told(Get(w1.outputs, id), []));
    }
  }
}
