/** What every event keeps of the session lock. */
module LockInvariant {
  import opened Bytes
  import opened LockSurface
  import opened LockSession

  // ---------- what ext-session-lock-v1 demands of the lock object ----------

  /** The lock object that is alive, whether it is locked, and which outputs have a lock surface. */
  datatype Standing = Standing(live: Option<nat>, locked: bool, outputs: set<nat>, error: bool)

  const NO_LOCK: Standing := Standing(None, false, {}, false)

  /**
   A session is unlocked only once locked, a lock object destroyed only if it
   never was, and an output gets one lock surface at most, while the lock is alive.
   */
  function Referee(v: Standing, w: Wire): Standing {
    match w
    case AskLock(lock) => Standing(Some(lock), false, v.outputs, v.error || v.live.Some?)
    case UnlockAndDestroy(lock) => Standing(None, false, v.outputs, v.error || v.live != Some(lock) || !v.locked)
    case DestroyLock(lock) => Standing(None, false, v.outputs, v.error || v.live != Some(lock) || v.locked)
    case GetLockSurface(lock, o) => v.(outputs := v.outputs + {o},
                                       error := v.error || v.live != Some(lock) || o in v.outputs)
    case DestroyLockSurface(o) => v.(outputs := v.outputs - {o}, error := v.error || o !in v.outputs)
    case LockedEvent(lock) => v.(locked := true, error := v.error || v.live != Some(lock))
    case FinishedEvent(lock) => v.(error := v.error || v.live != Some(lock))
  }

  function RefereeAll(trace: seq<Wire>): Standing {
    if trace == [] then NO_LOCK else Referee(RefereeAll(trace[..|trace| - 1]), trace[|trace| - 1])
  }

  lemma RefereeMore(trace: seq<Wire>, w: Wire)
    ensures RefereeAll(trace + [w]) == Referee(RefereeAll(trace), w)
  {
    assert (trace + [w])[..|trace|] == trace;
  }

  // ---------- the invariant ----------

  function OutputsOf(xs: seq<LockSurf>): set<nat> {
    set k | 0 <= k < |xs| :: xs[k].output
  }

  predicate Apart(xs: seq<LockSurf>, nextId: nat) {
    && (forall j, k :: 0 <= j < k < |xs| ==> xs[j].id != xs[k].id && xs[j].output != xs[k].output)
    && (forall k :: 0 <= k < |xs| ==> xs[k].id < nextId)
  }

  predicate LastHint(hints: seq<bool>, locked: bool) {
    if hints == [] then !locked else hints[|hints| - 1] == locked
  }

  predicate Standings(s: Session) {
    RefereeAll(s.trace) == Standing(s.lock, s.state == Locked, OutputsOf(s.surfaces), false)
  }

  predicate Flags(s: Session) {
    && (s.lock.Some? <==> s.state != Unlocked)
    && (s.unlockWhenLocked ==> s.state == Pending)
    && (s.sleepPending ==> s.state == Pending)
    && (s.lock.None? ==> s.surfaces == [] && !s.running)
    && LastHint(s.hints, s.state == Locked)
  }

  predicate Good(s: Session) {
    Flags(s) && Apart(s.surfaces, s.nextId) && Standings(s)
  }

  /** Only the buffers of the surfaces may differ, and the screensaver may have ended. */
  predicate SameLock(s: Session, s': Session) {
    && s' == s.(surfaces := s'.surfaces, running := s'.running, sent := s'.sent)
    && |s'.surfaces| == |s.surfaces| && (s'.running ==> s.running)
    && forall k :: 0 <= k < |s.surfaces| ==>
        s'.surfaces[k].id == s.surfaces[k].id && s'.surfaces[k].output == s.surfaces[k].output
  }

  lemma SameLockKeeps(s: Session, s': Session)
    requires SameLock(s, s')
    ensures Good(s) ==> Good(s')
    ensures OutputsOf(s'.surfaces) == OutputsOf(s.surfaces)
  {
    assert OutputsOf(s'.surfaces) == OutputsOf(s.surfaces);
    hide RefereeAll, OutputsOf;
  }

  lemma ScreensaverFailedSame(s: Session)
    ensures SameLock(s, ScreensaverFailed(s))
  {
    hide Stopped;
  }

  lemma ScrSendSame(s: Session, id: nat, m: Down, sent: Sent)
    ensures SameLock(s, ScrSend(s, id, m, sent))
  {
    ScreensaverFailedSame(s);
    hide ScreensaverFailed;
  }

  lemma ShellSame(s: Session, k: nat, e: Effect, sent: Sent)
    requires k < |s.surfaces| && Shaped(e.surface)
    ensures SameLock(s, ActOn(s, k, e)) && SameLock(s, Shell(s, k, e, sent))
  {
    var s' := ActOn(s, k, e);
    assert SameLock(s, s');
    if e.message.Some? {
      ScrSendSame(s', s.surfaces[k].id, e.message.value, sent);
    }
    hide ScrSend, ActOn;
  }

  // ---------- creating and destroying surfaces ----------

  lemma CreateGood(s: Session, o: OutputInfo)
    requires Good(s)
    ensures Good(CreateSurface(s, o))
  {
    var s' := CreateSurface(s, o);
    if s' != s {
      RefereeMore(s.trace, GetLockSurface(s.lock.value, o.id));
      assert OutputsOf(s'.surfaces) == OutputsOf(s.surfaces) + {o.id} by {
        assert s'.surfaces[|s.surfaces|].output == o.id;
        assert forall k :: 0 <= k < |s.surfaces| ==> s'.surfaces[k] == s.surfaces[k];
      }
      hide RefereeAll;
    }
  }

  lemma {:induction false} CreateAllGood(s: Session, outputs: seq<OutputInfo>)
    requires Good(s)
    ensures Good(CreateAll(s, outputs))
  {
    if outputs != [] {
      CreateAllGood(s, outputs[..|outputs| - 1]);
      hide Good, CreateSurface;
      CreateGood(CreateAll(s, outputs[..|outputs| - 1]), outputs[|outputs| - 1]);
    }
  }

  function Without(xs: seq<LockSurf>, k: nat): seq<LockSurf>
    requires k < |xs|
  {
    xs[..k] + xs[k + 1..]
  }

  lemma WithoutOutputs(xs: seq<LockSurf>, k: nat, nextId: nat)
    requires k < |xs| && Apart(xs, nextId)
    ensures OutputsOf(Without(xs, k)) == OutputsOf(xs) - {xs[k].output}
    ensures Apart(Without(xs, k), nextId)
  {
    var r := Without(xs, k);
    assert forall j :: 0 <= j < |r| ==> r[j] == if j < k then xs[j] else xs[j + 1];
    forall o | o in OutputsOf(xs) && o != xs[k].output
      ensures o in OutputsOf(r)
    {
      var j :| 0 <= j < |xs| && xs[j].output == o;
      assert r[if j < k then j else j - 1].output == o;
    }
  }

  /** All that a lock's end leaves to do: the surfaces may be there without their lock. */
  predicate Leaving(s: Session) {
    Apart(s.surfaces, s.nextId)
      && RefereeAll(s.trace) == Standing(s.lock, s.state == Locked, OutputsOf(s.surfaces), false)
  }

  lemma DestroySurfacesEmpty(s: Session)
    ensures DestroySurfaces(s).surfaces == []
    decreases |s.surfaces|
  {
    if s.surfaces != [] {
      ScrSendSame(s, s.surfaces[0].id, Remove, Dropped);
      DestroySurfacesEmpty(DestroySurface(s, 0, Dropped));
    }
  }

  lemma DestroySurfaceKeeps(s: Session, k: nat, sent: Sent)
    requires k < |s.surfaces| && Leaving(s)
    ensures var s' := DestroySurface(s, k, sent);
            Leaving(s') && (Flags(s) ==> Flags(s'))
            && s' == s.(surfaces := s'.surfaces, buried := s'.buried, running := s'.running, sent := s'.sent,
                        trace := s'.trace)
            && (s'.running ==> s.running) && |s'.surfaces| == |s.surfaces| - 1
  {
    var s1 := ScrSend(s, s.surfaces[k].id, Remove, sent);
    ScrSendSame(s, s.surfaces[k].id, Remove, sent);
    SameLockKeeps(s, s1);
    WithoutOutputs(s1.surfaces, k, s.nextId);
    RefereeMore(s.trace, DestroyLockSurface(s.surfaces[k].output));
    assert s.surfaces[k].output in OutputsOf(s.surfaces);
    hide ScrSend, RefereeAll, OutputsOf;
  }

  lemma {:induction false} DestroySurfacesKeeps(s: Session)
    requires Leaving(s)
    ensures var s' := DestroySurfaces(s);
            Leaving(s') && s'.surfaces == []
              && s' == s.(surfaces := [], buried := s'.buried, running := s'.running, sent := s'.sent,
                          trace := s'.trace)
            && (s'.running ==> s.running)
    decreases |s.surfaces|
  {
    if s.surfaces != [] {
      DestroySurfaceKeeps(s, 0, Dropped);
      DestroySurfacesKeeps(DestroySurface(s, 0, Dropped));
    }
    hide DestroySurface, Leaving;
  }

  /** The session is as if it had never been locked. */
  predicate LetGo(s: Session) {
    s.state == Unlocked && s.lock.None? && s.surfaces == [] && !s.running && RefereeAll(s.trace) == NO_LOCK
  }

  /** The lock object gone, its surfaces go too. */
  lemma LeaveGood(s: Session)
    requires Leaving(s) && s.lock.None? && s.state == Unlocked
    ensures var s' := DestroySurfaces(StopScreensaver(s));
            s'.surfaces == [] && !s'.running && Standings(s')
            && s' == s.(surfaces := [], buried := s'.buried, running := false, sent := s'.sent, trace := s'.trace)
  {
    var s1 := StopScreensaver(s);
    assert SameLock(s, s1) by {
      hide DestroyBuffers;
    }
    SameLockKeeps(s, s1);
    hide StopScreensaver, OutputsOf, RefereeAll;
    DestroySurfacesKeeps(s1);
  }

  // ---------- locking and unlocking ----------

  lemma StandingsSame(s: Session, s': Session)
    requires s'.trace == s.trace && s'.lock == s.lock && (s'.state == Locked <==> s.state == Locked)
             && s'.surfaces == s.surfaces
    ensures Standings(s) == Standings(s')
  {
  }

  lemma AskedGood(s: Session)
    requires Good(s.(sleepPending := false)) && s.state == Unlocked
    ensures Good(s.(unlockWhenLocked := false, lock := Some(s.nextLock), nextLock := s.nextLock + 1,
                    trace := s.trace + [AskLock(s.nextLock)], state := Pending))
  {
    RefereeMore(s.trace, AskLock(s.nextLock));
    hide RefereeAll;
  }

  lemma StartGood(s: Session, loader: bool, sent: Sent)
    requires Good(s) && s.lock.Some?
    ensures Good(StartScreensaver(s, loader, sent))
  {
    var s1 := s.(running := true);
    assert Standings(s1) by {
      StandingsSame(s, s1);
    }
    hide Standings;
    assert Good(s1);
    ScreensaverFailedSame(s1);
    SameLockKeeps(s1, ScreensaverFailed(s1));
    hide Good, ScreensaverFailed;
  }

  lemma DoLockGood(s: Session, obstacle: bool, outputs: seq<OutputInfo>, loader: bool, sent: Sent)
    requires Good(s)
    ensures Good(DoLock(s, obstacle, outputs, loader, sent))
  {
    hide Good;
    if s.state == Unlocked {
      NothingPending(s);
      LockUnlocked(s, obstacle, outputs, loader, sent);
    }
    hide DoLock;
    if s.state != Unlocked {
      AlreadyLocking(s, obstacle, outputs, loader, sent);
    }
  }

  lemma NothingPending(s: Session)
    requires Good(s) && s.state != Pending
    ensures s.(sleepPending := false) == s
  {
    hide Standings, Apart;
  }

  lemma AlreadyLocking(s: Session, obstacle: bool, outputs: seq<OutputInfo>, loader: bool, sent: Sent)
    requires s.state != Unlocked
    ensures DoLock(s, obstacle, outputs, loader, sent) == s
  {
  }

  /** Locking, with a sleep perhaps waiting for it. */
  lemma LockUnlocked(s: Session, obstacle: bool, outputs: seq<OutputInfo>, loader: bool, sent: Sent)
    requires s.state == Unlocked && Good(s.(sleepPending := false))
    ensures Good(DoLock(s, obstacle, outputs, loader, sent))
  {
    hide Good, StartScreensaver, CreateAll;
    GoodInhibitor(s.(sleepPending := false), false);
    if !obstacle {
      AskedGood(s);
      var asked := s.(unlockWhenLocked := false, lock := Some(s.nextLock), nextLock := s.nextLock + 1,
                      trace := s.trace + [AskLock(s.nextLock)], state := Pending);
      StartGood(asked, loader, sent);
      CreateAllGood(StartScreensaver(asked, loader, sent), outputs);
    }
  }

  lemma SleepWaits(s: Session)
    requires Good(s) && s.state == Pending
    ensures Good(s.(sleepPending := true))
  {
    StandingsSame(s, s.(sleepPending := true));
    hide Standings, Apart;
  }

  lemma GoodInhibitor(s: Session, held: bool)
    requires Good(s)
    ensures Good(s.(inhibitor := held))
  {
    StandingsSame(s, s.(inhibitor := held));
    hide Standings;
  }

  lemma UnlockGood(s: Session)
    requires Good(s)
    ensures Good(Unlock(s))
    ensures s.state == Locked ==> LetGo(Unlock(s)) && Unlock(s).hints == s.hints + [false]
  {
    if s.state == Pending {
      StandingsSame(s, s.(unlockWhenLocked := true));
      hide Standings;
    } else if s.state == Locked {
      var l := s.(trace := s.trace + [UnlockAndDestroy(s.lock.value)], lock := None, state := Unlocked);
      RefereeMore(s.trace, UnlockAndDestroy(s.lock.value));
      assert Leaving(l) by {
        hide RefereeAll;
      }
      LeaveGood(l);
      var gone := DestroySurfaces(StopScreensaver(l));
      StandingsSame(gone, gone.(hints := gone.hints + [false]));
      hide DestroySurfaces, StopScreensaver, RefereeAll;
    }
  }

  /** The state in which LOCKED has been noted, and a sleep been let through. */
  function Noted(s: Session): Session
    requires s.lock.Some?
  {
    s.(trace := s.trace + [LockedEvent(s.lock.value)], state := Locked, hints := s.hints + [true],
       sleepPending := false,
       inhibitor := s.inhibitor && !s.sleepPending, unlockWhenLocked := false)
  }

  lemma NotedGood(s: Session)
    requires Good(s) && s.lock.Some?
    ensures Good(Noted(s)) && OnLocked(s) == if s.unlockWhenLocked then Unlock(Noted(s)) else Noted(s)
  {
    hide RefereeAll, Unlock, OutputsOf;
    RefereeMore(s.trace, LockedEvent(s.lock.value));
  }

  lemma OnLockedGood(s: Session)
    requires Good(s) && s.lock.Some?
    ensures Good(OnLocked(s))
  {
    NotedGood(s);
    hide *;
    UnlockGood(Noted(s));
  }

  /** The lock object as it is answered when it is finished. */
  function Answered(s: Session): Session
    requires s.lock.Some?
  {
    var heard := s.trace + [FinishedEvent(s.lock.value)];
    var answered := if s.state == Locked
        then s.(trace := heard + [UnlockAndDestroy(s.lock.value)], hints := s.hints + [false])
                    else s.(trace := heard + [DestroyLock(s.lock.value)]);
    answered.(lock := None, state := Unlocked, unlockWhenLocked := false)
  }

  lemma AnsweredLeaves(s: Session)
    requires Good(s) && s.lock.Some?
    ensures Leaving(Answered(s)) && LastHint(Answered(s).hints, false)
  {
    hide RefereeAll, OutputsOf;
    var lock := s.lock.value;
    var heard := s.trace + [FinishedEvent(lock)];
    RefereeMore(s.trace, FinishedEvent(lock));
    RefereeMore(heard, UnlockAndDestroy(lock));
    RefereeMore(heard, DestroyLock(lock));
  }

  lemma OnFinishedGood(s: Session)
    requires Good(s) && s.lock.Some?
    ensures Good(OnFinished(s)) && LetGo(OnFinished(s)) && OnFinished(s).hints == Answered(s).hints
  {
    AnsweredLeaves(s);
    hide RefereeAll, Good, Leaving;
    LeaveGood(Answered(s));
    OnFinishedIs(s);
    hide OnFinished, DestroySurfaces, StopScreensaver, Answered;
    LeftGood(DestroySurfaces(StopScreensaver(Answered(s))));
  }

  lemma OnFinishedIs(s: Session)
    requires s.lock.Some?
    ensures OnFinished(s) == SleepReady(DestroySurfaces(StopScreensaver(Answered(s))))
    ensures Answered(s).state == Unlocked && Answered(s).lock.None? && !Answered(s).unlockWhenLocked
  {
    hide DestroySurfaces, StopScreensaver;
  }

  lemma LeftGood(left: Session)
    requires left.surfaces == [] && !left.running && Standings(left) && left.state == Unlocked && left.lock.None?
    requires !left.unlockWhenLocked && LastHint(left.hints, false)
    ensures Good(SleepReady(left)) && LetGo(SleepReady(left))
  {
    StandingsSame(left, SleepReady(left));
    assert OutputsOf([]) == {};
    hide RefereeAll;
  }

  lemma PrepareForSleepGood(s: Session, obstacle: bool, outputs: seq<OutputInfo>, loader: bool, sent: Sent)
    requires Good(s)
    ensures Good(PrepareForSleep(s, obstacle, outputs, loader, sent))
  {
    hide Good, DoLock;
    var s' := s.(sleepPending := true);
    match s.state
    case Locked => NothingPending(s); GoodInhibitor(s, false);
    case Unlocked => NothingPending(s); assert s'.(sleepPending := false) == s;
    LockUnlocked(s', obstacle, outputs, loader, sent);
    case Pending => SleepWaits(s); AlreadyLocking(s', obstacle, outputs, loader, sent);
  }

  // ---------- all events ----------

  lemma SurfaceEventSame(s: Session, modifiers: seq<nat>, e: Event)
    requires e.SizeGiven? || e.LoaderSays? || e.LoaderFailed? || e.ImportDone? || e.ImportFailed? || e.FrameDue?
             || e.BufferFreed?
    ensures SameLock(s, Step(s, modifiers, e))
  {
    if e.SizeGiven? {
      SizeGivenSame(s, modifiers, e);
    } else if e.LoaderSays? {
      LoaderSaysSame(s, modifiers, e.id, e.message, e.whole);
      hide SameLock, Receive;
    } else if e.LoaderFailed? || e.ImportFailed? {
      FailureSame(s, modifiers, e);
    } else {
      BufferEventSame(s, modifiers, e);
    }
    hide *;
  }

  lemma FailureSame(s: Session, modifiers: seq<nat>, e: Event)
    requires e.LoaderFailed? || e.ImportFailed?
    ensures SameLock(s, Step(s, modifiers, e))
  {
    hide SameLock, ScreensaverFailed, IndexOf, Importing;
    ScreensaverFailedSame(s);
    SameLockSelf(s);
  }

  lemma BufferEventSame(s: Session, modifiers: seq<nat>, e: Event)
    requires e.ImportDone? || e.FrameDue? || e.BufferFreed?
    ensures SameLock(s, Step(s, modifiers, e))
  {
    hide SameLock, Shell, ActOn, IndexOf;
    SameLockSelf(s);
    var k := IndexOf(s.surfaces, e.id);
    if k < |s.surfaces| {
      var f := s.surfaces[k].surface;
      if e.ImportDone? {
        if Importing(f, e.slot) {
          ShellSame(s, k, ParamsCreated(f, e.slot), Delivered);
        }
      } else if e.FrameDue? {
        ShellSame(s, k, FrameDone(f), e.sent);
      } else if HasBuffer(s.surfaces[k], e.slot) {
        ShellSame(s, k, BufferRelease(f, e.slot), e.sent);
      }
    }
  }

  lemma SameLockSelf(s: Session)
    ensures SameLock(s, s)
  {
  }

  lemma SameLockTwice(s: Session, s1: Session, s2: Session)
    requires SameLock(s, s1) && SameLock(s1, s2)
    ensures SameLock(s, s2)
  {
  }

  lemma SizeGivenSame(s: Session, modifiers: seq<nat>, e: Event)
    requires e.SizeGiven?
    ensures SameLock(s, Step(s, modifiers, e))
  {
    SameLockSelf(s);
    var k := IndexOf(s.surfaces, e.id);
    if k < |s.surfaces| {
      var effect := SurfaceConfigure(s.surfaces[k].surface, e.size, e.hasMemory);
      var s1 := Shell(s, k, effect, e.sent);
      ShellSame(s, k, effect, e.sent);
      ScreensaverFailedSame(s1);
      SameLockTwice(s, s1, ScreensaverFailed(s1));
      hide SameLock, Shell, ScreensaverFailed, SurfaceConfigure;
    }
  }

  lemma LoaderSaysSame(s: Session, modifiers: seq<nat>, id: nat, m: Up, whole: bool)
    ensures SameLock(s, Receive(s, modifiers, id, m, whole))
  {
    SameLockSelf(s);
    ScreensaverFailedSame(s);
    var k := IndexOf(s.surfaces, id);
    if k < |s.surfaces| {
      var e := Handle(s.surfaces[k].surface, modifiers, m);
      if e.Some? {
        assert Shaped(e.value.surface);
        ShellSame(s, k, e.value, Delivered);
      }
    }
    hide SameLock, Handle, ActOn, ScreensaverFailed;
  }

  lemma StepGood(s: Session, modifiers: seq<nat>, e: Event)
    requires Good(s)
    ensures Good(Step(s, modifiers, e))
  {
    hide Good, DoLock;
    match e
    case LockAsked(obstacle, outputs, loader, sent) => DoLockGood(s, obstacle, outputs, loader, sent);
    case UnlockAsked => UnlockGood(s); hide Good, Unlock;
    case GoingToSleep(obstacle, outputs, loader, sent) => PrepareForSleepGood(s, obstacle, outputs, loader, sent);
    hide Good, PrepareForSleep;
    case WokeUp(inhibited) => GoodInhibitor(s, s.inhibitor || inhibited); hide Good;
    case LockLocked => if s.lock.Some? { OnLockedGood(s); } hide Good, OnLocked;
    case LockFinished => if s.lock.Some? { OnFinishedGood(s); } hide Good, OnFinished;
    case OutputAdded(o) => CreateGood(s, o); hide Good, CreateSurface;
    case OutputRemoved(gone, sent) => RemovedGood(s, gone, sent); hide Good, DestroySurface;
    case _ =>
      SurfaceEventSame(s, modifiers, e);
      SameLockKeeps(s, Step(s, modifiers, e));
      hide Good, Step;
  }

  lemma RemovedGood(s: Session, gone: nat, sent: Sent)
    requires Good(s)
    ensures Good(Step(s, [], OutputRemoved(gone, sent)))
  {
    var k := SurfaceOn(s.surfaces, gone);
    if k < |s.surfaces| {
      DestroySurfaceKeeps(s, k, sent);
      hide DestroySurface, RefereeAll, OutputsOf;
    }
  }

  lemma {:induction false} RunGood(modifiers: seq<nat>, events: seq<Event>)
    ensures Good(Run(modifiers, events))
  {
    if events == [] {
      assert OutputsOf(FRESH.surfaces) == {};
    } else {
      RunGood(modifiers, events[..|events| - 1]);
      hide Good, Step;
      StepGood(Run(modifiers, events[..|events| - 1]), modifiers, events[|events| - 1]);
    }
  }
}
