/** The session lock over whole runs. */
module LockSafety {
  import opened Bytes
  import opened LockSurface
  import opened LockSession
  import opened LockInvariant

  /** No request on a lock object or for a lock surface is ever out of place. */
  lemma RequestsInPlace(modifiers: seq<nat>, events: seq<Event>)
    ensures !RefereeAll(Run(modifiers, events).trace).error
  {
    RunGood(modifiers, events);
  }

  /**
   The lock object is there while the session is locked or being locked, and lock surfaces only
   then, one per output.
   */
  lemma LockAndSurfaces(modifiers: seq<nat>, events: seq<Event>)
    ensures var s := Run(modifiers, events);
            (s.lock.Some? <==> s.state != Unlocked)
            && (s.lock.None? ==> s.surfaces == [] && !s.running)
            && (s.unlockWhenLocked ==> s.state == Pending)
            && (forall j, k :: 0 <= j < k < |s.surfaces| ==>
                s.surfaces[j].output != s.surfaces[k].output && s.surfaces[j].id != s.surfaces[k].id)
  {
    RunGood(modifiers, events);
    hide Run;
  }

  /** The session counts as locked exactly if the compositor has locked the lock object it has. */
  lemma LockedMeansLocked(modifiers: seq<nat>, events: seq<Event>)
    ensures var s := Run(modifiers, events);
            RefereeAll(s.trace).live == s.lock && (RefereeAll(s.trace).locked <==> s.state == Locked)
  {
    RunGood(modifiers, events);
  }

  /** logind was last told whether the session is locked, or never when it never was. */
  lemma HintIsState(modifiers: seq<nat>, events: seq<Event>)
    ensures var s := Run(modifiers, events); LastHint(s.hints, s.state == Locked)
  {
    RunGood(modifiers, events);
  }

  // ---------- going to sleep ----------

  lemma {:induction false} CreateAllSleep(s: Session, outputs: seq<OutputInfo>)
    ensures var s' := CreateAll(s, outputs);
            s'.sleepPending == s.sleepPending && s'.inhibitor == s.inhibitor && s'.state == s.state && s'.lock == s.lock
            && s'.nextLock == s.nextLock
  {
    if outputs != [] {
      CreateAllSleep(s, outputs[..|outputs| - 1]);
    }
  }

  lemma {:induction false} DestroySurfacesSleep(s: Session)
    ensures var s' := DestroySurfaces(s);
            s'.sleepPending == s.sleepPending && s'.inhibitor == s.inhibitor && s'.state == s.state && s'.lock == s.lock
            && s'.nextLock == s.nextLock
    decreases |s.surfaces|
  {
    if s.surfaces != [] {
      ScrSendSame(s, s.surfaces[0].id, Remove, Dropped);
      DestroySurfacesSleep(DestroySurface(s, 0, Dropped));
    }
  }

  lemma DoLockSleep(s: Session, obstacle: bool, outputs: seq<OutputInfo>, loader: bool, sent: Sent)
    ensures var s' := DoLock(s, obstacle, outputs, loader, sent);
            if s.state == Unlocked && obstacle then s' == SleepReady(s)
            else s'.sleepPending == s.sleepPending && s'.inhibitor == s.inhibitor
                 && s'.state == if s.state == Unlocked then Pending else s.state
  {
    if s.state == Unlocked && !obstacle {
      var asked := s.(unlockWhenLocked := false, lock := Some(s.nextLock), nextLock := s.nextLock + 1,
                      trace := s.trace + [AskLock(s.nextLock)], state := Pending);
      ScreensaverFailedSame(asked.(running := true));
      CreateAllSleep(StartScreensaver(asked, loader, sent), outputs);
      hide CreateAll;
    }
  }

  lemma UnlockSleep(s: Session)
    ensures Unlock(s).sleepPending == s.sleepPending && Unlock(s).inhibitor == s.inhibitor
  {
    if s.state == Locked && s.lock.Some? {
      var ended := s.(trace := s.trace + [UnlockAndDestroy(s.lock.value)], lock := None, state := Unlocked);
      DestroySurfacesSleep(StopScreensaver(ended));
    }
    hide DestroySurfaces;
  }

  /** An answer of the compositor's to a lock that a sleep may be waiting for. */
  predicate Answers(s: Session, e: Event) {
    s.lock.Some? && (e.LockLocked? || e.LockFinished?)
  }

  /** Going to sleep with nothing to wait for: locked already, or locking impossible. */
  predicate NoNeedToWait(s: Session, e: Event) {
    e.GoingToSleep? && (s.state == Locked || (s.state == Unlocked && e.obstacle))
  }

  /** How an event leaves the wait for a lock before sleeping, and the inhibitor. */
  predicate SleepAfter(s: Session, e: Event, s': Session) {
    if NoNeedToWait(s, e) || (s.sleepPending && Answers(s, e)) then !s'.sleepPending && !s'.inhibitor
    else s'.sleepPending == (s.sleepPending || e.GoingToSleep?)
         && s'.inhibitor == (s.inhibitor || (e.WokeUp? && e.inhibited))
  }

  lemma StepSleep(s: Session, modifiers: seq<nat>, e: Event)
    requires Flags(s)
    ensures SleepAfter(s, e, Step(s, modifiers, e))
  {
    match e
    case LockAsked(_, _, _, _) => AskedSleep(s, modifiers, e); hide *;
    case GoingToSleep(_, _, _, _) => AskedSleep(s, modifiers, e); hide *;
    case UnlockAsked => UnlockSleep(s); hide Unlock;
    case WokeUp(inhibited) =>
    case LockLocked => if s.lock.Some? { LockedSleep(s); } hide OnLocked;
    case LockFinished => if s.lock.Some? { FinishedSleep(s); } hide OnFinished;
    case OutputAdded(o) =>
    case OutputRemoved(_, _) => RemovedSleep(s, modifiers, e); hide *;
    case _ => SurfaceSleep(s, modifiers, e); hide *;
  }

  lemma AskedSleep(s: Session, modifiers: seq<nat>, e: Event)
    requires Flags(s) && (e.LockAsked? || e.GoingToSleep?)
    ensures SleepAfter(s, e, Step(s, modifiers, e))
  {
    hide DoLock;
    if e.LockAsked? {
      DoLockSleep(s, e.obstacle, e.outputs, e.loader, e.sent);
    } else {
      DoLockSleep(s.(sleepPending := true), e.obstacle, e.outputs, e.loader, e.sent);
    }
  }

  lemma RemovedSleep(s: Session, modifiers: seq<nat>, e: Event)
    requires e.OutputRemoved?
    ensures SleepAfter(s, e, Step(s, modifiers, e))
  {
    hide ScrSend, SurfaceOn;
    var k := SurfaceOn(s.surfaces, e.gone);
    if k < |s.surfaces| {
      ScrSendSame(s, s.surfaces[k].id, Remove, e.sent);
    }
  }

  lemma SurfaceSleep(s: Session, modifiers: seq<nat>, e: Event)
    requires e.SizeGiven? || e.LoaderSays? || e.LoaderFailed? || e.ImportDone? || e.ImportFailed? || e.FrameDue?
             || e.BufferFreed?
    ensures SleepAfter(s, e, Step(s, modifiers, e))
  {
    hide Step;
    SurfaceEventSame(s, modifiers, e);
  }

  lemma LockedSleep(s: Session)
    requires Flags(s) && s.lock.Some?
    ensures var s' := OnLocked(s);
            !s'.sleepPending && s'.inhibitor == (s.inhibitor && !s.sleepPending)
  {
    var s1 := SleepReady(s.(trace := s.trace + [LockedEvent(s.lock.value)], state := Locked,
                            hints := s.hints + [true]));
    UnlockSleep(s1.(unlockWhenLocked := false));
    hide Unlock;
  }

  lemma FinishedSleep(s: Session)
    requires Flags(s) && s.lock.Some?
    ensures var s' := OnFinished(s);
            !s'.sleepPending && s'.inhibitor == (s.inhibitor && !s.sleepPending)
  {
    var heard := s.trace + [FinishedEvent(s.lock.value)];
    var answered :=
      if s.state == Locked then s.(trace := heard + [UnlockAndDestroy(s.lock.value)], hints := s.hints + [false])
      else s.(trace := heard + [DestroyLock(s.lock.value)]);
    DestroySurfacesSleep(StopScreensaver(answered.(lock := None, state := Unlocked, unlockWhenLocked := false)));
    hide DestroySurfaces;
  }

  /** Sleep is let through exactly when the session is locked, cannot be locked, or the compositor has answered. */
  lemma InhibitorGivenUp(modifiers: seq<nat>, events: seq<Event>, e: Event)
    ensures var s, s' := Run(modifiers, events), Run(modifiers, events + [e]);
            s.inhibitor ==> (!s'.inhibitor <==> NoNeedToWait(s, e) || (s.sleepPending && Answers(s, e)))
  {
    assert (events + [e])[..|events|] == events;
    RunGood(modifiers, events);
    StepSleep(Run(modifiers, events), modifiers, e);
    hide Step;
  }

  /** A sleep waits only for the compositor to answer. */
  lemma SleepWaitsForAnswer(modifiers: seq<nat>, events: seq<Event>, e: Event)
    ensures var s, s' := Run(modifiers, events), Run(modifiers, events + [e]);
            (s.sleepPending ==> s.state == Pending && s.lock.Some?)
            && (Answers(s, e) ==> !s'.sleepPending)
  {
    assert (events + [e])[..|events|] == events;
    RunGood(modifiers, events);
    StepSleep(Run(modifiers, events), modifiers, e);
    hide Step;
  }

  predicate StaysAwake(events: seq<Event>) {
    forall e :: e in events ==> !e.GoingToSleep?
  }

  lemma {:induction false} AwakeKeeps(modifiers: seq<nat>, events: seq<Event>, more: seq<Event>)
    requires var s := Run(modifiers, events); s.inhibitor && !s.sleepPending
    requires StaysAwake(more)
    ensures var s := Run(modifiers, events + more); s.inhibitor && !s.sleepPending
    decreases |more|
  {
    if more == [] {
      assert events + more == events;
    } else {
      var before, e := more[..|more| - 1], more[|more| - 1];
      AwakeKeeps(modifiers, events, before);
      assert (events + more)[..|events + more| - 1] == events + before && (events + more)[|events + more| - 1] == e;
      RunGood(modifiers, events + before);
      hide Step;
      StepSleep(Run(modifiers, events + before), modifiers, e);
    }
  }

  /**
   Woken up, the shell holds an inhibitor for the next sleep. It keeps it until
   then exactly if no lock was still to be answered: a late answer gives it up.
   */
  lemma InhibitorKeptExactly(modifiers: seq<nat>, events: seq<Event>)
    ensures (forall more :: StaysAwake(more) ==> Run(modifiers, events + [WokeUp(true)] + more).inhibitor)
            <==> !Run(modifiers, events).sleepPending
  {
    var s, wake := Run(modifiers, events), WokeUp(true);
    var s1 := Run(modifiers, events + [wake]);
    assert (events + [wake])[..|events|] == events;
    assert s1 == Step(s, modifiers, wake) == s.(inhibitor := true);
    if s.sleepPending {
      RunGood(modifiers, events);
      assert (events + [wake] + [LockLocked])[..|events + [wake]|] == events + [wake];
      StepSleep(s1, modifiers, LockLocked);
      assert StaysAwake([LockLocked]) && !Run(modifiers, events + [wake] + [LockLocked]).inhibitor;
    } else {
      hide Step;
      forall more | StaysAwake(more)
        ensures Run(modifiers, events + [wake] + more).inhibitor
      {
        AwakeKeeps(modifiers, events + [wake], more);
      }
    }
  }

  const LOST_INHIBITOR: seq<Event> := [GoingToSleep(false, [], false, Delivered)] + [WokeUp(true)] + [LockLocked]

  /** Asleep before the compositor has locked and up again: the lock it then grants gives the new inhibitor up. */
  lemma InhibitorLost()
    ensures Run([], LOST_INHIBITOR[..2]).inhibitor && StaysAwake(LOST_INHIBITOR[1..])
    ensures var s := Run([], LOST_INHIBITOR); !s.inhibitor && s.state == Locked
  {
    var a, b, c := GoingToSleep(false, [], false, Delivered), WokeUp(true), LockLocked;
    assert LOST_INHIBITOR[..2] == [a] + [b] && LOST_INHIBITOR[1..] == [b, c];
    RunMore([], [], a);
    assert [] + [a] == [a];
    RunMore([], [a], b);
    RunMore([], [a] + [b], c);
    var s1 := FRESH.(sleepPending := true, lock := Some(0), nextLock := 1, trace := [] + [AskLock(0)],
                     state := Pending);
    assert Step(FRESH, [], a) == s1;
    assert Step(s1.(inhibitor := true), [], c).inhibitor == false;
    hide Run;
  }

  lemma RunMore(modifiers: seq<nat>, events: seq<Event>, e: Event)
    ensures Run(modifiers, events + [e]) == Step(Run(modifiers, events), modifiers, e)
  {
    assert (events + [e])[..|events|] == events;
    hide Step;
  }

  // ---------- what is committed ----------

  predicate SurfaceInStep(x: LockSurf) {
    InStep(x.surface, JudgeAll(NOTHING_SHOWN, x.requests))
  }

  predicate AllInStep(xs: seq<LockSurf>) {
    forall k :: 0 <= k < |xs| ==> SurfaceInStep(xs[k])
  }

  /** So it is for all surfaces there are, and for all that were. */
  predicate Fits(s: Session) {
    AllInStep(s.surfaces) && AllInStep(s.buried)
  }

  /** There is memory for black buffers, and a buffer without a size is never imported. */
  predicate Fair(s: Session, e: Event) {
    match e
    case SizeGiven(_, _, hasMemory, _, _) => hasMemory
    case ImportDone(id, _) =>
      var k := IndexOf(s.surfaces, id);
      k < |s.surfaces| ==> s.surfaces[k].surface.configured
    case _ => true
  }

  ghost predicate FairRun(modifiers: seq<nat>, events: seq<Event>) {
    forall n :: 0 <= n < |events| ==> Fair(Run(modifiers, events[..n]), events[n])
  }

  lemma ActInStep(x: LockSurf, e: Effect)
    requires Shaped(e.surface) && InStep(e.surface, JudgeAll(JudgeAll(NOTHING_SHOWN, x.requests), e.requests))
    ensures SurfaceInStep(Act(x, e))
  {
    JudgeJoin(NOTHING_SHOWN, x.requests, e.requests);
    hide InStep;
  }

  lemma StopAllInStep(xs: seq<LockSurf>)
    requires AllInStep(xs)
    ensures AllInStep(StopAll(xs)) && AllInStep(BlackAll(xs))
  {
    forall k | 0 <= k < |xs|
      ensures SurfaceInStep(StopAll(xs)[k]) && SurfaceInStep(BlackAll(xs)[k])
    {
      assert SurfaceInStep(xs[k]);
      var v := JudgeAll(NOTHING_SHOWN, xs[k].requests);
      DestroyInStep(xs[k].surface, v);
      StoppedInStep(xs[k].surface, v);
      ActInStep(xs[k], DestroyBuffers(xs[k].surface));
      ActInStep(xs[k], Stopped(xs[k].surface));
    }
    hide SurfaceInStep;
  }

  lemma ScrSendInStep(s: Session, id: nat, m: Down, sent: Sent)
    requires Fits(s)
    ensures Fits(ScrSend(s, id, m, sent)) && Fits(ScreensaverFailed(s))
  {
    StopAllInStep(s.surfaces);
    hide Fits;
  }

  lemma ShellInStep(s: Session, k: nat, e: Effect, sent: Sent)
    requires Fits(s) && k < |s.surfaces| && Shaped(e.surface)
    requires InStep(e.surface, JudgeAll(JudgeAll(NOTHING_SHOWN, s.surfaces[k].requests), e.requests))
    ensures Fits(ActOn(s, k, e)) && Fits(Shell(s, k, e, sent))
  {
    ActInStep(s.surfaces[k], e);
    hide SurfaceInStep, InStep;
    assert Fits(ActOn(s, k, e));
    if e.message.Some? {
      ScrSendInStep(ActOn(s, k, e), s.surfaces[k].id, e.message.value, sent);
    }
  }

  lemma NewInStep()
    ensures InStep(NEW_SURFACE, JudgeAll(NOTHING_SHOWN, []))
  {
  }

  lemma CreateInStep(s: Session, o: OutputInfo)
    requires Fits(s)
    ensures Fits(CreateSurface(s, o))
  {
    NewInStep();
    assert SurfaceInStep(LockSurf(s.nextId, o.id, NEW_SURFACE, []));
    hide SurfaceInStep;
  }

  lemma {:induction false} CreateAllInStep(s: Session, outputs: seq<OutputInfo>)
    requires Fits(s)
    ensures Fits(CreateAll(s, outputs))
  {
    if outputs != [] {
      CreateAllInStep(s, outputs[..|outputs| - 1]);
      hide Fits, CreateSurface;
      CreateInStep(CreateAll(s, outputs[..|outputs| - 1]), outputs[|outputs| - 1]);
    }
  }

  lemma DoLockInStep(s: Session, obstacle: bool, outputs: seq<OutputInfo>, loader: bool, sent: Sent)
    requires Fits(s)
    ensures Fits(DoLock(s, obstacle, outputs, loader, sent))
  {
    var asked := s.(unlockWhenLocked := false, lock := Some(s.nextLock), nextLock := s.nextLock + 1,
                    trace := s.trace + [AskLock(s.nextLock)], state := Pending);
    ScrSendInStep(asked.(running := true), 0, Remove, sent);
    hide Fits, ScreensaverFailed;
    CreateAllInStep(StartScreensaver(asked, loader, sent), outputs);
  }

  lemma StopOneInStep(x: LockSurf)
    requires SurfaceInStep(x)
    ensures SurfaceInStep(Act(x, DestroyBuffers(x.surface)))
  {
    var v := JudgeAll(NOTHING_SHOWN, x.requests);
    DestroyInStep(x.surface, v);
    ActInStep(x, DestroyBuffers(x.surface));
  }

  lemma DestroySurfaceInStep(s: Session, k: nat, sent: Sent)
    requires Fits(s) && k < |s.surfaces|
    ensures Fits(DestroySurface(s, k, sent))
  {
    ScrSendSame(s, s.surfaces[k].id, Remove, sent);
    ScrSendInStep(s, s.surfaces[k].id, Remove, sent);
    var s' := ScrSend(s, s.surfaces[k].id, Remove, sent);
    assert SurfaceInStep(s'.surfaces[k]);
    StopOneInStep(s'.surfaces[k]);
    hide SurfaceInStep, ScrSend, Act;
  }

  lemma SizeGivenInStep(s: Session, k: nat, size: Size, sent: Sent, blurSent: Sent)
    requires Fits(s) && k < |s.surfaces|
    ensures Fits(ConfigureSurface(s, k, size, true, sent, blurSent))
  {
    assert SurfaceInStep(s.surfaces[k]);
    var e := SurfaceConfigure(s.surfaces[k].surface, size, true);
    ConfigureInStep(s.surfaces[k].surface, JudgeAll(NOTHING_SHOWN, s.surfaces[k].requests), size);
    hide InStep, Fits, SurfaceInStep, Shell, SurfaceConfigure;
    ShellInStep(s, k, e, sent);
    ScrSendInStep(Shell(s, k, e, sent), 0, Remove, blurSent);
    hide ScreensaverFailed;
  }

  lemma ReceiveInStep(s: Session, modifiers: seq<nat>, id: nat, m: Up, whole: bool)
    requires Fits(s)
    ensures Fits(Receive(s, modifiers, id, m, whole))
  {
    ScrSendInStep(s, 0, Remove, Broken);
    var k := IndexOf(s.surfaces, id);
    if k < |s.surfaces| && Handle(s.surfaces[k].surface, modifiers, m).Some? {
      assert SurfaceInStep(s.surfaces[k]);
      HandleInStep(s.surfaces[k].surface, JudgeAll(NOTHING_SHOWN, s.surfaces[k].requests), modifiers, m);
      var e := Handle(s.surfaces[k].surface, modifiers, m).value;
      hide InStep, Fits, SurfaceInStep, Handle, ScreensaverFailed, ActOn;
      ShellInStep(s, k, e, Delivered);
    }
    hide Fits, Handle, ScreensaverFailed, ActOn;
  }

  lemma ImportInStep(s: Session, k: nat, i: nat)
    requires Fits(s) && k < |s.surfaces| && Importing(s.surfaces[k].surface, i)
    requires s.surfaces[k].surface.configured
    ensures Fits(ActOn(s, k, ParamsCreated(s.surfaces[k].surface, i)))
  {
    hide Fits, SurfaceInStep, InStep, Shell, ActOn, ParamsCreated, JudgeAll;
    var f, v := s.surfaces[k].surface, JudgeAll(NOTHING_SHOWN, s.surfaces[k].requests);
    FitsAt(s, k);
    ParamsCreatedInStep(f, v, i);
    ShellInStep(s, k, ParamsCreated(f, i), Delivered);
  }

  lemma FitsAt(s: Session, k: nat)
    requires Fits(s) && k < |s.surfaces|
    ensures InStep(s.surfaces[k].surface, JudgeAll(NOTHING_SHOWN, s.surfaces[k].requests))
  {
    hide InStep, JudgeAll;
    assert SurfaceInStep(s.surfaces[k]);
  }

  lemma FrameInStep(s: Session, k: nat, sent: Sent)
    requires Fits(s) && k < |s.surfaces|
    ensures Fits(Shell(s, k, FrameDone(s.surfaces[k].surface), sent))
  {
    hide Fits, Shell, ActOn;
    var f, v := s.surfaces[k].surface, JudgeAll(NOTHING_SHOWN, s.surfaces[k].requests);
    FitsAt(s, k);
    assert JudgeAll(v, []) == v;
    assert InStep(FrameDone(f).surface, v);
    ShellInStep(s, k, FrameDone(f), sent);
  }

  lemma FreedInStep(s: Session, k: nat, i: nat, sent: Sent)
    requires Fits(s) && k < |s.surfaces| && HasBuffer(s.surfaces[k], i)
    ensures Fits(Shell(s, k, BufferRelease(s.surfaces[k].surface, i), sent))
  {
    hide Fits, Shell, ActOn, Watch;
    var f, v := s.surfaces[k].surface, JudgeAll(NOTHING_SHOWN, s.surfaces[k].requests);
    FitsAt(s, k);
    JudgeOne(v, BufferRelease(f, i).requests[0]);
    ShellInStep(s, k, BufferRelease(f, i), sent);
  }

  lemma SurfaceEventInStep(s: Session, modifiers: seq<nat>, e: Event)
    requires Fits(s) && Fair(s, e) && (e.ImportDone? || e.FrameDue? || e.BufferFreed?)
    ensures Fits(Step(s, modifiers, e))
  {
    hide Fits, Shell, ActOn, ParamsCreated, HasBuffer, IndexOf;
    var k := IndexOf(s.surfaces, e.id);
    if k < |s.surfaces| {
      match e
      case ImportDone(_, i) =>
        if Importing(s.surfaces[k].surface, i) {
          ImportInStep(s, k, i);
        }
      case FrameDue(_, sent) => FrameInStep(s, k, sent);
      case BufferFreed(_, i, sent) =>
        if HasBuffer(s.surfaces[k], i) {
          FreedInStep(s, k, i, sent);
        }
      case _ =>
    }
  }

  lemma {:induction false} DestroySurfacesInStep(s: Session)
    requires Fits(s)
    ensures Fits(DestroySurfaces(s))
    decreases |s.surfaces|
  {
    if s.surfaces != [] {
      ScrSendSame(s, s.surfaces[0].id, Remove, Dropped);
      DestroySurfaceInStep(s, 0, Dropped);
      assert |DestroySurface(s, 0, Dropped).surfaces| < |s.surfaces|;
      hide Fits, DestroySurface;
      DestroySurfacesInStep(DestroySurface(s, 0, Dropped));
    }
  }

  lemma StopScreensaverInStep(s: Session)
    requires Fits(s)
    ensures Fits(DestroySurfaces(StopScreensaver(s)))
  {
    StopAllInStep(s.surfaces);
    assert Fits(StopScreensaver(s)) by {
      hide AllInStep;
    }
    hide Fits, StopScreensaver;
    DestroySurfacesInStep(StopScreensaver(s));
  }

  lemma SameSurfacesFit(s: Session, s': Session)
    requires s'.surfaces == s.surfaces && s'.buried == s.buried
    ensures Fits(s) <==> Fits(s')
  {
  }

  lemma UnlockInStep(s: Session)
    requires Fits(s)
    ensures Fits(Unlock(s))
  {
    if s.state == Locked && s.lock.Some? {
      var ended := s.(trace := s.trace + [UnlockAndDestroy(s.lock.value)], lock := None, state := Unlocked);
      StopScreensaverInStep(ended);
    }
    hide AllInStep, DestroySurfaces, StopScreensaver;
  }

  lemma AnswerInStep(s: Session, e: Event)
    requires Fits(s) && (e.UnlockAsked? || e.LockLocked? || e.LockFinished?)
    ensures Fits(Step(s, [], e))
  {
    match e
    case UnlockAsked => UnlockInStep(s); hide Fits, Unlock;
    case LockLocked =>
      if s.lock.Some? {
        var s1 := SleepReady(s.(trace := s.trace + [LockedEvent(s.lock.value)], state := Locked,
                                hints := s.hints + [true]));
        SameSurfacesFit(s, s1);
        SameSurfacesFit(s, s1.(unlockWhenLocked := false));
        UnlockInStep(s1.(unlockWhenLocked := false));
      }
      hide Fits, Unlock;
    case LockFinished => FinishedInStep(s); hide Fits, OnFinished;
  }

  lemma FinishedInStep(s: Session)
    requires Fits(s)
    ensures s.lock.Some? ==> Fits(OnFinished(s))
  {
    if s.lock.Some? {
      var heard := s.trace + [FinishedEvent(s.lock.value)];
      var answered :=
        if s.state == Locked then s.(trace := heard + [UnlockAndDestroy(s.lock.value)], hints := s.hints + [false])
        else s.(trace := heard + [DestroyLock(s.lock.value)]);
      StopScreensaverInStep(answered.(lock := None, state := Unlocked, unlockWhenLocked := false));
      hide AllInStep, DestroySurfaces, StopScreensaver;
    }
  }

  lemma StepInStep(s: Session, modifiers: seq<nat>, e: Event)
    requires Fits(s) && Fair(s, e)
    ensures Fits(Step(s, modifiers, e))
  {
    hide Fits, DoLock, CreateSurface, DestroySurface, ConfigureSurface, Receive, ScreensaverFailed, Unlock, OnLocked,
      OnFinished, Shell, ActOn, HasBuffer, IndexOf, SurfaceOn;
    match e
    case LockAsked(obstacle, outputs, loader, sent) => DoLockInStep(s, obstacle, outputs, loader, sent);
    case GoingToSleep(obstacle, outputs, loader, sent) =>
      SleepInStep(s, true);
      DoLockInStep(s.(sleepPending := true), obstacle, outputs, loader, sent);
    case OutputAdded(o) => CreateInStep(s, o);
    case OutputRemoved(gone, sent) =>
      var k := SurfaceOn(s.surfaces, gone);
      if k < |s.surfaces| {
        DestroySurfaceInStep(s, k, sent);
      }
    case SizeGiven(id, size, _, sent, blurSent) =>
      var k := IndexOf(s.surfaces, id);
      if k < |s.surfaces| {
        SizeGivenInStep(s, k, size, sent, blurSent);
      }
    case LoaderSays(id, m, whole) => ReceiveInStep(s, modifiers, id, m, whole);
    case LoaderFailed => ScrSendInStep(s, 0, Remove, Broken);
    case ImportFailed(id, _) => ScrSendInStep(s, 0, Remove, Broken);
    case WokeUp(inhibited) => WakeInStep(s, s.inhibitor || inhibited);
    case UnlockAsked => AnswerInStep(s, e);
    case LockLocked => AnswerInStep(s, e);
    case LockFinished => AnswerInStep(s, e);
    case _ => SurfaceEventInStep(s, modifiers, e);
  }

  lemma SleepInStep(s: Session, pending: bool)
    requires Fits(s)
    ensures Fits(s.(sleepPending := pending)) && Fits(SleepReady(s.(sleepPending := pending)))
  {
    hide SurfaceInStep;
  }

  lemma WakeInStep(s: Session, inhibitor: bool)
    requires Fits(s)
    ensures Fits(s.(inhibitor := inhibitor))
  {
  }

  lemma {:induction false} RunInStep(modifiers: seq<nat>, events: seq<Event>)
    requires FairRun(modifiers, events)
    ensures Fits(Run(modifiers, events))
  {
    if events != [] {
      var before, e := events[..|events| - 1], events[|events| - 1];
      assert FairRun(modifiers, before) by {
        assert forall n :: 0 <= n < |before| ==> before[..n] == events[..n];
      }
      RunInStep(modifiers, before);
      assert Fair(Run(modifiers, before), e);
      hide Step, Fits, Fair, FairRun;
      StepInStep(Run(modifiers, before), modifiers, e);
    }
  }

  /** Every commit on any lock surface, still there or gone, is of a buffer of exactly the size last acknowledged. */
  lemma CommitsFit(modifiers: seq<nat>, events: seq<Event>, x: LockSurf)
    requires FairRun(modifiers, events) && (x in Run(modifiers, events).surfaces || x in Run(modifiers, events).buried)
    ensures !JudgeAll(NOTHING_SHOWN, x.requests).error
  {
    RunInStep(modifiers, events);
    assert SurfaceInStep(x);
    hide Run;
  }

  // ---------- why a run has to be fair ----------

  /** Without memory for a black buffer, a size given twice is a commit without a buffer of that size. */
  lemma BlackNeedsMemory(f: Surface, v: Shown, size: Size, hasMemory: bool)
    requires InStep(f, v) && (!f.configured || f.size != size)
    ensures
      var first := SurfaceConfigure(f, size, hasMemory);
      var second := SurfaceConfigure(first.surface, size, hasMemory);
      JudgeAll(JudgeAll(v, first.requests), second.requests).error <==> !hasMemory
  {
    var first := SurfaceConfigure(f, size, hasMemory);
    if hasMemory {
      ConfigureInStep(f, v, size);
      ConfigureInStep(first.surface, JudgeAll(v, first.requests), size);
    } else {
      var ack, drops := [AckConfigure(size)], DropSlots(f.slots, SLOTS);
      var oldBlack := match f.black case None => [] case Some(b) => [Destroy(Black(b))];
      assert first.requests == ack + drops + oldBlack + [] == ack + drops + oldBlack;
      JudgeOne(v, ack[0]);
      JudgeJoin(v, ack, drops);
      JudgeDrops(v.(acked := Some(size)), f.slots, SLOTS);
      JudgeJoin(v, ack + drops, oldBlack);
      if f.black.Some? {
        JudgeOne(v.(acked := Some(size)), oldBlack[0]);
      }
      assert JudgeAll(v, first.requests) == v.(acked := Some(size));
      JudgeTwo(v.(acked := Some(size)), AckConfigure(size), Commit);
    }
  }

  /** An import done before the surface has a size is a commit too early, exactly if its READY came already. */
  lemma ImportNeedsSize(f: Surface, v: Shown, i: nat)
    requires InStep(f, v) && !f.configured && Importing(f, i)
    ensures JudgeAll(v, ParamsCreated(f, i).requests).error <==> f.slots[i].value.readyPending
  {
    var b := f.slots[i].value;
    if b.readyPending {
      var attach := Attach(Drawn(b.size, b.dmabuf));
      var ask := if f.frameCallback then [] else [AskFrame];
      assert ParamsCreated(f, i).requests == [attach] + ask + [Commit];
      JudgeJoin(v, [attach], ask);
      JudgeJoin(v, [attach] + ask, [Commit]);
      JudgeOne(v, attach);
      JudgeOne(JudgeAll(v, [attach] + ask), Commit);
      if !f.frameCallback {
        JudgeOne(JudgeAll(v, [attach]), AskFrame);
      }
    }
  }
}
