/**
 Password checks and the lock they open. A check is not tied to the lock that
 was there when its password was typed.
 */
module LockGate {
  import opened Bytes
  import opened LockSurface
  import opened LockSession
  import opened LockInvariant
  import opened LockSafety

  /** `lock` is history: the lock object there was when the password was submitted. */
  datatype Check = Idle | Running(lock: nat) | Done(lock: nat, ok: bool)

  datatype Gate = Gate(s: Session, check: Check)

  datatype Deed =
    | Happens(e: Event)
    | Submits
    | Answers(ok: bool)
    | Polls

  function Next(modifiers: seq<nat>, g: Gate, d: Deed): Gate {
    match d
    case Happens(e) => g.(s := Step(g.s, modifiers, e))
    case Submits => if g.s.state == Locked && g.s.lock.Some?
      && g.check.Idle? then g.(check := Running(g.s.lock.value)) else g
    case Answers(ok) => if g.check.Running? then g.(check := Done(g.check.lock, ok)) else g
    case Polls => if g.check.Done? then Gate(if g.check.ok then Unlock(g.s) else g.s, Idle) else g
  }

  const CLOSED: Gate := Gate(FRESH, Idle)

  function GateRun(modifiers: seq<nat>, deeds: seq<Deed>): Gate {
    if deeds == [] then CLOSED
    else Next(modifiers, GateRun(modifiers, deeds[..|deeds| - 1]), deeds[|deeds| - 1])
  }

  /** Lock objects are numbered; the one there is is the last asked for, and stays locked once it is. */
  predicate Follows(s: Session, s': Session) {
    || (s'.nextLock == s.nextLock && s'.lock == s.lock && (s.state == Locked && s.lock.Some? ==> s'.state == Locked))
    || (s'.nextLock == s.nextLock && s'.lock.None?)
    || (s.lock.None? && s'.nextLock == s.nextLock + 1 && s'.lock == Some(s.nextLock))
  }

  lemma UnlockFollows(s: Session)
    requires Good(s)
    ensures Follows(s, Unlock(s)) && Unlock(s).nextLock == s.nextLock
  {
    if s.state == Locked {
      UnlockGood(s);
      var ended := s.(trace := s.trace + [UnlockAndDestroy(s.lock.value)], lock := None, state := Unlocked);
      DestroySurfacesSleep(StopScreensaver(ended));
    }
    hide DestroySurfaces, Apart, Standings;
  }

  lemma LockFollows(s: Session, obstacle: bool, outputs: seq<OutputInfo>, loader: bool, sent: Sent)
    requires s.lock.Some? <==> s.state != Unlocked
    ensures Follows(s, DoLock(s, obstacle, outputs, loader, sent))
  {
    if s.state == Unlocked && !obstacle {
      var asked := s.(unlockWhenLocked := false, lock := Some(s.nextLock), nextLock := s.nextLock + 1,
                      trace := s.trace + [AskLock(s.nextLock)], state := Pending);
      ScreensaverFailedSame(asked.(running := true, sent := []));
      CreateAllSleep(StartScreensaver(asked, loader, sent), outputs);
      hide CreateAll, ScreensaverFailed;
    }
  }

  lemma FinishedFollows(s: Session)
    requires Good(s) && s.lock.Some?
    ensures Follows(s, OnFinished(s))
  {
    OnFinishedIs(s);
    DestroySurfacesSleep(StopScreensaver(Answered(s)));
    hide DestroySurfaces, OnFinished, Good;
  }

  lemma LockedFollows(s: Session)
    requires Good(s) && s.lock.Some?
    ensures Follows(s, OnLocked(s))
  {
    NotedGood(s);
    UnlockFollows(Noted(s));
    hide Unlock, OnLocked, Good;
  }

  lemma StepFollows(modifiers: seq<nat>, s: Session, e: Event)
    requires Good(s)
    ensures Follows(s, Step(s, modifiers, e))
  {
    hide DoLock, Standings, Apart;
    match e
    case LockAsked(obstacle, outputs, loader, sent) => LockFollows(s, obstacle, outputs, loader, sent);
    case GoingToSleep(obstacle, outputs, loader, sent) =>
      LockFollows(s.(sleepPending := true), obstacle, outputs, loader, sent);
      hide DoLock, Standings, Apart;
    case UnlockAsked => UnlockFollows(s); hide Unlock, Good;
    case LockLocked => if s.lock.Some? { LockedFollows(s); } hide OnLocked, Good;
    case LockFinished => if s.lock.Some? { FinishedFollows(s); } hide OnFinished, Good;
    case WokeUp(_) => hide Good;
    case OutputAdded(_) => hide Good;
    case OutputRemoved(gone, sent) => RemovedFollows(modifiers, s, gone, sent); hide *;
    case _ => SurfaceEventSame(s, modifiers, e); hide Step, Good;
  }

  lemma RemovedFollows(modifiers: seq<nat>, s: Session, gone: nat, sent: Sent)
    ensures Follows(s, Step(s, modifiers, LockSession.OutputRemoved(gone, sent)))
  {
    var k := SurfaceOn(s.surfaces, gone);
    if k < |s.surfaces| {
      ScrSendSame(s, s.surfaces[k].id, Remove, sent);
    }
    hide ScrSend, SurfaceOn;
  }

  /** The lock a check is of was there once; if it still is, it is locked. */
  predicate Tied(g: Gate) {
    && (g.s.lock.Some? ==> g.s.lock.value + 1 == g.s.nextLock)
    && (!g.check.Idle? ==> g.check.lock < g.s.nextLock && (g.s.lock == Some(g.check.lock) ==> g.s.state == Locked))
  }

  lemma {:induction false} GateTied(modifiers: seq<nat>, deeds: seq<Deed>)
    ensures Good(GateRun(modifiers, deeds).s) && Tied(GateRun(modifiers, deeds))
  {
    if deeds == [] {
      RunGood(modifiers, []);
      assert LockSession.Run(modifiers, []) == FRESH;
      hide Good;
    } else {
      var g, d := GateRun(modifiers, deeds[..|deeds| - 1]), deeds[|deeds| - 1];
      GateTied(modifiers, deeds[..|deeds| - 1]);
      hide Good, Step, Unlock;
      match d {
        case Happens(e) => StepGood(g.s, modifiers, e); StepFollows(modifiers, g.s, e);
        case Polls => UnlockGood(g.s); UnlockFollows(g.s);
        case _ =>
      }
    }
  }

  /** Locks asked for since the password of the check was submitted. */
  function AskedSince(g: Gate): int
    requires !g.check.Idle?
  {
    g.s.nextLock - 1 - g.check.lock
  }

  /**
   A password found right opens the lock it was typed for, if that is still
   there; if not, it does nothing, or opens the lock that is there instead: that
   one exactly if there is one and another has been asked for since.
   */
  lemma OpensWhich(modifiers: seq<nat>, deeds: seq<Deed>)
    requires var g := GateRun(modifiers, deeds); g.check.Done? && g.check.ok
    ensures
      var g, g' := GateRun(modifiers, deeds), GateRun(modifiers, deeds + [Polls]);
      && AskedSince(g) >= 0 && g'.check == Idle
      && (g.s.lock == Some(g.check.lock) <==> g.s.lock.Some? && AskedSince(g) == 0)
      && (g.s.lock == Some(g.check.lock) ==> LetGo(g'.s))
      && (g.s.lock.None? ==> g'.s == g.s)
      && (g.s.lock.Some? && AskedSince(g) > 0 ==>
          if g.s.state == Locked then LetGo(g'.s) else g'.s == g.s.(unlockWhenLocked := true))
  {
    var g := GateRun(modifiers, deeds);
    assert (deeds + [Polls])[..|deeds|] == deeds;
    GateTied(modifiers, deeds);
    UnlockGood(g.s);
    assert g.s.lock.Some? <==> g.s.state != Unlocked by {
      hide Apart, Standings;
    }
    hide Good, GateRun, LetGo, DestroySurfaces, StopScreensaver;
  }

  const RELOCK: seq<Deed> :=
    [Happens(LockAsked(false, [], false, Delivered))] + [Happens(LockLocked)] + [Submits] + [Happens(LockFinished)]
    + [Happens(LockAsked(false, [], false, Delivered))] + [Happens(LockLocked)] + [Answers(true)]

  lemma GateMore(modifiers: seq<nat>, deeds: seq<Deed>, d: Deed)
    ensures GateRun(modifiers, deeds + [d]) == Next(modifiers, GateRun(modifiers, deeds), d)
  {
    assert (deeds + [d])[..|deeds|] == deeds;
    hide Next;
  }

  /** The password of a lock that the compositor has ended opens the next one. */
  lemma OpensAnother()
    ensures var g := GateRun([], RELOCK);
            g.check == Done(0, true) && g.s.lock == Some(1) && g.s.state == Locked && AskedSince(g) == 1
    ensures LetGo(GateRun([], RELOCK + [Polls]).s)
  {
    var ask, locked, finished := Happens(LockAsked(false, [], false, Delivered)), Happens(LockLocked),
        Happens(LockFinished);
    GateMore([], [], ask);
    assert [] + [ask] == [ask];
    GateMore([], [ask], locked);
    GateMore([], [ask] + [locked], Submits);
    GateMore([], [ask] + [locked] + [Submits], finished);
    GateMore([], [ask] + [locked] + [Submits] + [finished], ask);
    GateMore([], [ask] + [locked] + [Submits] + [finished] + [ask], locked);
    GateMore([], [ask] + [locked] + [Submits] + [finished] + [ask] + [locked], Answers(true));
    var t1 := [AskLock(0)];
    var t2 := t1 + [LockedEvent(0)];
    var t3 := t2 + [FinishedEvent(0)] + [UnlockAndDestroy(0)];
    var s1 := FRESH.(lock := Some(0), nextLock := 1, trace := t1, state := Pending);
    var s2 := s1.(trace := t2, state := Locked, hints := [true]);
    var s3 := s2.(lock := None, trace := t3, state := Unlocked, hints := [true, false]);
    var s4 := s3.(lock := Some(1), nextLock := 2, trace := t3 + [AskLock(1)], state := Pending);
    assert Next([], CLOSED, ask).s == s1 && Next([], CLOSED, ask).check == Idle;
    assert Next([], Gate(s1, Idle), locked) == Gate(s2, Idle);
    assert Next([], Gate(s2, Running(0)), finished) == Gate(s3, Running(0));
    assert Next([], Gate(s3, Running(0)), ask) == Gate(s4, Running(0));
    hide GateRun;
    OpensWhich([], RELOCK);
  }
}
