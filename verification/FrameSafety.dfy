/** The frame exchange over whole runs. */
module FrameSafety {
  import opened Bytes
  import opened LockSurface
  import opened FrameProtocol
  import opened FrameInvariant
  import opened FrameSteps
  import opened FrameShellSteps
  import opened FrameArrivals

  lemma SizesGrow(s: System, modifiers: seq<nat>, e: Event)
    requires Sound(s)
    ensures s.sizes <= Step(s, modifiers, e).sizes
  {
    hide Watch, Handle, Stopped, DropSlots, FirstFree, Importable;
  }

  lemma {:induction false} SizesPrefix(running: bool, modifiers: seq<nat>, events: seq<Event>, n: nat)
    requires n <= |events|
    ensures Run(running, modifiers, events[..n]).sizes <= Run(running, modifiers, events).sizes
    decreases |events|
  {
    if n == |events| {
      assert events[..n] == events;
    } else {
      var before := events[..|events| - 1];
      SizesPrefix(running, modifiers, before, n);
      assert before[..n] == events[..n];
      SizesGrow(Run(running, modifiers, before), modifiers, events[|events| - 1]);
      hide Step;
    }
  }

  lemma OnlyReceivingImports(s: System, modifiers: seq<nat>, e: Event)
    requires Sound(s) && !e.ShellReceives?
    ensures Step(s, modifiers, e) == Step(s, [], e)
  {
    hide Affect, Shell, Send, Stop, Hear, OutputDraw;
  }

  lemma StepInv(s: System, modifiers: seq<nat>, e: Event)
    requires Sound(s) && Inv(s) && NoReturn(s.sizes)
    ensures Inv(Step(s, modifiers, e))
  {
    if e.ShellReceives? {
      ShellReceivesKeeps(s, modifiers);
    } else {
      OnlyReceivingImports(s, modifiers, e);
      OtherStepInv(s, e);
    }
    hide *;
  }

  lemma OtherStepInv(s: System, e: Event)
    requires Sound(s) && Inv(s) && !e.ShellReceives?
    ensures Inv(Step(s, [], e))
  {
    match e
    case Configured(size, hasMemory, sent) => ConfiguredKeeps(s, size, hasMemory, sent); hide *;
    case Removed(sent) => FrameShellSteps.RemovedKeeps(s, sent); hide *;
    case Imported(i) => ImportedKeeps(s, i); hide *;
    case FrameShown(sent) => FrameShownKeeps(s, sent); hide *;
    case Released(i, sent) => ReleasedKeeps(s, i, sent); hide *;
    case LoaderGone => GoneKeeps(s); hide *;
    case LoaderReceives(driver) => LoaderReceivesKeeps(s, driver); hide *;
    case LoaderDraws => DrawKeeps(s); hide *;
  }

  lemma GoneKeeps(s: System)
    requires Sound(s) && Inv(s)
    ensures Inv(Step(s, [], LoaderGone))
  {
    StopKeeps(s);
    hide Structure, Account, Stop;
  }

  lemma DrawKeeps(s: System)
    requires Sound(s) && Inv(s)
    ensures Inv(Step(s, [], LoaderDraws))
  {
    DrawStructure(s);
    DrawAccount(s);
    hide Structure, Account, Step;
  }

  lemma RunMore(running: bool, modifiers: seq<nat>, events: seq<Event>)
    requires events != []
    ensures Run(running, modifiers, events)
            == Step(Run(running, modifiers, events[..|events| - 1]), modifiers, events[|events| - 1])
  {
    hide Step;
  }

  lemma NoReturnBefore(running: bool, modifiers: seq<nat>, events: seq<Event>, n: nat)
    requires n <= |events| && NoReturn(Run(running, modifiers, events).sizes)
    ensures NoReturn(Run(running, modifiers, events[..n]).sizes)
  {
    SizesPrefix(running, modifiers, events, n);
    hide Run;
  }

  lemma InitialInv(running: bool)
    ensures Inv(Initial(running))
  {
  }

  lemma {:induction false} RunInv(running: bool, modifiers: seq<nat>, events: seq<Event>)
    requires NoReturn(Run(running, modifiers, events).sizes)
    ensures Inv(Run(running, modifiers, events))
  {
    if events == [] {
      InitialInv(running);
      hide Inv;
    } else {
      hide *;
      var n := |events| - 1;
      NoReturnBefore(running, modifiers, events, n);
      RunInv(running, modifiers, events[..n]);
      RunMore(running, modifiers, events);
      StepInv(Run(running, modifiers, events[..n]), modifiers, events[n]);
    }
  }

  lemma InvNoTearing(s: System)
    requires Sound(s) && Inv(s)
    ensures !Tearing(s)
  {
    forall d | DrawsInto(s, d)
      ensures d !in s.held
    {
      assert Places(s, d.slot) <= One(s.output.value.busy[d.slot]) == 0;
    }
  }

  /** The loader never draws into a buffer that the compositor is showing. */
  lemma NeverTears(running: bool, modifiers: seq<nat>, events: seq<Event>)
    requires NoReturn(Run(running, modifiers, events).sizes)
    ensures !Tearing(Run(running, modifiers, events))
  {
    RunInv(running, modifiers, events);
    InvNoTearing(Run(running, modifiers, events));
  }

  /** A buffer is in one place at most, and in none unless the loader counts it as busy. */
  lemma BuffersAccountedFor(running: bool, modifiers: seq<nat>, events: seq<Event>, i: nat)
    requires NoReturn(Run(running, modifiers, events).sizes) && i < SLOTS
    ensures var s := Run(running, modifiers, events);
            s.output.Some? ==> Places(s, i) <= One(s.output.value.busy[i])
  {
    RunInv(running, modifiers, events);
  }

  /** One frame is on its way at most, so one buffer at most waits for its import to be shown. */
  lemma OneFrameAtATime(running: bool, modifiers: seq<nat>, events: seq<Event>)
    requires NoReturn(Run(running, modifiers, events).sizes)
    ensures var s := Run(running, modifiers, events);
            (s.output.Some? ==> Tokens(s) <= 1)
            && forall i, j :: 0 <= i < j < SLOTS ==> Pending(s, i) + Pending(s, j) <= 1
  {
    RunInv(running, modifiers, events);
    InvOneFrame(Run(running, modifiers, events));
    hide *;
  }

  lemma InvOneFrame(s: System)
    requires Inv(s)
    ensures s.output.Some? ==> Tokens(s) <= 1
    ensures forall i, j :: 0 <= i < j < SLOTS ==> Pending(s, i) + Pending(s, j) <= 1
  {
    if s.output.Some? {
      hide Readies, Frames, Places, Structure, Pending;
    } else {
      assert !Settled(s);
      hide Settled, UpOk, DownOk;
    }
  }
}
