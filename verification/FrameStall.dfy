/**
 Whether the frame exchange stalls. A usable size that comes back after nothing
 but unusable ones finds the loader at it still: no buffers are sent again for
 those the shell has let go of. Sizes without that never stall.
 */
module FrameStall {
  import opened Bytes
  import opened LockSurface
  import opened FrameProtocol
  import opened FrameInvariant
  import opened FrameShellSteps
  import opened FrameSafety
  import opened FramePump
  import Returning = FrameReturn

  /** No usable size is followed by unusable ones only, and then by itself. */
  ghost predicate NoLull(sizes: seq<Size>) {
    forall i, j :: 0 <= i < i + 1 < j < |sizes| && Valid(sizes[i]) && sizes[i] == sizes[j] ==>
      exists k :: i < k < j && Valid(sizes[k])
  }

  /** Nothing was lost, the loader has heard all sizes, and the last is one it can use. */
  predicate HeardAll(s: System) {
    && s.surface.Some? && s.running && !s.lossy && s.sizes != [] && Valid(s.sizes[|s.sizes| - 1])
    && forall m :: m in s.down ==> !m.Configure?
  }

  /** Once heard, these sizes always leave one frame on its way, and no buffer astray. */
  ghost predicate PumpsFor(modifiers: seq<nat>, sizes: seq<Size>) {
    forall events :: Run(true, modifiers, events).sizes <= sizes && HeardAll(Run(true, modifiers, events)) ==>
      Exact(Run(true, modifiers, events))
  }

  // ---------- sizes that do not stall ----------

  /** The loader is at the last size if it can use it, or has yet to hear of it. */
  predicate Told(s: System) {
    s.surface.Some? && s.running && !s.lossy && s.sizes != [] ==>
      var last := s.sizes[|s.sizes| - 1];
      if exists m :: m in s.down && m.Configure? then Configure(last, |s.sizes|) in s.down
      else Valid(last) ==> s.output.Some? && s.output.value.size == last
  }

  /** What a step that is not about sizes leaves alone. */
  ghost predicate SameSizes(s: System, s': System) {
    && s'.sizes == s.sizes && (s'.surface.Some? ==> s.surface.Some?) && (s'.running ==> s.running)
    && (!s'.lossy ==> !s.lossy)
    && (s.output.Some? ==> s'.output.Some? && s'.output.value.size == s.output.value.size)
    && (s'.surface.Some? && s'.running && !s'.lossy ==> forall m: Down :: m.Configure? ==>
        (m in s'.down <==> m in s.down))
  }

  lemma SameSizesTold(s: System, s': System)
    requires Told(s) && SameSizes(s, s')
    ensures Told(s')
  {
    if exists m :: m in s'.down && m.Configure? {
    }
  }

  lemma SendSame(s: System, m: Down, sent: Sent)
    requires Sound(s) && !m.Configure?
    ensures SameSizes(s, Send(s, Some(m), sent))
  {
    hide Watch, Stopped;
  }

  lemma StopSame(s: System)
    requires Sound(s)
    ensures SameSizes(s, Stop(s))
  {
    hide Watch, Stopped;
  }

  lemma AffectSame(s: System, e: Effect)
    requires s.surface.Some?
    ensures SameSizes(s, Affect(s, e))
  {
    hide Watch;
  }

  lemma SameTwice(s: System, s1: System, s2: System)
    requires SameSizes(s, s1) && SameSizes(s1, s2)
    ensures SameSizes(s, s2)
  {
  }

  lemma ShellSame(s: System, e: Effect, sent: Sent)
    requires Sound(s) && s.surface.Some? && Shaped(e.surface) && (e.message.Some? ==> !e.message.value.Configure?)
    ensures SameSizes(s, Shell(s, e, sent))
  {
    var s1 := Affect(s, e);
    AffectSame(s, e);
    assert Sound(s1);
    hide Send, SameSizes, Affect;
    if e.message.Some? {
      SendSame(s1, e.message.value, sent);
      SameTwice(s, s1, Shell(s, e, sent));
    } else {
      assert Shell(s, e, sent) == s1 by {
        SendNone(s1, sent);
      }
    }
  }

  lemma SendNone(s: System, sent: Sent)
    requires Sound(s)
    ensures Send(s, None, sent) == s
  {
  }

  lemma SelfSame(s: System)
    ensures SameSizes(s, s)
  {
  }

  lemma ReceiveSame(s: System, modifiers: seq<nat>)
    requires Sound(s)
    ensures SameSizes(s, Step(s, modifiers, ShellReceives))
  {
    SelfSame(s);
    if s.up != [] && s.running {
      var s1 := s.(up := s.up[1..]);
      assert SameSizes(s, s1) && Sound(s1);
      StopSame(s1);
      if s.surface.Some? {
        var e := Handle(s.surface.value, modifiers, s.up[0]);
        hide Handle, Stop, SameSizes, Affect;
        if e.Some? {
          AffectSame(s1, e.value);
          SameTwice(s, s1, Affect(s1, e.value));
        } else {
          SameTwice(s, s1, Stop(s1));
        }
      }
    }
  }

  lemma ShellStepSame(s: System, modifiers: seq<nat>, e: Event)
    requires Sound(s) && (e.FrameShown? || e.Imported? || e.Released?)
    ensures SameSizes(s, Step(s, modifiers, e))
  {
    SelfSame(s);
    hide SameSizes, Affect, Send, Shell;
    if s.surface.Some? {
      var f := s.surface.value;
      if e.FrameShown? {
        ShellSame(s, FrameDone(f), e.sent);
      } else if e.Imported? {
        if Importing(f, e.slot) {
          AffectSame(s, ParamsCreated(f, e.slot));
        }
        hide ParamsCreated;
      } else if HoldsSlot(s, e.slot) {
        ShellSame(s, BufferRelease(f, e.slot), e.sent);
      }
    }
  }

  lemma RemovedSame(s: System, modifiers: seq<nat>, sent: Sent)
    requires Sound(s)
    ensures SameSizes(s, Step(s, modifiers, Removed(sent)))
  {
    hide Watch, Stopped, DestroyBuffers;
  }

  lemma DrawSame(s: System, modifiers: seq<nat>)
    requires Sound(s)
    ensures SameSizes(s, Step(s, modifiers, LoaderDraws))
  {
    if s.output.Some? {
      var o := s.output.value;
      var told := OutputDraw(o);
      assert told.output.Some? && told.output.value.size == o.size;
      assert Step(s, modifiers, LoaderDraws) == s.(output := told.output, up := s.up + told.messages);
      hide OutputDraw, Step;
    }
  }

  lemma OtherStepSame(s: System, modifiers: seq<nat>, e: Event)
    requires Sound(s) && !e.Configured? && !e.LoaderReceives?
    ensures SameSizes(s, Step(s, modifiers, e))
  {
    match e
    case Removed(sent) => RemovedSame(s, modifiers, sent); hide *;
    case ShellReceives => ReceiveSame(s, modifiers); hide *;
    case LoaderGone => StopSame(s); hide Stop, SameSizes;
    case LoaderDraws => DrawSame(s, modifiers); hide *;
    case _ => ShellStepSame(s, modifiers, e); hide *;
  }

  lemma ConfiguredTold(s: System, size: Size, hasMemory: bool, sent: Sent)
    requires Inv(s) && Told(s)
    ensures Told(Step(s, [], Configured(size, hasMemory, sent)))
  {
    if s.surface.Some? {
      ConfiguredIs(s, size, hasMemory, sent);
      var gen := s.surface.value.gen + 1;
      assert gen == |s.sizes| + 1;
      SizeSentTold(Resized(s, size, hasMemory), size, gen, sent);
      hide Inv, Send, Told;
    }
    hide Inv, Send, Told;
  }

  lemma SizeSentTold(s: System, size: Size, gen: nat, sent: Sent)
    requires Sound(s) && s.sizes != [] && s.sizes[|s.sizes| - 1] == size && |s.sizes| == gen
    ensures Told(Send(s, Some(Configure(size, gen)), sent))
  {
    var m := Configure(size, gen);
    StopSame(s);
    if s.running && sent.Delivered? {
      assert m in s.down + [m];
      hide Stop;
    } else {
      assert s.running && sent.Broken? ==> !Stop(s).running by {
        hide Watch, Stopped;
      }
      hide Stop, SameSizes;
    }
  }

  /** A CONFIGURE with no other behind it is the last there is. */
  lemma LastHeard(s: System)
    requires Inv(s) && s.down != [] && s.down[0].Configure?
    ensures forall m :: m in s.down[1..] && m.Configure? ==> m.gen > s.down[0].gen
    ensures forall m :: m in s.down && m.Configure? ==> 1 <= m.gen <= |s.sizes| && m.size == s.sizes[m.gen - 1]
  {
    hide History, UpOk, SlotsOk, Account;
  }

  lemma HearTold(s: System, driver: Driver)
    requires Inv(s) && Told(s)
    ensures Told(Step(s, [], LoaderReceives(driver)))
  {
    if s.down != [] {
      var m, s' := s.down[0], Step(s, [], LoaderReceives(driver));
      if m.Configure? {
        LastHeard(s);
        HearConfigure(s, driver, s');
        hide Step;
      } else {
        HearOther(s, driver, s');
        hide Step;
      }
      hide Inv;
      if s.surface.Some? && s.running && !s.lossy && s.sizes != [] {
        HeardTold(s, m, s');
      }
    }
  }

  lemma HearConfigure(s: System, driver: Driver, s': System)
    requires Sound(s) && s.down != [] && s.down[0].Configure? && s' == Step(s, [], LoaderReceives(driver))
    ensures Elsewise(s, s')
    ensures if Valid(s.down[0].size) then s'.output.Some? && s'.output.value.size == s.down[0].size
            else s'.output == s.output
  {
    hide Buffers;
  }

  lemma HearOther(s: System, driver: Driver, s': System)
    requires Inv(s) && s.down != [] && !s.down[0].Configure? && s' == Step(s, [], LoaderReceives(driver))
    ensures Elsewise(s, s')
    ensures s.surface.Some? && s.output.Some? ==> s'.output.Some? && s'.output.value.size == s.output.value.size
  {
    assert s.down[0].Remove? ==> s.surface.None?;
    hide History, UpOk, SlotsOk, Account;
  }

  predicate Elsewise(s: System, s': System) {
    && s.down != [] && s'.down == s.down[1..] && s'.surface == s.surface && s'.running == s.running
    && s'.sizes == s.sizes && s'.lossy == s.lossy
  }

  lemma HeardTold(s: System, m: Down, s': System)
    requires Told(s) && Elsewise(s, s') && m == s.down[0] && s.surface.Some? && s.running && !s.lossy && s.sizes != []
    requires m.Configure? ==>
               && (forall x :: x in s.down[1..] && x.Configure? ==> x.gen > m.gen)
               && (forall x :: x in s.down && x.Configure? ==> 1 <= x.gen <= |s.sizes| && x.size == s.sizes[x.gen - 1])
               && (if Valid(m.size) then s'.output.Some? && s'.output.value.size == m.size else s'.output == s.output)
    requires !m.Configure? && s.output.Some? ==> s'.output.Some? && s'.output.value.size == s.output.value.size
    ensures Told(s')
  {
    var last := Configure(s.sizes[|s.sizes| - 1], |s.sizes|);
    assert s.down == [m] + s.down[1..];
    if exists x :: x in s'.down && x.Configure? {
      var x :| x in s'.down && x.Configure?;
      assert x in s.down && last in s.down;
      assert last != m;
    } else if m.Configure? {
      assert m in s.down && last in s.down;
      assert m == last;
    } else {
      assert forall x :: x in s.down && x.Configure? ==> x in s'.down;
    }
  }

  lemma StepTold(s: System, modifiers: seq<nat>, e: Event)
    requires Inv(s) && Told(s)
    ensures Told(Step(s, modifiers, e))
  {
    assert Sound(s);
    hide Inv, Told, Step, Sound, SameSizes;
    if e.Configured? {
      OnlyReceivingImports(s, modifiers, e);
      ConfiguredTold(s, e.size, e.hasMemory, e.sent);
    } else if e.LoaderReceives? {
      OnlyReceivingImports(s, modifiers, e);
      HearTold(s, e.driver);
    } else {
      OtherStepSame(s, modifiers, e);
      SameSizesTold(s, Step(s, modifiers, e));
    }
  }

  lemma NoneTold(running: bool, modifiers: seq<nat>)
    ensures Told(Run(running, modifiers, []))
  {
  }

  lemma {:induction false} RunTold(running: bool, modifiers: seq<nat>, events: seq<Event>)
    requires NoReturn(Run(running, modifiers, events).sizes)
    ensures Told(Run(running, modifiers, events))
  {
    hide *;
    if events == [] {
      NoneTold(running, modifiers);
    } else {
      var n := |events| - 1;
      NoReturnBefore(running, modifiers, events, n);
      RunTold(running, modifiers, events[..n]);
      RunInv(running, modifiers, events[..n]);
      RunMore(running, modifiers, events);
      StepTold(Run(running, modifiers, events[..n]), modifiers, events[n]);
    }
  }

  lemma BetweenSame(sizes: seq<Size>, i: nat, k: nat, j: nat)
    requires NoReturn(sizes) && i < k < j < |sizes| && Valid(sizes[i]) && Valid(sizes[k]) && sizes[i] == sizes[j]
    ensures sizes[k] == sizes[i]
  {
    hide Valid;
  }

  lemma LullBetween(sizes: seq<Size>, i: nat, j: nat) returns (k: nat)
    requires NoLull(sizes) && i + 1 < j < |sizes| && Valid(sizes[i]) && sizes[i] == sizes[j]
    ensures i < k < j && Valid(sizes[k])
  {
    hide Valid;
    k :| i < k < j && Valid(sizes[k]);
  }

  /** Without returns and lulls, a usable size is had once. */
  lemma {:induction false} UsableOnce(sizes: seq<Size>, i: nat, j: nat)
    requires Returning.Changing(sizes) && NoReturn(sizes) && NoLull(sizes) && i <= j < |sizes|
    requires Valid(sizes[i]) && sizes[i] == sizes[j]
    ensures i == j
    decreases j
  {
    hide NoReturn, NoLull, Valid;
    if i + 1 < j {
      var k := LullBetween(sizes, i, j);
      BetweenSame(sizes, i, k, j);
      UsableOnce(sizes, i, k);
    }
  }

  lemma BeginningToo(sizes: seq<Size>, longer: seq<Size>)
    requires sizes <= longer && Returning.Changing(longer) && NoReturn(longer) && NoLull(longer)
    ensures Returning.Changing(sizes) && NoReturn(sizes) && NoLull(sizes)
  {
    assert sizes == longer[..|sizes|];
    Returning.NoReturnPrefix(sizes, longer);
    hide Valid, NoReturn;
    forall i, j | 0 <= i < i + 1 < j < |sizes| && Valid(sizes[i]) && sizes[i] == sizes[j]
      ensures exists k :: i < k < j && Valid(sizes[k])
    {
      var k := LullBetween(longer, i, j);
      assert Valid(sizes[k]);
    }
  }

  /** What has been heard is the last CONFIGURE's, as the size was had once. */
  lemma HeardCaughtUp(s: System)
    requires Inv(s) && Told(s) && HeardAll(s) && Returning.Changing(s.sizes) && NoReturn(s.sizes) && NoLull(s.sizes)
    ensures CaughtUp(s)
  {
    assert s.output.Some? && SizeAt(s.sizes, Gen(s), s.sizes[|s.sizes| - 1]) by {
      hide UpOk, DownOk, SlotsOk, Account, NoReturn, NoLull, Valid;
    }
    hide Inv, Told, NoReturn, NoLull, Valid;
    UsableOnce(s.sizes, Gen(s) - 1, |s.sizes| - 1);
  }

  lemma NoLullPumps(modifiers: seq<nat>, sizes: seq<Size>, running: bool, events: seq<Event>)
    requires Returning.Changing(sizes) && NoReturn(sizes) && NoLull(sizes)
    requires Run(running, modifiers, events).sizes <= sizes && HeardAll(Run(running, modifiers, events))
    ensures CaughtUp(Run(running, modifiers, events)) && Exact(Run(running, modifiers, events))
  {
    var s := Run(running, modifiers, events);
    BeginningToo(s.sizes, sizes);
    RunInv(running, modifiers, events);
    RunTold(running, modifiers, events);
    RunPumps(running, modifiers, events);
    hide Run, Inv, Told, NoReturn, NoLull, Exact, Arrivals;
    HeardCaughtUp(s);
    hide CaughtUp;
  }

  // ---------- a size that stalls ----------

  /** Loader and shell are at a size, and neither has anything of the other's to go on. */
  predicate Stuck(s: System) {
    && Sound(s) && s.surface.Some? && s.running && s.output.Some? && !s.output.value.frameWanted
    && Valid(s.surface.value.size) && s.output.value.size == s.surface.value.size
    && s.surface.value.configured && s.down == [] && s.up == [] && s.held == {} && Idle(s.surface.value)
  }

  lemma StuckNoFrame(s: System)
    requires Stuck(s)
    ensures Tokens(s) == 0 && !Exact(s)
  {
  }

  /** Nothing but a new size, or the end of the surface or of the loader, makes a difference. */
  lemma StuckStays(s: System, modifiers: seq<nat>, e: Event)
    requires Stuck(s)
    ensures var s' := Step(s, modifiers, e); s' == s || s'.sizes != s.sizes || s'.surface.None? || !s'.running
  {
    var s' := Step(s, modifiers, e);
    if e.Configured? {
      OnlyReceivingImports(s, modifiers, e);
      ConfiguredIs(s, e.size, e.hasMemory, e.sent) by {
        assert SlotsOk(s);
      }
      hide Step, Stopped, Watch;
    } else {
      StuckOther(s, modifiers, e);
      hide *;
    }
  }

  lemma StuckOther(s: System, modifiers: seq<nat>, e: Event)
    requires Stuck(s) && !e.Configured?
    ensures var s' := Step(s, modifiers, e); s' == s || s'.surface.None? || !s'.running
  {
    hide Watch, Stopped, DestroyBuffers, FirstFree;
    if e.LoaderDraws? {
      assert s.up + [] == s.up;
    }
  }

  // ---------- a run that gets there ----------

  /** What a shell, a loader and a compositor do that lose nothing and show nothing. */
  predicate Plainly(e: Event) {
    (e.Configured? && e.hasMemory && e.sent.Delivered?) || e.ShellReceives? || e.LoaderReceives? || e.LoaderDraws?
  }

  /** Something that such steps lead to from the beginning. */
  ghost predicate Closed(R: System -> bool, modifiers: seq<nat>) {
    R(Initial(true)) && forall s, e :: Sound(s) && R(s) && Plainly(e) ==> R(Step(s, modifiers, e))
  }

  predicate Passing(m: Up, size: Size) {
    m.buffer < SLOTS && ((m.Buffer? && m.size == size && m.fd.Some?) || (m.Ready? && m.fd.None?))
  }

  /** Between two sizes: the loader has drawn, and all it sent is for the size the surface has. */
  predicate Calm(s: System) {
    && Returning.Quiet(s) && !s.lossy
    && (s.output.Some? ==> !s.output.value.frameWanted && Valid(s.output.value.size))
    && (s.up != [] ==> s.output.Some? && s.sizes != [] && s.output.value.size == s.sizes[|s.sizes| - 1])
    && forall m :: m in s.up ==> s.output.Some? && Passing(m, s.output.value.size)
  }

  lemma PassOne(modifiers: seq<nat>, s: System)
    requires Sound(s) && s.running && s.surface.Some? && Idle(s.surface.value) && s.up != []
    requires exists size :: size != s.surface.value.size && Passing(s.up[0], size)
    ensures Step(s, modifiers, ShellReceives) == s.(up := s.up[1..])
  {
    assert Watch(s.held, []) == s.held;
    hide Watch, Importable, Stopped;
  }

  /** Everything of another size is taken off the channel. */
  lemma {:induction false} Drain(R: System -> bool, modifiers: seq<nat>, s: System, size: Size)
    requires Closed(R, modifiers) && R(s) && Sound(s) && s.running && s.surface.Some? && Idle(s.surface.value)
    requires size != s.surface.value.size && forall m :: m in s.up ==> Passing(m, size)
    ensures R(s.(up := []))
    decreases |s.up|
  {
    if s.up == [] {
      assert s.(up := []) == s;
    } else {
      assert s.up[0] in s.up;
      PassOne(modifiers, s);
      hide Step, Idle, Passing;
      var s1 := s.(up := s.up[1..]);
      assert R(s1) by {
        assert Plainly(ShellReceives);
      }
      Drain(R, modifiers, s1, size);
      assert s1.(up := []) == s.(up := []);
    }
  }

  /** The surface has another size, and the shell has dropped all that was sent for the one before. */
  lemma NewSize(R: System -> bool, modifiers: seq<nat>, s: System, size: Size) returns (s1: System)
    requires Closed(R, modifiers) && R(s) && Calm(s) && (s.sizes == [] || s.sizes[|s.sizes| - 1] != size)
    ensures R(s1) && s1 == Resized(s, size, true).(down := [Configure(size, |s.sizes| + 1)], up := [])
  {
    var c := Configured(size, true, Delivered);
    Returning.ResizeQuiet(modifiers, s, size, Delivered);
    var s2 := Resized(s, size, true).(down := [Configure(size, |s.sizes| + 1)]);
    assert Plainly(c) && R(s2) && Sound(s2);
    s1 := s2.(up := []);
    hide Step, Valid, Returning.Quiet;
    if s.up == [] {
      assert s1 == s2;
    } else {
      assert s.up[0] in s.up;
      Drain(R, modifiers, s2, s.output.value.size);
    }
  }

  lemma IgnoresSize(modifiers: seq<nat>, s: System, size: Size, gen: nat)
    requires Sound(s) && s.down == [Configure(size, gen)] && s.up == []
    requires !Valid(size) || (s.output.Some? && s.output.value.size == size)
    ensures Step(s, modifiers, LoaderReceives(Driver([], []))) == s.(down := [])
  {
    assert s.up + [] == s.up && s.down[1..] == [];
    hide Valid;
  }

  /** The loader hears of a size that changes nothing for it. */
  lemma Ignored(R: System -> bool, modifiers: seq<nat>, s: System, size: Size) returns (s': System)
    requires Closed(R, modifiers) && R(s) && Calm(s) && (s.sizes == [] || s.sizes[|s.sizes| - 1] != size)
    requires !Valid(size) || (s.output.Some? && s.output.value.size == size)
    ensures R(s') && Calm(s') && s'.sizes == s.sizes + [size] && s'.output == s.output && s'.up == []
  {
    var s1 := NewSize(R, modifiers, s, size);
    assert Sound(s1) && s1.output == s.output && s1.sizes == s.sizes + [size];
    IgnoresSize(modifiers, s1, size, |s.sizes| + 1);
    s' := s1.(down := []);
    assert R(s') by {
      assert Plainly(LoaderReceives(Driver([], [])));
      hide Step, Calm, Valid;
    }
    assert Returning.Quiet(s');
    hide Step, Valid, Returning.Quiet;
  }

  lemma {:induction false} BuffersPass(size: Size, gen: nat, driver: Driver, n: nat)
    requires n <= SLOTS
    ensures forall m :: m in Buffers(size, gen, driver, n) ==> Passing(m, size)
    decreases n
  {
    if n > 0 {
      BuffersPass(size, gen, driver, n - 1);
    }
  }

  lemma TakesSize(modifiers: seq<nat>, s: System, size: Size, gen: nat, driver: Driver)
    requires Sound(s) && s.down == [Configure(size, gen)] && s.up == []
    requires Valid(size) && (s.output.Some? ==> s.output.value.size != size)
    ensures Step(s, modifiers, LoaderReceives(driver)) ==
            s.(down := [], output := Some(Output(size, ALL_FREE, true, gen)), up := Buffers(size, gen, driver, SLOTS))
  {
    assert [] + Buffers(size, gen, driver, SLOTS) == Buffers(size, gen, driver, SLOTS) && s.down[1..] == [];
    hide Valid, Buffers;
  }

  lemma DrawsOne(modifiers: seq<nat>, s: System)
    requires Sound(s) && s.output.Some? && s.output.value.busy == ALL_FREE && s.output.value.frameWanted
    ensures var o := s.output.value;
            Step(s, modifiers, LoaderDraws) ==
            s.(output := Some(o.(busy := [true, false, false], frameWanted := false)),
               up := s.up + [Ready(0, o.gen, None)])
  {
    assert FirstFree(ALL_FREE) == 0 && ALL_FREE[0 := true] == [true, false, false];
  }

  /** The loader makes buffers for a size, and draws. */
  lemma TakenUp(R: System -> bool, modifiers: seq<nat>, s: System, size: Size) returns (s': System)
    requires Closed(R, modifiers) && R(s) && Calm(s) && (s.sizes == [] || s.sizes[|s.sizes| - 1] != size)
    requires Valid(size) && (s.output.Some? ==> s.output.value.size != size)
    ensures R(s') && Calm(s') && s'.sizes == s.sizes + [size] && s'.output.Some? && s'.output.value.size == size
  {
    var gen, driver := |s.sizes| + 1, Driver([], []);
    var s1 := NewSize(R, modifiers, s, size);
    assert Sound(s1) && s1.output == s.output && s1.sizes == s.sizes + [size];
    TakesSize(modifiers, s1, size, gen, driver);
    var s2 := Step(s1, modifiers, LoaderReceives(driver));
    DrawsOne(modifiers, s2);
    s' := Step(s2, modifiers, LoaderDraws);
    BuffersPass(size, gen, driver, SLOTS);
    assert R(s') by {
      assert Plainly(LoaderReceives(driver)) && Plainly(LoaderDraws);
      hide Step, Calm, Valid;
    }
    hide Step, Valid, Buffers;
    assert Passing(Ready(0, gen, None), size);
  }

  lemma Advance(R: System -> bool, modifiers: seq<nat>, s: System, size: Size) returns (s': System)
    requires Closed(R, modifiers) && R(s) && Calm(s) && (s.sizes == [] || s.sizes[|s.sizes| - 1] != size)
    ensures R(s') && Calm(s') && s'.sizes == s.sizes + [size]
    ensures if Valid(size) then s'.output.Some? && s'.output.value.size == size
            else s'.output == s.output && s'.up == []
    ensures Valid(size) && s.output.Some? && s.output.value.size == size ==> s'.up == []
  {
    hide *;
    if Valid(size) && (s.output.Some? ==> s.output.value.size != size) {
      s' := TakenUp(R, modifiers, s, size);
    } else {
      s' := Ignored(R, modifiers, s, size);
    }
  }

  lemma {:induction false} AdvanceAll(R: System -> bool, modifiers: seq<nat>, sizes: seq<Size>) returns (s: System)
    requires Closed(R, modifiers) && Returning.Changing(sizes)
    ensures R(s) && Calm(s) && s.sizes == sizes
    ensures sizes != [] && Valid(sizes[|sizes| - 1]) ==> s.output.Some? && s.output.value.size == sizes[|sizes| - 1]
    decreases |sizes|
  {
    if sizes == [] {
      s := Initial(true);
      hide Valid;
    } else {
      var n := |sizes| - 1;
      Returning.NextSize(sizes, n);
      assert sizes[..n + 1] == sizes;
      hide *;
      var before := AdvanceAll(R, modifiers, sizes[..n]);
      s := Advance(R, modifiers, before, sizes[n]);
    }
  }

  /** After some usable size, only unusable ones. */
  lemma {:induction false} Lulled(R: System -> bool, modifiers: seq<nat>, sizes: seq<Size>, i: nat, j: nat)
      returns (s: System)
    requires Closed(R, modifiers) && Returning.Changing(sizes) && i < j < |sizes| && Valid(sizes[i])
    requires forall k :: i < k < j ==> !Valid(sizes[k])
    ensures R(s) && Calm(s) && s.sizes == sizes[..j] && s.output.Some? && s.output.value.size == sizes[i]
    decreases j
  {
    Returning.NextSize(sizes, j - 1);
    Returning.NextSize(sizes, j);
    hide *;
    if j == i + 1 {
      s := AdvanceAll(R, modifiers, sizes[..j]);
    } else {
      var before := Lulled(R, modifiers, sizes, i, j - 1);
      s := Advance(R, modifiers, before, sizes[j - 1]);
    }
  }

  lemma LullStalls(R: System -> bool, modifiers: seq<nat>, sizes: seq<Size>, i: nat, j: nat) returns (s: System)
    requires Closed(R, modifiers) && Returning.Changing(sizes) && i + 1 < j < |sizes|
    requires Valid(sizes[i]) && sizes[i] == sizes[j] && forall k :: i < k < j ==> !Valid(sizes[k])
    ensures R(s) && Stuck(s) && HeardAll(s) && s.sizes == sizes[..j + 1]
  {
    var before := Lulled(R, modifiers, sizes, i, j);
    Returning.NextSize(sizes, j);
    s := Advance(R, modifiers, before, sizes[j]);
    assert sizes[..j][j - 1] == sizes[j - 1];
    hide Valid, Closed, Passing;
  }

  // ---------- exactly when ----------

  ghost function Reachable(modifiers: seq<nat>): System -> bool {
    s => Returning.Reached(modifiers, s)
  }

  lemma ReachableClosed(modifiers: seq<nat>)
    ensures Closed(Reachable(modifiers), modifiers)
  {
    var R := Reachable(modifiers);
    assert Run(true, modifiers, []) == Initial(true);
    hide Run, Step, Plainly;
    forall s, e | Sound(s) && R(s) && Plainly(e)
      ensures R(Step(s, modifiers, e))
    {
      Returning.ReachedStep(modifiers, s, e);
    }
  }

  /**
   Of sizes no usable one of which returns after another, none ever stalls the
   exchange exactly if no usable one is followed by unusable ones only and then
   by itself; and where one does, a run of which nothing is lost gets stuck.
   */
  lemma PumpsExactly(modifiers: seq<nat>, sizes: seq<Size>)
    requires Returning.Changing(sizes) && NoReturn(sizes)
    ensures PumpsFor(modifiers, sizes) <==> NoLull(sizes)
    ensures !NoLull(sizes) ==>
              exists s :: Returning.Reached(modifiers, s) && s.sizes <= sizes && HeardAll(s) && Stuck(s)
  {
    hide Run, NoReturn, NoLull, Exact, HeardAll, Stuck, Returning.Changing;
    if NoLull(sizes) {
      forall events | Run(true, modifiers, events).sizes <= sizes && HeardAll(Run(true, modifiers, events))
        ensures Exact(Run(true, modifiers, events))
      {
        NoLullPumps(modifiers, sizes, true, events);
      }
    } else {
      var s := LullReached(modifiers, sizes);
      StuckNoFrame(s);
      var events :| Run(true, modifiers, events) == s;
    }
  }

  lemma LullReached(modifiers: seq<nat>, sizes: seq<Size>) returns (s: System)
    requires Returning.Changing(sizes) && !NoLull(sizes)
    ensures Returning.Reached(modifiers, s) && s.sizes <= sizes && HeardAll(s) && Stuck(s)
  {
    hide Exact, HeardAll, Stuck, Valid, Closed, Run, Returning.Changing;
    var i, j :| 0 <= i < i + 1 < j < |sizes| && Valid(sizes[i]) && sizes[i] == sizes[j]
      && forall k :: i < k < j ==> !Valid(sizes[k]);
    ReachableClosed(modifiers);
    s := LullStalls(Reachable(modifiers), modifiers, sizes, i, j);
  }

  const LULL: seq<Size> := [Size(1, 1), Size(0, 0), Size(1, 1)]

  /** Such sizes: a usable one, none, and the usable one again. */
  lemma LullGetsStuck(modifiers: seq<nat>)
    ensures NoReturn(LULL) && exists s :: Returning.Reached(modifiers, s) && s.sizes == LULL && HeardAll(s) && Stuck(s)
  {
    hide Stuck, HeardAll, Closed;
    ReachableClosed(modifiers);
    var s := LullStalls(Reachable(modifiers), modifiers, LULL, 0, 2);
    assert LULL[..3] == LULL;
    assert Returning.Reached(modifiers, s);
  }
}
