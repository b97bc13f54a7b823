/**
 What happens when a size comes back: buffers of the first time around, still
 on their way to the shell, pass for the new ones. So the exchange is safe
 exactly for the surfaces whose sizes never come back.
 */
module FrameReturn {
  import opened Bytes
  import opened LockSurface
  import opened FrameProtocol
  import opened FrameInvariant
  import opened FrameShellSteps
  import opened FrameSafety

  /** A surface is only told its size when that changes. */
  predicate Changing(sizes: seq<Size>) {
    forall i :: 0 < i < |sizes| ==> sizes[i - 1] != sizes[i]
  }

  /** In no run over these sizes does the loader draw into a buffer being shown. */
  ghost predicate SafeFor(modifiers: seq<nat>, sizes: seq<Size>) {
    forall events, n :: Run(true, modifiers, events).sizes == sizes && 0 <= n <= |events|
      ==> !Tearing(Run(true, modifiers, events[..n]))
  }

  ghost predicate Reached(modifiers: seq<nat>, s: System) {
    exists events :: Run(true, modifiers, events) == s
  }

  lemma ReachedStep(modifiers: seq<nat>, s: System, e: Event)
    requires Sound(s) && Reached(modifiers, s)
    ensures Reached(modifiers, Step(s, modifiers, e))
  {
    var events :| Run(true, modifiers, events) == s;
    assert (events + [e])[..|events|] == events;
    assert Run(true, modifiers, events + [e]) == Step(s, modifiers, e);
  }

  lemma NoReturnPrefix(sizes: seq<Size>, longer: seq<Size>)
    requires sizes <= longer && NoReturn(longer)
    ensures NoReturn(sizes)
  {
  }

  lemma NoReturnSafe(modifiers: seq<nat>, sizes: seq<Size>)
    requires NoReturn(sizes)
    ensures SafeFor(modifiers, sizes)
  {
    forall events, n | Run(true, modifiers, events).sizes == sizes && 0 <= n <= |events|
      ensures !Tearing(Run(true, modifiers, events[..n]))
    {
      SizesPrefix(true, modifiers, events, n);
      NoReturnPrefix(Run(true, modifiers, events[..n]).sizes, sizes);
      NeverTears(true, modifiers, events[..n]);
    }
  }

  // ---------- a driver whose buffers the compositor takes ----------

  function Plain(modifiers: seq<nat>, size: Size): Driver
    requires modifiers != [] && Valid(size)
  {
    var layout := Layout(size.width * 4, 0, modifiers[0]);
    var bytes := size.width * 4 * size.height;
    Driver([layout, layout, layout], [bytes, bytes, bytes])
  }

  function PlainBuffer(modifiers: seq<nat>, size: Size, gen: nat, i: nat): Up
    requires modifiers != [] && Valid(size)
  {
    BufferFor(size, gen, i, Plain(modifiers, size))
  }

  lemma Area(w: int, h: int)
    requires 0 < w <= MAX_SIZE && 0 < h <= MAX_SIZE
    ensures 0 < w * 4 * h < TWO_64 && w * 4 * h == (w * 4) * h
  {
    assert (MAX_SIZE - w) * h >= 0;
    assert w * h > 0;
  }

  lemma Fits(x: int)
    requires 0 <= x < TWO_64
    ensures U64(x) == x
  {
  }

  lemma PlainImportable(modifiers: seq<nat>, size: Size, gen: nat, i: nat)
    requires modifiers != [] && Valid(size) && i < SLOTS
    ensures var m := PlainBuffer(modifiers, size, gen, i);
            m.fd.Some? && Importable(modifiers, size, m.layout, m.fd.value.bytes) && m.fd.value.dmabuf == Dmabuf(gen, i)
  {
    Area(size.width, size.height);
    Fits(size.width);
    Fits(size.height);
    Fits(size.width * 4);
    Fits((size.width * 4) * size.height);
    hide U64;
  }

  function PlainBuffers(modifiers: seq<nat>, size: Size, gen: nat): seq<Up>
    requires modifiers != [] && Valid(size)
  {
    [PlainBuffer(modifiers, size, gen, 0), PlainBuffer(modifiers, size, gen, 1), PlainBuffer(modifiers, size, gen, 2)]
  }

  // ---------- getting to a size ----------

  /** The shell has no buffers, and nothing is on its way to the loader. */
  predicate Quiet(s: System) {
    && s.running && s.surface.Some? && Sound(s) && s.held == {} && s.down == []
    && Idle(s.surface.value) && s.surface.value.gen == |s.sizes| && s.surface.value.configured == (s.sizes != [])
    && (s.sizes != [] ==> s.surface.value.size == s.sizes[|s.sizes| - 1])
  }

  lemma ResizeQuiet(modifiers: seq<nat>, s: System, size: Size, sent: Sent)
    requires Quiet(s) && (s.sizes == [] || s.sizes[|s.sizes| - 1] != size) && !sent.Broken?
    ensures Step(s, modifiers, Configured(size, true, sent)) ==
            var s' := Resized(s, size, true);
            if sent.Dropped? then s'.(lossy := true) else s'.(down := [Configure(size, |s.sizes| + 1)])
  {
    hide Step, SlotsOk, Idle;
    QuietSlots(s);
    OnlyReceivingImports(s, modifiers, Configured(size, true, sent));
    ConfiguredIs(s, size, true, sent);
  }

  lemma QuietSlots(s: System)
    requires Quiet(s)
    ensures SlotsOk(s)
  {
  }

  /** The surface resized while the loader, for its part, may have done anything. */
  function Resettled(s: System, size: Size, up: seq<Up>, output: Option<Output>, lossy: bool): System
    requires s.surface.Some?
  {
    Resized(s, size, true).(up := up, output := output, lossy := lossy)
  }

  lemma ResettledQuiet(s: System, size: Size, up: seq<Up>, output: Option<Output>, lossy: bool)
    requires Quiet(s) && (output.Some? ==> |output.value.busy| == SLOTS)
    ensures Quiet(Resettled(s, size, up, output, lossy))
  {
  }

  lemma SkipOne(modifiers: seq<nat>, s: System, size: Size) returns (s': System)
    requires Quiet(s) && Reached(modifiers, s) && (s.sizes == [] || s.sizes[|s.sizes| - 1] != size)
    ensures Quiet(s') && Reached(modifiers, s') && s'.sizes == s.sizes + [size] && s'.up == s.up
            && s'.output == s.output
  {
    s' := Resettled(s, size, s.up, s.output, true);
    ResettledQuiet(s, size, s.up, s.output, true);
    assert s' == Resized(s, size, true).(lossy := true);
    ResizeQuiet(modifiers, s, size, Dropped);
    hide Step, Quiet, Reached;
    ReachedStep(modifiers, s, Configured(size, true, Dropped));
  }

  lemma NextSize(sizes: seq<Size>, n: nat)
    requires Changing(sizes) && n < |sizes|
    ensures Changing(sizes[..n]) && (n > 0 ==> sizes[..n][n - 1] != sizes[n])
            && sizes[..n + 1] == sizes[..n] + [sizes[n]]
  {
  }

  /** The messages telling the loader of some more sizes are all dropped. */
  lemma {:induction false} Skip(modifiers: seq<nat>, s: System, sizes: seq<Size>) returns (s': System)
    requires Quiet(s) && Reached(modifiers, s) && Changing(sizes) && s.sizes <= sizes
    ensures Quiet(s') && Reached(modifiers, s') && s'.sizes == sizes && s'.up == s.up && s'.output == s.output
    decreases |sizes|
  {
    hide *;
    if sizes == s.sizes {
      s' := s;
    } else {
      var n := |sizes| - 1;
      NextSize(sizes, n);
      var s1 := Skip(modifiers, s, sizes[..n]);
      s' := SkipOne(modifiers, s1, sizes[n]);
    }
  }

  /** The loader takes the next size up, and sends its buffers. */
  lemma Deliver(modifiers: seq<nat>, s: System, size: Size) returns (s': System)
    requires modifiers != [] && Quiet(s) && Reached(modifiers, s) && Valid(size)
    requires s.sizes == [] || s.sizes[|s.sizes| - 1] != size
    requires s.output.Some? ==> s.output.value.size != size
    ensures Quiet(s') && Reached(modifiers, s') && s'.sizes == s.sizes + [size]
    ensures s'.output == Some(Output(size, ALL_FREE, true, |s.sizes| + 1))
    ensures s'.up == s.up + PlainBuffers(modifiers, size, |s.sizes| + 1)
  {
    var gen := |s.sizes| + 1;
    var s1 := Resized(s, size, true).(down := [Configure(size, gen)]);
    var output := Some(Output(size, ALL_FREE, true, gen));
    assert Sound(s1) && s1.up == s.up && s1.output == s.output && s1.sizes == s.sizes + [size];
    s' := Resettled(s, size, s.up + PlainBuffers(modifiers, size, gen), output, s.lossy);
    ResettledQuiet(s, size, s'.up, output, s.lossy);
    assert s' == s1.(down := [], up := s'.up, output := output);
    ResizeQuiet(modifiers, s, size, Delivered);
    assert Step(s, modifiers, Configured(size, true, Delivered)) == s1;
    hide *;
    DeliverSteps(modifiers, s, s1, s', size);
  }

  lemma DeliverSteps(modifiers: seq<nat>, s: System, s1: System, s': System, size: Size)
    requires modifiers != [] && Sound(s) && Reached(modifiers, s) && Valid(size)
             && Step(s, modifiers, Configured(size, true, Delivered)) == s1
    requires Sound(s1) && s1.down == [Configure(size, |s1.sizes|)] && (s1.output.Some? ==> s1.output.value.size != size)
    requires s' == s1.(down := [], up := s1.up + PlainBuffers(modifiers, size, |s1.sizes|),
                       output := Some(Output(size, ALL_FREE, true, |s1.sizes|)))
    ensures Reached(modifiers, s')
  {
    hide *;
    ReachedStep(modifiers, s, Configured(size, true, Delivered));
    ThreeBuffers(modifiers, size, |s1.sizes|);
    LoaderTakesUp(modifiers, s1, size, Plain(modifiers, size));
    ReachedStep(modifiers, s1, LoaderReceives(Plain(modifiers, size)));
  }

  lemma LoaderTakesUp(modifiers: seq<nat>, s: System, size: Size, driver: Driver)
    requires Sound(s) && s.down == [Configure(size, |s.sizes|)] && Valid(size)
    requires s.output.Some? ==> s.output.value.size != size
    ensures Step(s, modifiers, LoaderReceives(driver)) ==
            s.(down := [], up := s.up + Buffers(size, |s.sizes|, driver, SLOTS),
               output := Some(Output(size, ALL_FREE, true, |s.sizes|)))
  {
    hide Buffers;
  }

  lemma ThreeBuffers(modifiers: seq<nat>, size: Size, gen: nat)
    requires modifiers != [] && Valid(size)
    ensures Buffers(size, gen, Plain(modifiers, size), SLOTS) == PlainBuffers(modifiers, size, gen)
  {
    var d := Plain(modifiers, size);
    assert Buffers(size, gen, d, 1) == [] + [BufferFor(size, gen, 0, d)];
    assert Buffers(size, gen, d, 2) == [BufferFor(size, gen, 0, d)] + [BufferFor(size, gen, 1, d)];
    assert Buffers(size, gen, d, 3)
           == [BufferFor(size, gen, 0, d), BufferFor(size, gen, 1, d)] + [BufferFor(size, gen, 2, d)];
  }

  // ---------- the size is back ----------

  /** Shell and loader agree on the size. */
  predicate Agreed(s: System) {
    && Sound(s) && s.running && s.surface.Some? && s.output.Some? && Valid(s.surface.value.size)
    && s.output.value.size == s.surface.value.size
  }

  /** What is left to say of a state of which the sizes are known. */
  function Now(s: System, slots: seq<Option<Slot>>, callback: bool, down: seq<Down>, up: seq<Up>, busy: seq<bool>,
               wanted: bool, held: set<Dmabuf>): System
    requires Agreed(s)
  {
    s.(surface := Some(s.surface.value.(slots := slots, frameCallback := callback)), down := down, up := up,
       output := Some(s.output.value.(busy := busy, frameWanted := wanted)), held := held)
  }

  function FreshSlot(size: Size, gen: nat, i: nat): Option<Slot> {
    Some(Slot(size, Dmabuf(gen, i), false, false))
  }

  function Fresh(size: Size, gen: nat): seq<Option<Slot>> {
    [FreshSlot(size, gen, 0), FreshSlot(size, gen, 1), FreshSlot(size, gen, 2)]
  }

  lemma ReceiveStep(modifiers: seq<nat>, s: System, e: Effect)
    requires Sound(s) && s.running && s.surface.Some? && s.up != []
    requires Handle(s.surface.value, modifiers, s.up[0]) == Some(e)
    ensures Step(s, modifiers, ShellReceives) == Affect(s.(up := s.up[1..]), e)
  {
    hide Handle, Affect;
  }

  /** A buffer in the place of another that is being imported, or of one that is not held. */
  lemma NotHeld(slot: Option<Slot>, d: Dmabuf)
    ensures Watch({}, DropSlot(slot) + [Import(d)]) == {}
  {
    WatchJoin({}, DropSlot(slot), [Import(d)]);
    WatchOne({}, Import(d));
    if slot.Some? {
      WatchOne({}, DropSlot(slot)[0]);
    }
    hide Watch;
  }

  lemma TakeBuffer(modifiers: seq<nat>, s: System, gen: nat, i: nat, rest: seq<Up>)
    requires modifiers != [] && Agreed(s) && i < SLOTS && s.held == {}
    requires s.up == [PlainBuffer(modifiers, s.surface.value.size, gen, i)] + rest
    ensures var f := s.surface.value;
            Step(s, modifiers, ShellReceives) ==
            s.(surface := Some(f.(slots := f.slots[i := FreshSlot(f.size, gen, i)])), up := rest)
  {
    var f := s.surface.value;
    var e := Effect(f.(slots := f.slots[i := FreshSlot(f.size, gen, i)]),
                    DropSlot(f.slots[i]) + [Import(Dmabuf(gen, i))], None);
    assert s.up[1..] == rest;
    assert Handle(f, modifiers, s.up[0]) == Some(e) by {
      PlainImportable(modifiers, f.size, gen, i);
      hide Importable, Valid, Plain;
    }
    NotHeld(f.slots[i], Dmabuf(gen, i));
    ReceiveStep(modifiers, s, e);
    hide Step, Handle, Watch, Valid, PlainBuffer, FreshSlot;
  }

  lemma PassBuffer(modifiers: seq<nat>, s: System, size: Size, gen: nat, i: nat, rest: seq<Up>)
    requires modifiers != [] && Agreed(s) && i < SLOTS && Valid(size) && size != s.surface.value.size
    requires s.up == [PlainBuffer(modifiers, size, gen, i)] + rest
    ensures Step(s, modifiers, ShellReceives) == s.(up := rest)
  {
    assert s.up[1..] == rest;
    assert Watch(s.held, []) == s.held;
    hide Importable, Valid;
  }

  lemma Behind(x: Up, y: Up, z: Up, rest: seq<Up>)
    ensures [x, y, z] + rest == [x] + ([y, z] + rest)
    ensures [y, z] + rest == [y] + ([z] + rest)
  {
  }

  lemma TakeThree(modifiers: seq<nat>, s: System, gen: nat, rest: seq<Up>)
    requires modifiers != [] && Agreed(s) && s.held == {} && Reached(modifiers, s)
    requires s.up == PlainBuffers(modifiers, s.surface.value.size, gen) + rest
    ensures Reached(modifiers,
                    s.(surface := Some(s.surface.value.(slots := Fresh(s.surface.value.size, gen))), up := rest))
  {
    hide Reached;
    var size := s.surface.value.size;
    var b := PlainBuffers(modifiers, size, gen);
    Behind(b[0], b[1], b[2], rest);
    TakeBuffer(modifiers, s, gen, 0, [b[1], b[2]] + rest);
    ReachedStep(modifiers, s, ShellReceives);
    var s1 := Step(s, modifiers, ShellReceives);
    TakeBuffer(modifiers, s1, gen, 1, [b[2]] + rest);
    ReachedStep(modifiers, s1, ShellReceives);
    var s2 := Step(s1, modifiers, ShellReceives);
    TakeBuffer(modifiers, s2, gen, 2, rest);
    ReachedStep(modifiers, s2, ShellReceives);
    hide Step, PlainBuffer, Valid;
    assert s2.surface.value.slots[2 := FreshSlot(size, gen, 2)] == Fresh(size, gen);
  }

  lemma PassThree(modifiers: seq<nat>, s: System, size: Size, gen: nat, rest: seq<Up>)
    requires modifiers != [] && Agreed(s) && Reached(modifiers, s) && Valid(size) && size != s.surface.value.size
    requires s.up == PlainBuffers(modifiers, size, gen) + rest
    ensures Reached(modifiers, s.(up := rest))
  {
    hide Reached;
    var b := PlainBuffers(modifiers, size, gen);
    Behind(b[0], b[1], b[2], rest);
    PassBuffer(modifiers, s, size, gen, 0, [b[1], b[2]] + rest);
    ReachedStep(modifiers, s, ShellReceives);
    var s1 := s.(up := [b[1], b[2]] + rest);
    PassBuffer(modifiers, s1, size, gen, 1, [b[2]] + rest);
    ReachedStep(modifiers, s1, ShellReceives);
    var s2 := s1.(up := [b[2]] + rest);
    PassBuffer(modifiers, s2, size, gen, 2, rest);
    ReachedStep(modifiers, s2, ShellReceives);
    hide Step, PlainBuffer, Valid;
  }

  /** Buffer 0 is imported, and the frame in it shown. */
  lemma ImportAndShow(modifiers: seq<nat>, s: System, gen: nat, rest: seq<Up>)
    requires Agreed(s) && s.held == {} && Reached(modifiers, s) && !s.surface.value.frameCallback
    requires s.surface.value.slots == Fresh(s.surface.value.size, gen) && s.up == [Ready(0, gen, None)] + rest
    ensures var f := s.surface.value;
            Reached(modifiers, s.(surface :=
                Some(f.(slots := f.slots[0 := Some(f.slots[0].value.(imported := true))], frameCallback := true)),
                                  up := rest, held := {Dmabuf(gen, 0)}))
  {
    hide Reached;
    var f := s.surface.value;
    ReachedStep(modifiers, s, Imported(0));
    assert Watch(s.held, []) == s.held;
    var s1 := s.(surface := Some(f.(slots := f.slots[0 := Some(f.slots[0].value.(imported := true))])));
    assert Step(s, modifiers, Imported(0)) == s1;
    ReachedStep(modifiers, s1, ShellReceives);
    assert s1.up[1..] == rest;
    ShowIs(modifiers, s1, gen);
    hide Step, Valid;
  }

  lemma ShowIs(modifiers: seq<nat>, s: System, gen: nat)
    requires Agreed(s) && s.held == {} && !s.surface.value.frameCallback
    requires s.surface.value.slots[0] == Some(Slot(s.surface.value.size, Dmabuf(gen, 0), true, false))
    requires s.up != [] && s.up[0] == Ready(0, gen, None)
    ensures Step(s, modifiers, ShellReceives) ==
            s.(surface := Some(s.surface.value.(frameCallback := true)), up := s.up[1..], held := {Dmabuf(gen, 0)})
  {
    hide Step, Watch, Valid;
    var f := s.surface.value;
    var attach := Attach(Drawn(f.size, Dmabuf(gen, 0)));
    PresentIs(f, gen);
    WatchJoin({}, [attach], [AskFrame, Commit]);
    WatchOne({}, attach);
    assert WatchStep({}, attach) == {Dmabuf(gen, 0)};
    WatchIdle({Dmabuf(gen, 0)}, [AskFrame, Commit]);
    ReceiveStep(modifiers, s, Present(f, 0));
  }

  lemma PresentIs(f: Surface, gen: nat)
    requires Shaped(f) && f.slots[0] == Some(Slot(f.size, Dmabuf(gen, 0), true, false)) && !f.frameCallback
    ensures Present(f, 0)
            == Effect(f.(frameCallback := true), [Attach(Drawn(f.size, Dmabuf(gen, 0)))] + [AskFrame, Commit], None)
  {
  }

  /** The old buffer is let go again while the loader draws into its new buffer 0 and is asked for more. */
  lemma ReleaseDrawAsk(modifiers: seq<nat>, s: System, oldGen: nat)
    requires Agreed(s) && Reached(modifiers, s) && s.surface.value.frameCallback && s.down == []
    requires s.surface.value.slots[0] == Some(Slot(s.surface.value.size, Dmabuf(oldGen, 0), true, false))
             && s.held == {Dmabuf(oldGen, 0)}
    requires s.output.value.busy == ALL_FREE && s.output.value.frameWanted
    ensures Reached(modifiers,
                    s.(surface := Some(s.surface.value.(frameCallback := false)), held := {},
                       down := [Release(0), Frame],
                                  up := s.up + [Ready(0, s.output.value.gen, None)],
                                  output := Some(s.output.value.(busy := [true, false, false], frameWanted := false))))
  {
    hide Reached, Valid;
    var f, o := s.surface.value, s.output.value;
    ReachedStep(modifiers, s, Released(0, Delivered));
    ReleaseIs(modifiers, s, oldGen);
    var s1 := s.(held := {}, down := [Release(0)]);
    ReachedStep(modifiers, s1, LoaderDraws);
    DrawIs(modifiers, s1);
    var s2 := s1.(up := s.up + [Ready(0, o.gen, None)],
                  output := Some(o.(busy := [true, false, false], frameWanted := false)));
    ReachedStep(modifiers, s2, FrameShown(Delivered));
    AskIs(modifiers, s2);
    hide Step;
    assert [Release(0)] + [Frame] == [Release(0), Frame];
  }

  lemma ReleaseIs(modifiers: seq<nat>, s: System, oldGen: nat)
    requires Agreed(s) && s.down == []
    requires s.surface.value.slots[0] == Some(Slot(s.surface.value.size, Dmabuf(oldGen, 0), true, false))
             && s.held == {Dmabuf(oldGen, 0)}
    ensures Step(s, modifiers, Released(0, Delivered)) == s.(held := {}, down := [Release(0)])
  {
    assert s.held - {Dmabuf(oldGen, 0)} == {};
    OnlyReceivingImports(s, modifiers, Released(0, Delivered));
    ReleasedIs(s, 0, Delivered);
    hide Valid, Step;
  }

  lemma DrawIs(modifiers: seq<nat>, s: System)
    requires Agreed(s) && s.output.value.busy == ALL_FREE && s.output.value.frameWanted
    ensures Step(s, modifiers, LoaderDraws) ==
            s.(up := s.up + [Ready(0, s.output.value.gen, None)],
               output := Some(s.output.value.(busy := [true, false, false], frameWanted := false)))
  {
    assert FirstFree(ALL_FREE) == 0;
    assert ALL_FREE[0 := true] == [true, false, false];
  }

  lemma AskIs(modifiers: seq<nat>, s: System)
    requires Agreed(s) && s.surface.value.frameCallback
    ensures Step(s, modifiers, FrameShown(Delivered)) ==
            s.(surface := Some(s.surface.value.(frameCallback := false)), down := s.down + [Frame])
  {
    assert Watch(s.held, []) == s.held;
  }

  /** The RELEASE of the old buffer 0 frees the new one, which is being shown. */
  lemma FreedWhileShown(modifiers: seq<nat>, s: System, driver: Driver)
    requires Agreed(s) && Reached(modifiers, s) && s.down == [Release(0), Frame]
    requires s.output.value.busy == [true, false, false] && s.held == {Dmabuf(s.output.value.gen, 0)}
    ensures var s' := s.(down := [], output := Some(s.output.value.(busy := ALL_FREE, frameWanted := true)));
            Reached(modifiers, s') && Tearing(s')
  {
    hide Reached, Valid;
    var o := s.output.value;
    assert s.up + [] == s.up && [true, false, false][0 := false] == ALL_FREE;
    ReachedStep(modifiers, s, LoaderReceives(driver));
    var s1 := s.(down := [Frame], output := Some(o.(busy := ALL_FREE)));
    assert Step(s, modifiers, LoaderReceives(driver)) == s1;
    ReachedStep(modifiers, s1, LoaderReceives(driver));
    var s2 := s1.(down := [], output := Some(o.(busy := ALL_FREE, frameWanted := true)));
    assert Step(s1, modifiers, LoaderReceives(driver)) == s2;
    assert FirstFree(ALL_FREE) == 0;
    assert DrawsInto(s2, Dmabuf(o.gen, 0));
  }

  /** Everything of the first time around still on its way: from here the loader can be led to tear. */
  lemma Ambush(modifiers: seq<nat>, s: System, size: Size, oldGen: nat, between: nat) returns (s': System)
    requires modifiers != [] && Agreed(s) && Reached(modifiers, s) && Valid(size) && size != s.surface.value.size
    requires Idle(s.surface.value) && s.held == {} && s.down == [] && s.output.value.busy == ALL_FREE
             && s.output.value.frameWanted
    requires s.up == PlainBuffers(modifiers, s.surface.value.size, oldGen) +
                     ([Ready(0, oldGen, None)] +
                      (PlainBuffers(modifiers, size, between)
                          + PlainBuffers(modifiers, s.surface.value.size, s.output.value.gen)))
    ensures Sound(s') && Reached(modifiers, s') && Tearing(s') && s'.sizes == s.sizes && s'.surface.Some?
    ensures s'.surface.value.size == s.surface.value.size && s'.surface.value.configured == s.surface.value.configured
  {
    hide Reached, PlainBuffers, Valid, Step, Tearing;
    var f, o := s.surface.value, s.output.value;
    var newer := PlainBuffers(modifiers, f.size, o.gen);
    var last := PlainBuffers(modifiers, size, between) + newer;
    var ready, shown := [Ready(0, o.gen, None)], [true, false, false];
    var oldSlots, newSlots := Fresh(f.size, oldGen), Fresh(f.size, o.gen);
    var oldShown := oldSlots[0 := Some(oldSlots[0].value.(imported := true))];
    var newShown := newSlots[0 := Some(newSlots[0].value.(imported := true))];
    var s1 := Now(s, oldSlots, false, [], [Ready(0, oldGen, None)] + last, ALL_FREE, true, {});
    TakeThree(modifiers, s, oldGen, [Ready(0, oldGen, None)] + last);
    assert s.(surface := Some(f.(slots := oldSlots)), up := s1.up) == s1;
    var s2 := Now(s, oldShown, true, [], last, ALL_FREE, true, {Dmabuf(oldGen, 0)});
    ImportAndShow(modifiers, s1, oldGen, last);
    var s3 := Now(s, oldShown, false, [Release(0), Frame], last + ready, shown, false, {});
    ReleaseDrawAsk(modifiers, s2, oldGen);
    assert last + ready == PlainBuffers(modifiers, size, between) + (newer + ready);
    var s4 := Now(s, oldShown, false, [Release(0), Frame], newer + ready, shown, false, {});
    PassThree(modifiers, s3, size, between, newer + ready);
    var s5 := Now(s, newSlots, false, [Release(0), Frame], ready, shown, false, {});
    TakeThree(modifiers, s4, o.gen, ready);
    var s6 := Now(s, newShown, true, [Release(0), Frame], [], shown, false, {Dmabuf(o.gen, 0)});
    assert ready == ready + [];
    ImportAndShow(modifiers, s5, o.gen, []);
    FreedWhileShown(modifiers, s6, Driver([], []));
    s' := Now(s, newShown, true, [], [], ALL_FREE, true, {Dmabuf(o.gen, 0)});
  }

  // ---------- exactly when it is safe ----------

  lemma ResizeAnyway(modifiers: seq<nat>, s: System, size: Size)
    requires Sound(s) && s.surface.Some? && (s.surface.value.configured ==> s.surface.value.size != size)
    ensures var s' := Step(s, modifiers, Configured(size, true, Dropped));
            s'.sizes == s.sizes + [size] && s'.surface.Some? && s'.surface.value.size == size
  {
    hide Watch, DropSlots;
  }

  lemma {:induction false} Complete(modifiers: seq<nat>, events: seq<Event>, sizes: seq<Size>, n: nat)
      returns (more: seq<Event>)
    requires Changing(sizes) && 0 < n <= |sizes|
    requires var s := Run(true, modifiers, events);
             s.sizes == sizes[..n] && s.surface.Some? && s.surface.value.size == sizes[n - 1]
    ensures Run(true, modifiers, events + more).sizes == sizes
    decreases |sizes| - n
  {
    hide Step;
    if n == |sizes| {
      more := [];
      assert events + [] == events && sizes[..n] == sizes;
    } else {
      var e := Configured(sizes[n], true, Dropped);
      ResizeAnyway(modifiers, Run(true, modifiers, events), sizes[n]);
      assert (events + [e])[..|events|] == events;
      assert sizes[..n + 1] == sizes[..n] + [sizes[n]];
      var rest := Complete(modifiers, events + [e], sizes, n + 1);
      more := [e] + rest;
      assert events + more == events + [e] + rest;
    }
  }

  lemma TearsBefore(modifiers: seq<nat>, s: System, sizes: seq<Size>, n: nat)
    requires Changing(sizes) && 0 < n <= |sizes| && Sound(s) && Reached(modifiers, s) && Tearing(s)
    requires s.sizes == sizes[..n] && s.surface.Some? && s.surface.value.size == sizes[n - 1]
    ensures !SafeFor(modifiers, sizes)
  {
    var events :| Run(true, modifiers, events) == s;
    var more := Complete(modifiers, events, sizes, n);
    assert (events + more)[..|events|] == events;
    hide Run, Tearing;
  }

  lemma Beginning(modifiers: seq<nat>) returns (s: System)
    ensures Reached(modifiers, s) && Quiet(s) && s.sizes == [] && s.output == None && s.up == []
  {
    s := Initial(true);
    assert Run(true, modifiers, []) == s;
  }

  lemma DrawQuietly(modifiers: seq<nat>, s: System) returns (s': System)
    requires Quiet(s) && Reached(modifiers, s) && s.output.Some? && s.output.value.busy == ALL_FREE
             && s.output.value.frameWanted
    ensures Quiet(s') && Reached(modifiers, s') && s'.sizes == s.sizes
            && s'.up == s.up + [Ready(0, s.output.value.gen, None)]
    ensures s'.output == Some(s.output.value.(busy := [true, false, false], frameWanted := false))
  {
    var o := s.output.value;
    s' := s.(up := s.up + [Ready(0, o.gen, None)],
             output := Some(o.(busy := [true, false, false], frameWanted := false)));
    assert FirstFree(ALL_FREE) == 0 && ALL_FREE[0 := true] == [true, false, false];
    assert Step(s, modifiers, LoaderDraws) == s';
    assert Quiet(s');
    hide Step, Reached, Quiet;
    ReachedStep(modifiers, s, LoaderDraws);
  }

  lemma AgreedQuietly(s: System)
    requires Quiet(s) && s.sizes != [] && s.output.Some? && s.output.value.size == s.sizes[|s.sizes| - 1]
             && Valid(s.output.value.size)
    ensures Agreed(s) && Idle(s.surface.value) && s.held == {} && s.down == []
    ensures s.surface.value.size == s.sizes[|s.sizes| - 1]
  {
  }

  lemma RegroupFour(a: seq<Up>, b: seq<Up>, c: seq<Up>, d: seq<Up>)
    ensures (([] + a) + b) + c + d == a + (b + (c + d))
  {
  }

  /** The next delivered size, after sizes that were all dropped. */
  lemma SkipAndDeliver(modifiers: seq<nat>, s: System, before: seq<Size>, size: Size) returns (s': System)
    requires modifiers != [] && Quiet(s) && Reached(modifiers, s) && Changing(before)
    requires s.sizes <= before && Valid(size) && (before == [] || before[|before| - 1] != size)
    requires s.output.Some? ==> s.output.value.size != size
    ensures Quiet(s') && Reached(modifiers, s') && s'.sizes == before + [size]
    ensures s'.output == Some(Output(size, ALL_FREE, true, |before| + 1))
    ensures s'.up == s.up + PlainBuffers(modifiers, size, |before| + 1)
  {
    hide *;
    var s1 := Skip(modifiers, s, before);
    s' := Deliver(modifiers, s1, size);
  }

  /** A size that returns leads to a frame drawn into a buffer being shown. */
  lemma ReturnReaches(modifiers: seq<nat>, sizes: seq<Size>, i: nat, k: nat, j: nat) returns (s: System)
    requires modifiers != [] && Changing(sizes) && i < k < j < |sizes|
    requires Valid(sizes[i]) && Valid(sizes[k]) && sizes[i] == sizes[j] != sizes[k]
    ensures Sound(s) && Reached(modifiers, s) && Tearing(s) && s.sizes == sizes[..j + 1]
    ensures s.surface.Some? && s.surface.value.size == sizes[j]
  {
    hide *;
    NextSize(sizes, i);
    NextSize(sizes, j);
    var s0 := Beginning(modifiers);
    var s1 := SkipAndDeliver(modifiers, s0, sizes[..i], sizes[i]);
    var s3 := DrawAndMeet(modifiers, s1, sizes, i, k);
    var s4 := SkipAndDeliver(modifiers, s3, sizes[..j], sizes[j]);
    RegroupFour(PlainBuffers(modifiers, sizes[i], i + 1), [Ready(0, i + 1, None)],
            PlainBuffers(modifiers, sizes[k], k + 1), PlainBuffers(modifiers, sizes[j], j + 1));
    AgreedQuietly(s4);
    s := Ambush(modifiers, s4, sizes[k], i + 1, k + 1);
  }

  /** A frame is drawn for one size, and then comes another. */
  lemma DrawAndMeet(modifiers: seq<nat>, s: System, sizes: seq<Size>, i: nat, k: nat) returns (s': System)
    requires modifiers != [] && Changing(sizes) && i < k < |sizes| && Valid(sizes[k]) && sizes[k] != sizes[i]
    requires Quiet(s) && Reached(modifiers, s) && s.sizes == sizes[..i] + [sizes[i]]
    requires s.output == Some(Output(sizes[i], ALL_FREE, true, i + 1))
    ensures Quiet(s') && Reached(modifiers, s') && s'.sizes == sizes[..k] + [sizes[k]]
    ensures s'.output == Some(Output(sizes[k], ALL_FREE, true, k + 1))
    ensures s'.up == s.up + [Ready(0, i + 1, None)] + PlainBuffers(modifiers, sizes[k], k + 1)
  {
    hide *;
    NextSize(sizes, i);
    NextSize(sizes, k);
    var s1 := DrawFirst(modifiers, s);
    s' := SkipAndDeliver(modifiers, s1, sizes[..k], sizes[k]);
  }

  lemma ReturnTears(modifiers: seq<nat>, sizes: seq<Size>, i: nat, k: nat, j: nat)
    requires modifiers != [] && Changing(sizes) && i < k < j < |sizes|
    requires Valid(sizes[i]) && Valid(sizes[k]) && sizes[i] == sizes[j] != sizes[k]
    ensures !SafeFor(modifiers, sizes)
  {
    hide *;
    var s := ReturnReaches(modifiers, sizes, i, k, j);
    TearsBefore(modifiers, s, sizes, j + 1);
  }

  lemma DrawFirst(modifiers: seq<nat>, s: System) returns (s': System)
    requires Quiet(s) && Reached(modifiers, s) && s.output.Some? && s.output.value.busy == ALL_FREE
             && s.output.value.frameWanted
    ensures Quiet(s') && Reached(modifiers, s') && s'.sizes == s.sizes
            && s'.up == s.up + [Ready(0, s.output.value.gen, None)]
    ensures s'.output.Some? && s'.output.value.size == s.output.value.size
  {
    s' := DrawQuietly(modifiers, s);
    hide *;
  }

  /** The exchange is safe over exactly those sizes of which no usable one comes back. */
  lemma SafeExactly(modifiers: seq<nat>, sizes: seq<Size>)
    requires modifiers != [] && Changing(sizes)
    ensures SafeFor(modifiers, sizes) <==> NoReturn(sizes)
  {
    if NoReturn(sizes) {
      NoReturnSafe(modifiers, sizes);
    } else {
      var i, k, j :| 0 <= i < k < j < |sizes| && Valid(sizes[i]) && Valid(sizes[k]) && sizes[i] == sizes[j]
        && sizes[k] != sizes[i];
      ReturnTears(modifiers, sizes, i, k, j);
    }
  }
}
