module FrameSteps {
  import opened Bytes
  import opened LockSurface
  import opened FrameProtocol
  import opened FrameInvariant

  // ---------- the loader's steps ----------

  /** Busy flags and wanted frames are of no concern to the order of messages. */
  lemma OutputChange(s: System, o: Output)
    requires Sound(s) && Structure(s) && s.output.Some?
    requires o.gen == Gen(s) && o.size == s.output.value.size && |o.busy| == SLOTS
    ensures Structure(s.(output := Some(o)))
  {
    var s' := s.(output := Some(o));
    assert forall m :: Inert(s.output, m) == Inert(s'.output, m);
    hide MovedOn, UpMessageOk, Inert;
  }

  lemma Heard(s: System, ms: seq<Up>)
    requires Sound(s) && Structure(s) && s.output.Some?
    requires forall m :: m in ms ==> UpMessageOk(m, s.sizes) && Tag(m) == Gen(s)
    ensures Structure(s.(up := s.up + ms))
  {
    var s' := s.(up := s.up + ms);
    hide MovedOn, UpMessageOk, Inert, Tag;
    assert DownOk(s') && History(s');
    hide DownOk, History;
  }

  lemma DrawStructure(s: System)
    requires Sound(s) && Structure(s)
    ensures Structure(Step(s, [], LoaderDraws))
  {
    if s.output.Some? {
      var told := OutputDraw(s.output.value);
      OutputChange(s, told.output.value);
      var s1 := s.(output := told.output);
      assert forall m :: m in told.messages ==> UpMessageOk(m, s.sizes) && Tag(m) == Gen(s1);
      hide Structure, UpMessageOk, Tag, OutputDraw;
      Heard(s1, told.messages);
    }
  }

  lemma DrawAccount(s: System)
    requires Sound(s) && Account(s)
    ensures Account(Step(s, [], LoaderDraws))
  {
    if s.output.None? || OutputDraw(s.output.value).messages == [] {
      assert s.up + [] == s.up;
    } else {
      var n := FirstFree(s.output.value.busy);
      assert Step(s, [], LoaderDraws) == AfterDraw(s, n);
      hide *;
      DrawnAccount(s, n);
    }
  }

  /** A frame drawn into buffer n. */
  function AfterDraw(s: System, n: nat): System
    requires s.output.Some? && n < |s.output.value.busy|
  {
    var o := s.output.value;
    s.(output := Some(o.(busy := o.busy[n := true], frameWanted := false)), up := s.up + [Ready(n, o.gen, None)])
  }

  lemma DrawnReadies(s: System, n: nat, i: nat)
    requires s.output.Some? && n < |s.output.value.busy|
    ensures Readies(AfterDraw(s, n).up, Gen(s), i) == Readies(s.up, Gen(s), i) + One(i == n)
  {
    var m := Ready(n, Gen(s), None);
    ReadiesOne(m, Gen(s));
    ReadiesJoin(s.up, [m], Gen(s), i);
    hide Readies;
  }

  /** One READY more is on its way, and one frame less wanted. */
  lemma DrawnCounts(s: System, n: nat)
    requires Sound(s) && s.output.Some? && n < SLOTS && n < |s.output.value.busy| && s.output.value.frameWanted
    ensures Sound(AfterDraw(s, n)) && Gen(AfterDraw(s, n)) == Gen(s)
    ensures Tokens(AfterDraw(s, n)) == Tokens(s)
    ensures forall i :: 0 <= i < SLOTS ==> Places(AfterDraw(s, n), i) == Places(s, i) + One(i == n)
  {
    hide Readies, Releases, Frames;
    var s' := AfterDraw(s, n);
    DrawnReadies(s, n, 0);
    DrawnReadies(s, n, 1);
    DrawnReadies(s, n, 2);
    assert Pending(s', 0) == Pending(s, 0) && Pending(s', 1) == Pending(s, 1) && Pending(s', 2) == Pending(s, 2);
    assert s'.held == s.held && s'.down == s.down && s'.surface == s.surface;
    hide Pending, AfterDraw;
  }

  lemma DrawnAccount(s: System, n: nat)
    requires Sound(s) && Account(s) && s.output.Some? && n < SLOTS && !s.output.value.busy[n]
             && s.output.value.frameWanted
    ensures Account(AfterDraw(s, n))
  {
    DrawnCounts(s, n);
    hide Places, Tokens;
  }

  lemma ReadiesOne(m: Up, gen: nat)
    ensures forall i :: Readies([m], gen, i) == One(m.Ready? && m.gen == gen && m.buffer == i)
  {
    assert [m][1..] == [];
  }

  function Popped(s: System): System
    requires s.down != []
  {
    s.(down := s.down[1..])
  }

  lemma PopStructure(s: System)
    requires Sound(s) && Structure(s) && s.down != [] && !s.down[0].Remove?
    ensures Structure(Popped(s))
  {
    var s' := Popped(s);
    hide MovedOn, UpMessageOk, Tag;
    assert forall k :: 0 <= k < |s'.down| ==> s'.down[k] == s.down[k + 1];
    assert DownOk(s') && History(s');
    hide DownOk, History, Inert;
  }

  /** The loader takes up a new size. */
  lemma ReconfiguredStructure(s: System, driver: Driver)
    requires Sound(s) && Structure(s) && s.down != [] && s.down[0].Configure? && !Inert(s.output, s.down[0])
    ensures Structure(Step(s, [], LoaderReceives(driver)))
    ensures s.surface.Some? ==> Idle(s.surface.value)
    ensures s.held == {}
  {
    var s' := Step(s, [], LoaderReceives(driver));
    var m := s.down[0];
    assert s'.output == Some(Output(m.size, ALL_FREE, true, m.gen)) && s'.down == s.down[1..];
    assert s'.up == s.up + Buffers(m.size, m.gen, driver, SLOTS);
    NothingHeld(s);
    ReconfiguredDown(s, s');
    ReconfiguredUp(s, s', Buffers(m.size, m.gen, driver, SLOTS)) by {
      BuffersOk(m.size, m.gen, driver, SLOTS, s.sizes);
    }
    hide Step, MovedOn, UpMessageOk, Tag, Inert, UpOk, DownOk;
  }

  lemma NothingHeld(s: System)
    requires Sound(s) && SlotsOk(s) && !Settled(s)
    ensures s.surface.Some? ==> Idle(s.surface.value)
    ensures s.held == {}
  {
    hide Settled;
    assert forall d :: d in s.held ==> HoldsSlot(s, d.slot);
  }

  lemma ReconfiguredDown(s: System, s': System)
    requires Sound(s) && DownOk(s) && History(s) && s.down != [] && s.down[0].Configure? && !Inert(s.output, s.down[0])
    requires s'.surface == s.surface && s'.sizes == s.sizes && s'.down == s.down[1..]
    requires s'.output.Some? && s'.output.value.size == s.down[0].size && s'.output.value.gen == s.down[0].gen
    ensures DownOk(s') && History(s')
    ensures forall k :: 0 <= k < |s'.down| ==> !ForBuffers(s'.down[k])
  {
    assert History(s');
    hide Inert;
    assert forall k :: 0 <= k < |s'.down| ==> s'.down[k] == s.down[k + 1];
  }

  lemma {:induction false} BuffersOk(size: Size, gen: nat, driver: Driver, n: nat, sizes: seq<Size>)
    requires n <= SLOTS && SizeAt(sizes, gen, size) && Valid(size)
    ensures forall m :: m in Buffers(size, gen, driver, n) ==> m.Buffer? && UpMessageOk(m, sizes) && Tag(m) == gen
    ensures |Buffers(size, gen, driver, n)| == n
    ensures forall i :: 0 <= i < n ==> Buffers(size, gen, driver, n)[i].buffer == i
  {
    if n > 0 {
      BuffersOk(size, gen, driver, n - 1, sizes);
    }
  }

  lemma ReconfiguredUp(s: System, s': System, ms: seq<Up>)
    requires Sound(s) && UpOk(s) && History(s) && DownOk(s)
    requires s.down != [] && s.down[0].Configure? && !Inert(s.output, s.down[0])
    requires s'.surface == s.surface && s'.sizes == s.sizes && s'.up == s.up + ms
    requires s'.output.Some? && s'.output.value.size == s.down[0].size && s'.output.value.gen == s.down[0].gen
    requires forall m :: m in ms ==> UpMessageOk(m, s.sizes) && Tag(m) == Gen(s')
    ensures UpOk(s')
    ensures forall k :: 0 <= k < |s.up| ==> Tag(s.up[k]) < Gen(s')
  {
    hide UpMessageOk, Tag;
    forall k | 0 <= k < |s.up|
      ensures Tag(s.up[k]) < Gen(s') && MovedOn(s.sizes, Tag(s.up[k]), Gen(s'))
    {
      if Tag(s.up[k]) == Gen(s) {
        assert Differs(s.sizes, Gen(s), Gen(s'));
      } else {
        var u: nat :| u <= Gen(s) && Differs(s.sizes, Tag(s.up[k]), u);
      }
    }
    hide MovedOn;
  }

  lemma ReconfiguredIs(s: System, driver: Driver)
    requires Sound(s) && Structure(s) && s.down != [] && s.down[0].Configure? && !Inert(s.output, s.down[0])
    ensures var s', m := Step(s, [], LoaderReceives(driver)), s.down[0];
            && s' == s.(output := Some(Output(m.size, ALL_FREE, true, m.gen)), down := s.down[1..],
                        up := s.up + Buffers(m.size, m.gen, driver, SLOTS))
            && !Settled(s) && Valid(m.size) && SizeAt(s.sizes, m.gen, m.size)
            && SlotsOk(s) && UpOk(s) && DownOk(s) && History(s)
  {
    hide Buffers;
  }

  lemma ReconfiguredAccount(s: System, driver: Driver)
    requires Sound(s) && Structure(s) && s.down != [] && s.down[0].Configure? && !Inert(s.output, s.down[0])
    ensures Account(Step(s, [], LoaderReceives(driver)))
  {
    hide Readies, Releases, Frames, Structure, Buffers, Step, Settled, UpOk, DownOk, SlotsOk, History, SizeAt, Valid;
    ReconfiguredIs(s, driver);
    var s' := Step(s, [], LoaderReceives(driver));
    var m := s.down[0];
    var ms := Buffers(m.size, m.gen, driver, SLOTS);
    NothingHeld(s);
    ReconfiguredDown(s, s');
    BuffersOk(m.size, m.gen, driver, SLOTS, s.sizes);
    ReconfiguredUp(s, s', ms);
    forall i: nat
      ensures Readies(s'.up, m.gen, i) == 0 && Releases(s'.down, i) == 0 && Frames(s'.down) == 0
    {
      NoneForBuffers(s'.down, i);
      NoReadies(s'.up, m.gen, i);
    }
  }

  /** The other messages, FRAME and RELEASE among them. */
  function Given(s: System, driver: Driver): System
    requires s.down != []
  {
    Popped(s).(output := Hear(s.output, s.down[0], driver).output)
  }

  lemma GivenStructure(s: System, driver: Driver)
    requires Sound(s) && Structure(s) && s.down != [] && Inert(s.output, s.down[0])
    ensures Step(s, [], LoaderReceives(driver)) == Given(s, driver)
    ensures Structure(Given(s, driver))
  {
    assert s.up + [] == s.up;
    PopStructure(s);
    var o := Given(s, driver).output;
    assert s.output.None? ==> o.None?;
    if s.output.Some? {
      assert o.Some? && o.value.gen == Gen(s) && o.value.size == s.output.value.size && |o.value.busy| == SLOTS;
      hide Structure, Hear;
      OutputChange(Popped(s), o.value);
    }
  }

  lemma GivenPlaces(s: System, driver: Driver, i: nat)
    requires Sound(s) && s.down != [] && Inert(s.output, s.down[0])
    ensures Places(s, i) == Places(Given(s, driver), i) + One(s.down[0] == Release(i))
    ensures Pending(Given(s, driver), i) == Pending(s, i) && Gen(Given(s, driver)) == Gen(s)
  {
    hide Readies;
    assert Releases(s.down, i) == One(s.down[0] == Release(i)) + Releases(s.down[1..], i);
  }

  lemma GivenTokens(s: System, driver: Driver)
    requires Sound(s) && s.down != [] && Inert(s.output, s.down[0])
    ensures Tokens(Given(s, driver)) <= Tokens(s)
    ensures s.output.Some? && Tokens(s) == 1 ==> Tokens(Given(s, driver)) == 1
  {
    hide Readies, Pending;
    GivenPlaces(s, driver, 0);
    GivenPlaces(s, driver, 1);
    GivenPlaces(s, driver, 2);
    assert Frames(s.down) == One(s.down[0].Frame?) + Frames(s.down[1..]);
  }

  lemma GivenAccount(s: System, driver: Driver)
    requires Sound(s) && Account(s) && s.down != [] && Inert(s.output, s.down[0])
    ensures Account(Given(s, driver))
  {
    hide Places, Tokens;
    GivenTokens(s, driver);
    forall i | 0 <= i < SLOTS
      ensures Places(s, i) == Places(Given(s, driver), i) + One(s.down[0] == Release(i))
    {
      GivenPlaces(s, driver, i);
    }
  }

  lemma RemovedKeeps(s: System, driver: Driver)
    requires Sound(s) && Structure(s) && s.down != [] && s.down[0].Remove?
    ensures Structure(Step(s, [], LoaderReceives(driver))) && Account(Step(s, [], LoaderReceives(driver)))
  {
    assert |s.down| == 1;
    assert s.up + [] == s.up;
  }

  lemma LoaderReceivesKeeps(s: System, driver: Driver)
    requires Sound(s) && Inv(s)
    ensures Inv(Step(s, [], LoaderReceives(driver)))
  {
    hide *;
    InvParts(s);
    StepSound(s, [], LoaderReceives(driver));
    if s.down == [] {
      NothingToHear(s, driver);
    } else {
      InertOrNot(s.output, s.down[0]);
      if Inert(s.output, s.down[0]) {
        GivenStructure(s, driver);
        GivenAccount(s, driver);
      } else if s.down[0].Remove? {
        RemovedKeeps(s, driver);
      } else {
        ReconfiguredStructure(s, driver);
        ReconfiguredAccount(s, driver);
      }
    }
    InvParts(Step(s, [], LoaderReceives(driver)));
  }

  lemma InvParts(s: System)
    ensures Inv(s) ==> Sound(s) && Structure(s) && Account(s)
    ensures Sound(s) && Structure(s) && Account(s) ==> Inv(s)
  {
    hide Sound, Structure, Account;
  }

  lemma NothingToHear(s: System, driver: Driver)
    requires Sound(s) && s.down == []
    ensures Step(s, [], LoaderReceives(driver)) == s
  {
  }

  lemma InertOrNot(o: Option<Output>, m: Down)
    ensures Inert(o, m) || m.Remove? || m.Configure?
  {
  }
}
