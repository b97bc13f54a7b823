/**
 The pump of the frame exchange: while no message to the loader is lost and its
 buffers are those made for the surface's last CONFIGURE, exactly one frame is
 on its way, and every busy buffer is somewhere it will come back from. Which
 sizes leave the loader with such buffers is the subject of `FrameStall`.
 */
module FramePump {
  import opened Bytes
  import opened LockSurface
  import opened FrameProtocol
  import opened FrameInvariant
  import opened FrameSteps
  import opened FrameShellSteps
  import opened FrameArrivals
  import opened FrameSafety

  /** The loader's buffers are those it made for the surface's very last CONFIGURE. */
  predicate CaughtUp(s: System) {
    s.surface.Some? && s.running && s.output.Some? && Gen(s) == |s.sizes|
  }

  predicate Brings(m: Up, gen: nat) {
    m.Buffer? && Tag(m) == gen
  }

  function Bringing(up: seq<Up>, gen: nat, i: nat): nat {
    if up == [] then 0 else One(Brings(up[0], gen) && up[0].buffer == i) + Bringing(up[1..], gen, i)
  }

  /** Each buffer is at the shell or on its way there, once, and ahead of what is drawn into it. */
  predicate Arrivals(s: System)
    requires Sound(s)
  {
    && (forall i :: 0 <= i < SLOTS ==> Bringing(s.up, Gen(s), i) + One(HasSlot(s, i)) == 1)
    && (forall j, k :: 0 <= j < k < |s.up| && s.up[j].Ready? && Tag(s.up[j]) == Gen(s) ==> !Brings(s.up[k], Gen(s)))
  }

  predicate Exact(s: System)
    requires Sound(s)
  {
    s.output.Some? && (forall i :: 0 <= i < SLOTS ==> Places(s, i) == One(s.output.value.busy[i])) && Tokens(s) == 1
  }

  ghost predicate Pumping(s: System) {
    Sound(s) && (CaughtUp(s) && !s.lossy ==> Arrivals(s) && Exact(s))
  }

  lemma {:induction false} BringingJoin(xs: seq<Up>, ys: seq<Up>, gen: nat, i: nat)
    ensures Bringing(xs + ys, gen, i) == Bringing(xs, gen, i) + Bringing(ys, gen, i)
  {
    if xs == [] {
      assert xs + ys == ys;
    } else {
      BringingJoin(xs[1..], ys, gen, i);
      assert (xs + ys)[1..] == xs[1..] + ys;
    }
  }

  lemma {:induction false} NoneBrought(up: seq<Up>, gen: nat, i: nat)
    requires forall k :: 0 <= k < |up| ==> !Brings(up[k], gen)
    ensures Bringing(up, gen, i) == 0
  {
    if up != [] {
      NoneBrought(up[1..], gen, i);
    }
  }

  // ---------- the loader's steps ----------

  lemma DrawArrivals(s: System, n: nat)
    requires Sound(s) && Arrivals(s) && s.output.Some? && n < SLOTS
    ensures Arrivals(AfterDraw(s, n))
  {
    var s', m := AfterDraw(s, n), Ready(n, Gen(s), None);
    assert [m][1..] == [];
    forall i | 0 <= i < SLOTS
      ensures Bringing(s'.up, Gen(s'), i) == Bringing(s.up, Gen(s), i) && HasSlot(s', i) == HasSlot(s, i)
    {
      BringingJoin(s.up, [m], Gen(s), i);
      assert Bringing([m], Gen(s), i) == 0;
    }
    hide Bringing, HasSlot, Tag;
  }

  lemma DrawPumps(s: System)
    requires Pumping(s)
    ensures Pumping(Step(s, [], LoaderDraws))
  {
    if s.output.None? || OutputDraw(s.output.value).messages == [] {
      assert s.up + [] == s.up;
    } else {
      var n := FirstFree(s.output.value.busy);
      assert Step(s, [], LoaderDraws) == AfterDraw(s, n);
      DrawnCounts(s, n);
      hide Step, Arrivals, Places, Tokens;
      if Arrivals(s) {
        DrawArrivals(s, n);
      }
    }
  }

  lemma {:induction false} BuffersBring(size: Size, gen: nat, driver: Driver, n: nat, i: nat)
    ensures Bringing(Buffers(size, gen, driver, n), gen, i) == One(i < n)
    decreases n
  {
    if n > 0 {
      var m := BufferFor(size, gen, n - 1, driver);
      BuffersBring(size, gen, driver, n - 1, i);
      BringingJoin(Buffers(size, gen, driver, n - 1), [m], gen, i);
      assert [m][1..] == [];
      assert Bringing([m], gen, i) == One(i == n - 1);
    }
  }

  /** A loader with new buffers, none of them drawn into, and nothing else on its way. */
  ghost predicate Anew(s: System, gen: nat) {
    && Sound(s) && s.output.Some? && s.output.value.busy == ALL_FREE && s.output.value.frameWanted
      && s.output.value.gen == gen
    && s.held == {} && (s.surface.Some? ==> Idle(s.surface.value))
    && (forall i: nat :: Readies(s.up, gen, i) == 0 && Releases(s.down, i) == 0) && Frames(s.down) == 0
    && (forall i: nat :: Bringing(s.up, gen, i) == One(i < SLOTS))
    && (forall k :: 0 <= k < |s.up| && Tag(s.up[k]) == gen ==> !s.up[k].Ready?)
  }

  lemma AnewPumps(s: System, gen: nat)
    requires Anew(s, gen)
    ensures Exact(s) && (s.surface.Some? ==> Arrivals(s))
  {
    hide Readies, Releases, Frames, Bringing, Tag;
  }

  lemma ReconfiguredCounts(s: System, s': System, m: Down, ms: seq<Up>, i: nat)
    requires Inv(s) && s.down != [] && s.down[0] == m && m.Configure? && !Inert(s.output, m)
    requires s' == s.(output := Some(Output(m.size, ALL_FREE, true, m.gen)), down := s.down[1..], up := s.up + ms)
    requires forall x :: x in ms ==> x.Buffer? && UpMessageOk(x, s.sizes) && Tag(x) == m.gen
    requires Bringing(ms, m.gen, i) == One(i < SLOTS)
    ensures Readies(s'.up, m.gen, i) == 0 && Releases(s'.down, i) == 0 && Frames(s'.down) == 0
    ensures Bringing(s'.up, m.gen, i) == One(i < SLOTS)
  {
    ReconfiguredDown(s, s');
    ReconfiguredUp(s, s', ms);
    hide Inv, Inert, UpMessageOk, Tag, UpOk, DownOk;
    NoneForBuffers(s'.down, i);
    NoReadies(s'.up, m.gen, i);
    BringingJoin(s.up, ms, m.gen, i);
    NoneBrought(s.up, m.gen, i);
  }

  lemma ReconfiguredPumps(s: System, driver: Driver)
    requires Inv(s) && s.down != [] && s.down[0].Configure? && !Inert(s.output, s.down[0])
    ensures var s' := Step(s, [], LoaderReceives(driver)); Sound(s') && Exact(s') && (s.surface.Some? ==> Arrivals(s'))
  {
    var s', m := Step(s, [], LoaderReceives(driver)), s.down[0];
    var ms := Buffers(m.size, m.gen, driver, SLOTS);
    TakenUp(s, s', m, driver);
    NothingHeld(s);
    BuffersOk(m.size, m.gen, driver, SLOTS, s.sizes);
    ReconfiguredUp(s, s', ms) by {
      ReconfiguredDown(s, s');
    }
    hide *;
    forall i: nat
      ensures Readies(s'.up, m.gen, i) == 0 && Releases(s'.down, i) == 0
      ensures Bringing(s'.up, m.gen, i) == One(i < SLOTS)
    {
      BuffersBring(m.size, m.gen, driver, SLOTS, i);
      ReconfiguredCounts(s, s', m, ms, i);
    }
    BuffersBring(m.size, m.gen, driver, SLOTS, 0);
    ReconfiguredCounts(s, s', m, ms, 0);
    AnewIs(s, s', m, ms);
    AnewPumps(s', m.gen);
  }

  lemma TakenUp(s: System, s': System, m: Down, driver: Driver)
    requires Inv(s) && s.down != [] && m == s.down[0] && m.Configure? && !Inert(s.output, m)
             && s' == Step(s, [], LoaderReceives(driver))
    ensures Sound(s) && Sound(s') && SizeAt(s.sizes, m.gen, m.size) && Valid(m.size) && !Settled(s)
    ensures s' == s.(output := Some(Output(m.size, ALL_FREE, true, m.gen)), down := s.down[1..],
                     up := s.up + Buffers(m.size, m.gen, driver, SLOTS))
  {
    hide Buffers, UpOk;
  }

  lemma AnewIs(s: System, s': System, m: Down, ms: seq<Up>)
    requires Sound(s') && m.Configure? && s.held == {} && (s.surface.Some? ==> Idle(s.surface.value))
    requires s.down != []
             && s' == s.(output := Some(Output(m.size, ALL_FREE, true, m.gen)), down := s.down[1..], up := s.up + ms)
    requires forall x :: x in ms ==> x.Buffer?
    requires forall k :: 0 <= k < |s.up| ==> Tag(s.up[k]) < m.gen
    requires forall i: nat :: Readies(s'.up, m.gen, i) == 0 && Releases(s'.down, i) == 0
    requires forall i: nat :: Bringing(s'.up, m.gen, i) == One(i < SLOTS)
    requires Frames(s'.down) == 0
    ensures Anew(s', m.gen)
  {
    hide Readies, Releases, Frames, Bringing, Tag, Idle;
    forall k | |s.up| <= k < |s'.up|
      ensures s'.up[k].Buffer?
    {
      assert s'.up[k] == ms[k - |s.up|] && ms[k - |s.up|] in ms;
    }
    forall k | 0 <= k < |s.up|
      ensures Tag(s'.up[k]) < m.gen
    {
      assert s'.up[k] == s.up[k];
    }
  }

  lemma GivenExact(s: System, driver: Driver)
    requires Sound(s) && Exact(s) && s.down != [] && Inert(s.output, s.down[0])
    ensures Exact(Given(s, driver))
  {
    hide Places, Tokens;
    GivenTokens(s, driver);
    forall i | 0 <= i < SLOTS
      ensures Places(s, i) == Places(Given(s, driver), i) + One(s.down[0] == Release(i))
    {
      GivenPlaces(s, driver, i);
    }
  }

  lemma GivenPumps(s: System, driver: Driver)
    requires Inv(s) && Pumping(s) && s.down != [] && Inert(s.output, s.down[0])
    ensures Pumping(Given(s, driver))
  {
    GivenSound(s, driver);
    hide Inv, Inert, Given, Arrivals, Exact;
    var s' := Given(s, driver);
    if CaughtUp(s') && !s'.lossy {
      GivenExact(s, driver);
      SlotsArrivals(s, s');
    }
  }

  lemma GivenSound(s: System, driver: Driver)
    requires Inv(s) && s.down != [] && Inert(s.output, s.down[0])
    ensures var s' := Given(s, driver);
            Sound(s') && s'.up == s.up && Gen(s') == Gen(s) && s'.lossy == s.lossy && (CaughtUp(s') ==> CaughtUp(s))
            && forall i :: HasSlot(s', i) == HasSlot(s, i)
  {
    assert Sound(s);
    hide Inv;
  }

  lemma ReceivePumps(s: System, driver: Driver)
    requires Inv(s) && Pumping(s)
    ensures Pumping(Step(s, [], LoaderReceives(driver)))
  {
    hide *;
    InvSlots(s);
    InvParts(s);
    if s.down == [] {
      NothingToHear(s, driver);
    } else {
      InertOrNot(s.output, s.down[0]);
      if Inert(s.output, s.down[0]) {
        GivenStructure(s, driver);
        GivenPumps(s, driver);
      } else if s.down[0].Remove? {
        RemovePumps(s, driver);
      } else {
        ReconfiguredPumps(s, driver);
        HeardPumps(s, driver);
      }
    }
  }

  lemma RemovePumps(s: System, driver: Driver)
    requires Sound(s) && s.down != [] && s.down[0].Remove?
    ensures Pumping(Step(s, [], LoaderReceives(driver)))
  {
  }

  lemma HeardPumps(s: System, driver: Driver)
    requires Sound(s) && s.down != []
    requires var s' := Step(s, [], LoaderReceives(driver)); Sound(s') && Exact(s') && (s.surface.Some? ==> Arrivals(s'))
    ensures Pumping(Step(s, [], LoaderReceives(driver)))
  {
    hide Exact, Arrivals, Hear;
  }

  // ---------- the shell's and the compositor's steps ----------

  /** A dropped message makes the run a lossy one, a broken socket ends it. */
  lemma SendPumps(s: System, m: Down, sent: Sent)
    requires Sound(s)
    requires s.running && sent.Delivered? ==> Pumping(s.(down := s.down + [m]))
    ensures Pumping(Send(s, Some(m), sent))
  {
    hide Arrivals, Exact, Watch, DropSlots, ShowBlack;
  }

  lemma FrameMessageExact(s: System)
    requires Sound(s) && s.surface.Some? && s.surface.value.frameCallback
    ensures Exact(s) ==> Exact(AfterFrame(s).(down := s.down + [Frame]))
    ensures Arrivals(s) ==> Arrivals(AfterFrame(s).(down := s.down + [Frame]))
  {
    var s1 := AfterFrame(s);
    var s' := s1.(down := s.down + [Frame]);
    SentAccount(s1, Frame);
    hide Readies, Releases, Frames, Bringing;
    assert Pending(s1, 0) == Pending(s, 0) && Pending(s1, 1) == Pending(s, 1) && Pending(s1, 2) == Pending(s, 2);
    assert Tokens(s1) + 1 == Tokens(s) && forall i :: 0 <= i < SLOTS ==> Places(s1, i) == Places(s, i);
    assert forall i :: HasSlot(s', i) == HasSlot(s, i);
    hide Pending, Places, Tokens, HasSlot, Tag;
  }

  lemma FrameShownPumps(s: System, sent: Sent)
    requires Sound(s) && Pumping(s)
    ensures Pumping(Step(s, [], FrameShown(sent)))
  {
    if s.surface.Some? && s.surface.value.frameCallback {
      var s' := AfterFrame(s);
      assert Step(s, [], FrameShown(sent)) == Send(s', Some(Frame), sent);
      FrameMessageExact(s);
      hide Arrivals, Exact, Send, Step;
      assert CaughtUp(s'.(down := s.down + [Frame])) ==> CaughtUp(s);
      SendPumps(s', Frame, sent);
    }
  }

  lemma ReleaseMessageExact(s: System, i: nat)
    requires Sound(s) && HoldsSlot(s, i) && s.surface.value.slots[i].value.dmabuf == Dmabuf(Gen(s), i)
    ensures Exact(s) ==> Exact(LetGo(s, i).(down := s.down + [Release(i)]))
    ensures Arrivals(s) ==> Arrivals(LetGo(s, i).(down := s.down + [Release(i)]))
  {
    var s1 := LetGo(s, i);
    var s' := s1.(down := s.down + [Release(i)]);
    assert s1 == s.(held := s.held - {Dmabuf(Gen(s), i)}) && Dmabuf(Gen(s), i) in s.held;
    hide HoldsSlot, LetGo, Readies, Releases, Frames, Bringing;
    assert Pending(s1, 0) == Pending(s, 0) && Pending(s1, 1) == Pending(s, 1) && Pending(s1, 2) == Pending(s, 2);
    assert Tokens(s1) == Tokens(s) && forall k :: 0 <= k < SLOTS ==> Places(s, k) == Places(s1, k) + One(k == i);
    assert forall i :: HasSlot(s', i) == HasSlot(s, i);
    SentAccount(s1, Release(i));
    hide Pending, Places, Tokens, HasSlot, Tag;
  }

  lemma ReleasedPumps(s: System, i: nat, sent: Sent)
    requires Inv(s) && Pumping(s)
    ensures Pumping(Step(s, [], Released(i, sent)))
  {
    if HoldsSlot(s, i) {
      var s' := LetGo(s, i);
      ReleasedIs(s, i, sent);
      assert s.surface.value.slots[i].value.dmabuf == Dmabuf(Gen(s), i);
      hide Settled, Structure, Account, Send, Step, Arrivals, Exact;
      ReleaseMessageExact(s, i);
      assert CaughtUp(s'.(down := s.down + [Release(i)])) ==> CaughtUp(s);
      SendPumps(s', Release(i), sent);
    }
  }

  lemma ConfiguredPumps(s: System, size: Size, hasMemory: bool, sent: Sent)
    requires Inv(s) && Pumping(s)
    ensures Pumping(Step(s, [], Configured(size, hasMemory, sent)))
  {
    if s.surface.Some? {
      ConfiguredIs(s, size, hasMemory, sent);
      hide Step, Arrivals, Exact, Stopped, Watch, Structure, Account;
      assert Inv(s) ==> Gen(s) <= |s.sizes| by {
        GenBound(s);
      }
      var f := s.surface.value;
      if !(f.configured && f.size == size) {
        SendKeepsGen(Resized(s, size, hasMemory), Configure(size, f.gen + 1), sent);
      }
    }
  }

  lemma GenBound(s: System)
    requires Inv(s)
    ensures Gen(s) <= |s.sizes|
  {
  }

  lemma SendKeepsGen(s: System, m: Down, sent: Sent)
    requires Sound(s)
    ensures var s' := Send(s, Some(m), sent); Sound(s') && Gen(s') == Gen(s) && s'.sizes == s.sizes
  {
    hide Watch;
  }

  lemma RemovedPumps(s: System, sent: Sent)
    requires Sound(s) && Pumping(s)
    ensures Pumping(Step(s, [], Removed(sent)))
  {
    hide Arrivals, Exact, Watch, DropSlots;
  }

  lemma GonePumps(s: System)
    requires Sound(s) && Pumping(s)
    ensures Pumping(Step(s, [], LoaderGone))
  {
    hide Arrivals, Exact, Watch, DropSlots;
  }

  // ---------- what arrives at the shell ----------

  lemma TakenArrivals(s: System)
    requires Sound(s) && s.up != [] && Arrivals(s) && !Brings(s.up[0], Gen(s))
    ensures Arrivals(Taken(s))
  {
    var s' := Taken(s);
    assert forall i :: HasSlot(s', i) == HasSlot(s, i);
    hide HasSlot, Tag;
  }

  /** A READY of the current generation finds its buffer. */
  lemma ReadyFindsSlot(s: System)
    requires Sound(s) && s.up != [] && Arrivals(s) && s.up[0].Ready? && s.up[0].gen == Gen(s) && s.up[0].buffer < SLOTS
    ensures HasSlot(s, s.up[0].buffer)
  {
    assert !Brings(s.up[0], Gen(s)) && Tag(s.up[0]) == Gen(s);
    NoneBrought(s.up, Gen(s), s.up[0].buffer);
  }

  /** One frame on its way is moved along, to buffer i's import or to the screen. */
  lemma PresentedExact(s: System, i: nat)
    requires Sound(s) && Structure(s) && HasSlot(s, i) && s.surface.value.slots[i].value.imported && Room(s, i)
    ensures Tokens(Presented(s, i)) == 1
    ensures forall k :: 0 <= k < SLOTS && k != i ==> Places(Presented(s, i), k) == Places(s, k)
    ensures Dmabuf(Gen(s), i) !in s.held ==> Places(Presented(s, i), i) == Places(s, i) + 1
  {
    var s' := Presented(s, i);
    assert s.surface.value.slots[i].value.dmabuf == Dmabuf(Gen(s), i);
    hide Structure, Readies, Releases, Frames;
    assert Pending(s', 0) == Pending(s, 0) && Pending(s', 1) == Pending(s, 1) && Pending(s', 2) == Pending(s, 2);
    hide Pending;
  }

  lemma WaitingExact(s: System, i: nat)
    requires Sound(s) && HasSlot(s, i) && !s.surface.value.slots[i].value.readyPending
    ensures var s' := WithSlot(s, i, s.surface.value.slots[i].value.(readyPending := true));
            Tokens(s') == Tokens(s) + 1
            && forall k :: 0 <= k < SLOTS ==> Places(s', k) == Places(s, k) + One(k == i)
  {
    var s' := WithSlot(s, i, s.surface.value.slots[i].value.(readyPending := true));
    hide Readies, Releases, Frames;
    assert Pending(s', i) == 1 && Pending(s, i) == 0 && forall k :: 0 <= k < SLOTS && k != i ==>
             Pending(s', k) == Pending(s, k);
    hide Pending;
  }

  /** With a READY on its way for it, a buffer is nowhere else. */
  lemma ReadyAlone(s: System, i: nat)
    requires Inv(s) && s.up != [] && s.up[0] == Ready(i, Gen(s), None) && i < SLOTS && s.output.Some?
    ensures Dmabuf(Gen(s), i) !in s.held && Pending(s, i) == 0
  {
    assert Readies(s.up, Gen(s), i) >= 1;
    assert Places(s, i) <= 1;
  }

  lemma ReadyPumps(s: System)
    requires Inv(s) && Arrivals(s) && Exact(s) && CaughtUp(s) && s.up != [] && s.up[0].Ready?
    ensures var s' := Affect(Taken(s), HandleReady(s.surface.value, s.up[0].buffer));
            Sound(s') && Arrivals(s') && Exact(s')
  {
    var s1, i := Taken(s), s.up[0].buffer;
    assert UpMessageOk(s.up[0], s.sizes);
    TakenStructure(s);
    TakenAccount(s);
    TakenArrivals(s);
    hide Bringing, Tag;
    if s.up[0].gen == Gen(s) {
      ReadyFindsSlot(s);
      ReadyRoom(s, i);
      ReadyAlone(s, i);
      assert s1.surface.value.slots[i].value.size == s1.surface.value.size;
      assert s1.surface.value.slots[i].value.dmabuf == Dmabuf(Gen(s1), i) && Exact(s);
      hide Structure, Account, Inv, Arrivals;
      CurrentReadyPumps(s, s1, i);
    } else {
      StaleReady(s, i);
      hide Inv, Structure, Places, Tokens;
      assert Watch(s1.held, []) == s1.held;
    }
  }

  lemma StaleReady(s: System, i: nat)
    requires Inv(s) && s.up != [] && s.up[0].Ready? && s.up[0].gen != Gen(s)
    ensures !HasSlot(s, i)
  {
    assert !Settled(s);
    hide Settled;
  }

  /** A READY of the current generation, and it is shown or waits for the import. */
  lemma CurrentReadyPumps(s: System, s1: System, i: nat)
    requires Sound(s) && Sound(s1) && s1 == s.(up := s1.up) && Structure(s1) && Arrivals(s1) && Exact(s)
             && HasSlot(s1, i) && Room(s1, i)
    requires s1.surface.value.slots[i].value.size == s1.surface.value.size
             && s1.surface.value.slots[i].value.dmabuf == Dmabuf(Gen(s1), i)
    requires Dmabuf(Gen(s), i) !in s1.held && Pending(s1, i) == 0
    requires Tokens(s) == Tokens(s1) + 1 && forall k :: 0 <= k < SLOTS ==> Places(s, k) == Places(s1, k) + One(k == i)
    ensures var s' := Affect(s1, HandleReady(s1.surface.value, i)); Sound(s') && Arrivals(s') && Exact(s')
  {
    hide Structure, Arrivals;
    var s', b := Affect(s1, HandleReady(s1.surface.value, i)), s1.surface.value.slots[i].value;
    if b.imported {
      assert s' == Affect(s1, Present(s1.surface.value, i));
      PresentIs(s1, i) by {
        StructureSlots(s1);
      }
      hide HandleReady, Present;
      PresentedExact(s1, i);
    } else {
      ReadyIs(s1, i);
      hide HandleReady;
      WaitingExact(s1, i);
    }
    hide Places, Tokens, Pending;
    SlotsArrivals(s1, s');
  }

  lemma StructureSlots(s: System)
    requires Sound(s) && Structure(s)
    ensures SlotsOk(s)
  {
  }

  lemma ImportedAnewExact(s: System, i: nat)
    requires Sound(s) && Exact(s) && s.surface.Some? && i < SLOTS && !HasSlot(s, i) && Dmabuf(Gen(s), i) !in s.held
    ensures Exact(ImportedAnew(s, i))
  {
    var s' := ImportedAnew(s, i);
    assert s'.held == s.held;
    hide Readies, Releases, Frames;
    assert forall k :: 0 <= k < SLOTS ==> Pending(s', k) == Pending(s, k);
    hide Pending;
  }

  lemma ImportedAnewArrivals(s: System, i: nat)
    requires Sound(s) && s.up != [] && Arrivals(s) && Brings(s.up[0], Gen(s)) && s.up[0].buffer == i < SLOTS
             && s.surface.Some?
    ensures !HasSlot(s, i) && Arrivals(ImportedAnew(Taken(s), i))
  {
    var s' := ImportedAnew(Taken(s), i);
    assert forall k :: 0 <= k < SLOTS && k != i ==> HasSlot(s', k) == HasSlot(s, k);
    assert Bringing(s.up, Gen(s), i) >= 1;
    assert HasSlot(s', i);
    hide HasSlot, Tag;
  }

  lemma BufferPumps(s: System, modifiers: seq<nat>)
    requires Inv(s) && NoReturn(s.sizes) && Arrivals(s) && Exact(s) && CaughtUp(s) && s.up != [] && s.up[0].Buffer?
    requires Handle(s.surface.value, modifiers, s.up[0]).Some?
    ensures var s' := Affect(Taken(s), Handle(s.surface.value, modifiers, s.up[0]).value);
            Sound(s') && Arrivals(s') && Exact(s')
  {
    var s1, m := Taken(s), s.up[0];
    var i := m.buffer;
    assert UpMessageOk(m, s.sizes);
    TakenStructure(s);
    TakenAccount(s);
    assert Exact(s1) by {
      hide Structure, Places, Tokens;
    }
    if m.size == s.surface.value.size {
      SizeTellsGeneration(s);
      assert Brings(m, Gen(s)) && m.fd.value.dmabuf == Dmabuf(Gen(s1), i);
      ImportedAnewArrivals(s, i);
      assert forall d :: d in s.held ==> HasSlot(s, d.slot);
      hide Structure, Account, Settled, NoReturn, Arrivals, Exact;
      ImportedAnewIs(s1, modifiers, m);
      ImportedAnewExact(s1, i);
    } else {
      assert !Brings(m, Gen(s));
      TakenArrivals(s);
      assert Watch(s1.held, []) == s1.held;
      hide Structure, Arrivals, Exact;
    }
  }

  lemma ShellReceivesPumps(s: System, modifiers: seq<nat>)
    requires Inv(s) && NoReturn(s.sizes) && Pumping(s)
    ensures Pumping(Step(s, modifiers, ShellReceives))
  {
    StepSound(s, modifiers, ShellReceives);
    var s' := Step(s, modifiers, ShellReceives);
    if CaughtUp(s') && !s'.lossy && s.up != [] {
      var effect := Handle(s.surface.value, modifiers, s.up[0]);
      assert effect.Some?;
      assert CaughtUp(s) && s' == Affect(Taken(s), effect.value);
      hide Structure, Account, Arrivals, Exact, Affect, Step;
      if s.up[0].Ready? {
        ReadyPumps(s);
      } else {
        BufferPumps(s, modifiers);
      }
    } else {
      assert s.up == [] ==> s' == s;
      hide *;
    }
  }

  lemma ImportedExact(s: System, i: nat)
    requires Sound(s) && s.output.Some? && s.surface.Some? && Importing(s.surface.value, i)
    ensures
      var b := s.surface.value.slots[i].value;
      var s1 := WithSlot(s, i, b.(imported := true, readyPending := false));
      Tokens(s) == Tokens(s1) + One(b.readyPending)
      && forall k :: 0 <= k < SLOTS ==> Places(s, k) == Places(s1, k) + One(b.readyPending && k == i)
  {
    var b := s.surface.value.slots[i].value;
    var s1 := WithSlot(s, i, b.(imported := true, readyPending := false));
    hide Readies, Releases, Frames;
    assert Pending(s, i) == One(b.readyPending) && Pending(s1, i) == 0;
    assert forall k :: 0 <= k < SLOTS && k != i ==> Pending(s1, k) == Pending(s, k);
    hide Pending;
  }

  lemma SlotsArrivals(s: System, s': System)
    requires Sound(s) && Sound(s') && Arrivals(s) && s'.up == s.up && Gen(s') == Gen(s)
    requires forall i :: 0 <= i < SLOTS ==> HasSlot(s', i) == HasSlot(s, i)
    ensures Arrivals(s')
  {
    hide HasSlot, Bringing, Tag;
  }

  lemma ImportingSettled(s: System, i: nat)
    requires Inv(s) && s.surface.Some? && Importing(s.surface.value, i)
    ensures Settled(s) && s.running && i < SLOTS
    ensures s.surface.value.slots[i].value.dmabuf == Dmabuf(Gen(s), i) && Dmabuf(Gen(s), i) !in s.held
    ensures s.surface.value.slots[i].value.size == s.surface.value.size
  {
    var b := s.surface.value.slots[i].value;
    assert b.dmabuf in s.held ==> HoldsSlot(s, b.dmabuf.slot);
    hide Settled;
  }

  lemma ImportedPumps(s: System, i: nat)
    requires Inv(s) && Pumping(s)
    ensures Pumping(Step(s, [], Imported(i)))
  {
    StepSound(s, [], Imported(i));
    hide Arrivals, Exact, Inv, Watch, ParamsCreated, Importing;
    if s.surface.Some? && Importing(s.surface.value, i) && CaughtUp(s) && !s.lossy {
      CaughtUpImport(s, i);
    }
  }

  lemma CaughtUpImport(s: System, i: nat)
    requires Inv(s) && Arrivals(s) && Exact(s) && s.surface.Some? && Importing(s.surface.value, i)
    ensures var s' := Affect(s, ParamsCreated(s.surface.value, i)); Sound(s') && Arrivals(s') && Exact(s')
  {
    var s', b := Affect(s, ParamsCreated(s.surface.value, i)), s.surface.value.slots[i].value;
    var b' := b.(imported := true, readyPending := false);
    var s1 := WithSlot(s, i, b');
    ImportingSettled(s, i);
    InvParts(s);
    hide Inv, Settled, Structure, Account, Arrivals;
    ImportedExact(s, i);
    WithSlotStructure(s, i, b');
    ImportedAccount(s, i);
    StructureSlots(s1);
    if b.readyPending {
      assert s' == Affect(s1, Present(s1.surface.value, i));
      hide ParamsCreated, Present;
      PresentIs(s1, i);
      PresentedExact(s1, i);
    } else {
      assert Watch(s.held, []) == s.held;
      assert s' == s1;
    }
    hide Places, Tokens, SlotsOk;
    SlotsArrivals(s, s');
  }

  // ---------- whole runs ----------

  lemma StepPumps(s: System, modifiers: seq<nat>, e: Event)
    requires Inv(s) && Pumping(s) && NoReturn(s.sizes)
    ensures Pumping(Step(s, modifiers, e))
  {
    if e.ShellReceives? {
      ShellReceivesPumps(s, modifiers);
    } else {
      OnlyReceivingImports(s, modifiers, e);
      OtherStepPumps(s, e);
    }
    hide *;
  }

  lemma OtherStepPumps(s: System, e: Event)
    requires Inv(s) && Pumping(s) && !e.ShellReceives?
    ensures Pumping(Step(s, [], e))
  {
    match e
    case Configured(size, hasMemory, sent) => ConfiguredPumps(s, size, hasMemory, sent); hide *;
    case Removed(sent) => RemovedPumps(s, sent); hide *;
    case Imported(i) => ImportedPumps(s, i); hide *;
    case FrameShown(sent) => FrameShownPumps(s, sent); hide *;
    case Released(i, sent) => ReleasedPumps(s, i, sent); hide *;
    case LoaderGone => GonePumps(s); hide *;
    case LoaderReceives(driver) => ReceivePumps(s, driver); hide *;
    case LoaderDraws => DrawPumps(s); hide *;
  }

  lemma InitialPumps(running: bool)
    ensures Pumping(Initial(running))
  {
    hide Arrivals, Exact;
  }

  lemma {:induction false} RunPumps(running: bool, modifiers: seq<nat>, events: seq<Event>)
    requires NoReturn(Run(running, modifiers, events).sizes)
    ensures Pumping(Run(running, modifiers, events))
  {
    if events == [] {
      InitialPumps(running);
      hide Pumping;
    } else {
      hide *;
      var n := |events| - 1;
      NoReturnBefore(running, modifiers, events, n);
      RunPumps(running, modifiers, events[..n]);
      RunInv(running, modifiers, events[..n]);
      RunMore(running, modifiers, events);
      StepPumps(Run(running, modifiers, events[..n]), modifiers, events[n]);
    }
  }

  /**
   In a run with nothing lost so far, a READY for the last CONFIGURE's buffers
   finds the slot it names filled.
   */
  lemma CurrentReadyFindsSlot(running: bool, modifiers: seq<nat>, events: seq<Event>)
    requires NoReturn(Run(running, modifiers, events).sizes)
    requires CaughtUp(Run(running, modifiers, events)) && !Run(running, modifiers, events).lossy
    requires var s := Run(running, modifiers, events); s.up != [] && s.up[0].Ready? && s.up[0].gen == Gen(s)
    ensures var s := Run(running, modifiers, events); s.up[0].buffer < SLOTS && HasSlot(s, s.up[0].buffer)
  {
    var s := Run(running, modifiers, events);
    RunInv(running, modifiers, events);
    RunPumps(running, modifiers, events);
    assert UpMessageOk(s.up[0], s.sizes) by {
      InvParts(s);
    }
    hide Run, Inv, Exact, Bringing, HasSlot;
    ReadyFindsSlot(s);
  }

  /**
   With nothing lost, a loader with the last CONFIGURE's buffers has exactly one frame on its way,
   and no buffer astray.
   */
  lemma NeverStalls(running: bool, modifiers: seq<nat>, events: seq<Event>, i: nat)
    requires NoReturn(Run(running, modifiers, events).sizes) && i < SLOTS
    requires CaughtUp(Run(running, modifiers, events)) && !Run(running, modifiers, events).lossy
    ensures var s := Run(running, modifiers, events);
            Tokens(s) == 1 && Places(s, i) == One(s.output.value.busy[i])
  {
    RunPumps(running, modifiers, events);
  }
}
