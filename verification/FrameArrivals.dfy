/** What the loader's messages and the compositor's imports keep. */
module FrameArrivals {
  import opened Bytes
  import opened LockSurface
  import opened FrameProtocol
  import opened FrameInvariant
  import opened FrameShellSteps

  function Taken(s: System): System
    requires s.up != []
  {
    s.(up := s.up[1..])
  }

  lemma TakenStructure(s: System)
    requires Sound(s) && Structure(s) && s.up != []
    ensures Structure(Taken(s)) && (Settled(s) ==> Settled(Taken(s)))
  {
    var s' := Taken(s);
    hide MovedOn, Tag, UpMessageOk, Inert;
    assert UpOk(s') && (Settled(s) ==> Settled(s'));
    hide UpOk, Settled;
    assert DownOk(s') && SlotsOk(s') && History(s');
  }

  /** The message taken accounts for its own. */
  lemma TakenAccount(s: System)
    requires Sound(s) && s.up != []
    ensures var s', m := Taken(s), s.up[0];
            (forall i: nat :: Places(s, i) == Places(s', i) + One(m.Ready? && m.gen == Gen(s) && m.buffer == i))
            && Tokens(s) == Tokens(s') + One(m.Ready? && m.gen == Gen(s) && m.buffer < SLOTS)
  {
    hide Releases, Frames;
    assert forall i: nat :: Pending(s, i) == Pending(Taken(s), i);
  }

  /** There is room for one frame more, in buffer i. */
  predicate Room(s: System, i: nat)
    requires Sound(s)
  {
    && s.output.Some? && i < SLOTS
    && (forall k :: 0 <= k < SLOTS ==> Places(s, k) + One(k == i) <= One(s.output.value.busy[k]))
    && Tokens(s) == 0
  }

  predicate HasSlot(s: System, i: nat)
    requires Sound(s)
  {
    s.surface.Some? && i < SLOTS && s.surface.value.slots[i].Some?
  }

  function WithSlot(s: System, i: nat, b: Slot): System
    requires Sound(s) && s.surface.Some? && i < SLOTS
  {
    s.(surface := Some(s.surface.value.(slots := s.surface.value.slots[i := Some(b)])))
  }

  // ---------- a frame is shown ----------

  function Presented(s: System, i: nat): System
    requires Sound(s) && HasSlot(s, i)
  {
    var b := s.surface.value.slots[i].value;
    s.(surface := Some(s.surface.value.(frameCallback := true)), held := s.held + {b.dmabuf})
  }

  lemma PresentIs(s: System, i: nat)
    requires Sound(s) && SlotsOk(s) && HasSlot(s, i)
    ensures Affect(s, Present(s.surface.value, i)) == Presented(s, i)
  {
    var f := s.surface.value;
    var b := f.slots[i].value;
    var attach := [Attach(Drawn(b.size, b.dmabuf))];
    var ask := if f.frameCallback then [] else [AskFrame];
    WatchOne(s.held, attach[0]);
    WatchJoin(s.held, attach, ask);
    WatchJoin(s.held, attach + ask, [Commit]);
    WatchIdle(s.held + {b.dmabuf}, ask);
    WatchIdle(s.held + {b.dmabuf}, [Commit]);
    hide Watch;
  }

  lemma PresentedKeeps(s: System, i: nat)
    requires Sound(s) && Structure(s) && HasSlot(s, i) && s.running && s.surface.value.slots[i].value.imported
             && Room(s, i)
    ensures Inv(Presented(s, i))
  {
    PresentedStructure(s, i);
    var s' := Presented(s, i);
    assert s.surface.value.slots[i].value.dmabuf == Dmabuf(Gen(s), i);
    hide Structure, Readies, Releases, Frames;
    assert Pending(s', 0) == Pending(s, 0) && Pending(s', 1) == Pending(s, 1) && Pending(s', 2) == Pending(s, 2);
    hide Pending;
  }

  lemma PresentedStructure(s: System, i: nat)
    requires Sound(s) && Structure(s) && HasSlot(s, i) && s.running && s.surface.value.slots[i].value.imported
    ensures Structure(Presented(s, i))
  {
    var s' := Presented(s, i);
    assert Settled(s) && Settled(s');
    hide Settled, MovedOn, Tag, UpMessageOk, Inert;
    assert DownOk(s') && UpOk(s') && History(s');
    hide DownOk, UpOk, History;
    assert s.surface.value.slots[i].value.dmabuf == Dmabuf(Gen(s), i);
  }

  // ---------- a READY ----------

  lemma ReadyWaits(s: System, i: nat)
    requires Sound(s) && Structure(s) && HasSlot(s, i) && s.running && !s.surface.value.slots[i].value.imported
             && Room(s, i)
    ensures Inv(WithSlot(s, i, s.surface.value.slots[i].value.(readyPending := true)))
  {
    var b := s.surface.value.slots[i].value.(readyPending := true);
    var s' := WithSlot(s, i, b);
    WithSlotStructure(s, i, b);
    hide Structure, Readies, Releases, Frames;
    assert Pending(s', i) == 1 && forall k :: 0 <= k < SLOTS && k != i ==> Pending(s', k) == Pending(s, k);
    hide Pending;
  }

  /** A slot filled anew that the compositor does not have. */
  lemma WithSlotStructure(s: System, i: nat, b: Slot)
    requires Sound(s) && Structure(s) && Settled(s) && s.running && i < SLOTS
    requires b.dmabuf == Dmabuf(Gen(s), i) && b.size == s.surface.value.size && !(b.imported && b.readyPending)
    requires b.dmabuf !in s.held
    ensures Structure(WithSlot(s, i, b))
  {
    var s' := WithSlot(s, i, b);
    assert Settled(s');
    hide Settled, MovedOn, Tag, UpMessageOk, Inert;
    assert DownOk(s') && UpOk(s') && History(s');
    hide DownOk, UpOk, History;
    assert forall d :: d in s.held ==> d.slot != i && s'.surface.value.slots[d.slot] == s.surface.value.slots[d.slot];
  }

  lemma ReadyKeeps(s: System)
    requires Sound(s) && Inv(s) && s.up != [] && s.running && s.surface.Some? && s.up[0].Ready?
    ensures Inv(Affect(Taken(s), HandleReady(s.surface.value, s.up[0].buffer)))
  {
    var s1, i := Taken(s), s.up[0].buffer;
    TakenStructure(s);
    TakenAccount(s);
    assert Watch(s1.held, []) == s1.held;
    if HasSlot(s, i) {
      var b := s.surface.value.slots[i].value;
      assert Settled(s) && s.up[0].gen == Gen(s);
      hide Structure, Settled;
      ReadyRoom(s, i);
      if b.imported {
        ReadyPresents(s1, i);
      } else {
        ReadyWaits(s1, i);
        hide Account, Room;
        ReadyIs(s1, i);
      }
    } else {
      hide Structure, Places, Tokens;
      assert Account(s1);
    }
  }

  lemma ReadyRoom(s: System, i: nat)
    requires Sound(s) && Account(s) && s.up != [] && s.up[0].Ready? && s.up[0].gen == Gen(s)
             && s.up[0].buffer == i < SLOTS
    requires s.output.Some?
    ensures Room(Taken(s), i)
  {
    TakenAccount(s);
    hide Places, Tokens;
  }

  lemma ReadyPresents(s: System, i: nat)
    requires Sound(s) && Structure(s) && HasSlot(s, i) && s.running && s.surface.value.slots[i].value.imported
             && Room(s, i)
    ensures Inv(Affect(s, HandleReady(s.surface.value, i)))
  {
    PresentIs(s, i);
    PresentedKeeps(s, i);
    assert HandleReady(s.surface.value, i) == Present(s.surface.value, i);
    hide Structure, Account, Room, Presented, Present;
  }

  lemma ReadyIs(s: System, i: nat)
    requires Sound(s) && HasSlot(s, i) && !s.surface.value.slots[i].value.imported
    requires s.surface.value.slots[i].value.size == s.surface.value.size
    ensures Affect(s, HandleReady(s.surface.value, i))
            == WithSlot(s, i, s.surface.value.slots[i].value.(readyPending := true))
  {
  }

  // ---------- a BUFFER ----------

  lemma NotMovedOn(sizes: seq<Size>, t: nat, lg: nat)
    requires NoReturn(sizes) && 1 <= t <= |sizes| && Valid(sizes[t - 1]) && sizes[t - 1] == sizes[|sizes| - 1]
    ensures !MovedOn(sizes, t, lg)
  {
    forall u: nat
      ensures !Differs(sizes, t, u)
    {
      if t < u < |sizes| {
        assert 0 <= t - 1 < u - 1 < |sizes| - 1;
      }
    }
  }

  /** With no size coming back, a buffer of the right size is of the loader's own generation. */
  lemma SizeTellsGeneration(s: System)
    requires Sound(s) && Structure(s) && NoReturn(s.sizes) && s.up != [] && s.up[0].Buffer?
    requires s.surface.Some? && s.up[0].size == s.surface.value.size
    ensures s.output.Some? && Settled(s)
  {
    assert UpMessageOk(s.up[0], s.sizes);
    var t, last := Tag(s.up[0]), |s.sizes| - 1;
    assert Valid(s.sizes[t - 1]) && s.sizes[t - 1] == s.sizes[last];
    NotMovedOn(s.sizes, t, Gen(s));
    forall k | 0 <= k < |s.up|
      ensures Tag(s.up[k]) == Gen(s)
    {
      assert Tag(s.up[0]) <= Tag(s.up[k]);
    }
    forall k | 0 <= k < |s.down|
      ensures Inert(s.output, s.down[k])
    {
      var m := s.down[k];
      if m.Configure? && Valid(m.size) && m.gen - 1 < last {
        assert 0 <= t - 1 < m.gen - 1 < last;
      }
    }
  }

  lemma BufferKeeps(s: System, modifiers: seq<nat>)
    requires Sound(s) && Inv(s) && NoReturn(s.sizes) && s.up != [] && s.running && s.surface.Some? && s.up[0].Buffer?
    requires Handle(s.surface.value, modifiers, s.up[0]).Some?
    ensures Inv(Affect(Taken(s), Handle(s.surface.value, modifiers, s.up[0]).value))
  {
    var s1, m := Taken(s), s.up[0];
    TakenStructure(s);
    TakenAccount(s);
    assert Watch(s1.held, []) == s1.held;
    if m.size == s.surface.value.size {
      SizeTellsGeneration(s);
      assert UpMessageOk(m, s.sizes) && m.fd.value.dmabuf == Dmabuf(Gen(s), m.buffer);
      assert m.fd.value.dmabuf == Dmabuf(Gen(s1), m.buffer) && Settled(s1);
      assert Account(s1);
      hide Structure, Account, Settled, NoReturn;
      ImportedAnewIs(s1, modifiers, m);
      ImportedAnewKeeps(s1, m.buffer);
    } else {
      hide Structure, Places, Tokens;
    }
  }

  /** A new import in slot i, whatever was in it before let go. */
  function ImportedAnew(s: System, i: nat): System
    requires Sound(s) && s.surface.Some? && i < SLOTS
  {
    WithSlot(s, i, Slot(s.surface.value.size, Dmabuf(Gen(s), i), false, false)).(held := s.held - {Dmabuf(Gen(s), i)})
  }

  /** Letting go of slot i takes its buffer from the compositor, if it has it. */
  lemma DropWatch(s: System, i: nat)
    requires Sound(s) && SlotsOk(s) && s.surface.Some? && i < SLOTS
    ensures Watch(s.held, DropSlot(s.surface.value.slots[i])) == s.held - {Dmabuf(Gen(s), i)}
  {
    var d := Dmabuf(Gen(s), i);
    var drop := DropSlot(s.surface.value.slots[i]);
    if HasSlot(s, i) {
      WatchOne(s.held, drop[0]);
    }
    assert d in s.held ==> HoldsSlot(s, i);
    hide Watch, Settled;
  }

  lemma BufferEffect(f: Surface, modifiers: seq<nat>, m: Up)
    requires Shaped(f) && m.Buffer? && m.fd.Some? && m.size == f.size && Handle(f, modifiers, m).Some?
    ensures m.buffer < SLOTS
    ensures Handle(f, modifiers, m).value ==
            Effect(f.(slots := f.slots[m.buffer := Some(Slot(f.size, m.fd.value.dmabuf, false, false))]),
                   DropSlot(f.slots[m.buffer]) + [Import(m.fd.value.dmabuf)], None)
  {
    hide Importable, DropSlot;
  }

  lemma ImportedAnewIs(s: System, modifiers: seq<nat>, m: Up)
    requires Sound(s) && SlotsOk(s) && s.surface.Some? && m.Buffer? && m.fd.Some? && m.size == s.surface.value.size
    requires Handle(s.surface.value, modifiers, m).Some? && m.fd.value.dmabuf == Dmabuf(Gen(s), m.buffer)
    ensures Affect(s, Handle(s.surface.value, modifiers, m).value) == ImportedAnew(s, m.buffer)
  {
    hide Watch, DropSlot, Handle, SlotsOk;
    var f := s.surface.value;
    BufferEffect(f, modifiers, m);
    var i := m.buffer;
    var drop, imports := DropSlot(f.slots[i]), [Import(Dmabuf(Gen(s), i))];
    DropWatch(s, i);
    WatchJoin(s.held, drop, imports);
    WatchOne(Watch(s.held, drop), imports[0]);
  }

  lemma ImportedAnewKeeps(s: System, i: nat)
    requires Sound(s) && Structure(s) && Account(s) && Settled(s) && s.running && i < SLOTS
    ensures Inv(ImportedAnew(s, i))
  {
    var d := Dmabuf(Gen(s), i);
    var s1, b := s.(held := s.held - {d}), Slot(s.surface.value.size, d, false, false);
    FewerHeld(s, d);
    WithSlotStructure(s1, i, b);
    assert ImportedAnew(s, i) == WithSlot(s1, i, b);
    hide Structure, Settled;
    ImportedAnewAccount(s, i);
  }

  lemma FewerHeld(s: System, d: Dmabuf)
    requires Sound(s) && Structure(s) && Settled(s)
    ensures Structure(s.(held := s.held - {d})) && Settled(s.(held := s.held - {d}))
  {
    assert Settled(s.(held := s.held - {d}));
    hide Settled, MovedOn, Tag, UpMessageOk, Inert;
  }

  lemma ImportedAnewAccount(s: System, i: nat)
    requires Sound(s) && Account(s) && s.output.Some? && s.surface.Some? && i < SLOTS
    ensures Account(ImportedAnew(s, i))
  {
    var s' := ImportedAnew(s, i);
    hide Readies, Releases, Frames;
    assert Pending(s', i) == 0 && forall k :: 0 <= k < SLOTS && k != i ==> Pending(s', k) == Pending(s, k);
    hide Pending;
  }

  lemma ShellReceivesKeeps(s: System, modifiers: seq<nat>)
    requires Sound(s) && Inv(s) && NoReturn(s.sizes)
    ensures Inv(Step(s, modifiers, ShellReceives))
  {
    if s.up != [] && s.running {
      TakenStructure(s);
      TakenAccount(s);
      assert Account(Taken(s)) by {
        hide Structure, Places, Tokens;
      }
      if s.surface.Some? {
        if Handle(s.surface.value, modifiers, s.up[0]).None? {
          StopKeeps(Taken(s));
        } else if s.up[0].Ready? {
          ReadyKeeps(s);
        } else {
          BufferKeeps(s, modifiers);
        }
      }
      hide Structure, Account, Affect, Stop;
    }
  }

  // ---------- an import is done ----------

  lemma ImportedKeeps(s: System, i: nat)
    requires Sound(s) && Inv(s)
    ensures Inv(Step(s, [], Imported(i)))
  {
    if s.surface.Some? && Importing(s.surface.value, i) {
      var b := s.surface.value.slots[i].value;
      var s1 := WithSlot(s, i, b.(imported := true, readyPending := false));
      assert Settled(s) && s.running && b.dmabuf !in s.held by {
        assert b.dmabuf in s.held ==> HoldsSlot(s, b.dmabuf.slot);
        hide Settled;
      }
      WithSlotStructure(s, i, b.(imported := true, readyPending := false));
      ImportedAccount(s, i);
      if b.readyPending {
        assert Affect(s, ParamsCreated(s.surface.value, i)) == Affect(s1, Present(s1.surface.value, i));
        PresentIs(s1, i);
        hide Present;
        PresentedKeeps(s1, i);
      } else {
        assert Watch(s.held, []) == s.held;
      }
      hide Structure, Account, Affect;
    }
  }

  lemma ImportedAccount(s: System, i: nat)
    requires Sound(s) && Account(s) && s.output.Some? && s.surface.Some? && Importing(s.surface.value, i)
    ensures
      var b := s.surface.value.slots[i].value;
      var s1 := WithSlot(s, i, b.(imported := true, readyPending := false));
      Account(s1) && (b.readyPending ==> Room(s1, i))
  {
    var b := s.surface.value.slots[i].value;
    var s1 := WithSlot(s, i, b.(imported := true, readyPending := false));
    hide Readies, Releases, Frames;
    assert Pending(s, i) == One(b.readyPending) && Pending(s1, i) == 0;
    assert forall k :: 0 <= k < SLOTS && k != i ==> Pending(s1, k) == Pending(s, k);
    hide Pending;
  }
}
