/** What the shell's and the compositor's steps keep. */
module FrameShellSteps {
  import opened Bytes
  import opened LockSurface
  import opened FrameProtocol
  import opened FrameInvariant

  /** The shell's buffers for the output all gone. */
  function Cleared(s: System, running: bool): System
    requires s.surface.Some?
  {
    s.(surface := Some(s.surface.value.(slots := NO_SLOTS, frameCallback := false)), held := {}, running := running)
  }

  lemma ClearedStructure(s: System, running: bool)
    requires Sound(s) && Structure(s) && s.surface.Some?
    ensures Structure(Cleared(s, running))
  {
    var s' := Cleared(s, running);
    hide MovedOn, UpMessageOk, Tag, Inert, Settled;
    assert History(s') && DownOk(s');
    assert UpOk(s');
  }

  lemma ClearedAccount(s: System, running: bool)
    requires Sound(s) && Account(s) && s.surface.Some?
    ensures Account(Cleared(s, running))
  {
    var s' := Cleared(s, running);
    hide Readies, Releases, Frames;
    assert Pending(s', 0) == Pending(s', 1) == Pending(s', 2) == 0;
    hide Pending;
  }

  lemma ClearedKeeps(s: System, running: bool)
    requires Sound(s) && s.surface.Some?
    ensures Structure(s) ==> Structure(Cleared(s, running))
    ensures Account(s) ==> Account(Cleared(s, running))
  {
    hide Structure, Account;
    if Structure(s) {
      ClearedStructure(s, running);
    }
    if Account(s) {
      ClearedAccount(s, running);
    }
  }

  lemma DropsHold(s: System)
    requires Sound(s) && SlotsOk(s) && s.surface.Some?
    ensures Watch(s.held, DropSlots(s.surface.value.slots, SLOTS)) == {}
  {
    assert forall d :: d in s.held ==> HoldsSlot(s, d.slot);
    WatchDrops(s.held, s.surface.value.slots, SLOTS);
  }

  lemma BlackIdle(held: set<Dmabuf>, f: Surface)
    ensures Watch(held, ShowBlack(f)) == held
  {
    WatchIdle(held, ShowBlack(f));
  }

  lemma StopClears(s: System)
    requires Sound(s) && SlotsOk(s) && s.running && s.surface.Some?
    ensures Stop(s) == Cleared(s, false)
  {
    var f := s.surface.value;
    var drops := DropSlots(f.slots, SLOTS);
    DropsHold(s);
    if f.configured {
      WatchJoin(s.held, drops, ShowBlack(f));
      BlackIdle({}, f);
    } else {
      assert drops + [] == drops;
    }
  }

  lemma StopKeeps(s: System)
    requires Sound(s) && Structure(s)
    ensures Structure(Stop(s))
    ensures Account(s) ==> Account(Stop(s))
  {
    if s.running && s.surface.Some? {
      StopClears(s);
      ClearedKeeps(s, false);
      hide Structure, Account, Stop;
    } else if s.running {
      assert s.held == {};
    }
  }

  /** Sending is safe if what it sends would be. */
  lemma SendKeeps(s: System, m: Down, sent: Sent)
    requires Sound(s) && Inv(s)
    requires s.running ==> Inv(s.(down := s.down + [m]))
    ensures Inv(Send(s, Some(m), sent))
  {
    if sent.Broken? {
      StopKeeps(s);
    } else if sent.Dropped? {
      LossyKeeps(s);
    }
    hide Structure, Account, Stop;
  }

  lemma LossyStructure(s: System)
    requires Sound(s) && Structure(s)
    ensures Structure(s.(lossy := true))
  {
    assert Settled(s) == Settled(s.(lossy := true));
    hide Settled;
  }

  lemma LossyAccount(s: System)
    requires Sound(s) && Account(s)
    ensures Account(s.(lossy := true))
  {
    hide Readies, Releases, Frames;
  }

  lemma LossyKeeps(s: System)
    requires Sound(s) && Inv(s)
    ensures Inv(s.(lossy := true))
  {
    hide Structure, Account;
    LossyStructure(s);
    LossyAccount(s);
  }

  // ---------- telling the loader about a frame ----------

  lemma AppendStructure(s: System, m: Down)
    requires Sound(s) && Structure(s) && Settled(s) && ForBuffers(m)
    ensures Structure(s.(down := s.down + [m]))
  {
    var s' := s.(down := s.down + [m]);
    hide MovedOn, UpMessageOk, Tag;
    assert UpOk(s') && History(s');
    hide UpOk, History;
    assert Settled(s');
    assert DownOk(s') by {
      hide Inert;
    }
    assert SlotsOk(s') by {
      hide Settled, DownOk;
    }
  }

  lemma DownCountsOne(m: Down)
    ensures Frames([m]) == One(m.Frame?)
    ensures forall i :: Releases([m], i) == One(m == Release(i))
  {
    assert [m][1..] == [];
  }

  /** One message more to the loader, and what that makes of the account. */
  lemma SentAccount(s: System, m: Down)
    requires Sound(s)
    ensures var s' := s.(down := s.down + [m]);
            Tokens(s') == Tokens(s) + One(m.Frame?)
            && forall i: nat :: Places(s', i) == Places(s, i) + One(m == Release(i))
  {
    var s' := s.(down := s.down + [m]);
    DownCountsOne(m);
    DownCountsJoin(s.down, [m], 0);
    forall i: nat
      ensures Places(s', i) == Places(s, i) + One(m == Release(i)) && Pending(s', i) == Pending(s, i)
    {
      DownCountsJoin(s.down, [m], i);
      hide Readies, Frames, Releases;
    }
    hide Readies, Frames, Releases, Pending, Places;
  }

  function AfterFrame(s: System): System
    requires s.surface.Some?
  {
    s.(surface := Some(s.surface.value.(frameCallback := false)))
  }

  lemma AfterFrameKeeps(s: System)
    requires Sound(s) && Inv(s) && s.surface.Some?
    ensures Inv(AfterFrame(s)) && (Settled(s) ==> Settled(AfterFrame(s)))
  {
    var s' := AfterFrame(s);
    assert Structure(s') && (Settled(s) ==> Settled(s')) by {
      assert Settled(s) ==> Settled(s');
      hide Settled, Inert, Tag, UpMessageOk, MovedOn;
    }
    hide Structure, Readies, Releases, Frames;
    assert Pending(s', 0) == Pending(s, 0) && Pending(s', 1) == Pending(s, 1) && Pending(s', 2) == Pending(s, 2);
    hide Pending;
  }

  lemma FrameMessageAccount(s: System)
    requires Sound(s) && Account(s) && s.surface.Some? && s.surface.value.frameCallback
    ensures Account(AfterFrame(s).(down := s.down + [Frame]))
  {
    var s1 := AfterFrame(s);
    SentAccount(s1, Frame);
    hide Readies, Releases, Frames;
    assert Pending(s1, 0) == Pending(s, 0) && Pending(s1, 1) == Pending(s, 1) && Pending(s1, 2) == Pending(s, 2);
    assert Tokens(s1) + 1 == Tokens(s) && forall i :: 0 <= i < SLOTS ==> Places(s1, i) == Places(s, i);
    hide Pending, Places, Tokens;
  }

  lemma FrameShownKeeps(s: System, sent: Sent)
    requires Sound(s) && Inv(s)
    ensures Inv(Step(s, [], FrameShown(sent)))
  {
    if s.surface.Some? && s.surface.value.frameCallback {
      var s' := AfterFrame(s);
      assert Step(s, [], FrameShown(sent)) == Send(s', Some(Frame), sent);
      AfterFrameKeeps(s);
      assert Settled(s);
      hide Settled, Structure, Account, Send, Step;
      AppendStructure(s', Frame);
      FrameMessageAccount(s);
      SendKeeps(s', Frame, sent);
    }
  }

  function LetGo(s: System, i: nat): System
    requires Sound(s) && HoldsSlot(s, i)
  {
    s.(held := s.held - {s.surface.value.slots[i].value.dmabuf})
  }

  lemma LetGoStructure(s: System, i: nat)
    requires Sound(s) && Structure(s) && HoldsSlot(s, i)
    ensures Structure(LetGo(s, i)) && Settled(LetGo(s, i))
  {
    hide Inert, Tag, UpMessageOk, MovedOn;
    assert Settled(s) && Settled(LetGo(s, i));
  }

  lemma LetGoAccount(s: System, i: nat)
    requires Sound(s) && Account(s) && HoldsSlot(s, i)
    ensures Account(LetGo(s, i))
  {
    hide Readies, Releases, Frames;
    var s' := LetGo(s, i);
    assert Pending(s', 0) == Pending(s, 0) && Pending(s', 1) == Pending(s, 1) && Pending(s', 2) == Pending(s, 2);
  }

  lemma LetGoKeeps(s: System, i: nat)
    requires Sound(s) && Inv(s) && HoldsSlot(s, i)
    ensures Inv(LetGo(s, i)) && Settled(LetGo(s, i))
  {
    hide Structure, Account, Settled;
    LetGoStructure(s, i);
    LetGoAccount(s, i);
  }

  lemma ReleaseMessageAccount(s: System, i: nat)
    requires Sound(s) && Account(s) && HoldsSlot(s, i) && s.surface.value.slots[i].value.dmabuf == Dmabuf(Gen(s), i)
    ensures Account(LetGo(s, i).(down := s.down + [Release(i)]))
  {
    var s1 := LetGo(s, i);
    assert s1 == s.(held := s.held - {Dmabuf(Gen(s), i)}) && Dmabuf(Gen(s), i) in s.held;
    hide HoldsSlot, LetGo, Readies, Releases, Frames;
    assert Pending(s1, 0) == Pending(s, 0) && Pending(s1, 1) == Pending(s, 1) && Pending(s1, 2) == Pending(s, 2);
    assert Tokens(s1) == Tokens(s) && forall k :: 0 <= k < SLOTS ==> Places(s, k) == Places(s1, k) + One(k == i);
    SentAccount(s1, Release(i));
    hide Pending, Places, Tokens;
  }

  lemma ReleasedIs(s: System, i: nat, sent: Sent)
    requires Sound(s) && HoldsSlot(s, i)
    ensures Step(s, [], Released(i, sent)) == Send(LetGo(s, i), Some(Release(i)), sent)
  {
    var f := s.surface.value;
    WatchOne(s.held, Freed(f.slots[i].value.dmabuf));
    assert Affect(s, BufferRelease(f, i)) == LetGo(s, i);
    hide Watch, Stop;
  }

  lemma ReleasedKeeps(s: System, i: nat, sent: Sent)
    requires Sound(s) && Inv(s)
    ensures Inv(Step(s, [], Released(i, sent)))
  {
    if HoldsSlot(s, i) {
      var s' := LetGo(s, i);
      ReleasedIs(s, i, sent);
      assert s.surface.value.slots[i].value.dmabuf == Dmabuf(Gen(s), i);
      hide Settled, Structure, Account, Send, Step;
      LetGoKeeps(s, i);
      AppendStructure(s', Release(i));
      ReleaseMessageAccount(s, i);
      SendKeeps(s', Release(i), sent);
    }
  }

  // ---------- a new size, or none ----------

  lemma MovedOnGrows(sizes: seq<Size>, size: Size, t: nat, lg: nat)
    requires MovedOn(sizes, t, lg)
    ensures MovedOn(sizes + [size], t, lg)
  {
    var u: nat :| u <= lg && Differs(sizes, t, u);
    assert Differs(sizes + [size], t, u);
  }

  /** The surface at its new size, the shell's buffers for it gone. */
  function Resized(s: System, size: Size, hasMemory: bool): System
    requires s.surface.Some?
  {
    var f := s.surface.value;
    s.(surface := Some(Surface(size, true, if hasMemory then Some(size) else None, NO_SLOTS, false, f.gen + 1)),
       held := {}, sizes := s.sizes + [size])
  }

  lemma ConfigureWatch(s: System, size: Size, hasMemory: bool)
    requires Sound(s) && SlotsOk(s) && s.surface.Some?
    ensures
      var f := s.surface.value;
      Watch(s.held, SurfaceConfigure(f, size, hasMemory).requests) == if f.configured
        && f.size == size then s.held else {}
  {
    var f := s.surface.value;
    var e := SurfaceConfigure(f, size, hasMemory);
    if f.configured && f.size == size {
      WatchIdle(s.held, e.requests);
    } else {
      var first, drops := [AckConfigure(size)], DropSlots(f.slots, SLOTS);
      var oldBlack := match f.black case None => [] case Some(b) => [Destroy(Black(b))];
      assert e.requests == first + drops + oldBlack + ShowBlack(e.surface);
      DropsHold(s);
      WatchIdle(s.held, first);
      WatchIdle({}, oldBlack);
      BlackIdle({}, e.surface);
      WatchFour(s.held, first, drops, oldBlack, ShowBlack(e.surface));
    }
  }

  lemma WatchFour(held: set<Dmabuf>, a: seq<Request>, b: seq<Request>, c: seq<Request>, d: seq<Request>)
    ensures Watch(held, a + b + c + d) == Watch(Watch(Watch(Watch(held, a), b), c), d)
  {
    hide Watch;
    WatchJoin(held, a, b);
    WatchJoin(held, a + b, c);
    WatchJoin(held, a + b + c, d);
  }

  lemma ConfiguredIs(s: System, size: Size, hasMemory: bool, sent: Sent)
    requires Sound(s) && SlotsOk(s) && s.surface.Some?
    ensures
      var f := s.surface.value;
      Step(s, [], Configured(size, hasMemory, sent)) ==
        if f.configured && f.size == size then s
            else Send(Resized(s, size, hasMemory), Some(Configure(size, f.gen + 1)), sent)
  {
    hide Watch, DropSlots, ShowBlack, SlotsOk;
    ConfigureWatch(s, size, hasMemory);
  }

  lemma ResizedUp(s: System, size: Size, hasMemory: bool)
    requires Sound(s) && UpOk(s) && s.surface.Some?
    ensures UpOk(Resized(s, size, hasMemory))
  {
    var s' := Resized(s, size, hasMemory);
    forall k | 0 <= k < |s.up| && s.output.Some? && Tag(s.up[k]) < Gen(s)
      ensures MovedOn(s'.sizes, Tag(s.up[k]), Gen(s))
    {
      MovedOnGrows(s.sizes, size, Tag(s.up[k]), Gen(s));
    }
    hide MovedOn, Tag;
  }

  lemma ResizedStructure(s: System, size: Size, hasMemory: bool)
    requires Sound(s) && Structure(s) && s.surface.Some?
    ensures Structure(Resized(s, size, hasMemory))
  {
    ResizedUp(s, size, hasMemory);
    hide UpOk, Settled, Inert;
    var s' := Resized(s, size, hasMemory);
    assert History(s') && DownOk(s');
    hide DownOk, History;
  }

  lemma ResizedAccount(s: System, size: Size, hasMemory: bool)
    requires Sound(s) && Account(s) && s.surface.Some?
    ensures Account(Resized(s, size, hasMemory))
  {
    var s' := Resized(s, size, hasMemory);
    hide Readies, Releases, Frames;
    assert Pending(s', 0) == Pending(s', 1) == Pending(s', 2) == 0;
    hide Pending;
  }

  lemma ResizedKeeps(s: System, size: Size, hasMemory: bool)
    requires Sound(s) && Inv(s) && s.surface.Some?
    ensures Inv(Resized(s, size, hasMemory))
  {
    ResizedStructure(s, size, hasMemory);
    ResizedAccount(s, size, hasMemory);
    hide Structure, Account;
  }

  lemma ConfigureMessageStructure(s: System, size: Size)
    requires Sound(s) && Structure(s) && s.surface.Some? && s.sizes != [] && s.held == {}
    requires Idle(s.surface.value) && s.surface.value.size == size && s.surface.value.gen == |s.sizes|
    requires forall j :: 0 <= j < |s.down| && s.down[j].Configure? ==> s.down[j].gen < |s.sizes|
    requires Gen(s) < |s.sizes|
    ensures Structure(s.(down := s.down + [Configure(size, |s.sizes|)]))
  {
    hide MovedOn, Tag, UpMessageOk;
    var s' := s.(down := s.down + [Configure(size, |s.sizes|)]);
    assert History(s') && UpOk(s') && SlotsOk(s');
    hide UpOk, SlotsOk, Inert;
    assert DownOk(s');
    hide DownOk, History;
  }

  lemma ConfigureMessageKeeps(s: System, size: Size, hasMemory: bool)
    requires Sound(s) && Inv(s) && s.surface.Some?
    ensures Inv(Resized(s, size, hasMemory).(down := s.down + [Configure(size, s.surface.value.gen + 1)]))
  {
    ResizedKeeps(s, size, hasMemory);
    var s1, m := Resized(s, size, hasMemory), Configure(size, s.surface.value.gen + 1);
    assert Gen(s1) < |s1.sizes| && s1.surface.value.gen == |s1.sizes| && Idle(s1.surface.value);
    ConfigureMessageStructure(s1, size);
    SentAccount(s1, m);
    hide Structure, Places, Tokens;
  }

  lemma ConfiguredKeeps(s: System, size: Size, hasMemory: bool, sent: Sent)
    requires Sound(s) && Inv(s)
    ensures Inv(Step(s, [], Configured(size, hasMemory, sent)))
  {
    if s.surface.Some? {
      ConfiguredIs(s, size, hasMemory, sent);
      ResizedKeeps(s, size, hasMemory);
      ConfigureMessageKeeps(s, size, hasMemory);
      hide Structure, Account;
      SendKeeps(Resized(s, size, hasMemory), Configure(size, s.surface.value.gen + 1), sent);
      hide Step, Resized, Send;
    }
  }

  function Forgotten(s: System): System {
    s.(surface := None, held := {})
  }

  lemma RemovedIs(s: System, sent: Sent)
    requires Sound(s) && SlotsOk(s) && s.surface.Some?
    ensures Step(s, [], Removed(sent)) == Forgotten(Send(s, Some(Remove), sent))
  {
    var s1 := Send(s, Some(Remove), sent);
    if sent.Broken? && s.running {
      StopClears(s);
      assert Watch({}, DropSlots(NO_SLOTS, SLOTS)) == {} by {
        WatchDrops({}, NO_SLOTS, SLOTS);
      }
    } else {
      DropsHold(s);
    }
    hide Watch, DropSlots;
  }

  lemma SendForms(s: System, m: Down, sent: Sent)
    requires Sound(s)
    ensures !s.running ==> Send(s, Some(m), sent) == s
    ensures s.running && sent.Delivered? ==> Send(s, Some(m), sent) == s.(down := s.down + [m])
    ensures s.running && sent.Dropped? ==> Send(s, Some(m), sent) == s.(lossy := true)
    ensures s.running && sent.Broken? ==> Send(s, Some(m), sent) == Stop(s)
  {
    hide Stop;
  }

  lemma StopInv(s: System)
    requires Inv(s)
    ensures Inv(Stop(s))
  {
    StopKeeps(s);
    hide Structure, Account, Stop;
  }

  lemma InvSlots(s: System)
    requires Inv(s)
    ensures Sound(s) && SlotsOk(s)
  {
  }

  lemma RemovedKeeps(s: System, sent: Sent)
    requires Sound(s) && Inv(s)
    ensures Inv(Step(s, [], Removed(sent)))
  {
    hide *;
    InvSlots(s);
    if s.surface.None? {
      NoSurface(s, sent);
    } else {
      RemovedIs(s, sent);
      SendForms(s, Remove, sent);
      if s.running && sent.Delivered? {
        RemoveMessageKeeps(s);
      } else {
        StopInv(s);
        LossyKeeps(s);
        ForgottenInv(s);
        ForgottenInv(Stop(s));
        ForgottenInv(s.(lossy := true));
      }
    }
  }

  lemma NoSurface(s: System, sent: Sent)
    requires Sound(s) && s.surface.None?
    ensures Step(s, [], Removed(sent)) == s
  {
  }

  lemma ForgottenInv(s: System)
    requires Inv(s)
    ensures Inv(Forgotten(s))
  {
    ForgottenKeeps(s);
    hide Structure, Account;
  }

  lemma ForgottenKeeps(s: System)
    requires Sound(s)
    ensures Inv(s) ==> Inv(Forgotten(s))
  {
    var s' := Forgotten(s);
    if Inv(s) {
      assert Pending(s', 0) == Pending(s', 1) == Pending(s', 2) == 0;
      hide MovedOn, Tag, UpMessageOk, Inert, Readies, Releases, Frames, Pending;
      assert Structure(s');
      hide Structure;
    }
  }

  lemma RemoveMessageKeeps(s: System)
    requires Sound(s) && Inv(s) && s.surface.Some?
    ensures Inv(Forgotten(s.(down := s.down + [Remove])))
  {
    ForgottenKeeps(s);
    var s1 := Forgotten(s);
    RemoveMessageStructure(s1) by {
      assert forall j :: 0 <= j < |s.down| ==> !s.down[j].Remove?;
    }
    SentAccount(s1, Remove);
    hide Structure, Places, Tokens;
  }

  lemma RemoveMessageStructure(s: System)
    requires Sound(s) && Structure(s) && s.surface.None? && s.held == {}
    requires forall j :: 0 <= j < |s.down| ==> !s.down[j].Remove?
    requires s.output.None? ==> s.up == []
    ensures Structure(s.(down := s.down + [Remove]))
  {
    var s' := s.(down := s.down + [Remove]);
    hide MovedOn, Tag, UpMessageOk;
    assert History(s') && UpOk(s') && SlotsOk(s');
    hide UpOk, SlotsOk, Inert;
    assert DownOk(s');
    hide DownOk, History;
  }
}
