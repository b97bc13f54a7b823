/**
 One lock surface as the shell sees it: the three buffers the screensaver
 loader sent for it, the black buffer, and what is asked of the compositor.
 */
module LockSurface {
  import opened Bytes

  const SLOTS: nat := 3
  const TWO_64: nat := 0x1_0000_0000_0000_0000

  datatype Size = Size(width: int, height: int)

  /** The memory behind a buffer: the slot of one generation of loader buffers. */
  datatype Dmabuf = Dmabuf(gen: nat, slot: nat)

  datatype Fd = Fd(bytes: int, dmabuf: Dmabuf)

  datatype Layout = Layout(stride: nat, offset: nat, modifier: nat)

  /** From the shell to the loader. The generation of a CONFIGURE is history, it is not sent. */
  datatype Down =
    | Configure(size: Size, gen: nat)
    | Remove
    | Frame
    | Release(buffer: nat)

  /** How sending to the loader goes: a full socket drops the message. */
  datatype Sent = Delivered | Dropped | Broken

  /** From the loader to the shell. The generation of a READY is history, it is not sent. */
  datatype Up =
    | Buffer(buffer: nat, size: Size, layout: Layout, fd: Option<Fd>)
    | Ready(buffer: nat, gen: nat, fd: Option<Fd>)
    | Unknown(buffer: nat, fd: Option<Fd>)

  datatype Slot = Slot(size: Size, dmabuf: Dmabuf, imported: bool, readyPending: bool)

  datatype Picture = Black(size: Size) | Drawn(size: Size, dmabuf: Dmabuf)

  /** What the compositor is asked, and what it says of buffers it was shown, in order. */
  datatype Request =
    | AckConfigure(size: Size)
    | Attach(picture: Picture)
    | AskFrame
    | Commit
    | Import(dmabuf: Dmabuf)
    | DropImport(dmabuf: Dmabuf)
    | Destroy(picture: Picture)
    | Freed(dmabuf: Dmabuf)

  /** `gen` is history: how many different sizes the surface has had. */
  datatype Surface = Surface(
    size: Size, configured: bool, black: Option<Size>, slots: seq<Option<Slot>>, frameCallback: bool, gen: nat)

  datatype Effect = Effect(surface: Surface, requests: seq<Request>, message: Option<Down>)

  const NO_SLOTS: seq<Option<Slot>> := [None, None, None]
  const NEW_SURFACE: Surface := Surface(Size(0, 0), false, None, NO_SLOTS, false, 0)

  predicate Shaped(s: Surface) {
    |s.slots| == SLOTS
  }

  function DropSlot(slot: Option<Slot>): seq<Request> {
    match slot
    case None => []
    case Some(b) => [if b.imported then Destroy(Drawn(b.size, b.dmabuf)) else DropImport(b.dmabuf)]
  }

  /** Of the slots, the first n let go. */
  function DropSlots(slots: seq<Option<Slot>>, n: nat): seq<Request>
    requires n <= |slots|
  {
    if n == 0 then [] else DropSlots(slots, n - 1) + DropSlot(slots[n - 1])
  }

  function DestroyBuffers(s: Surface): Effect
    requires Shaped(s)
  {
    Effect(s.(slots := NO_SLOTS, frameCallback := false), DropSlots(s.slots, SLOTS), None)
  }

  function ShowBlack(s: Surface): seq<Request> {
    match s.black
    case None => []
    case Some(size) => [Attach(Black(size)), Commit]
  }

  /** A size from the compositor; `hasMemory` says whether there was memory for a black buffer. */
  function SurfaceConfigure(s: Surface, size: Size, hasMemory: bool): Effect
    requires Shaped(s)
  {
    if s.configured && s.size == size then Effect(s, [AckConfigure(size), Commit], None)
    else
      var black := if hasMemory then Some(size) else None;
      var s' := Surface(size, true, black, NO_SLOTS, false, s.gen + 1);
      var oldBlack := match s.black case None => [] case Some(b) => [Destroy(Black(b))];
      Effect(s', [AckConfigure(size)] + DropSlots(s.slots, SLOTS) + oldBlack + ShowBlack(s'),
             Some(Configure(size, s.gen + 1)))
  }

  /** The screensaver is gone: its buffers go, and a surface that has a size turns black. */
  function Stopped(s: Surface): Effect
    requires Shaped(s)
  {
    var e := DestroyBuffers(s);
    e.(requests := e.requests + if s.configured then ShowBlack(s) else [])
  }

  function U64(x: int): nat {
    x % TWO_64
  }

  /** The compositor would take a buffer like this. */
  predicate Importable(modifiers: seq<nat>, size: Size, layout: Layout, bytes: int) {
    && layout.modifier in modifiers
    && bytes > 0
    && layout.stride >= U64(U64(size.width) * 4)
    && U64(layout.offset + layout.stride * U64(size.height)) <= bytes
  }

  function Present(s: Surface, i: nat): Effect
    requires Shaped(s) && i < SLOTS && s.slots[i].Some?
  {
    var b := s.slots[i].value;
    if b.size != s.size then Effect(s, [], None)
    else
      Effect(s.(frameCallback := true),
             [Attach(Drawn(b.size, b.dmabuf))] + (if s.frameCallback then [] else [AskFrame]) + [Commit], None)
  }

  function HandleBuffer(s: Surface, modifiers: seq<nat>, i: nat, size: Size, layout: Layout, fd: Fd): Option<Effect>
    requires Shaped(s) && i < SLOTS
  {
    if size != s.size then Some(Effect(s, [], None))
    else if !Importable(modifiers, size, layout, fd.bytes) then None
    else
      Some(Effect(s.(slots := s.slots[i := Some(Slot(size, fd.dmabuf, false, false))]),
                  DropSlot(s.slots[i]) + [Import(fd.dmabuf)], None))
  }

  function HandleReady(s: Surface, i: nat): Effect
    requires Shaped(s) && i < SLOTS
  {
    match s.slots[i]
    case None => Effect(s, [], None)
    case Some(b) =>
      if b.size != s.size then Effect(s, [], None)
      else if b.imported then Present(s, i)
      else Effect(s.(slots := s.slots[i := Some(b.(readyPending := true))]), [], None)
  }

  /** What a message makes of the surface; none at all for one no sane loader would send. */
  function Handle(s: Surface, modifiers: seq<nat>, m: Up): Option<Effect>
    requires Shaped(s)
  {
    if (!m.Buffer? && m.fd.Some?) || m.buffer >= SLOTS then None
    else
      match m
      case Buffer(i, size, layout, fd) =>
        if fd.None? then None else HandleBuffer(s, modifiers, i, size, layout, fd.value)
      case Ready(i, _, _) => Some(HandleReady(s, i))
      case Unknown(_, _) => None
  }

  predicate Importing(s: Surface, i: nat) {
    i < |s.slots| && s.slots[i].Some? && !s.slots[i].value.imported
  }

  function ParamsCreated(s: Surface, i: nat): Effect
    requires Shaped(s) && Importing(s, i)
  {
    var b := s.slots[i].value;
    var s' := s.(slots := s.slots[i := Some(b.(imported := true, readyPending := false))]);
    if b.readyPending then Present(s', i) else Effect(s', [], None)
  }

  function FrameDone(s: Surface): Effect {
    Effect(s.(frameCallback := false), [], Some(Frame))
  }

  function BufferRelease(s: Surface, i: nat): Effect
    requires i < |s.slots| && s.slots[i].Some?
  {
    Effect(s, [Freed(s.slots[i].value.dmabuf)], Some(Release(i)))
  }

  // ---------- what the compositor has ----------

  /** It forgets destroyed buffers, and lets go of those it says are free. */
  function WatchStep(held: set<Dmabuf>, r: Request): set<Dmabuf> {
    if r.Attach? && r.picture.Drawn? then held + {r.picture.dmabuf}
    else if r.Destroy? && r.picture.Drawn? then held - {r.picture.dmabuf}
    else if r.Freed? then held - {r.dmabuf}
    else held
  }

  function Watch(held: set<Dmabuf>, rs: seq<Request>): set<Dmabuf> {
    if rs == [] then held else WatchStep(Watch(held, rs[..|rs| - 1]), rs[|rs| - 1])
  }

  /** The sizes acknowledged, each new one once. */
  function SizesAfter(sizes: seq<Size>, rs: seq<Request>): seq<Size> {
    if rs == [] then sizes
    else
      SizesStep(SizesAfter(sizes, rs[..|rs| - 1]), rs[|rs| - 1])
  }

  function SizesStep(sizes: seq<Size>, r: Request): seq<Size> {
    if r.AckConfigure? && (sizes == [] || sizes[|sizes| - 1] != r.size) then sizes + [r.size] else sizes
  }

  lemma {:induction false} WatchJoin(held: set<Dmabuf>, xs: seq<Request>, ys: seq<Request>)
    ensures Watch(held, xs + ys) == Watch(Watch(held, xs), ys)
  {
    if ys == [] {
      assert xs + ys == xs;
    } else {
      WatchJoin(held, xs, ys[..|ys| - 1]);
      assert (xs + ys)[..|xs + ys| - 1] == xs + ys[..|ys| - 1];
    }
  }

  lemma WatchOne(held: set<Dmabuf>, r: Request)
    ensures Watch(held, [r]) == WatchStep(held, r)
  {
    assert [r][..0] == [];
  }

  lemma {:induction false} WatchIdle(held: set<Dmabuf>, rs: seq<Request>)
    requires forall r :: r in rs ==> !r.Freed? && !((r.Attach? || r.Destroy?) && r.picture.Drawn?)
    ensures Watch(held, rs) == held
  {
    if rs != [] {
      WatchIdle(held, rs[..|rs| - 1]);
    }
  }

  lemma {:induction false} SizesJoin(sizes: seq<Size>, xs: seq<Request>, ys: seq<Request>)
    ensures SizesAfter(sizes, xs + ys) == SizesAfter(SizesAfter(sizes, xs), ys)
  {
    hide SizesStep;
    if ys == [] {
      assert xs + ys == xs;
    } else {
      SizesJoin(sizes, xs, ys[..|ys| - 1]);
      assert (xs + ys)[..|xs + ys| - 1] == xs + ys[..|ys| - 1];
    }
  }

  predicate NoAcks(rs: seq<Request>) {
    forall r :: r in rs ==> !r.AckConfigure?
  }

  lemma {:induction false} SizesNoAcks(sizes: seq<Size>, rs: seq<Request>)
    requires NoAcks(rs)
    ensures SizesAfter(sizes, rs) == sizes
  {
    if rs != [] {
      SizesNoAcks(sizes, rs[..|rs| - 1]);
      assert rs[|rs| - 1] in rs;
    }
  }

  lemma SizesAck(sizes: seq<Size>, size: Size)
    ensures SizesAfter(sizes, [AckConfigure(size)]) == if sizes == []
            || sizes[|sizes| - 1] != size then sizes + [size] else sizes
  {
    var rs := [AckConfigure(size)];
    assert rs[..|rs| - 1] == [] && rs[|rs| - 1] == AckConfigure(size);
    assert SizesAfter(sizes, []) == sizes;
  }

  lemma {:induction false} DropsNoAcks(slots: seq<Option<Slot>>, n: nat)
    requires n <= |slots|
    ensures NoAcks(DropSlots(slots, n))
    decreases n
  {
    if n > 0 {
      DropsNoAcks(slots, n - 1);
    }
  }

  /** What is done without a new size: the surface keeps the one it has. */
  predicate Gentle(f: Surface, e: Effect) {
    Shaped(e.surface) && NoAcks(e.requests) && e.surface.size == f.size && e.surface.configured == f.configured
  }

  lemma StoppedGentle(f: Surface)
    requires Shaped(f)
    ensures Gentle(f, Stopped(f)) && Gentle(f, DestroyBuffers(f))
  {
    DropsNoAcks(f.slots, SLOTS);
  }

  lemma HandleGentle(f: Surface, modifiers: seq<nat>, m: Up)
    requires Shaped(f) && Handle(f, modifiers, m).Some?
    ensures Gentle(f, Handle(f, modifiers, m).value)
  {
    hide Importable;
  }

  lemma ParamsCreatedGentle(f: Surface, i: nat)
    requires Shaped(f) && Importing(f, i)
    ensures Gentle(f, ParamsCreated(f, i))
  {
  }

  /** A size is acknowledged first, and nothing else after it. */
  lemma ConfigureAcks(f: Surface, size: Size, hasMemory: bool)
    requires Shaped(f)
    ensures var rs := SurfaceConfigure(f, size, hasMemory).requests;
            rs != [] && rs[0] == AckConfigure(size) && NoAcks(rs[1..])
  {
    hide DropSlots;
    DropsNoAcks(f.slots, SLOTS);
    var rs := SurfaceConfigure(f, size, hasMemory).requests;
    if !(f.configured && f.size == size) {
      var oldBlack := match f.black case None => [] case Some(b) => [Destroy(Black(b))];
      assert rs[1..] == DropSlots(f.slots, SLOTS) + oldBlack + ShowBlack(SurfaceConfigure(f, size, hasMemory).surface);
    }
  }

  lemma ConfigureSizes(f: Surface, sizes: seq<Size>, size: Size, hasMemory: bool)
    requires Shaped(f) && f.configured == (sizes != []) && (sizes != [] ==> sizes[|sizes| - 1] == f.size)
    ensures var e := SurfaceConfigure(f, size, hasMemory);
            Shaped(e.surface) && e.surface.configured && e.surface.size == size
            && SizesAfter(sizes, e.requests) == if e.message.Some? then sizes + [size] else sizes
  {
    ConfigureAcks(f, size, hasMemory);
    var rs := SurfaceConfigure(f, size, hasMemory).requests;
    hide DropSlots, SizesAfter, NoAcks, ShowBlack;
    assert rs == [AckConfigure(size)] + rs[1..];
    SizesAck(sizes, size);
    SizesJoin(sizes, [AckConfigure(size)], rs[1..]);
    SizesNoAcks(SizesAfter(sizes, [AckConfigure(size)]), rs[1..]);
  }

  // ---------- what the compositor demands of a lock surface ----------

  /** What the compositor last had acknowledged, and what is attached. */
  datatype Shown = Shown(acked: Option<Size>, attached: Option<Size>, error: bool)

  const NOTHING_SHOWN: Shown := Shown(None, None, false)

  /** A commit before the first ack, without a buffer, or of the wrong size is a protocol error. */
  function Judge(v: Shown, r: Request): Shown {
    match r
    case AckConfigure(size) => v.(acked := Some(size))
    case Attach(picture) => v.(attached := Some(picture.size))
    case Commit => v.(error := v.error || v.acked.None? || v.attached != v.acked)
    case _ => v
  }

  function JudgeAll(v: Shown, rs: seq<Request>): Shown {
    if rs == [] then v else Judge(JudgeAll(v, rs[..|rs| - 1]), rs[|rs| - 1])
  }

  lemma {:induction false} JudgeJoin(v: Shown, xs: seq<Request>, ys: seq<Request>)
    ensures JudgeAll(v, xs + ys) == JudgeAll(JudgeAll(v, xs), ys)
  {
    if ys == [] {
      assert xs + ys == xs;
    } else {
      JudgeJoin(v, xs, ys[..|ys| - 1]);
      assert (xs + ys)[..|xs + ys| - 1] == xs + ys[..|ys| - 1];
    }
  }

  lemma {:induction false} JudgeDrops(v: Shown, slots: seq<Option<Slot>>, n: nat)
    requires n <= |slots|
    ensures JudgeAll(v, DropSlots(slots, n)) == v
    decreases n
  {
    if n > 0 {
      JudgeDrop(v, slots[n - 1]);
      hide JudgeAll, DropSlot;
      JudgeDrops(v, slots, n - 1);
      JudgeJoin(v, DropSlots(slots, n - 1), DropSlot(slots[n - 1]));
    } else {
      JudgeNothing(v);
      hide JudgeAll;
    }
  }

  lemma JudgeNothing(v: Shown)
    ensures JudgeAll(v, []) == v
  {
  }

  lemma JudgeDrop(v: Shown, slot: Option<Slot>)
    ensures JudgeAll(v, DropSlot(slot)) == v
  {
    assert slot.Some? ==> DropSlot(slot)[..0] == [];
  }

  /** Every buffer the surface has is of its own size, and so is what the compositor shows. */
  predicate InStep(s: Surface, v: Shown) {
    && Shaped(s) && !v.error
    && (forall i :: 0 <= i < SLOTS && s.slots[i].Some? ==> s.slots[i].value.size == s.size)
    && (s.black.Some? ==> s.black.value == s.size)
    && (s.configured ==> s.black.Some? && v.acked == Some(s.size) && v.attached == Some(s.size))
    && (!s.configured ==> s.black.None? && v.acked.None? && v.attached.None?)
    && (!s.configured ==> forall i :: 0 <= i < SLOTS && s.slots[i].Some? ==> !s.slots[i].value.imported)
  }

  lemma JudgeOne(v: Shown, r: Request)
    ensures JudgeAll(v, [r]) == Judge(v, r)
  {
    assert [r][..0] == [];
  }

  lemma JudgeTwo(v: Shown, a: Request, b: Request)
    ensures JudgeAll(v, [a, b]) == Judge(Judge(v, a), b)
  {
    assert [a, b][..1] == [a];
    JudgeOne(v, a);
  }

  lemma ConfigureInStep(s: Surface, v: Shown, size: Size)
    requires InStep(s, v)
    ensures var e := SurfaceConfigure(s, size, true); InStep(e.surface, JudgeAll(v, e.requests))
  {
    hide JudgeAll, DropSlots;
    var e := SurfaceConfigure(s, size, true);
    if s.configured && s.size == size {
      JudgeTwo(v, AckConfigure(size), Commit);
    } else {
      var oldBlack := match s.black case None => [] case Some(b) => [Destroy(Black(b))];
      var v1 := v.(acked := Some(size));
      JudgeOne(v, AckConfigure(size));
      JudgeJoin(v, [AckConfigure(size)], DropSlots(s.slots, SLOTS));
      JudgeDrops(v1, s.slots, SLOTS);
      JudgeJoin(v, [AckConfigure(size)] + DropSlots(s.slots, SLOTS), oldBlack);
      JudgeNone(v1);
      if s.black.Some? {
        JudgeOne(v1, oldBlack[0]);
      }
      JudgeJoin(v, [AckConfigure(size)] + DropSlots(s.slots, SLOTS) + oldBlack, ShowBlack(e.surface));
      JudgeTwo(v1, Attach(Black(size)), Commit);
    }
  }

  lemma JudgeNone(v: Shown)
    ensures JudgeAll(v, []) == v
  {
  }

  lemma StoppedInStep(s: Surface, v: Shown)
    requires InStep(s, v)
    ensures InStep(Stopped(s).surface, JudgeAll(v, Stopped(s).requests))
  {
    hide JudgeAll, DropSlots;
    JudgeDrops(v, s.slots, SLOTS);
    if s.configured {
      JudgeJoin(v, DropSlots(s.slots, SLOTS), ShowBlack(s));
      JudgeTwo(v, Attach(Black(s.size)), Commit);
    } else {
      assert DropSlots(s.slots, SLOTS) + [] == DropSlots(s.slots, SLOTS);
    }
  }

  lemma DestroyInStep(s: Surface, v: Shown)
    requires InStep(s, v)
    ensures InStep(DestroyBuffers(s).surface, JudgeAll(v, DestroyBuffers(s).requests))
  {
    JudgeDrops(v, s.slots, SLOTS);
  }

  lemma PresentInStep(s: Surface, v: Shown, i: nat)
    requires InStep(s, v) && s.configured && i < SLOTS && s.slots[i].Some?
    ensures InStep(Present(s, i).surface, JudgeAll(v, Present(s, i).requests))
  {
    var b := s.slots[i].value;
    var attach := Attach(Drawn(b.size, b.dmabuf));
    JudgeTwo(v, attach, Commit);
    if s.frameCallback {
      assert [attach] + [] + [Commit] == [attach, Commit];
    } else {
      assert [attach] + [AskFrame] + [Commit] == [attach] + [AskFrame, Commit];
      JudgeJoin(v, [attach], [AskFrame, Commit]);
      JudgeOne(v, attach);
      JudgeTwo(Judge(v, attach), AskFrame, Commit);
    }
  }

  lemma HandleInStep(s: Surface, v: Shown, modifiers: seq<nat>, m: Up)
    requires InStep(s, v) && Handle(s, modifiers, m).Some?
    ensures var e := Handle(s, modifiers, m).value; InStep(e.surface, JudgeAll(v, e.requests))
  {
    if m.Ready? {
      var slot := s.slots[m.buffer];
      if slot.Some? && slot.value.size == s.size && slot.value.imported {
        PresentInStep(s, v, m.buffer);
      }
    } else if m.size == s.size {
      var imports := [Import(m.fd.value.dmabuf)];
      var drop := DropSlot(s.slots[m.buffer]);
      JudgeJoin(v, drop, imports);
      assert s.slots[m.buffer].Some? ==> drop[..0] == [];
      JudgeOne(v, imports[0]);
    }
  }

  lemma ParamsCreatedInStep(s: Surface, v: Shown, i: nat)
    requires InStep(s, v) && s.configured && Importing(s, i)
    ensures InStep(ParamsCreated(s, i).surface, JudgeAll(v, ParamsCreated(s, i).requests))
  {
    var b := s.slots[i].value;
    var s' := s.(slots := s.slots[i := Some(b.(imported := true, readyPending := false))]);
    assert InStep(s', v);
    if b.readyPending {
      PresentInStep(s', v, i);
    }
  }
}
