/**
 What every step of the frame exchange keeps: messages are in generation
 order, a buffer the loader counts as busy is in one place at most and any
 other in none, and there is one frame token per output at most.
 */
module FrameInvariant {
  import opened Bytes
  import opened LockSurface
  import opened FrameProtocol

  /** No usable size comes back once the surface has had another usable size. */
  ghost predicate NoReturn(sizes: seq<Size>) {
    forall i, k, j :: 0 <= i < k < j < |sizes| && Valid(sizes[i]) && Valid(sizes[k]) && sizes[i] == sizes[j] ==>
        sizes[k] == sizes[i]
  }

  function Gen(s: System): nat {
    if s.output.Some? then s.output.value.gen else 0
  }

  function Tag(m: Up): nat {
    match m
    case Buffer(_, _, _, fd) => if fd.Some? then fd.value.dmabuf.gen else 0
    case Ready(_, gen, _) => gen
    case Unknown(_, _) => 0
  }

  predicate SizeAt(sizes: seq<Size>, gen: nat, size: Size) {
    1 <= gen <= |sizes| && sizes[gen - 1] == size
  }

  predicate History(s: System) {
    && (s.surface.Some? ==> s.surface.value.gen == |s.sizes| && s.surface.value.configured == (s.sizes != []))
    && (s.surface.Some? && s.sizes != [] ==> s.surface.value.size == s.sizes[|s.sizes| - 1])
    && (s.output.Some? ==> SizeAt(s.sizes, s.output.value.gen, s.output.value.size) && Valid(s.output.value.size))
  }

  /** A message that leaves the loader's buffers alone. */
  predicate Inert(o: Option<Output>, m: Down) {
    match m
    case Configure(size, _) => !Valid(size) || (o.Some? && size == o.value.size)
    case Remove => false
    case _ => true
  }

  predicate ForBuffers(m: Down) {
    m.Frame? || m.Release?
  }

  predicate DownOk(s: System) {
    && (forall j :: 0 <= j < |s.down| && s.down[j].Configure? ==>
          Gen(s) < s.down[j].gen && SizeAt(s.sizes, s.down[j].gen, s.down[j].size))
    && (forall j, k :: 0 <= j < k < |s.down| && s.down[j].Configure? && s.down[k].Configure? ==>
        s.down[j].gen < s.down[k].gen)
    && (forall j :: 0 <= j < |s.down| && s.down[j].Remove? ==> s.surface.None? && j == |s.down| - 1)
    && (forall j :: 0 <= j < |s.down| && ForBuffers(s.down[j]) ==> s.output.Some?)
    && (forall j, k :: 0 <= j < k < |s.down| && ForBuffers(s.down[k]) ==> Inert(s.output, s.down[j]))
  }

  predicate UpMessageOk(m: Up, sizes: seq<Size>) {
    && m.buffer < SLOTS && 1 <= Tag(m) <= |sizes| && Valid(sizes[Tag(m) - 1])
    && match m
       case Buffer(i, size, _, fd) => fd.Some? && fd.value.dmabuf.slot == i && size == sizes[Tag(m) - 1]
       case Ready(_, _, fd) => fd.None?
       case Unknown(_, _) => false
  }

  predicate Differs(sizes: seq<Size>, t: nat, u: nat) {
    1 <= t < u <= |sizes| && Valid(sizes[u - 1]) && sizes[u - 1] != sizes[t - 1]
  }

  /** Since generation t, the loader has had another usable size by generation lg. */
  ghost predicate MovedOn(sizes: seq<Size>, t: nat, lg: nat) {
    exists u: nat :: u <= lg && Differs(sizes, t, u)
  }

  ghost predicate UpOk(s: System) {
    && (forall k :: 0 <= k < |s.up| ==> UpMessageOk(s.up[k], s.sizes))
    && (forall j, k :: 0 <= j < k < |s.up| ==> Tag(s.up[j]) <= Tag(s.up[k]))
    && (s.output.Some? ==> forall k :: 0 <= k < |s.up| ==>
          Tag(s.up[k]) == Gen(s) || (Tag(s.up[k]) < Gen(s) && MovedOn(s.sizes, Tag(s.up[k]), Gen(s))))
    && (s.output.None? && (s.surface.Some? || s.down != []) ==> s.up == [])
  }

  /** The loader's buffers are of the surface's size, and nothing older is on its way. */
  predicate Settled(s: System) {
    && s.surface.Some? && s.output.Some? && s.sizes != [] && s.output.value.size == s.sizes[|s.sizes| - 1]
    && (forall k :: 0 <= k < |s.up| ==> Tag(s.up[k]) == Gen(s))
    && (forall k :: 0 <= k < |s.down| ==> Inert(s.output, s.down[k]))
  }

  predicate Idle(f: Surface) {
    f.slots == NO_SLOTS && !f.frameCallback
  }

  predicate SlotsOk(s: System)
    requires Sound(s)
  {
    && (s.surface.Some? ==> Settled(s) || Idle(s.surface.value))
    && (s.surface.Some? && !s.running ==> Idle(s.surface.value))
    && (s.surface.Some? ==> forall i :: 0 <= i < SLOTS && s.surface.value.slots[i].Some? ==>
          var b := s.surface.value.slots[i].value;
          b.dmabuf == Dmabuf(Gen(s), i) && b.size == s.surface.value.size && !(b.imported && b.readyPending))
    && (forall d :: d in s.held ==> HoldsSlot(s, d.slot) && s.surface.value.slots[d.slot].value.dmabuf == d)
  }

  ghost predicate Structure(s: System)
    requires Sound(s)
  {
    History(s) && DownOk(s) && UpOk(s) && SlotsOk(s)
  }

  // ---------- where the buffers are ----------

  function Readies(up: seq<Up>, gen: nat, i: nat): nat {
    if up == [] then 0 else One(up[0].Ready? && up[0].gen == gen && up[0].buffer == i) + Readies(up[1..], gen, i)
  }

  function Releases(down: seq<Down>, i: nat): nat {
    if down == [] then 0 else One(down[0] == Release(i)) + Releases(down[1..], i)
  }

  function Frames(down: seq<Down>): nat {
    if down == [] then 0 else One(down[0].Frame?) + Frames(down[1..])
  }

  function Pending(s: System, i: nat): nat
    requires Sound(s)
  {
    One(s.surface.Some? && i < SLOTS && s.surface.value.slots[i].Some? && s.surface.value.slots[i].value.readyPending)
  }

  /** READY on its way, waiting for the import, with the compositor, RELEASE on its way. */
  function Places(s: System, i: nat): nat
    requires Sound(s)
  {
    Readies(s.up, Gen(s), i) + Pending(s, i) + One(Dmabuf(Gen(s), i) in s.held) + Releases(s.down, i)
  }

  function Tokens(s: System): nat
    requires Sound(s)
  {
    One(s.output.Some? && s.output.value.frameWanted)
    + (Readies(s.up, Gen(s), 0) + Readies(s.up, Gen(s), 1) + Readies(s.up, Gen(s), 2))
    + (Pending(s, 0) + Pending(s, 1) + Pending(s, 2))
    + One(s.surface.Some? && s.surface.value.frameCallback)
    + Frames(s.down)
  }

  predicate Account(s: System)
    requires Sound(s)
  {
    s.output.Some? ==>
      && (forall i :: 0 <= i < SLOTS ==> Places(s, i) <= One(s.output.value.busy[i]))
      && Tokens(s) <= 1
  }

  ghost predicate Inv(s: System) {
    Sound(s) && Structure(s) && Account(s)
  }

  lemma {:induction false} ReadiesJoin(xs: seq<Up>, ys: seq<Up>, gen: nat, i: nat)
    ensures Readies(xs + ys, gen, i) == Readies(xs, gen, i) + Readies(ys, gen, i)
  {
    if xs == [] {
      assert xs + ys == ys;
    } else {
      ReadiesJoin(xs[1..], ys, gen, i);
      assert (xs + ys)[1..] == xs[1..] + ys;
    }
  }

  lemma {:induction false} DownCountsJoin(xs: seq<Down>, ys: seq<Down>, i: nat)
    ensures Releases(xs + ys, i) == Releases(xs, i) + Releases(ys, i)
    ensures Frames(xs + ys) == Frames(xs) + Frames(ys)
  {
    if xs == [] {
      assert xs + ys == ys;
    } else {
      DownCountsJoin(xs[1..], ys, i);
      assert (xs + ys)[1..] == xs[1..] + ys;
    }
  }

  lemma {:induction false} NoReadies(up: seq<Up>, gen: nat, i: nat)
    requires forall k :: 0 <= k < |up| ==> Tag(up[k]) != gen || !up[k].Ready?
    ensures Readies(up, gen, i) == 0
  {
    if up != [] {
      NoReadies(up[1..], gen, i);
    }
  }

  lemma {:induction false} NoneForBuffers(down: seq<Down>, i: nat)
    requires forall k :: 0 <= k < |down| ==> !ForBuffers(down[k])
    ensures Releases(down, i) == 0 && Frames(down) == 0
  {
    if down != [] {
      NoneForBuffers(down[1..], i);
    }
  }

  // ---------- what the compositor still has ----------

  predicate KeptIn(d: Dmabuf, slots: seq<Option<Slot>>) {
    d.slot < |slots| && slots[d.slot].Some? && slots[d.slot].value.imported && slots[d.slot].value.dmabuf == d
  }

  lemma WatchDropOne(held: set<Dmabuf>, slots: seq<Option<Slot>>, i: nat)
    requires i < |slots| && forall d :: d in held ==> KeptIn(d, slots)
    ensures forall d :: d in Watch(held, DropSlot(slots[i])) ==> d in held && d.slot != i
  {
    if slots[i].Some? {
      WatchOne(held, DropSlot(slots[i])[0]);
    }
    hide Watch;
  }

  lemma {:induction false} WatchDrops(held: set<Dmabuf>, slots: seq<Option<Slot>>, n: nat)
    requires n <= |slots| && forall d :: d in held ==> KeptIn(d, slots)
    ensures forall d :: d in Watch(held, DropSlots(slots, n)) ==> d in held && d.slot >= n
    decreases n
  {
    if n > 0 {
      var before := DropSlots(slots, n - 1);
      hide Watch, DropSlot, KeptIn;
      WatchDrops(held, slots, n - 1);
      WatchJoin(held, before, DropSlot(slots[n - 1]));
      WatchDropOne(Watch(held, before), slots, n - 1);
    }
  }
}
