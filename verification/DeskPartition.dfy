/**
 Every window is somewhere: on one output, stacked if it is shown and with the
 icons if it is minimized, or waiting for an output to come; and nowhere twice.
 */
module DeskPartition {
  import opened Bytes
  import opened Desk

  function Count(s: seq<nat>, w: nat): nat {
    if s == [] then 0 else One(s[0] == w) + Count(s[1..], w)
  }

  function On(o: Output, w: nat): nat {
    Count(o.windows, w) + Count(o.minimized, w)
  }

  function PlacesIn(outputs: seq<Output>, w: nat): nat {
    if outputs == [] then 0 else On(outputs[0], w) + PlacesIn(outputs[1..], w)
  }

  /** How often a window is listed. */
  function Places(d: Desktop, w: nat): nat {
    PlacesIn(d.outputs, w) + Count(d.orphans, w)
  }

  /** Windows are with the icons exactly if they are minimized. */
  predicate Filed(o: Output, windows: map<nat, Window>) {
    && (forall w :: w in o.windows ==> w in windows && !windows[w].minimized)
    && (forall w :: w in o.minimized ==> w in windows && windows[w].minimized)
  }

  ghost predicate Part(d: Desktop) {
    && (forall w: nat :: Places(d, w) == One(w in d.windows))
    && (forall k :: 0 <= k < |d.outputs| ==> Filed(d.outputs[k], d.windows))
  }

  // ---------- counting ----------

  lemma {:induction false} CountJoin(s: seq<nat>, t: seq<nat>, w: nat)
    ensures Count(s + t, w) == Count(s, w) + Count(t, w)
  {
    if s == [] {
      assert s + t == t;
    } else {
      CountJoin(s[1..], t, w);
      assert (s + t)[1..] == s[1..] + t;
    }
  }

  lemma CountOne(v: nat, w: nat)
    ensures Count([v], w) == One(v == w)
  {
    assert [v][1..] == [];
  }

  lemma CountPush(s: seq<nat>, v: nat, w: nat)
    ensures Count(s + [v], w) == Count(s, w) + One(v == w)
  {
    CountJoin(s, [v], w);
    CountOne(v, w);
  }

  lemma {:induction false} CountErase(s: seq<nat>, v: nat, w: nat)
    ensures Count(Erase(s, v), w) == if v == w then 0 else Count(s, w)
  {
    if s != [] {
      CountErase(s[1..], v, w);
      CountOne(s[0], w);
      CountJoin(if s[0] == v then [] else [s[0]], Erase(s[1..], v), w);
    }
  }

  lemma {:induction false} EraseIn(s: seq<nat>, v: nat, w: nat)
    ensures w in Erase(s, v) <==> w in s && w != v
  {
    if s != [] {
      EraseIn(s[1..], v, w);
      assert s == [s[0]] + s[1..];
    }
  }

  lemma {:induction false} CountIn(s: seq<nat>, w: nat)
    ensures Count(s, w) > 0 <==> w in s
  {
    if s != [] {
      CountIn(s[1..], w);
      assert s == [s[0]] + s[1..];
    }
  }

  lemma {:induction false} PlacesUpdate(outputs: seq<Output>, k: nat, o: Output, w: nat)
    requires k < |outputs|
    ensures PlacesIn(outputs[k := o], w) == PlacesIn(outputs, w) - On(outputs[k], w) + On(o, w)
    ensures On(outputs[k], w) <= PlacesIn(outputs, w)
  {
    hide On;
    if k == 0 {
      assert outputs[0 := o][1..] == outputs[1..];
    } else {
      PlacesUpdate(outputs[1..], k - 1, o, w);
      assert outputs[k := o][1..] == outputs[1..][k - 1 := o];
    }
  }

  lemma {:induction false} PlacesJoin(xs: seq<Output>, ys: seq<Output>, w: nat)
    ensures PlacesIn(xs + ys, w) == PlacesIn(xs, w) + PlacesIn(ys, w)
  {
    hide On;
    if xs == [] {
      assert xs + ys == ys;
    } else {
      PlacesJoin(xs[1..], ys, w);
      assert (xs + ys)[1..] == xs[1..] + ys;
    }
  }

  lemma PlacesRemove(outputs: seq<Output>, k: nat, w: nat)
    requires k < |outputs|
    ensures PlacesIn(outputs, w) == PlacesIn(outputs[..k] + outputs[k + 1..], w) + On(outputs[k], w)
  {
    hide On;
    PlacesJoin(outputs[..k], outputs[k + 1..], w);
    PlacesJoin(outputs[..k], [outputs[k]] + outputs[k + 1..], w);
    assert outputs == outputs[..k] + ([outputs[k]] + outputs[k + 1..]);
    assert ([outputs[k]] + outputs[k + 1..])[1..] == outputs[k + 1..];
  }

  lemma {:induction false} PlacesNowhere(outputs: seq<Output>, w: nat)
    requires OutputOf(outputs, w) == |outputs|
    ensures PlacesIn(outputs, w) == 0
  {
    if outputs != [] {
      CountIn(outputs[0].windows, w);
      CountIn(outputs[0].minimized, w);
      assert OutputOf(outputs[1..], w) == |outputs[1..]|;
      PlacesNowhere(outputs[1..], w);
    }
  }

  lemma {:induction false} PlacesOnOne(outputs: seq<Output>, k: nat, w: nat)
    requires k < |outputs| && (w in outputs[k].windows || w in outputs[k].minimized)
    ensures On(outputs[k], w) >= 1 && PlacesIn(outputs, w) >= 1
  {
    CountIn(outputs[k].windows, w);
    CountIn(outputs[k].minimized, w);
    PlacesUpdate(outputs, k, outputs[k], w);
  }

  // ---------- changes that move nothing ----------

  /** Windows may change in all but being there and being minimized. */
  predicate SameFiles(windows: map<nat, Window>, windows': map<nat, Window>) {
    windows'.Keys == windows.Keys && forall w :: w in windows ==> windows'[w].minimized == windows[w].minimized
  }

  /** Windows may change in where they are, and in nothing else. */
  predicate OnlyFrames(windows: map<nat, Window>, windows': map<nat, Window>) {
    windows'.Keys == windows.Keys && forall w :: w in windows ==> windows'[w] == windows[w].(frame := windows'[w].frame)
  }

  predicate SameLists(d: Desktop, d': Desktop) {
    && |d'.outputs| == |d.outputs| && d'.orphans == d.orphans && SameFiles(d.windows, d'.windows)
    && forall k :: 0 <= k < |d.outputs| ==>
         d'.outputs[k].windows == d.outputs[k].windows && d'.outputs[k].minimized == d.outputs[k].minimized
  }

  lemma {:induction false} PlacesSame(xs: seq<Output>, ys: seq<Output>, w: nat)
    requires |xs| == |ys|
    requires forall k :: 0 <= k < |xs| ==> xs[k].windows == ys[k].windows && xs[k].minimized == ys[k].minimized
    ensures PlacesIn(xs, w) == PlacesIn(ys, w)
  {
    if xs != [] {
      PlacesSame(xs[1..], ys[1..], w);
      hide Count;
    }
  }

  /** All windows are still there, and closed or not as before. */
  predicate SameOpen(windows: map<nat, Window>, windows': map<nat, Window>) {
    windows'.Keys == windows.Keys && forall w :: w in windows ==> windows'[w].closed == windows[w].closed
  }

  /** The windows that are gone were closed. */
  predicate Stay(windows: map<nat, Window>, windows': map<nat, Window>) {
    && windows'.Keys <= windows.Keys
    && forall w :: w in windows ==> if w in windows' then windows'[w].closed == windows[w].closed else windows[w].closed
  }

  lemma SameListsKeeps(d: Desktop, d': Desktop)
    requires Part(d) && SameLists(d, d')
    ensures Part(d')
  {
    forall w: nat
      ensures Places(d', w) == One(w in d'.windows)
    {
      PlacesSame(d.outputs, d'.outputs, w);
      assert w in d'.windows.Keys <==> w in d.windows.Keys;
    }
    forall k | 0 <= k < |d'.outputs|
      ensures Filed(d'.outputs[k], d'.windows)
    {
      assert Filed(d.outputs[k], d.windows);
    }
  }

  lemma PutKeeps(d: Desktop, w: nat, win: Window)
    requires Part(d) && w in d.windows && win.minimized == d.windows[w].minimized
    ensures Part(Put(d, w, win)) && SameLists(d, Put(d, w, win))
  {
    assert Put(d, w, win).windows.Keys == d.windows.Keys;
    hide Part;
    SameListsKeeps(d, Put(d, w, win));
  }

  /** Seats list no windows. */
  lemma SeatsKeep(d: Desktop, seats: seq<Seat>)
    requires Part(d)
    ensures Part(d.(seats := seats))
  {
    SameListsKeeps(d, d.(seats := seats));
  }

  // ---------- windows between outputs ----------

  lemma WithoutOn(o: Output, w: nat, v: nat)
    ensures On(Without(o, w), v) == if v == w then 0 else On(o, v)
  {
    CountErase(o.windows, w, v);
    CountErase(o.minimized, w, v);
  }

  lemma WithOn(o: Output, w: nat, minimized: bool, v: nat)
    ensures On(With(o, w, minimized), v) == On(o, v) + One(v == w)
  {
    CountPush(o.windows, w, v);
    CountPush(o.minimized, w, v);
  }

  lemma WithFiled(o: Output, w: nat, windows: map<nat, Window>)
    requires Filed(o, windows) && w in windows
    ensures Filed(With(o, w, windows[w].minimized), windows)
  {
  }

  lemma WithoutFiled(o: Output, w: nat, windows: map<nat, Window>)
    requires Filed(o, windows)
    ensures Filed(Without(o, w), windows)
  {
    forall v {
      EraseIn(o.windows, w, v);
    }
    forall v {
      EraseIn(o.minimized, w, v);
    }
  }

  lemma MoveKeeps(d: Desktop, w: nat, k: nat)
    requires Part(d) && w in d.windows && k < |d.outputs|
    ensures var d' := MoveToOutput(d, w, k); Part(d') && d'.windows == d.windows && |d'.outputs| == |d.outputs|
  {
    var from := OutputOf(d.outputs, w);
    if from != k {
      var d1 := if from < |d.outputs| then d.(outputs := d.outputs[from := Without(d.outputs[from], w)])
                else d.(orphans := Erase(d.orphans, w));
      forall v: nat
        ensures Places(d1, v) == One(v in d.windows && v != w)
      {
        TakenPlaces(d, w, v);
      }
      forall j | 0 <= j < |d1.outputs|
        ensures Filed(d1.outputs[j], d.windows)
      {
        if j == from {
          WithoutFiled(d.outputs[from], w, d.windows);
        }
        assert Filed(d.outputs[j], d.windows);
      }
      assert d1.windows == d.windows && |d1.outputs| == |d.outputs|;
      hide Places, Filed, With, Without, Erase;
      PushKeeps(d1, w, k);
    }
  }

  /** The window taken from where it was, there or with the orphans. */
  lemma TakenPlaces(d: Desktop, w: nat, v: nat)
    requires Part(d) && w in d.windows
    ensures var from := OutputOf(d.outputs, w);
            var d1 := if from < |d.outputs| then d.(outputs := d.outputs[from := Without(d.outputs[from], w)])
                      else d.(orphans := Erase(d.orphans, w));
            Places(d1, v) == One(v in d.windows && v != w)
  {
    var from := OutputOf(d.outputs, w);
    assert Places(d, v) == One(v in d.windows) && Places(d, w) == 1;
    if from < |d.outputs| {
      PlacesUpdate(d.outputs, from, Without(d.outputs[from], w), v);
      WithoutOn(d.outputs[from], w, v);
      PlacesOnOne(d.outputs, from, w);
    } else {
      CountErase(d.orphans, w, v);
      PlacesNowhere(d.outputs, w);
    }
    hide Part, OutputOf, PlacesIn, On, Count;
  }

  /** A window that is nowhere is put on an output. */
  lemma PushKeeps(d: Desktop, w: nat, k: nat)
    requires w in d.windows && k < |d.outputs|
    requires forall v: nat :: Places(d, v) == One(v in d.windows && v != w)
    requires forall j :: 0 <= j < |d.outputs| ==> Filed(d.outputs[j], d.windows)
    ensures Part(d.(outputs := d.outputs[k := With(d.outputs[k], w, d.windows[w].minimized)]))
  {
    var d' := d.(outputs := d.outputs[k := With(d.outputs[k], w, d.windows[w].minimized)]);
    forall v: nat
      ensures Places(d', v) == One(v in d.windows)
    {
      PlacesUpdate(d.outputs, k, With(d.outputs[k], w, d.windows[w].minimized), v);
      WithOn(d.outputs[k], w, d.windows[w].minimized, v);
      assert Places(d, v) == One(v in d.windows && v != w);
      hide On, PlacesIn, Count;
    }
    WithFiled(d.outputs[k], w, d.windows);
    hide Filed, Places;
  }

  // ---------- outputs that go ----------

  /** All windows are somewhere but for some that are on their way. */
  ghost predicate PartBut(d: Desktop, ws: seq<nat>) {
    && (forall w: nat :: Places(d, w) + Count(ws, w) == One(w in d.windows))
    && (forall k :: 0 <= k < |d.outputs| ==> Filed(d.outputs[k], d.windows))
  }

  lemma PartButNone(d: Desktop)
    ensures Part(d) <==> PartBut(d, [])
  {
    assert forall w: nat :: Count([], w) == 0;
    hide Filed, Places;
  }

  lemma PushOneKeeps(d: Desktop, ws: seq<nat>, k: nat)
    requires ws != [] && PartBut(d, ws) && k < |d.outputs|
    ensures ws[0] in d.windows
    ensures PartBut(d.(outputs := d.outputs[k := With(d.outputs[k], ws[0], d.windows[ws[0]].minimized)]), ws[1..])
  {
    var w := ws[0];
    assert Places(d, w) + Count(ws, w) == One(w in d.windows);
    var o := With(d.outputs[k], w, d.windows[w].minimized);
    var d' := d.(outputs := d.outputs[k := o]);
    forall v: nat
      ensures Places(d', v) + Count(ws[1..], v) == One(v in d.windows)
    {
      assert Places(d, v) + Count(ws, v) == One(v in d.windows);
      PlacesUpdate(d.outputs, k, o, v);
      WithOn(d.outputs[k], w, d.windows[w].minimized, v);
      hide On, PlacesIn;
    }
    WithFiled(d.outputs[k], w, d.windows);
    hide Filed, Places, Count;
  }

  lemma PutKeepsBut(d: Desktop, w: nat, win: Window, ws: seq<nat>)
    requires PartBut(d, ws) && w in d.windows && win.minimized == d.windows[w].minimized
    ensures PartBut(Put(d, w, win), ws)
  {
    var d' := Put(d, w, win);
    assert d'.windows.Keys == d.windows.Keys;
    forall v: nat
      ensures Places(d', v) + Count(ws, v) == One(v in d'.windows)
    {
      assert Places(d, v) + Count(ws, v) == One(v in d.windows);
      assert v in d'.windows.Keys <==> v in d.windows.Keys;
      hide Count, PlacesIn;
    }
    hide Places, Count;
    forall k | 0 <= k < |d'.outputs|
      ensures Filed(d'.outputs[k], d'.windows)
    {
      assert Filed(d.outputs[k], d.windows);
    }
  }

  /** The first of the windows handed over. */
  lemma HandOverOne(d: Desktop, ws: seq<nat>, from: Rect, k: nat) returns (d2: Desktop)
    requires ws != [] && PartBut(d, ws) && k < |d.outputs|
    ensures PartBut(d2, ws[1..]) && |d2.outputs| == |d.outputs| && d2.orphans == d.orphans
            && SameOpen(d.windows, d2.windows)
    ensures HandOver(d, ws, from, k) == HandOver(d2, ws[1..], from, k)
  {
    PushOneKeeps(d, ws, k);
    var w := ws[0];
    var win := d.windows[w];
    var d1 := d.(outputs := d.outputs[k := With(d.outputs[k], w, win.minimized)]);
    var win' := win.(frame := Transfer(win.frame, Some(from), d.outputs[k].rect));
    hide PartBut, Transfer, With;
    d2 := Put(d1, w, win');
    PutKeepsBut(d1, w, win', ws[1..]);
    PutKeys(d1, w, win');
  }

  lemma {:induction false} HandOverKeeps(d: Desktop, ws: seq<nat>, from: Rect, k: nat)
    requires PartBut(d, ws) && k < |d.outputs|
    ensures var d' := HandOver(d, ws, from, k);
            Part(d') && SameOpen(d.windows, d'.windows) && |d'.outputs| == |d.outputs| && d'.orphans == d.orphans
    decreases |ws|
  {
    if ws == [] {
      PartButNone(d);
      hide Part, PartBut;
    } else {
      hide *;
      var d2 := HandOverOne(d, ws, from, k);
      HandOverKeeps(d2, ws[1..], from, k);
      SameOpenTwice(d.windows, d2.windows, HandOver(d, ws, from, k).windows);
    }
  }

  lemma SameOpenTwice(a: map<nat, Window>, b: map<nat, Window>, c: map<nat, Window>)
    requires SameOpen(a, b) && SameOpen(b, c)
    ensures SameOpen(a, c)
  {
  }

  lemma RemovedBut(d: Desktop, k: nat)
    requires Part(d) && k < |d.outputs|
    ensures PartBut(d.(outputs := d.outputs[..k] + d.outputs[k + 1..]), Listed(d.outputs[k]))
  {
    var d' := d.(outputs := d.outputs[..k] + d.outputs[k + 1..]);
    forall w: nat
      ensures Places(d', w) + Count(Listed(d.outputs[k]), w) == One(w in d.windows)
    {
      assert Places(d, w) == One(w in d.windows);
      PlacesRemove(d.outputs, k, w);
      CountJoin(d.outputs[k].windows, d.outputs[k].minimized, w);
    }
    hide Filed;
  }

  lemma OrphansBut(d: Desktop, ws: seq<nat>)
    requires PartBut(d, ws)
    ensures Part(d.(orphans := d.orphans + ws))
  {
    var d' := d.(orphans := d.orphans + ws);
    forall w: nat
      ensures Places(d', w) == One(w in d.windows)
    {
      assert Places(d, w) + Count(ws, w) == One(w in d.windows);
      CountJoin(d.orphans, ws, w);
    }
    hide Filed;
  }

  lemma OutputMaybeDestroyKeeps(d: Desktop, k: nat)
    requires Part(d) && k < |d.outputs|
    ensures var d' := OutputMaybeDestroy(d, k); Part(d') && SameOpen(d.windows, d'.windows)
  {
    var out := d.outputs[k];
    if out.removed {
      RemovedBut(d, k);
      var d1 := d.(outputs := d.outputs[..k] + d.outputs[k + 1..]);
      var target := FirstLive(d1.outputs);
      if target < |d1.outputs| {
        HandOverKeeps(d1, Listed(out), out.rect, target);
      } else {
        OrphansBut(d1, Listed(out));
      }
    }
    hide Part, PartBut, HandOver, Listed;
  }

  lemma {:induction false} DestroyOutputsKeeps(d: Desktop, ids: seq<nat>)
    requires Part(d)
    ensures Part(DestroyOutputs(d, ids)) && SameOpen(d.windows, DestroyOutputs(d, ids).windows)
    decreases |ids|
  {
    hide Part, OutputMaybeDestroy, IndexOf;
    if ids != [] {
      var k := IndexOf(d.outputs, ids[0]);
      if k < |d.outputs| {
        OutputMaybeDestroyKeeps(d, k);
        DestroyOutputsKeeps(OutputMaybeDestroy(d, k), ids[1..]);
      } else {
        DestroyOutputsKeeps(d, ids[1..]);
      }
    }
  }

  // ---------- orphans ----------

  /** Adopting leaves only orphans that are not being adopted. */
  lemma {:induction false} AdoptKeeps(d: Desktop, ws: seq<nat>, k: nat)
    requires Part(d) && k < |d.outputs|
    ensures var d' := Adopt(d, ws, k);
            Part(d') && SameOpen(d.windows, d'.windows) && |d'.outputs| == |d.outputs|
            && forall v :: v in d'.orphans ==> v in d.orphans && (v in ws ==> v !in d.windows)
    decreases |ws|
  {
    hide Part, MoveToOutput, Transfer;
    if ws != [] {
      assert ws == [ws[0]] + ws[1..];
      if ws[0] !in d.windows {
        AdoptKeeps(d, ws[1..], k);
      } else {
        var d2 := AdoptOne(d, ws, k);
        AdoptKeeps(d2, ws[1..], k);
      }
    }
  }

  /** The first of the orphans adopted. */
  lemma AdoptOne(d: Desktop, ws: seq<nat>, k: nat) returns (d2: Desktop)
    requires Part(d) && k < |d.outputs| && ws != [] && ws[0] in d.windows
    ensures Part(d2) && |d2.outputs| == |d.outputs| && SameOpen(d.windows, d2.windows)
    ensures forall v :: v in d2.orphans <==> v in d.orphans && v != ws[0]
    ensures Adopt(d, ws, k) == Adopt(d2, ws[1..], k)
  {
    var w := ws[0];
    MoveKeeps(d, w, k);
    MoveOrphans(d, w, k);
    var d1 := MoveToOutput(d, w, k);
    var win := d1.windows[w].(frame := Transfer(d1.windows[w].frame, None, d1.outputs[k].rect));
    hide Part, Transfer, MoveToOutput, SameLists;
    d2 := Put(d1, w, win);
    PutKeeps(d1, w, win);
    PutKeys(d1, w, win);
  }

  lemma MoveOrphans(d: Desktop, w: nat, k: nat)
    requires Part(d) && w in d.windows && k < |d.outputs|
    ensures forall v :: v in MoveToOutput(d, w, k).orphans <==> v in d.orphans && v != w
  {
    var from := OutputOf(d.outputs, w);
    assert Places(d, w) == 1;
    CountIn(d.orphans, w);
    if from < |d.outputs| {
      PlacesOnOne(d.outputs, from, w);
    }
    forall v {
      EraseIn(d.orphans, w, v);
    }
  }

  /** After adoption no window waits for an output while there is one. */
  lemma AdoptOrphansKeeps(d: Desktop)
    requires Part(d)
    ensures var d' := AdoptOrphans(d);
            Part(d') && SameOpen(d.windows, d'.windows) && |d'.outputs| == |d.outputs|
            && (d'.orphans != [] ==> forall k :: 0 <= k < |d.outputs| ==> d.outputs[k].removed)
  {
    var target := OutputUnderPointer(d);
    if d.orphans != [] && target < |d.outputs| {
      AdoptKeeps(d, d.orphans, target);
      OrphansLive(d);
      var d' := Adopt(d, d.orphans, target);
      Nothing(d'.orphans);
    }
    hide Part, Adopt;
  }

  lemma Nothing(s: seq<nat>)
    ensures (forall v :: v !in s) ==> s == []
  {
    assert s != [] ==> s[0] in s;
  }

  lemma OrphansLive(d: Desktop)
    requires Part(d)
    ensures forall w :: w in d.orphans ==> w in d.windows
  {
    forall w | w in d.orphans
      ensures w in d.windows
    {
      CountIn(d.orphans, w);
      assert Places(d, w) == One(w in d.windows);
    }
  }

  // ---------- one window ----------

  lemma SameOpenSelf(windows: map<nat, Window>)
    ensures SameOpen(windows, windows)
  {
  }

  lemma MinimizeKeeps(d: Desktop, w: nat)
    requires Part(d) && w in d.windows
    ensures Part(Minimize(d, w)) && SameOpen(d.windows, Minimize(d, w).windows)
            && |Minimize(d, w).outputs| == |d.outputs|
  {
    hide *;
    SameOpenSelf(d.windows);
    var k := OutputOf(d.outputs, w);
    if k == |d.outputs| {
      MinimizeNowhere(d, w);
    } else {
      var d2, win := LiftedOut(d, w, k);
      MinimizeIs(d, w, k);
      PushKeeps(d2, w, k);
      var o := With(d2.outputs[k], w, win.minimized);
      assert d2.outputs[k := o] == d.outputs[k := o];
      SeatsKeep(d2.(outputs := d2.outputs[k := o]), Minimize(d, w).seats);
    }
  }

  lemma MinimizeNowhere(d: Desktop, w: nat)
    requires w in d.windows && OutputOf(d.outputs, w) == |d.outputs|
    ensures Minimize(d, w) == d
  {
  }

  /** Of a window off its lists, there is no place; of every other there is one. */
  lemma LiftedPlaces(d: Desktop, d2: Desktop, w: nat, k: nat, v: nat)
    requires Part(d) && w in d.windows && k == OutputOf(d.outputs, w) < |d.outputs|
    requires d2.outputs == d.outputs[k := Without(d.outputs[k], w)] && d2.orphans == d.orphans
    ensures Places(d2, v) == One(v in d.windows && v != w)
  {
    hide PlacesIn, Count, Part, OutputOf, Without;
    TakenPlaces(d, w, v);
  }

  /** The window off its output, flag turned. */
  lemma LiftedOut(d: Desktop, w: nat, k: nat) returns (d2: Desktop, win: Window)
    requires Part(d) && w in d.windows && k == OutputOf(d.outputs, w) < |d.outputs|
    ensures win == d.windows[w].(minimized := !d.windows[w].minimized, wantMinimized := false,
                                 shown := d.windows[w].minimized)
    ensures d2 == Put(d, w, win).(outputs := d.outputs[k := Without(d.outputs[k], w)])
    ensures SameOpen(d.windows, d2.windows) && d2.windows.Keys == d.windows.Keys && d2.windows[w] == win
    ensures forall v: nat :: Places(d2, v) == One(v in d2.windows && v != w)
    ensures forall j :: 0 <= j < |d2.outputs| ==> Filed(d2.outputs[j], d2.windows)
  {
    hide Places, Filed, Without, Part, OutputOf;
    win := d.windows[w].(minimized := !d.windows[w].minimized, wantMinimized := false, shown := d.windows[w].minimized);
    d2 := Put(d, w, win).(outputs := d.outputs[k := Without(d.outputs[k], w)]);
    PutKeys(d, w, win);
    forall v: nat
      ensures Places(d2, v) == One(v in d2.windows && v != w)
    {
      LiftedPlaces(d, d2, w, k, v);
    }
    MinimizeFiled(d, w, k, win);
  }

  lemma MinimizeFiled(d: Desktop, w: nat, k: nat, win: Window)
    requires Part(d) && w in d.windows && k == OutputOf(d.outputs, w) < |d.outputs|
    ensures forall j :: 0 <= j < |d.outputs| ==>
              Filed(if j == k then Without(d.outputs[k], w) else d.outputs[j], d.windows[w := win])
  {
    forall j | 0 <= j < |d.outputs|
      ensures Filed(if j == k then Without(d.outputs[k], w) else d.outputs[j], d.windows[w := win])
    {
      assert Filed(d.outputs[j], d.windows);
      if j == k {
        forall v {
          EraseIn(d.outputs[k].windows, w, v);
        }
        forall v {
          EraseIn(d.outputs[k].minimized, w, v);
        }
      } else {
        OnlyThere(d, w, k, j);
      }
      hide Places;
    }
  }

  /** A window that is on one output is on no other. */
  lemma OnlyThere(d: Desktop, w: nat, k: nat, j: nat)
    requires Part(d) && w in d.windows && k < |d.outputs| && j < |d.outputs| && j != k
    requires w in d.outputs[k].windows || w in d.outputs[k].minimized
    ensures w !in d.outputs[j].windows && w !in d.outputs[j].minimized
  {
    var o := d.outputs[k];
    PlacesUpdate(d.outputs, k, Without(o, w), w);
    WithoutOn(o, w, w);
    PlacesOnOne(d.outputs, k, w);
    assert Places(d, w) == 1;
    var outputs' := d.outputs[k := Without(o, w)];
    if w in d.outputs[j].windows || w in d.outputs[j].minimized {
      PlacesOnOne(outputs', j, w);
      assert false;
    }
  }

  /** Minimizing takes the window off its output and puts it back, with the icons or not. */
  lemma MinimizeIs(d: Desktop, w: nat, k: nat)
    requires Part(d) && w in d.windows && k == OutputOf(d.outputs, w) < |d.outputs|
    ensures
      var win := d.windows[w].(minimized := !d.windows[w].minimized, wantMinimized := false,
                               shown := d.windows[w].minimized);
      var o := With(Without(d.outputs[k], w), w, win.minimized);
      Minimize(d, w) == Put(d, w, win).(outputs := d.outputs[k := o], seats := Minimize(d, w).seats)
  {
    assert Filed(d.outputs[k], d.windows);
    if d.windows[w].minimized {
      EraseAbsent(d.outputs[k].windows, w);
    } else {
      EraseAbsent(d.outputs[k].minimized, w);
    }
    hide Part;
  }

  lemma {:induction false} EraseAbsent(s: seq<nat>, w: nat)
    requires w !in s
    ensures Erase(s, w) == s
  {
    if s != [] {
      EraseAbsent(s[1..], w);
    }
  }

  lemma SetStateKeeps(d: Desktop, w: nat, maximized: bool, fullscreen: bool, target: Option<nat>)
    requires Part(d) && w in d.windows && (target.Some? ==> target.value < |d.outputs|)
    ensures var d' := SetState(d, w, maximized, fullscreen, target);
            Part(d') && SameOpen(d.windows, d'.windows) && |d'.outputs| == |d.outputs|
              && d'.windows[w].minimized == d.windows[w].minimized
  {
    hide *;
    var d1, win := SetStateIs(d, w, maximized, fullscreen, target);
    PutKeeps(d1, w, win);
    PutKeys(d1, w, win);
  }

  lemma PutKeys(d: Desktop, w: nat, win: Window)
    requires w in d.windows
    ensures Put(d, w, win).windows.Keys == d.windows.Keys && Put(d, w, win).outputs == d.outputs
            && Put(d, w, win).windows[w] == win
    ensures win.closed == d.windows[w].closed ==> SameOpen(d.windows, Put(d, w, win).windows)
  {
  }

  predicate SetStateDoes(d: Desktop, w: nat, maximized: bool, fullscreen: bool)
    requires w in d.windows
  {
    OutputOf(d.outputs, w) < |d.outputs|
      && (maximized != d.windows[w].frame.maximized || fullscreen != d.windows[w].frame.fullscreen)
  }

  lemma SetStateStays(d: Desktop, w: nat, maximized: bool, fullscreen: bool, target: Option<nat>)
    requires w in d.windows && (target.Some? ==> target.value < |d.outputs|)
             && !SetStateDoes(d, w, maximized, fullscreen)
    ensures SetState(d, w, maximized, fullscreen, target) == d == Put(d, w, d.windows[w])
  {
    hide MoveToOutput, SetStateOf;
    assert d.windows[w := d.windows[w]] == d.windows;
  }

  /** The window perhaps goes to the target, and then its frame changes. */
  lemma SetStateChanges(d: Desktop, w: nat, maximized: bool, fullscreen: bool, target: Option<nat>)
      returns (goes: bool, f: Frame)
    requires w in d.windows && (target.Some? ==> target.value < |d.outputs|)
             && SetStateDoes(d, w, maximized, fullscreen)
    ensures goes ==> target.Some?
    ensures SetState(d, w, maximized, fullscreen, target) ==
            Put(if goes then MoveToOutput(d, w, target.value) else d, w, d.windows[w].(frame := f))
  {
    hide MoveToOutput, SetStateOf, Put;
    var win, k := d.windows[w], OutputOf(d.outputs, w);
    goes := fullscreen && !win.frame.fullscreen && target.Some? && target.value != k;
    f := SetStateOf(win.frame, maximized, fullscreen, d.outputs[k].rect,
                    if goes then Some(d.outputs[target.value].rect) else None);
  }

  lemma SetStateIs(d: Desktop, w: nat, maximized: bool, fullscreen: bool, target: Option<nat>)
      returns (d1: Desktop, win: Window)
    requires Part(d) && w in d.windows && (target.Some? ==> target.value < |d.outputs|)
    ensures Part(d1) && d1.windows == d.windows && |d1.outputs| == |d.outputs|
    ensures win == d.windows[w].(frame := win.frame) && SetState(d, w, maximized, fullscreen, target) == Put(d1, w, win)
  {
    hide *;
    if !SetStateDoes(d, w, maximized, fullscreen) {
      SetStateStays(d, w, maximized, fullscreen, target);
      d1, win := d, d.windows[w];
    } else {
      var goes, f := SetStateChanges(d, w, maximized, fullscreen, target);
      win := d.windows[w].(frame := f);
      if goes {
        MoveKeeps(d, w, target.value);
        d1 := MoveToOutput(d, w, target.value);
      } else {
        d1 := d;
      }
    }
  }

  lemma {:induction false} EraseAllPlaces(outputs: seq<Output>, w: nat, v: nat)
    ensures PlacesIn(EraseEverywhere(outputs, w), v) == if v == w then 0 else PlacesIn(outputs, v)
  {
    if outputs != [] {
      WithoutOn(outputs[0], w, v);
      EraseAllPlaces(outputs[1..], w, v);
      assert EraseEverywhere(outputs, w)[1..] == EraseEverywhere(outputs[1..], w);
      hide On, Without;
    }
  }

  lemma DestroyedPlaces(d: Desktop, w: nat, v: nat)
    requires Part(d) && w in d.windows && d.windows[w].closed
    ensures var d' := MaybeDestroy(d, w); Places(d', v) == One(v in d'.windows)
  {
    hide PlacesIn, Count, EraseEverywhere, Forget;
    assert Places(d, v) == One(v in d.windows);
    EraseAllPlaces(d.outputs, w, v);
    CountErase(d.orphans, w, v);
  }

  lemma DestroyedFiled(d: Desktop, w: nat, k: nat)
    requires Part(d) && w in d.windows && d.windows[w].closed && k < |d.outputs|
    ensures Filed(MaybeDestroy(d, w).outputs[k], MaybeDestroy(d, w).windows)
  {
    hide Places, Forget;
    assert Filed(d.outputs[k], d.windows);
    forall v {
      EraseIn(d.outputs[k].windows, w, v);
    }
    forall v {
      EraseIn(d.outputs[k].minimized, w, v);
    }
  }

  /** A closed window is nowhere anymore. */
  lemma MaybeDestroyKeeps(d: Desktop, w: nat)
    requires Part(d) && w in d.windows
    ensures var d' := MaybeDestroy(d, w);
            Part(d') && |d'.outputs| == |d.outputs| && Stay(d.windows, d'.windows)
  {
    hide Places, Filed, Forget;
    if d.windows[w].closed {
      var d' := MaybeDestroy(d, w);
      forall v: nat
        ensures Places(d', v) == One(v in d'.windows)
      {
        DestroyedPlaces(d, w, v);
      }
      forall k | 0 <= k < |d'.outputs|
        ensures Filed(d'.outputs[k], d'.windows)
      {
        DestroyedFiled(d, w, k);
      }
    }
  }

  // ---------- focus ----------

  lemma {:induction false} ToTopPlaces(outputs: seq<Output>, w: nat, v: nat)
    requires PlacesIn(outputs, w) <= 1
    ensures PlacesIn(ToTop(outputs, w), v) == PlacesIn(outputs, v)
  {
    if outputs != [] {
      var o := outputs[0];
      ToTopPlaces(outputs[1..], w, v);
      CountErase(o.windows, w, v);
      CountPush(Erase(o.windows, w), w, v);
      CountIn(o.windows, w);
      hide Count, Erase;
    }
  }

  lemma {:induction false} ToTopFiled(outputs: seq<Output>, w: nat, windows: map<nat, Window>)
    requires forall k :: 0 <= k < |outputs| ==> Filed(outputs[k], windows)
    ensures |ToTop(outputs, w)| == |outputs|
    ensures forall k :: 0 <= k < |outputs| ==> Filed(ToTop(outputs, w)[k], windows)
  {
    if outputs != [] {
      ToTopFiled(outputs[1..], w, windows);
      assert Filed(outputs[0], windows);
      forall v {
        EraseIn(outputs[0].windows, w, v);
      }
      assert Filed(ToTop(outputs, w)[0], windows);
    }
  }

  lemma FocusKeeps(d: Desktop, s: nat, w: Option<nat>)
    requires Part(d) && s < |d.seats|
    ensures Part(Focus(d, s, w)) && Focus(d, s, w).windows == d.windows && |Focus(d, s, w).outputs| == |d.outputs|
    ensures |Focus(d, s, w).seats| == |d.seats|
  {
    var d' := Focus(d, s, w);
    if d.seats[s].focused != w {
      if w.Some? {
        assert Places(d, w.value) == One(w.value in d.windows);
        forall v: nat
          ensures Places(d', v) == One(v in d.windows)
        {
          assert Places(d, v) == One(v in d.windows);
          ToTopPlaces(d.outputs, w.value, v);
        }
        ToTopFiled(d.outputs, w.value, d.windows);
        hide Filed, Places;
      } else {
        SeatsKeep(d, d'.seats);
      }
    }
  }
}
