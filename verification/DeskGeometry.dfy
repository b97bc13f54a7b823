/**
 A window that was maximized or fullscreen goes back to the size it had, at the
 place it had on its output, whichever output that is by then.
 */
module DeskGeometry {
  import opened Bytes
  import opened Desk
  import opened DeskPartition
  import DeskRuns

  predicate Floating(f: Frame) {
    !f.maximized && !f.fullscreen
  }

  predicate ListedOn(outputs: seq<Output>, k: nat, w: nat) {
    k < |outputs| && (w in outputs[k].windows || w in outputs[k].minimized)
  }

  /** The one output that lists the window is this one. */
  lemma OutputOfIs(d: Desktop, w: nat, k: nat)
    requires Part(d) && w in d.windows && ListedOn(d.outputs, k, w)
    ensures OutputOf(d.outputs, w) == k
  {
    var j := OutputOf(d.outputs, w);
    if j < k {
      OnlyThere(d, w, k, j);
    }
    hide Part;
  }

  /** Where a window was on its output, and its size. */
  datatype Home = Home(dx: int, dy: int, width: int, height: int)

  function HomeOf(f: Frame, r: Rect): Home {
    Home(f.x - r.x, f.y - r.y, f.width, f.height)
  }

  function SavedHome(f: Frame, r: Rect): Home {
    Home(f.savedX - r.x, f.savedY - r.y, f.savedWidth, f.savedHeight)
  }

  // ---------- one frame ----------

  lemma SetStateSaves(f: Frame, maximized: bool, fullscreen: bool, out: Rect, target: Option<Rect>)
    requires maximized || fullscreen
    ensures var f' := SetStateOf(f, maximized, fullscreen, out, target);
            var moves := fullscreen && !f.fullscreen && target.Some?;
            f'.maximized == maximized && f'.fullscreen == fullscreen
            && SavedHome(f', if moves then target.value else out) == if Floating(f) then HomeOf(f, out)
                else SavedHome(f, out)
  {
    forall g: Frame, r: Rect {
      ApplySaves(g, r);
    }
    hide ApplyGeometry;
  }

  lemma ApplySaves(f: Frame, r: Rect)
    ensures var f' := ApplyGeometry(f, r);
            f'.maximized == f.maximized && f'.fullscreen == f.fullscreen
            && forall s :: SavedHome(f', s) == SavedHome(f, s)
  {
  }

  lemma SetStateRestores(f: Frame, out: Rect, target: Option<Rect>)
    requires !Floating(f) && f.savedWidth > 0
    ensures var f', home := SetStateOf(f, false, false, out, target), SavedHome(f, out);
            Floating(f') && f'.x - out.x == home.dx && f'.y - out.y == home.dy
              && f'.proposed == Some((home.width, home.height))
  {
  }

  lemma TransferSaves(f: Frame, from: Rect, to: Rect)
    requires !Floating(f)
    ensures var f' := Transfer(f, Some(from), to); !Floating(f') && SavedHome(f', to) == SavedHome(f, from)
  {
    forall g: Frame {
      ApplySaves(g, to);
    }
    hide ApplyGeometry;
  }

  /** A floating window that is transferred has its title bar on the output, if the output is at all large enough. */
  lemma TransferReachable(f: Frame, from: Option<Rect>, to: Rect)
    requires Floating(f) && to.width > BORDER && to.height > BORDER_TOP
    ensures var f' := Transfer(f, from, to);
            Contains(to, f'.x, f'.y) && Floating(f')
            && (from.Some? && Contains(to, f.x - from.value.x + to.x, f.y - from.value.y + to.y)
                ==> f'.x - to.x == f.x - from.value.x && f'.y - to.y == f.y - from.value.y)
  {
    var x := if from.Some? then f.x + to.x - from.value.x else f.x;
    var y := if from.Some? then f.y + to.y - from.value.y else f.y;
    assert Transfer(f, from, to) == if Contains(to, x, y) then At(f, x, y) else At(f, to.x + BORDER, to.y + BORDER_TOP);
  }

  lemma HalfTwice(n: int)
    ensures -1 <= n - 2 * Half(n) <= 1
  {
  }

  /**
   A centered window has as much room on its left as on its right, and above as below, but for a
   rounded pixel and its borders.
   */
  lemma CenteredEvenly(f: Frame, out: Rect)
    ensures
      var f' := Centered(f, out);
      var left, top := f'.x - out.x - (if f.hasDecor then BORDER else 0),
          f'.y - out.y - (if f.hasDecor then BORDER_TOP else 0);
      -2 <= left - (out.width - f.width - left) <= 2 && -2 <= top - (out.height - f.height - top) <= 2
  {
    HalfTwice(out.width);
    HalfTwice(f.width);
    HalfTwice(out.height);
    HalfTwice(f.height);
    hide Half;
  }

  // ---------- the desktop ----------

  /** The window is maximized or fullscreen on an output, and its home there is known. */
  predicate Away(d: Desktop, w: nat, home: Home) {
    && w in d.windows && !Floating(d.windows[w].frame)
    && var k := OutputOf(d.outputs, w);
       k < |d.outputs| && SavedHome(d.windows[w].frame, d.outputs[k].rect) == home
  }

  lemma AwayAt(d: Desktop, w: nat, home: Home, k: nat)
    requires Part(d) && w in d.windows && ListedOn(d.outputs, k, w)
    ensures Away(d, w, home) <==>
              !Floating(d.windows[w].frame) && SavedHome(d.windows[w].frame, d.outputs[k].rect) == home
  {
    OutputOfIs(d, w, k);
    hide Part;
  }

  /** The window keeps its frame, and an output like its own lists it. */
  lemma AwayKept(d: Desktop, d': Desktop, w: nat, home: Home, k: nat)
    requires Away(d, w, home) && Part(d') && w in d'.windows && d'.windows[w].frame == d.windows[w].frame
    requires ListedOn(d'.outputs, k, w) && d'.outputs[k].rect == d.outputs[OutputOf(d.outputs, w)].rect
    ensures Away(d', w, home)
  {
    AwayAt(d', w, home, k);
    hide Part;
  }

  lemma MoveLists(d: Desktop, v: nat, k: nat)
    requires v in d.windows && k < |d.outputs|
    ensures var d' := MoveToOutput(d, v, k);
            |d'.outputs| == |d.outputs| && d'.windows == d.windows && ListedOn(d'.outputs, k, v)
            && (forall j :: 0 <= j < |d.outputs| ==> d'.outputs[j].rect == d.outputs[j].rect)
            && forall j, w :: ListedOn(d.outputs, j, w) && w != v ==> ListedOn(d'.outputs, j, w)
  {
    forall s, w {
      EraseIn(s, v, w);
    }
    hide Erase;
  }

  // ---------- the window's own changes ----------

  /** Maximizing or going fullscreen, perhaps on another output, keeps the home or notes it. */
  lemma SetStateAway(d: Desktop, w: nat, maximized: bool, fullscreen: bool, target: Option<nat>, home: Home)
    requires Part(d) && w in d.windows && (target.Some? ==> target.value < |d.outputs|) && (maximized || fullscreen)
    requires var k := OutputOf(d.outputs, w);
             k < |d.outputs| && home == if Floating(d.windows[w].frame)
                 then HomeOf(d.windows[w].frame, d.outputs[k].rect)
                                        else SavedHome(d.windows[w].frame, d.outputs[k].rect)
    ensures Away(SetState(d, w, maximized, fullscreen, target), w, home)
  {
    var f, k := d.windows[w].frame, OutputOf(d.outputs, w);
    var d' := SetState(d, w, maximized, fullscreen, target);
    if maximized != f.maximized || fullscreen != f.fullscreen {
      var goes := fullscreen && !f.fullscreen && target.Some? && target.value != k;
      var t := if goes then Some(d.outputs[target.value].rect) else None;
      SetStateSaves(f, maximized, fullscreen, d.outputs[k].rect, t);
      SetStateGives(d, w, maximized, fullscreen, target);
      hide *;
      SetStateKeeps(d, w, maximized, fullscreen, target);
      AwayWith(d', w, home, if goes then target.value else k, maximized, fullscreen);
    }
  }

  lemma AwayWith(d: Desktop, w: nat, home: Home, k: nat, maximized: bool, fullscreen: bool)
    requires Part(d) && w in d.windows && ListedOn(d.outputs, k, w) && (maximized || fullscreen)
    requires d.windows[w].frame.maximized == maximized && d.windows[w].frame.fullscreen == fullscreen
    requires SavedHome(d.windows[w].frame, d.outputs[k].rect) == home
    ensures Away(d, w, home)
  {
    AwayAt(d, w, home, k);
    hide Part;
  }

  /** The window's new frame, and the output it is then on. */
  lemma SetStateGives(d: Desktop, w: nat, maximized: bool, fullscreen: bool, target: Option<nat>)
    requires w in d.windows && OutputOf(d.outputs, w) < |d.outputs| && (target.Some? ==> target.value < |d.outputs|)
    requires maximized != d.windows[w].frame.maximized || fullscreen != d.windows[w].frame.fullscreen
    ensures
      var f, k, d' := d.windows[w].frame, OutputOf(d.outputs, w), SetState(d, w, maximized, fullscreen, target);
      var goes := fullscreen && !f.fullscreen && target.Some? && target.value != k;
      var k' := if goes then target.value else k;
      |d'.outputs| == |d.outputs| && ListedOn(d'.outputs, k', w) && d'.outputs[k'].rect == d.outputs[k'].rect
        && w in d'.windows
      && d'.windows[w].frame
          == SetStateOf(f, maximized, fullscreen, d.outputs[k].rect,
                        if goes then Some(d.outputs[target.value].rect) else None)
  {
    if target.Some? {
      MoveLists(d, w, target.value);
    }
    hide MoveToOutput, SetStateOf;
  }

  /** Back to floating: where it was on its output, and as large. */
  lemma SetStateBack(d: Desktop, w: nat, target: Option<nat>, home: Home)
    requires Part(d) && Away(d, w, home) && home.width > 0 && (target.Some? ==> target.value < |d.outputs|)
    ensures
      var d', k := SetState(d, w, false, false, target), OutputOf(d.outputs, w);
      d'.outputs == d.outputs
      && var f := d'.windows[w].frame;
         Floating(f) && f.x - d.outputs[k].rect.x == home.dx && f.y - d.outputs[k].rect.y == home.dy
         && f.proposed == Some((home.width, home.height))
  {
    var k := OutputOf(d.outputs, w);
    SetStateRestores(d.windows[w].frame, d.outputs[k].rect, None);
    hide Part, SetStateOf;
  }

  // ---------- outputs that go ----------

  lemma {:induction false} HandOverOthers(d: Desktop, ws: seq<nat>, from: Rect, k: nat, w: nat)
    requires k < |d.outputs| && w !in ws && w in d.windows
    ensures var d' := HandOver(d, ws, from, k);
            w in d'.windows && d'.windows[w] == d.windows[w] && |d'.outputs| == |d.outputs|
            && (forall j :: 0 <= j < |d.outputs| ==> d'.outputs[j].rect == d.outputs[j].rect)
            && (forall j :: ListedOn(d.outputs, j, w) ==> ListedOn(d'.outputs, j, w))
    decreases |ws|
  {
    if ws != [] {
      var v := ws[0];
      if v !in d.windows {
        HandOverOthers(d, ws[1..], from, k, w);
      } else {
        var win := d.windows[v];
        var d1 := d.(outputs := d.outputs[k := With(d.outputs[k], v, win.minimized)]);
        var d2 := Put(d1, v, win.(frame := Transfer(win.frame, Some(from), d.outputs[k].rect)));
        assert d2.windows[w] == d.windows[w] && forall j :: ListedOn(d.outputs, j, w) ==> ListedOn(d2.outputs, j, w);
        hide Transfer;
        HandOverOthers(d2, ws[1..], from, k, w);
      }
    }
  }

  /** The window is handed over with the rest, and transferred once. */
  lemma {:induction false} HandOverMine(d: Desktop, ws: seq<nat>, from: Rect, k: nat, w: nat)
    requires k < |d.outputs| && w in d.windows && Count(ws, w) == 1
    ensures var d' := HandOver(d, ws, from, k);
            w in d'.windows && d'.windows[w].frame == Transfer(d.windows[w].frame, Some(from), d.outputs[k].rect)
            && |d'.outputs| == |d.outputs| && d'.outputs[k].rect == d.outputs[k].rect && ListedOn(d'.outputs, k, w)
    decreases |ws|
  {
    var v := ws[0];
    CountIn(ws[1..], w);
    if v !in d.windows {
      HandOverMine(d, ws[1..], from, k, w);
    } else {
      var win := d.windows[v];
      var d1 := d.(outputs := d.outputs[k := With(d.outputs[k], v, win.minimized)]);
      var d2 := Put(d1, v, win.(frame := Transfer(win.frame, Some(from), d.outputs[k].rect)));
      hide Transfer;
      if v == w {
        assert ListedOn(d2.outputs, k, w);
        HandOverOthers(d2, ws[1..], from, k, w);
      } else {
        HandOverMine(d2, ws[1..], from, k, w);
      }
    }
  }

  lemma CountListed(d: Desktop, k: nat, w: nat)
    requires Part(d) && w in d.windows && ListedOn(d.outputs, k, w)
    ensures Count(Listed(d.outputs[k]), w) == 1
  {
    var o := d.outputs[k];
    CountJoin(o.windows, o.minimized, w);
    PlacesOnOne(d.outputs, k, w);
    PlacesUpdate(d.outputs, k, o, w);
    assert Places(d, w) == 1;
    hide PlacesIn, Count;
  }

  lemma NotListed(d: Desktop, k: nat, w: nat)
    requires k < |d.outputs| && !ListedOn(d.outputs, k, w)
    ensures w !in Listed(d.outputs[k])
  {
  }

  /** An output goes, and another is there to take its windows: the home goes along. */
  lemma OutputGoneAway(d: Desktop, j: nat, w: nat, home: Home)
    requires Part(d) && Away(d, w, home) && j < |d.outputs|
    requires d.outputs[j].removed ==> FirstLive(d.outputs[..j] + d.outputs[j + 1..]) < |d.outputs| - 1
    ensures Away(OutputMaybeDestroy(d, j), w, home)
  {
    hide Part, Away, HandOver, FirstLive, OutputOf, ListedOn, SavedHome, Floating, Listed;
    if d.outputs[j].removed {
      AwayListed(d, w, home);
      AwayThere(d, w, home);
      OutputMaybeDestroyKeeps(d, j);
      if OutputOf(d.outputs, w) == j {
        OwnOutputGone(d, j, w, home);
      } else {
        OtherOutputGone(d, j, w, home);
      }
    }
  }

  lemma AwayThere(d: Desktop, w: nat, home: Home)
    requires Away(d, w, home)
    ensures ListedOn(d.outputs, OutputOf(d.outputs, w), w)
  {
  }

  lemma OwnOutputGone(d: Desktop, j: nat, w: nat, home: Home)
    requires Part(d) && Away(d, w, home) && ListedOn(d.outputs, j, w) && d.outputs[j].removed
             && OutputOf(d.outputs, w) == j
    requires FirstLive(d.outputs[..j] + d.outputs[j + 1..]) < |d.outputs| - 1 && Part(OutputMaybeDestroy(d, j))
    ensures Away(OutputMaybeDestroy(d, j), w, home)
  {
    hide Part, Away, HandOver, FirstLive, OutputOf, Listed, Transfer;
    var out := d.outputs[j];
    var d1 := d.(outputs := d.outputs[..j] + d.outputs[j + 1..]);
    var target := FirstLive(d1.outputs);
    AwayListed(d, w, home);
    CountListed(d, j, w);
    TransferSaves(d.windows[w].frame, out.rect, d1.outputs[target].rect);
    HandOverMine(d1, Listed(out), out.rect, target, w);
    AwayAt(OutputMaybeDestroy(d, j), w, home, target);
  }

  lemma OtherOutputGone(d: Desktop, j: nat, w: nat, home: Home)
    requires Part(d) && Away(d, w, home) && j < |d.outputs| && d.outputs[j].removed && OutputOf(d.outputs, w) != j
    requires ListedOn(d.outputs, OutputOf(d.outputs, w), w)
    requires FirstLive(d.outputs[..j] + d.outputs[j + 1..]) < |d.outputs| - 1 && Part(OutputMaybeDestroy(d, j))
    ensures Away(OutputMaybeDestroy(d, j), w, home)
  {
    hide Part, Away, HandOver, FirstLive, OutputOf, Listed, SavedHome;
    var k, out := OutputOf(d.outputs, w), d.outputs[j];
    var d1 := d.(outputs := d.outputs[..j] + d.outputs[j + 1..]);
    AwayListed(d, w, home);
    OnlyThere(d, w, k, j);
    NotListed(d, j, w);
    var k' := if k < j then k else k - 1;
    assert d1.outputs[k'] == d.outputs[k];
    assert ListedOn(d1.outputs, k', w);
    HandOverOthers(d1, Listed(out), out.rect, FirstLive(d1.outputs), w);
    AwayKept(d, OutputMaybeDestroy(d, j), w, home, k');
  }

  // ---------- a window that is let go of ----------

  predicate SameOrigin(r: Rect, s: Rect) {
    r.x == s.x && r.y == s.y
  }

  /** The window's middle is on no output, or on one whose corner is where that of its own output is. */
  predicate Settles(d: Desktop, w: nat)
    requires w in d.windows
  {
    var f, k := d.windows[w].frame, OutputOf(d.outputs, w);
    var to := OutputAt(d.outputs, f.x + Half(f.width), f.y + Half(f.height));
    to == |d.outputs| || (k < |d.outputs| && SameOrigin(d.outputs[to].rect, d.outputs[k].rect))
  }

  lemma MovedAway(d: Desktop, w: nat, home: Home, to: nat)
    requires Part(d) && Away(d, w, home) && to < |d.outputs|
    ensures Away(MoveToOutput(d, w, to), w, home) <==>
              SameOrigin(d.outputs[to].rect, d.outputs[OutputOf(d.outputs, w)].rect)
  {
    hide Part, MoveToOutput, Away, ListedOn, OutputOf;
    AwayListed(d, w, home);
    MoveKeeps(d, w, to);
    MoveLists(d, w, to);
    AwayAt(MoveToOutput(d, w, to), w, home, to);
  }

  lemma AwayListed(d: Desktop, w: nat, home: Home)
    requires Away(d, w, home)
    ensures w in d.windows && OutputOf(d.outputs, w) < |d.outputs|
    ensures var f := d.windows[w].frame; !Floating(f) && SavedHome(f, d.outputs[OutputOf(d.outputs, w)].rect) == home
  {
    hide OutputOf;
  }

  /** Let go of after a drag, a maximized window keeps its home exactly if it settles. */
  lemma LetGoAway(d: Desktop, w: nat, home: Home)
    requires Part(d) && Away(d, w, home)
    ensures Away(UpdateOutput(d, w), w, home) <==> Settles(d, w)
  {
    hide Part, MoveToOutput, OutputAt, Half, Away;
    AwayListed(d, w, home);
    var f := d.windows[w].frame;
    var to := OutputAt(d.outputs, f.x + Half(f.width), f.y + Half(f.height));
    if to < |d.outputs| {
      MovedAway(d, w, home, to);
    }
  }

  // ---------- the last output goes, and one comes back ----------

  function Pick(windows: map<nat, Window>, w: nat, minimized: bool): seq<nat> {
    if w in windows && windows[w].minimized == minimized then [w] else []
  }

  /** The windows that are minimized, or those that are not. */
  function Shown(windows: map<nat, Window>, ws: seq<nat>, minimized: bool): seq<nat> {
    if ws == [] then [] else Pick(windows, ws[0], minimized) + Shown(windows, ws[1..], minimized)
  }

  lemma {:induction false} ShownJoin(windows: map<nat, Window>, xs: seq<nat>, ys: seq<nat>, minimized: bool)
    ensures Shown(windows, xs + ys, minimized) == Shown(windows, xs, minimized) + Shown(windows, ys, minimized)
  {
    if xs == [] {
      assert xs + ys == ys;
    } else {
      assert (xs + ys)[1..] == xs[1..] + ys;
      hide Pick;
      ShownJoin(windows, xs[1..], ys, minimized);
      Regroup(Pick(windows, xs[0], minimized), Shown(windows, xs[1..], minimized), Shown(windows, ys, minimized));
    }
  }

  lemma {:induction false} ShownAll(windows: map<nat, Window>, ws: seq<nat>, minimized: bool)
    requires forall w :: w in ws ==> w in windows && windows[w].minimized != minimized
    ensures Shown(windows, ws, minimized) == [] && Shown(windows, ws, !minimized) == ws
  {
    if ws != [] {
      ShownAll(windows, ws[1..], minimized);
    }
  }

  lemma {:induction false} ShownSame(windows: map<nat, Window>, windows': map<nat, Window>, ws: seq<nat>,
                                     minimized: bool)
    requires SameFiles(windows, windows')
    ensures Shown(windows, ws, minimized) == Shown(windows', ws, minimized)
  {
    if ws != [] {
      assert ws[0] in windows.Keys <==> ws[0] in windows'.Keys;
      ShownSame(windows, windows', ws[1..], minimized);
    }
  }

  /** Orphans adopted are added in their order, shown ones to the stack and minimized ones to the icons. */
  lemma {:induction false} AdoptOrder(d: Desktop, ws: seq<nat>, k: nat)
    requires Part(d) && k < |d.outputs| && d.orphans == ws
    ensures var d' := Adopt(d, ws, k);
            |d'.outputs| == |d.outputs| && d'.orphans == []
            && d'.outputs[k].windows == d.outputs[k].windows + Shown(d.windows, ws, false)
            && d'.outputs[k].minimized == d.outputs[k].minimized + Shown(d.windows, ws, true)
    decreases |ws|
  {
    if ws == [] {
      assert d.outputs[k].windows + [] == d.outputs[k].windows && d.outputs[k].minimized + [] == d.outputs[k].minimized;
    } else {
      hide *;
      var d2 := AdoptNext(d, ws, k);
      AdoptOrder(d2, ws[1..], k);
      ShownSame(d.windows, d2.windows, ws[1..], true);
      ShownSame(d.windows, d2.windows, ws[1..], false);
      ShownFirst(d.windows, ws, d.outputs[k]);
    }
  }

  lemma ShownFirst(windows: map<nat, Window>, ws: seq<nat>, o: Output)
    requires ws != [] && ws[0] in windows
    ensures var o' := With(o, ws[0], windows[ws[0]].minimized);
            o'.windows + Shown(windows, ws[1..], false) == o.windows + Shown(windows, ws, false)
            && o'.minimized + Shown(windows, ws[1..], true) == o.minimized + Shown(windows, ws, true)
  {
    var w := ws[0];
    Regroup(o.minimized, Pick(windows, w, true), Shown(windows, ws[1..], true));
    Regroup(o.windows, Pick(windows, w, false), Shown(windows, ws[1..], false));
    assert With(o, w, windows[w].minimized).windows == o.windows + Pick(windows, w, false);
    assert With(o, w, windows[w].minimized).minimized == o.minimized + Pick(windows, w, true);
    hide Pick, With;
  }

  /** The first orphan adopted. */
  lemma AdoptNext(d: Desktop, ws: seq<nat>, k: nat) returns (d2: Desktop)
    requires Part(d) && k < |d.outputs| && d.orphans == ws && ws != []
    ensures ws[0] in d.windows && Part(d2) && |d2.outputs| == |d.outputs| && d2.orphans == ws[1..]
    ensures Adopt(d, ws, k) == Adopt(d2, ws[1..], k) && SameFiles(d.windows, d2.windows)
    ensures d2.outputs[k] == With(d.outputs[k], ws[0], d.windows[ws[0]].minimized)
  {
    var w := ws[0];
    OrphansLive(d);
    var d1 := MoveToOutput(d, w, k);
    MoveKeeps(d, w, k);
    OrphanMoves(d, ws, k);
    var win := d1.windows[w].(frame := Transfer(d1.windows[w].frame, None, d1.outputs[k].rect));
    d2 := Put(d1, w, win);
    hide Part, Transfer, MoveToOutput, With;
    PutKeeps(d1, w, win);
    PutKeys(d1, w, win);
    assert d.windows == d1.windows;
  }

  lemma OrphanMoves(d: Desktop, ws: seq<nat>, k: nat)
    requires Part(d) && k < |d.outputs| && d.orphans == ws && ws != [] && ws[0] in d.windows
    ensures var d1 := MoveToOutput(d, ws[0], k);
            d1.orphans == ws[1..] && d1.outputs == d.outputs[k := With(d.outputs[k], ws[0], d.windows[ws[0]].minimized)]
  {
    var w := ws[0];
    assert Places(d, w) == 1;
    assert Count(ws, w) == 1 + Count(ws[1..], w);
    CountIn(ws[1..], w);
    EraseAbsent(ws[1..], w);
    var from := OutputOf(d.outputs, w);
    if from < |d.outputs| {
      PlacesOnOne(d.outputs, from, w);
    }
    assert Erase(ws, w) == [] + Erase(ws[1..], w) == ws[1..];
  }

  /** With its last output a desktop loses no window, nor their order: the next output has them as they were. */
  lemma LastOutputComesBack(d: Desktop, id: nat)
    requires Part(d) && |d.outputs| == 1 && d.outputs[0].removed && d.orphans == []
    ensures
      var gone := OutputMaybeDestroy(d, 0);
      var back := AdoptOrphans(Step(gone, OutputAdded(id)));
      gone.outputs == [] && gone.orphans == Listed(d.outputs[0])
      && |back.outputs| == 1 && back.orphans == []
      && back.outputs[0].windows == d.outputs[0].windows && back.outputs[0].minimized == d.outputs[0].minimized
  {
    var o, gone := d.outputs[0], OutputMaybeDestroy(d, 0);
    LastGone(d, id);
    var d1 := Step(gone, OutputAdded(id));
    SortedBack(d, o);
    hide *;
    AdoptOrder(d1, d1.orphans, 0);
    assert [] + o.windows == o.windows && [] + o.minimized == o.minimized;
  }

  /** All its windows are orphans, and the new output is the one to adopt them. */
  lemma LastGone(d: Desktop, id: nat)
    requires Part(d) && |d.outputs| == 1 && d.outputs[0].removed && d.orphans == []
    ensures
      var gone := OutputMaybeDestroy(d, 0);
      var d1 := Step(gone, OutputAdded(id));
      gone.outputs == [] && gone.orphans == Listed(d.outputs[0]) && Part(d1)
      && d1.outputs == [Output(id, Rect(0, 0, 0, 0), false, false, [], [])] && d1.orphans == gone.orphans
        && d1.windows == d.windows
      && AdoptOrphans(d1) == Adopt(d1, d1.orphans, 0)
  {
    var gone := OutputMaybeDestroy(d, 0);
    assert d.outputs[..0] + d.outputs[1..] == [];
    assert [] + Listed(d.outputs[0]) == Listed(d.outputs[0]);
    OutputMaybeDestroyKeeps(d, 0);
    AddedPart(gone, id);
    var d1 := Step(gone, OutputAdded(id));
    assert OutputUnderPointer(d1) == 0;
    hide Part, OutputUnderPointer, Adopt;
    AdoptNone(d1);
  }

  lemma AdoptNone(d: Desktop)
    requires |d.outputs| > 0
    ensures Adopt(d, [], 0) == d
  {
  }

  lemma SortedBack(d: Desktop, o: Output)
    requires Part(d) && o in d.outputs
    ensures Shown(d.windows, Listed(o), false) == o.windows && Shown(d.windows, Listed(o), true) == o.minimized
  {
    var k :| 0 <= k < |d.outputs| && d.outputs[k] == o;
    assert Filed(d.outputs[k], d.windows);
    hide Part;
    ShownJoin(d.windows, o.windows, o.minimized, false);
    ShownJoin(d.windows, o.windows, o.minimized, true);
    ShownAll(d.windows, o.windows, true);
    ShownAll(d.windows, o.minimized, false);
    assert o.windows + [] == o.windows && [] + o.minimized == o.minimized;
    hide Shown;
  }

  lemma AddedPart(d: Desktop, id: nat)
    requires Part(d)
    ensures Part(Step(d, OutputAdded(id)))
  {
    DeskRuns.OutputAddedKeeps(d, id);
  }
}
