/** Seats, outputs that go and orphans adopted keep the home of a window that is on its way. */
module DeskCleanup {
  import opened Bytes
  import opened Desk
  import opened DeskPartition
  import opened DeskGeometry
  import opened DeskHome
  import DeskRuns
  import DeskSeats

  // ---------- seats ----------

  /** The seat lets go of the window in its turn. */
  predicate LetsGo(seat: Seat, w: nat) {
    var acted := Act(seat);
    acted.op != NoOp && acted.opRelease && acted.opWindow == Some(w)
  }

  /** A window let go of settles. */
  predicate LetGoWell(d: Desktop, w: nat) {
    w in d.windows && ((exists s :: 0 <= s < |d.seats| && LetsGo(d.seats[s], w)) ==> Settles(d, w))
  }

  lemma SettlesNear(d: Desktop, d': Desktop, w: nat)
    requires Near(d, d', w) && DeskRuns.SameOutputs(d, d') && Settles(d, w)
    ensures Settles(d', w)
  {
    hide OutputAt, OutputOf, Half;
    var f := d.windows[w].frame;
    DeskSeats.SameAt(d.outputs, d'.outputs, f.x + Half(f.width), f.y + Half(f.height));
  }

  lemma MovedNear(d: Desktop, w: nat, to: nat)
    requires Part(d) && w in d.windows && to < |d.outputs| && !Orphaned(d, w)
             && SameOrigin(Own(d, w), d.outputs[to].rect)
    ensures Near(d, MoveToOutput(d, w, to), w)
  {
    hide Part, MoveToOutput, ListedOn, OutputOf;
    var d' := MoveToOutput(d, w, to);
    MoveKeeps(d, w, to);
    MoveLists(d, w, to);
    DeskGeometry.OutputOfIs(d', w, to);
  }

  lemma SeatLooks(d: Desktop, s: nat, w: nat)
    requires Part(d) && s < |d.seats| && w in d.windows
    ensures var d' := SeatFocuses(d, s);
            && Near(d, d', w) && |d'.seats| == |d.seats| && d'.windows == d.windows
            && d'.seats[s] == d.seats[s].(focused := d'.seats[s].focused, interacted := None)
            && forall i :: 0 <= i < |d.seats| && i != s ==> d'.seats[i] == d.seats[i]
  {
    hide Near, Part, Focus, OutputUnderPointer;
    var seat := d.seats[s];
    var k := OutputUnderPointer(d);
    var top := if k < |d.outputs|
      && d.outputs[k].windows != [] then Some(d.outputs[k].windows[|d.outputs[k].windows| - 1]) else None;
    var d1 := if seat.interacted.Some? then Focus(d, s, seat.interacted)
        else if seat.focused.None? then Focus(d, s, top) else d;
    NearSelf(d, w);
    FocusNear(d, s, seat.interacted, w);
    FocusNear(d, s, top, w);
    FocusedSeats(d, s, seat.interacted);
    FocusedSeats(d, s, top);
    OtherSeats(d1, SeatFocuses(d, s).seats, w);
    NearTwice(d, d1, SeatFocuses(d, s), w);
  }

  lemma FocusedSeats(d: Desktop, s: nat, v: Option<nat>)
    requires s < |d.seats|
    ensures var d' := Focus(d, s, v);
            d'.windows == d.windows && |d'.seats| == |d.seats|
              && d'.seats == d.seats[s := d.seats[s].(focused := d'.seats[s].focused)]
  {
    hide ToTop;
  }

  lemma SeatDoes(d: Desktop, s: nat, w: nat)
    requires Part(d) && s < |d.seats| && w in d.windows
    ensures var d' := SeatActs(d, s);
            && Near(d, d', w) && |d'.seats| == |d.seats| && d'.windows == d.windows
            && d'.seats[s] == Act(d.seats[s]).(focused := d'.seats[s].focused)
            && forall i :: 0 <= i < |d.seats| && i != s ==> d'.seats[i] == d.seats[i]
  {
    hide Near, Part, Focus, OutputUnderPointer, Act;
    var k := OutputUnderPointer(d);
    var d1 := if d.seats[s].action == NextAction then FocusNext(d, s) else d;
    NearSelf(d, w);
    if k < |d.outputs| && d.outputs[k].windows != [] {
      FocusNear(d, s, Some(d.outputs[k].windows[0]), w);
      FocusedSeats(d, s, Some(d.outputs[k].windows[0]));
    }
    ActedSame(d1.seats[s], d1.seats[s].focused, d.seats[s]);
    OtherSeats(d1, SeatActs(d, s).seats, w);
    NearTwice(d, d1, SeatActs(d, s), w);
  }

  lemma ActedSame(seat: Seat, focused: Option<nat>, seat0: Seat)
    requires seat == seat0.(focused := focused)
    ensures Act(seat) == Act(seat0).(focused := focused)
  {
  }

  lemma OriginSame(r: Rect, s: Rect)
    ensures SameOrigin(r, s) <==> SameOrigin(s, r)
  {
  }

  lemma UpdatedNear(d: Desktop, v: nat, w: nat)
    requires Part(d) && v in d.windows && w in d.windows && (v == w ==> Settles(d, w))
    ensures Near(d, UpdateOutput(d, v), w)
  {
    hide OutputAt, OutputOf, Half, MoveToOutput, Near, Part, SameOrigin, Nearby;
    var f := d.windows[v].frame;
    var to := OutputAt(d.outputs, f.x + Half(f.width), f.y + Half(f.height));
    if to == |d.outputs| {
      NearSelf(d, w);
    } else if v == w {
      OriginSame(d.outputs[to].rect, d.outputs[OutputOf(d.outputs, w)].rect);
      MovedNear(d, w, to);
    } else {
      OtherMove(d, v, to, w);
    }
  }

  lemma SeatDone(d: Desktop, s: nat, w: nat)
    requires Part(d) && s < |d.seats| && w in d.windows
    requires var seat := d.seats[s]; seat.op != NoOp && seat.opRelease && seat.opWindow == Some(w) ==> Settles(d, w)
    ensures var d' := SeatReleases(d, s);
            && Near(d, d', w) && |d'.seats| == |d.seats|
            && forall i :: 0 <= i < |d.seats| && i != s ==> d'.seats[i] == d.seats[i]
  {
    NearSelf(d, w);
    var seat := d.seats[s];
    var d1 := d;
    if seat.op != NoOp && seat.opRelease && seat.opWindow.Some? && seat.opWindow.value in d.windows {
      d1 := UpdateOutput(d, seat.opWindow.value);
      UpdatedNear(d, seat.opWindow.value, w);
    }
    hide UpdateOutput, Part, Near, Settles;
    InBoth(d, d1, w);
    OtherSeats(d1, SeatReleases(d, s).seats, w);
    NearTwice(d, d1, SeatReleases(d, s), w);
  }

  lemma SeatManageNear(d0: Desktop, d: Desktop, s: nat, w: nat)
    requires Part(d) && s < |d.seats| && Near(d0, d, w) && DeskRuns.SameOutputs(d0, d)
    requires LetsGo(d.seats[s], w) ==> Settles(d0, w)
    ensures var d' := SeatManage(d, s);
            && Part(d') && Near(d0, d', w) && DeskRuns.SameOutputs(d0, d') && |d'.seats| == |d.seats|
            && forall i :: 0 <= i < |d.seats| && i != s ==> d'.seats[i] == d.seats[i]
  {
    hide Part, Near, SeatFocuses, SeatActs, Settles, DeskRuns.SameOutputs;
    InBoth(d0, d, w);
    DeskRuns.SeatFocusesKeeps(d, s);
    var d1 := SeatFocuses(d, s);
    SeatLooks(d, s, w);
    DeskRuns.SeatActsKeeps(d1, s);
    var d2 := SeatActs(d1, s);
    SeatDoes(d1, s, w);
    NearTwice(d0, d, d1, w);
    NearTwice(d0, d1, d2, w);
    SameOutputsTwice(d0, d, d1);
    SameOutputsTwice(d0, d1, d2);
    var seat2 := d2.seats[s];
    if seat2.op != NoOp && seat2.opRelease && seat2.opWindow == Some(w) {
      assert LetsGo(d.seats[s], w);
      SettlesNear(d0, d2, w);
    }
    SeatDone(d2, s, w);
    DeskRuns.SeatReleasesKeeps(d2, s);
    hide SeatReleases;
    SameOutputsTwice(d0, d2, SeatReleases(d2, s));
    NearTwice(d0, d2, SeatReleases(d2, s), w);
  }

  lemma SameOutputsSelf(d: Desktop)
    ensures DeskRuns.SameOutputs(d, d)
  {
  }

  lemma SameOutputsTwice(d: Desktop, d1: Desktop, d2: Desktop)
    requires DeskRuns.SameOutputs(d, d1) && DeskRuns.SameOutputs(d1, d2)
    ensures DeskRuns.SameOutputs(d, d2)
  {
  }

  lemma {:induction false} SeatsManageNear(d: Desktop, n: nat, w: nat)
    requires Part(d) && n <= |d.seats| && LetGoWell(d, w)
    ensures var d' := SeatsManage(d, n);
            && Part(d') && Near(d, d', w) && DeskRuns.SameOutputs(d, d') && |d'.seats| == |d.seats|
            && forall i :: n <= i < |d.seats| ==> d'.seats[i] == d.seats[i]
    decreases n
  {
    hide Part, Near, SeatManage, Settles, LetsGo, DeskRuns.SameOutputs;
    if n == 0 {
      NearSelf(d, w);
      SameOutputsSelf(d);
    } else {
      SeatsManageNear(d, n - 1, w);
      var d1 := SeatsManage(d, n - 1);
      SeatManageNear(d, d1, n - 1, w);
    }
  }

  // ---------- the clean-up ----------

  /** On the way: maximized or fullscreen, with a home to go back to. */
  predicate Tracks(d: Desktop, w: nat, home: Home) {
    Spot(false, d, w, home) && !Floating(d.windows[w].frame)
  }

  /** All that bears on whether it will go home. */
  predicate Kin(win: Window, win': Window) {
    && win'.isNew == win.isNew && win'.closed == win.closed && win'.moveRequested == win.moveRequested
    && win'.wantMaximized == win.wantMaximized && win'.wantFullscreen == win.wantFullscreen
      && win'.pendingNav == win.pendingNav
    && win'.frame.maximized == win.frame.maximized && win'.frame.fullscreen == win.frame.fullscreen
    && win'.frame.width == win.frame.width && win'.frame.height == win.frame.height
    && win'.frame.savedWidth == win.frame.savedWidth && win'.frame.savedHeight == win.frame.savedHeight
    && win'.frame.centerRequested == win.frame.centerRequested
  }

  predicate Goes(d: Desktop, d': Desktop, w: nat, home: Home) {
    Tracks(d', w, home) && w in d.windows && Kin(d.windows[w], d'.windows[w])
  }

  lemma GoesNear(d: Desktop, d': Desktop, w: nat, home: Home)
    requires Tracks(d, w, home) && Near(d, d', w)
    ensures Goes(d, d', w, home)
  {
    SpotNear(false, d, d', w, home);
    hide Spot, Nearby;
  }

  lemma GoesTwice(d: Desktop, d1: Desktop, d2: Desktop, w: nat, home: Home, home': Home)
    requires Goes(d, d1, w, home) && Goes(d1, d2, w, home')
    ensures Goes(d, d2, w, home')
  {
    hide Spot;
  }

  lemma GoesSelf(d: Desktop, w: nat, home: Home)
    requires Tracks(d, w, home)
    ensures Goes(d, d, w, home)
  {
    hide OutputOf;
  }

  function Corner(home: Home): Home {
    Home(BORDER, BORDER_TOP, home.width, home.height)
  }

  lemma TransferKin(win: Window, from: Option<Rect>, to: Rect)
    ensures Kin(win, win.(frame := Transfer(win.frame, from, to)))
    ensures from.None? && !Floating(win.frame) ==>
              var f := Transfer(win.frame, from, to);
              SavedHome(f, to) == Home(BORDER, BORDER_TOP, win.frame.savedWidth, win.frame.savedHeight)
  {
  }

  lemma RefitKin(win: Window, r: Rect)
    ensures Kin(win, win.(frame := ApplyGeometry(win.frame, r)))
    ensures forall s :: SavedHome(ApplyGeometry(win.frame, r), s) == SavedHome(win.frame, s)
  {
    ApplySaves(win.frame, r);
  }

  lemma KinTwice(a: Window, b: Window, c: Window)
    requires Kin(a, b) && Kin(b, c)
    ensures Kin(a, c)
  {
  }

  lemma {:induction false} HandOverListing(d: Desktop, ws: seq<nat>, from: Rect, k: nat, w: nat)
    requires k < |d.outputs| && w !in ws && w in d.windows
    ensures var d' := HandOver(d, ws, from, k); Listing(d, d', w) && w in d'.windows && d'.windows[w] == d.windows[w]
    decreases |ws|
  {
    if ws != [] {
      var v := ws[0];
      if v !in d.windows {
        HandOverListing(d, ws[1..], from, k, w);
      } else {
        var win := d.windows[v];
        var d1 := d.(outputs := d.outputs[k := With(d.outputs[k], v, win.minimized)]);
        var d2 := Put(d1, v, win.(frame := Transfer(win.frame, Some(from), d.outputs[k].rect)));
        assert d2.windows[w] == d.windows[w] && Listing(d, d2, w) by {
          hide Transfer;
        }
        HandOverListing(d2, ws[1..], from, k, w);
        hide Transfer, With;
        ListingTwice(d, d2, HandOver(d2, ws[1..], from, k), w);
      }
    }
  }

  lemma ListingTwice(d: Desktop, d1: Desktop, d2: Desktop, w: nat)
    requires Listing(d, d1, w) && Listing(d1, d2, w)
    ensures Listing(d, d2, w)
  {
    hide ListedOn;
  }

  lemma {:induction false} HandOverKin(d: Desktop, ws: seq<nat>, from: Rect, k: nat, w: nat)
    requires k < |d.outputs| && w in d.windows
    ensures var d' := HandOver(d, ws, from, k); w in d'.windows && Kin(d.windows[w], d'.windows[w])
    decreases |ws|
  {
    if ws != [] {
      var v := ws[0];
      if v !in d.windows {
        HandOverKin(d, ws[1..], from, k, w);
      } else {
        var win := d.windows[v];
        var d1 := d.(outputs := d.outputs[k := With(d.outputs[k], v, win.minimized)]);
        var d2 := Put(d1, v, win.(frame := Transfer(win.frame, Some(from), d.outputs[k].rect)));
        TransferKin(win, Some(from), d.outputs[k].rect);
        assert w in d2.windows && Kin(d.windows[w], d2.windows[w]) by {
          hide Transfer, With;
        }
        hide Transfer, With, Kin;
        HandOverKin(d2, ws[1..], from, k, w);
        KinTwice(d.windows[w], d2.windows[w], HandOver(d2, ws[1..], from, k).windows[w]);
      }
    }
  }

  /** No output is there to take anything. */
  predicate NoLive(outputs: seq<Output>) {
    forall k :: 0 <= k < |outputs| ==> outputs[k].removed
  }

  lemma RemovedNearby(d: Desktop, j: nat, w: nat)
    requires j < |d.outputs| && !ListedOn(d.outputs, j, w)
    ensures Nearby(d, d.(outputs := d.outputs[..j] + d.outputs[j + 1..]), w)
  {
    hide OutputOf;
    RemovedOutputOf(d.outputs, j, w);
  }

  lemma RemovedOutputOf(outputs: seq<Output>, j: nat, w: nat)
    requires j < |outputs| && !ListedOn(outputs, j, w)
    ensures var rest, k := outputs[..j] + outputs[j + 1..], OutputOf(outputs, w);
            if k < |outputs| then
              var m := if k < j then k else k - 1; k != j && OutputOf(rest, w) == m && rest[m] == outputs[k]
            else OutputOf(rest, w) == |rest|
  {
    hide OutputOf;
    var rest := outputs[..j] + outputs[j + 1..];
    var k, m := OutputOf(outputs, w), OutputOf(rest, w);
    assert forall i :: 0 <= i < |rest| ==> rest[i] == outputs[if i < j then i else i + 1];
    if k < |outputs| {
      assert rest[if k < j then k else k - 1] == outputs[k];
    }
  }

  /** What becomes of a window's tracks when an output goes. */
  predicate Passes(d: Desktop, d': Desktop, w: nat, home: Home) {
    && Goes(d, d', w, home)
    && (Orphaned(d, w) ==> Orphaned(d', w))
    && (!Orphaned(d, w) && Orphaned(d', w) ==> NoLive(d'.outputs))
    && (NoLive(d.outputs) ==> NoLive(d'.outputs))
  }

  lemma PassesTwice(d: Desktop, d1: Desktop, d2: Desktop, w: nat, home: Home)
    requires Passes(d, d1, w, home) && Passes(d1, d2, w, home)
    ensures Passes(d, d2, w, home)
  {
    GoesTwice(d, d1, d2, w, home, home);
    hide Goes, Orphaned, NoLive;
  }

  lemma OutputMaybeDestroyPasses(d: Desktop, j: nat, w: nat, home: Home)
    requires Part(d) && Tracks(d, w, home) && j < |d.outputs|
    ensures Passes(d, OutputMaybeDestroy(d, j), w, home)
  {
    GoesSelf(d, w, home);
    var d1 := d.(outputs := d.outputs[..j] + d.outputs[j + 1..]);
    var target := FirstLive(d1.outputs);
    if !d.outputs[j].removed {
      hide Goes, Orphaned, NoLive;
    } else if target < |d1.outputs| {
      assert OutputMaybeDestroy(d, j) == HandOver(d1, Listed(d.outputs[j]), d.outputs[j].rect, target);
      hide OutputMaybeDestroy;
      HandedPasses(d, j, w, home, d1, target);
    } else {
      assert OutputMaybeDestroy(d, j) == d1.(orphans := d1.orphans + Listed(d.outputs[j]));
      hide OutputMaybeDestroy;
      LeftPasses(d, j, w, home, d1, OutputMaybeDestroy(d, j));
    }
  }

  lemma HandedPasses(d: Desktop, j: nat, w: nat, home: Home, d1: Desktop, target: nat)
    requires Part(d) && Tracks(d, w, home) && j < |d.outputs| && d.outputs[j].removed
    requires d1 == d.(outputs := d.outputs[..j] + d.outputs[j + 1..]) && target == FirstLive(d1.outputs) < |d1.outputs|
    ensures Passes(d, HandOver(d1, Listed(d.outputs[j]), d.outputs[j].rect, target), w, home)
  {
    var out := d.outputs[j];
    var d' := HandOver(d1, Listed(out), out.rect, target);
    assert !NoLive(d.outputs) by {
      assert d1.outputs[target] in d.outputs;
    }
    TracksIn(d, w, home);
    HandOverKin(d1, Listed(out), out.rect, target, w);
    if ListedOn(d.outputs, j, w) {
      DeskGeometry.OutputOfIs(d, w, j);
      TracksAway(d, w, home);
      OutputGoneAway(d, j, w, home);
      assert OutputMaybeDestroy(d, j) == d';
      hide *;
      AwayTracks(d, d', w, home);
      NotOrphaned(d, d', w, home, j);
    } else {
      NotListed(d, j, w);
      RemovedNearby(d, j, w);
      HandOverListing(d1, Listed(out), out.rect, target, w);
      ListingNearby(d1, d', w);
      hide HandOver, Part, Listing;
      NearbyTwice(d, d1, d', w);
      assert Near(d, d', w) by {
        hide Nearby, OutputOf;
      }
      hide Near;
      GoesNear(d, d', w, home);
      hide Goes, NoLive, Spot, Own;
    }
  }

  lemma NearbyTwice(d: Desktop, d1: Desktop, d2: Desktop, w: nat)
    requires Nearby(d, d1, w) && Nearby(d1, d2, w)
    ensures Nearby(d, d2, w)
  {
    hide OutputOf;
  }

  lemma TracksIn(d: Desktop, w: nat, home: Home)
    requires Tracks(d, w, home)
    ensures w in d.windows && !Floating(d.windows[w].frame) && !d.windows[w].isNew
            && !d.windows[w].frame.centerRequested && home.width > 0
    ensures d.windows[w].frame.savedWidth == home.width && d.windows[w].frame.savedHeight == home.height
  {
    hide OutputOf;
  }

  lemma TracksAway(d: Desktop, w: nat, home: Home)
    requires Tracks(d, w, home) && !Orphaned(d, w)
    ensures Away(d, w, home)
  {
    hide OutputOf;
  }

  lemma AwayTracks(d: Desktop, d': Desktop, w: nat, home: Home)
    requires Tracks(d, w, home) && Away(d', w, home) && w in d.windows && w in d'.windows
             && Kin(d.windows[w], d'.windows[w])
    ensures Goes(d, d', w, home) && !Orphaned(d', w)
  {
    hide OutputOf;
  }

  lemma NotOrphaned(d: Desktop, d': Desktop, w: nat, home: Home, j: nat)
    requires Goes(d, d', w, home) && !Orphaned(d', w) && OutputOf(d.outputs, w) == j < |d.outputs| && !NoLive(d.outputs)
    ensures Passes(d, d', w, home)
  {
    hide Goes, NoLive;
  }

  lemma LeftPasses(d: Desktop, j: nat, w: nat, home: Home, d1: Desktop, d': Desktop)
    requires Part(d) && Tracks(d, w, home) && j < |d.outputs| && d.outputs[j].removed
    requires d1 == d.(outputs := d.outputs[..j] + d.outputs[j + 1..]) && FirstLive(d1.outputs) == |d1.outputs|
    requires d'.outputs == d1.outputs && d'.windows == d.windows
    ensures Passes(d, d', w, home)
  {
    assert NoLive(d'.outputs);
    TracksIn(d, w, home);
    hide FirstLive, NoLive;
    if ListedOn(d.outputs, j, w) {
      DeskGeometry.OutputOfIs(d, w, j);
      AllGone(d, j, w, d');
      assert Goes(d, d', w, home) by {
        hide OutputOf;
      }
      hide Goes;
    } else {
      RemovedNearby(d, j, w);
      assert Near(d, d', w) by {
        SameNearby(d, d1, d', w);
        hide Nearby;
      }
      GoesNear(d, d', w, home);
      hide Goes, Spot, Own;
    }
  }

  lemma SameNearby(d: Desktop, d1: Desktop, d': Desktop, w: nat)
    requires Nearby(d, d1, w) && d'.outputs == d1.outputs
    ensures Nearby(d, d', w)
  {
    hide OutputOf;
  }

  lemma AllGone(d: Desktop, j: nat, w: nat, d': Desktop)
    requires Part(d) && w in d.windows && j < |d.outputs| && ListedOn(d.outputs, j, w)
    requires d'.outputs == d.outputs[..j] + d.outputs[j + 1..]
    ensures Orphaned(d', w)
  {
    var m := OutputOf(d'.outputs, w);
    if m < |d'.outputs| {
      var i := if m < j then m else m + 1;
      assert d'.outputs[m] == d.outputs[i];
      OnlyThere(d, w, j, i);
    }
  }

  lemma {:induction false} DestroyOutputsPasses(d: Desktop, ids: seq<nat>, w: nat, home: Home)
    requires Part(d) && Tracks(d, w, home)
    ensures Part(DestroyOutputs(d, ids)) && Passes(d, DestroyOutputs(d, ids), w, home)
    decreases |ids|
  {
    if ids == [] {
      GoesSelf(d, w, home);
      hide Goes, Part, NoLive;
    } else {
      var k := IndexOf(d.outputs, ids[0]);
      if k < |d.outputs| {
        OutputMaybeDestroyKeeps(d, k);
        OutputMaybeDestroyPasses(d, k, w, home);
        var d1 := OutputMaybeDestroy(d, k);
        assert Tracks(d1, w, home);
        hide OutputMaybeDestroy, Part, Tracks, Passes;
        DestroyOutputsPasses(d1, ids[1..], w, home);
        PassesTwice(d, d1, DestroyOutputs(d1, ids[1..]), w, home);
      } else {
        hide Part, Tracks, Passes;
        DestroyOutputsPasses(d, ids[1..], w, home);
      }
    }
  }

  // ---------- orphans adopted ----------

  lemma OrphansApart(d: Desktop, w: nat)
    requires Part(d) && w in d.windows
    ensures w in d.orphans <==> Orphaned(d, w)
    ensures Count(d.orphans, w) == One(Orphaned(d, w))
  {
    assert Places(d, w) == 1;
    var k := OutputOf(d.outputs, w);
    if k < |d.outputs| {
      PlacesOnOne(d.outputs, k, w);
    } else {
      PlacesNowhere(d.outputs, w);
    }
    CountIn(d.orphans, w);
    hide PlacesIn, Count;
  }

  lemma {:induction false} AdoptOthers(d: Desktop, ws: seq<nat>, k: nat, w: nat)
    requires k < |d.outputs| && w !in ws && w in d.windows
    ensures var d' := Adopt(d, ws, k); Listing(d, d', w) && w in d'.windows && d'.windows[w] == d.windows[w]
    decreases |ws|
  {
    if ws != [] {
      var v := ws[0];
      if v !in d.windows {
        AdoptOthers(d, ws[1..], k, w);
      } else {
        MoveListing(d, v, k, w);
        var d1 := MoveToOutput(d, v, k);
        hide MoveToOutput, Transfer;
        var d2 := Put(d1, v, d1.windows[v].(frame := Transfer(d1.windows[v].frame, None, d1.outputs[k].rect)));
        assert d2.windows[w] == d.windows[w] && Listing(d, d2, w);
        AdoptOthers(d2, ws[1..], k, w);
        hide Listing;
        ListingTwice(d, d2, Adopt(d2, ws[1..], k), w);
      }
    }
  }

  lemma MineAdopted(d: Desktop, k: nat, w: nat, home: Home) returns (d2: Desktop)
    requires Part(d) && Tracks(d, w, home) && Orphaned(d, w) && k < |d.outputs|
    ensures var d1 := MoveToOutput(d, w, k);
            w in d1.windows && k < |d1.outputs|
              && d2 == Put(d1, w, d1.windows[w].(frame := Transfer(d1.windows[w].frame, None, d1.outputs[k].rect)))
    ensures Goes(d, d2, w, Corner(home)) && !Orphaned(d2, w) && |d2.outputs| == |d.outputs|
  {
    TracksIn(d, w, home);
    var d1 := MoveToOutput(d, w, k);
    MoveKeeps(d, w, k);
    MoveLists(d, w, k);
    var win := d1.windows[w].(frame := Transfer(d1.windows[w].frame, None, d1.outputs[k].rect));
    d2 := Put(d1, w, win);
    PutKeeps(d1, w, win);
    assert ListedOn(d2.outputs, k, w);
    DeskGeometry.OutputOfIs(d2, w, k);
    TransferKin(d.windows[w], None, d1.outputs[k].rect);
    StillAway(d.windows[w], None, d1.outputs[k].rect);
    hide Part, MoveToOutput, Transfer, Tracks, OutputOf, SavedHome, Floating;
  }

  lemma StillAway(win: Window, from: Option<Rect>, to: Rect)
    requires !Floating(win.frame)
    ensures !Floating(Transfer(win.frame, from, to))
  {
  }

  lemma {:induction false} AdoptMine(d: Desktop, ws: seq<nat>, k: nat, w: nat, home: Home)
    requires Part(d) && Tracks(d, w, home) && Orphaned(d, w) && k < |d.outputs| && Count(ws, w) == 1
    ensures Goes(d, Adopt(d, ws, k), w, Corner(home)) && !Orphaned(Adopt(d, ws, k), w)
    decreases |ws|
  {
    TracksIn(d, w, home);
    var v := ws[0];
    if v == w {
      var d2 := MineAdopted(d, k, w, home);
      CountIn(ws[1..], w);
      assert Adopt(d, ws, k) == Adopt(d2, ws[1..], k) && w in d2.windows;
      assert Tracks(d2, w, Corner(home));
      AdoptOthers(d2, ws[1..], k, w);
      var d' := Adopt(d2, ws[1..], k);
      hide Adopt, Tracks, Goes, Orphaned, Part, Count;
      ListingNear(d2, d', w);
      GoesNear(d2, d', w, Corner(home));
      GoesTwice(d, d2, d', w, Corner(home), Corner(home));
      StillListed(d2, d', w);
    } else if v !in d.windows {
      AdoptMine(d, ws[1..], k, w, home);
    } else {
      MoveKeeps(d, v, k);
      OtherMove(d, v, k, w);
      var d1 := MoveToOutput(d, v, k);
      var win := d1.windows[v].(frame := Transfer(d1.windows[v].frame, None, d1.outputs[k].rect));
      var d2 := Put(d1, v, win);
      OtherPut(d1, v, win, w);
      PutKeeps(d1, v, win);
      assert Count(ws[1..], w) == 1;
      assert Adopt(d, ws, k) == Adopt(d2, ws[1..], k);
      hide MoveToOutput, Transfer, Tracks, Goes, Orphaned, Part, Count, Near, Adopt;
      NearTwice(d, d1, d2, w);
      GoesNear(d, d2, w, home);
      GoesTracks(d, d2, w, home);
      OrphanedNear(d, d2, w);
      AdoptMine(d2, ws[1..], k, w, home);
      GoesTwice(d, d2, Adopt(d2, ws[1..], k), w, home, Corner(home));
    }
  }

  lemma GoesTracks(d: Desktop, d': Desktop, w: nat, home: Home)
    requires Goes(d, d', w, home)
    ensures Tracks(d', w, home) && w in d.windows && w in d'.windows && Kin(d.windows[w], d'.windows[w])
  {
    hide OutputOf;
  }

  lemma OrphanedNear(d: Desktop, d': Desktop, w: nat)
    requires Near(d, d', w)
    ensures Orphaned(d, w) <==> Orphaned(d', w)
  {
    hide OutputOf, Alike;
  }

  lemma StillListed(d: Desktop, d': Desktop, w: nat)
    requires Near(d, d', w) && !Orphaned(d, w)
    ensures !Orphaned(d', w)
  {
    OrphanedNear(d, d', w);
    hide *;
  }

  /** Its home once the clean-up is done: an orphan's is the corner of the output that adopts it. */
  function HomeNow(d: Desktop, w: nat, home: Home): Home {
    if Orphaned(d, w) then Corner(home) else home
  }

  lemma OrphanAnywhere(d: Desktop, d': Desktop, w: nat, home: Home)
    requires Goes(d, d', w, home) && Orphaned(d', w)
    ensures Goes(d, d', w, Corner(home))
  {
    hide OutputOf;
  }

  /** Outputs gone and orphans adopted. */
  lemma RehousedGoes(d: Desktop, w: nat, home: Home)
    requires Part(d) && Tracks(d, w, home)
    ensures var d2 := AdoptOrphans(DestroyOutputs(d, Ids(d.outputs))); Part(d2) && Goes(d, d2, w, HomeNow(d, w, home))
  {
    hide Part, DestroyOutputs, AdoptOrphans, Tracks, Goes, Orphaned, Ids;
    var d1 := DestroyOutputs(d, Ids(d.outputs));
    DestroyOutputsPasses(d, Ids(d.outputs), w, home);
    AdoptOrphansKeeps(d1);
    var d2 := AdoptOrphans(d1);
    GoesTracks(d, d1, w, home);
    AdoptedGoes(d1, w, home);
    if Orphaned(d1, w) {
      if !Orphaned(d, w) {
        NoneToAdopt(d1);
        assert d2 == d1;
      } else {
        GoesTwice(d, d1, d2, w, home, Corner(home));
      }
    } else {
      GoesTwice(d, d1, d2, w, home, home);
    }
  }

  lemma NoneToAdopt(d: Desktop)
    requires NoLive(d.outputs)
    ensures AdoptOrphans(d) == d
  {
    assert OutputUnderPointer(d) == |d.outputs|;
    hide OutputUnderPointer, Adopt;
  }

  lemma AdoptedGoes(d: Desktop, w: nat, home: Home)
    requires Part(d) && Tracks(d, w, home)
    ensures Goes(d, AdoptOrphans(d), w, HomeNow(d, w, home))
  {
    TracksIn(d, w, home);
    GoesSelf(d, w, home);
    OrphansApart(d, w);
    var target := OutputUnderPointer(d);
    var d' := AdoptOrphans(d);
    hide Part, Tracks, Goes, Orphaned, OutputUnderPointer, Adopt, Count;
    if d.orphans == [] || target == |d.outputs| {
      if Orphaned(d, w) {
        OrphanAnywhere(d, d', w, home);
      }
    } else if Orphaned(d, w) {
      AdoptMine(d, d.orphans, target, w, home);
    } else {
      AdoptOthers(d, d.orphans, target, w);
      AlikeSelf(d.windows[w]);
      ListingNear(d, d', w);
      GoesNear(d, d', w, home);
    }
  }

  lemma AlikeSelf(win: Window)
    ensures Alike(win, win)
  {
  }

  // ---------- the rest of the clean-up ----------

  lemma {:induction false} RefillAllKin(windows: map<nat, Window>, ws: seq<nat>, r: Rect, w: nat)
    requires w in windows
    ensures var windows' := RefillAll(windows, ws, r);
            && w in windows' && Kin(windows[w], windows'[w])
            && forall s :: SavedHome(windows'[w].frame, s) == SavedHome(windows[w].frame, s)
    decreases |ws|
  {
    if ws != [] {
      var v := ws[0];
      var next := if v in windows then windows[v := windows[v].(frame := ApplyGeometry(windows[v].frame, r))]
          else windows;
      RefitKin(windows[w], r);
      hide ApplyGeometry, SavedHome;
      RefillAllKin(next, ws[1..], r, w);
    }
  }

  lemma {:induction false} RefillGoes(d: Desktop, n: nat, w: nat, home: Home)
    requires n <= |d.outputs| && Tracks(d, w, home)
    ensures Goes(d, Refill(d, n), w, home)
    decreases n
  {
    if n == 0 {
      GoesSelf(d, w, home);
      hide Goes;
    } else {
      RefillGoes(d, n - 1, w, home);
      var d1, d2 := Refill(d, n - 1), Refill(d, n);
      GoesTracks(d, d1, w, home);
      if |d1.outputs| == |d.outputs| && d1.outputs[n - 1].geometryChanged {
        var o := d1.outputs[n - 1];
        RefillAllKin(d1.windows, Listed(o), o.rect, w);
        RefilledGoes(d1, n - 1, w, home, d2);
        hide Goes, Refill;
        GoesTwice(d, d1, d2, w, home, home);
      } else {
        assert d2 == d1;
        hide Goes, Refill;
      }
    }
  }

  lemma RefilledGoes(d1: Desktop, j: nat, w: nat, home: Home, d2: Desktop)
    requires Tracks(d1, w, home) && j < |d1.outputs|
             && d2.outputs == d1.outputs[j := d1.outputs[j].(geometryChanged := false)]
    requires w in d1.windows && w in d2.windows && Kin(d1.windows[w], d2.windows[w])
    requires forall s :: SavedHome(d2.windows[w].frame, s) == SavedHome(d1.windows[w].frame, s)
    ensures Goes(d1, d2, w, home)
  {
    assert Listing(d1, d2, w) by {
      hide OutputOf;
    }
    ListingNearby(d1, d2, w);
    hide OutputOf, Listing, SavedHome;
    if !Orphaned(d1, w) {
      SavedBySame(d1.windows[w].frame, Own(d1, w), Own(d2, w));
    }
  }

  lemma SavedBySame(f: Frame, r: Rect, s: Rect)
    requires SameOrigin(r, s)
    ensures SavedHome(f, r) == SavedHome(f, s)
  {
  }

  lemma QueuedNear(d: Desktop, v: nat, w: nat)
    requires v in d.windows && w in d.windows
    ensures Near(d, Queued(d, v), w)
  {
    NearSelf(d, w);
    if d.windows[v].queueMinimize {
      MinimizeNear(d, v, w);
      MinimizeNear(d, v, v);
      var d1 := Minimize(d, v);
      InBoth(d, d1, v);
      InBoth(d, d1, w);
      hide Minimize, Near, Focus, Put;
      var win := d1.windows[v].(queueMinimize := false);
      var d2 := Put(d1, v, win);
      PutKeys(d1, v, win);
      if v == w {
        PutSelfNear(d1, w);
      } else {
        OtherPut(d1, v, win, w);
      }
      NearTwice(d, d1, d2, w);
      InBoth(d, d2, w);
      if !d2.windows[v].minimized && d2.seats != [] {
        FocusNear(d2, 0, Some(v), w);
        NearTwice(d, d2, Focus(d2, 0, Some(v)), w);
      }
    }
  }

  lemma PutSelfNear(d: Desktop, w: nat)
    requires w in d.windows
    ensures Near(d, Put(d, w, d.windows[w].(queueMinimize := false)), w)
  {
    hide OutputOf;
  }

  lemma MaybeDestroyNear(d: Desktop, v: nat, w: nat)
    requires v in d.windows && w in d.windows && !d.windows[w].closed
    ensures Near(d, MaybeDestroy(d, v), w)
  {
    NearSelf(d, w);
    if v == w {
      hide Near;
    } else {
      DestroyedListing(d, v, w);
      AlikeSelf(d.windows[w]);
      hide *;
      ListingNear(d, MaybeDestroy(d, v), w);
    }
  }

  lemma DestroyedListing(d: Desktop, v: nat, w: nat)
    requires v in d.windows && w in d.windows && v != w
    ensures var d' := MaybeDestroy(d, v); Listing(d, d', w) && w in d'.windows && d'.windows[w] == d.windows[w]
  {
    forall s {
      EraseIn(s, v, w);
    }
    hide Erase, Forget;
  }

  lemma {:induction false} TidyNear(d: Desktop, ws: seq<nat>, w: nat)
    requires w in d.windows && !d.windows[w].closed
    ensures Near(d, Tidy(d, ws), w)
    decreases |ws|
  {
    hide Queued, MaybeDestroy, Near;
    NearSelf(d, w);
    if ws != [] {
      var v := ws[0];
      if v !in d.windows {
        TidyNear(d, ws[1..], w);
      } else {
        QueuedNear(d, v, w);
        var d1 := Queued(d, v);
        StaysOpen(d, d1, w);
        var d2 := d1;
        if v in d1.windows {
          MaybeDestroyNear(d1, v, w);
          d2 := MaybeDestroy(d1, v);
          NearTwice(d, d1, d2, w);
        }
        StaysOpen(d, d2, w);
        TidyNear(d2, ws[1..], w);
        NearTwice(d, d2, Tidy(d2, ws[1..]), w);
      }
    }
  }

  lemma StaysOpen(d: Desktop, d': Desktop, w: nat)
    requires Near(d, d', w) && !d.windows[w].closed
    ensures w in d'.windows && !d'.windows[w].closed
  {
    hide Nearby;
  }

  lemma {:induction false} TidyOutputsNear(d: Desktop, n: nat, w: nat)
    requires w in d.windows && !d.windows[w].closed
    ensures Near(d, TidyOutputs(d, n), w)
    decreases n
  {
    hide Tidy, Near, Listed;
    NearSelf(d, w);
    if n > 0 {
      TidyOutputsNear(d, n - 1, w);
      var d1 := TidyOutputs(d, n - 1);
      StaysOpen(d, d1, w);
      if n <= |d1.outputs| {
        TidyNear(d1, Listed(d1.outputs[n - 1]), w);
        NearTwice(d, d1, Tidy(d1, Listed(d1.outputs[n - 1])), w);
      }
    }
  }

  lemma {:induction false} DestroyClosedNear(d: Desktop, ws: seq<nat>, w: nat)
    requires w in d.windows && !d.windows[w].closed
    ensures Near(d, DestroyClosed(d, ws), w)
    decreases |ws|
  {
    hide MaybeDestroy, Near;
    NearSelf(d, w);
    if ws != [] {
      if ws[0] in d.windows {
        MaybeDestroyNear(d, ws[0], w);
        var d1 := MaybeDestroy(d, ws[0]);
        StaysOpen(d, d1, w);
        DestroyClosedNear(d1, ws[1..], w);
        NearTwice(d, d1, DestroyClosed(d1, ws[1..]), w);
      } else {
        DestroyClosedNear(d, ws[1..], w);
      }
    }
  }

  lemma CleanupGoes(d: Desktop, w: nat, home: Home)
    requires Part(d) && Tracks(d, w, home) && !d.windows[w].closed
    ensures Part(Cleanup(d)) && Goes(d, Cleanup(d), w, HomeNow(d, w, home))
  {
    TracksIn(d, w, home);
    DeskRuns.CleanupKeeps(d);
    hide Part, DestroyOutputs, AdoptOrphans, Refill, TidyOutputs, DestroyClosed, Tracks, Goes, Ids, HomeNow,
      DeskRuns.NoneWaiting;
    var h := HomeNow(d, w, home);
    var d2 := AdoptOrphans(DestroyOutputs(d, Ids(d.outputs)));
    RehousedGoes(d, w, home);
    GoesTracks(d, d2, w, h);
    var d3 := Refill(d2, |d2.outputs|);
    RefillGoes(d2, |d2.outputs|, w, h);
    GoesTwice(d, d2, d3, w, h, h);
    GoesTracks(d, d3, w, h);
    var d4 := TidyOutputs(d3, |d3.outputs|);
    TidyOutputsNear(d3, |d3.outputs|, w);
    StaysOpen(d3, d4, w);
    var d5 := DestroyClosed(d4, d4.orphans);
    DestroyClosedNear(d4, d4.orphans, w);
    NearTwice(d3, d4, d5, w);
    GoesNear(d3, d5, w, h);
    GoesTwice(d, d3, d5, w, h, h);
  }
}
