/**
 Whether the seats are in order after a manage sequence, from what there is to be
 seen before it: which windows will be there then, and not minimized.
 */
module DeskSteady {
  import opened Bytes
  import opened Desk
  import opened DeskPartition
  import opened DeskGeometry
  import opened DeskHome
  import opened DeskSeats
  import DeskRuns
  import DeskCleanup

  /** What bears on whether a window will be there, and be seen. */
  datatype Flags = Flags(
    closed: bool, isNew: bool, minimized: bool, wantMinimized: bool, queueMinimize: bool, pendingNav: NavAction)

  function FlagsOf(win: Window): Flags {
    Flags(win.closed, win.isNew, win.minimized, win.wantMinimized, win.queueMinimize, win.pendingNav)
  }

  /** With a click on its icon seen to. */
  function Toggled(f: Flags): Flags {
    if f.queueMinimize then f.(minimized := !f.minimized, wantMinimized := false, queueMinimize := false) else f
  }

  predicate ToHide(f: Flags) {
    f.minimized || f.wantMinimized || f.pendingNav == NavMinimize
  }

  /** There is an output for windows to be on. */
  predicate Housed(d: Desktop) {
    exists k :: 0 <= k < |d.outputs| && !d.outputs[k].removed
  }

  /** The window will be minimized. Without an output nothing is minimized or comes back. */
  predicate Hides(d: Desktop, w: nat)
    requires w in d.windows
  {
    var f := FlagsOf(d.windows[w]);
    if Housed(d) then ToHide(Toggled(f)) else f.minimized
  }

  predicate Stays(d: Desktop, w: nat) {
    w in d.windows && !d.windows[w].closed && !Hides(d, w)
  }

  /** New, it is given the seats' attention, only to be minimized. */
  predicate Fleeting(d: Desktop, w: nat) {
    && w in d.windows && d.windows[w].isNew && !d.windows[w].closed && Hides(d, w)
    && (Housed(d) ==> !Toggled(FlagsOf(d.windows[w])).minimized)
  }

  /** What the seat has to do with windows is about such as stay. */
  predicate SteadySeat(d: Desktop, seat: Seat) {
    && (seat.interacted.Some? ==> Stays(d, seat.interacted.value))
    && ((seat.action == MoveAction || seat.action == ResizeAction) && seat.hovered.Some? && !seat.opRelease ==>
          seat.hovered.value in d.windows && !d.windows[seat.hovered.value].closed)
  }

  predicate Steady(d: Desktop) {
    forall s :: 0 <= s < |d.seats| ==> SteadySeat(d, d.seats[s])
  }

  // ---------- outputs that go ----------

  lemma {:induction false} HandOverRemoved(d: Desktop, ws: seq<nat>, from: Rect, k: nat)
    requires k < |d.outputs|
    ensures var d' := HandOver(d, ws, from, k);
            && |d'.outputs| == |d.outputs|
            && forall j :: 0 <= j < |d.outputs| ==> d'.outputs[j].removed == d.outputs[j].removed
    decreases |ws|
  {
    hide Transfer;
    if ws != [] {
      var w := ws[0];
      if w !in d.windows {
        HandOverRemoved(d, ws[1..], from, k);
      } else {
        var win := d.windows[w];
        var d1 := d.(outputs := d.outputs[k := With(d.outputs[k], w, win.minimized)]);
        var d2 := Put(d1, w, win.(frame := Transfer(win.frame, Some(from), d.outputs[k].rect)));
        HandOverRemoved(d2, ws[1..], from, k);
      }
    }
  }

  lemma OneGoneHoused(d: Desktop, k: nat)
    requires k < |d.outputs| && Housed(d)
    ensures Housed(OutputMaybeDestroy(d, k))
  {
    hide HandOver, FirstLive;
    var out := d.outputs[k];
    if out.removed {
      var i :| 0 <= i < |d.outputs| && !d.outputs[i].removed;
      var d1 := d.(outputs := d.outputs[..k] + d.outputs[k + 1..]);
      var j := if i < k then i else i - 1;
      assert d1.outputs[j] == d.outputs[i];
      var target := FirstLive(d1.outputs);
      if target < |d1.outputs| {
        HandOverRemoved(d1, Listed(out), out.rect, target);
        assert !HandOver(d1, Listed(out), out.rect, target).outputs[j].removed;
      }
    }
  }

  lemma {:induction false} DestroyHoused(d: Desktop, ids: seq<nat>)
    requires Housed(d)
    ensures Housed(DestroyOutputs(d, ids))
    decreases |ids|
  {
    hide Housed, OutputMaybeDestroy;
    if ids != [] {
      var k := IndexOf(d.outputs, ids[0]);
      if k < |d.outputs| {
        OneGoneHoused(d, k);
      }
      DestroyHoused(if k < |d.outputs| then OutputMaybeDestroy(d, k) else d, ids[1..]);
    }
  }

  /** All of them are to go, and each is on the list. */
  lemma {:induction false} AllDestroyed(d: Desktop, ids: seq<nat>)
    requires !Housed(d) && multiset(Ids(d.outputs)) == multiset(ids)
    ensures DestroyOutputs(d, ids).outputs == []
    decreases |ids|
  {
    hide OutputMaybeDestroy, IndexOf;
    if ids == [] {
      assert |Ids(d.outputs)| == |multiset(Ids(d.outputs))| == 0;
    } else {
      var k := FirstGone(d, ids);
      AllDestroyed(OutputMaybeDestroy(d, k), ids[1..]);
    }
  }

  lemma FirstGone(d: Desktop, ids: seq<nat>) returns (k: nat)
    requires !Housed(d) && ids != [] && multiset(Ids(d.outputs)) == multiset(ids)
    ensures k == IndexOf(d.outputs, ids[0]) < |d.outputs|
    ensures var d' := OutputMaybeDestroy(d, k); !Housed(d') && multiset(Ids(d'.outputs)) == multiset(ids[1..])
  {
    hide OutputMaybeDestroy, IndexOf, Ids;
    IdFound(d.outputs, ids[0], ids);
    k := IndexOf(d.outputs, ids[0]);
    GoneIs(d, k);
    IdsBut(d.outputs, k);
    assert ids == [ids[0]] + ids[1..];
    var rest := multiset(Ids(d.outputs[..k] + d.outputs[k + 1..]));
    assert multiset{ids[0]} + rest == multiset{ids[0]} + multiset(ids[1..]);
    assert rest == multiset{ids[0]} + rest - multiset{ids[0]};
  }

  lemma IdFound(outputs: seq<Output>, id: nat, ids: seq<nat>)
    requires id in ids && multiset(Ids(outputs)) == multiset(ids)
    ensures IndexOf(outputs, id) < |outputs|
  {
    assert id in multiset(ids);
    assert id in Ids(outputs);
  }

  lemma GoneIs(d: Desktop, k: nat)
    requires !Housed(d) && k < |d.outputs|
    ensures var d' := OutputMaybeDestroy(d, k);
            d'.outputs == d.outputs[..k] + d.outputs[k + 1..] && !Housed(d')
  {
    hide HandOver;
    var rest := d.outputs[..k] + d.outputs[k + 1..];
    assert forall j :: 0 <= j < |rest| ==> rest[j] == d.outputs[if j < k then j else j + 1];
    assert FirstLive(rest) == |rest|;
  }

  lemma IdsBut(outputs: seq<Output>, k: nat)
    requires k < |outputs|
    ensures multiset(Ids(outputs)) == multiset{outputs[k].id} + multiset(Ids(outputs[..k] + outputs[k + 1..]))
  {
    assert Ids(outputs) == Ids(outputs[..k]) + [outputs[k].id] + Ids(outputs[k + 1..]);
    assert Ids(outputs[..k] + outputs[k + 1..]) == Ids(outputs[..k]) + Ids(outputs[k + 1..]);
  }

  /** The desktop once its outputs are as they will be, and no window is without one that need be. */
  function Housekept(d: Desktop): Desktop {
    var d2 := AdoptOrphans(DestroyOutputs(d, Ids(d.outputs)));
    Refill(d2, |d2.outputs|)
  }

  lemma HousekeptIs(d: Desktop)
    requires Part(d)
    ensures var d' := Housekept(d);
            Part(d') && Quiet(d, d') && if Housed(d) then d'.orphans == [] else d'.outputs == []
  {
    hide DestroyOutputs, AdoptOrphans, Refill, Part, Ids, DeskRuns.SameOutputs, Quiet, SameOpen, DeskRuns.NoneWaiting,
      Housed;
    var d1 := DestroyOutputs(d, Ids(d.outputs));
    DestroyOutputsKeeps(d, Ids(d.outputs));
    DestroyOutputsQuiet(d, Ids(d.outputs));
    var d2 := AdoptOrphans(d1);
    DeskRuns.AdoptOrphansNone(d1);
    AdoptOrphansQuiet(d1);
    QuietTwice(d, d1, d2);
    DeskRuns.RefillKeeps(d2);
    RefillQuiet(d2, |d2.outputs|);
    QuietTwice(d, d2, Housekept(d));
    if Housed(d) {
      DestroyHoused(d, Ids(d.outputs));
      AdoptedNone(d1);
      SameNone(d2, Refill(d2, |d2.outputs|));
    } else {
      AllDestroyed(d, Ids(d.outputs));
      NothingThere(d1);
    }
  }

  lemma AdoptedNone(d: Desktop)
    requires Part(d) && Housed(d)
    ensures AdoptOrphans(d).orphans == []
  {
    AdoptOrphansKeeps(d);
    hide AdoptOrphans, Part;
  }

  lemma SameNone(d: Desktop, d': Desktop)
    requires DeskRuns.SameOutputs(d, d') && d.orphans == []
    ensures d'.orphans == []
  {
  }

  lemma NothingThere(d: Desktop)
    requires d.outputs == []
    ensures var d2 := AdoptOrphans(d); d2 == d && Refill(d2, |d2.outputs|) == d
  {
  }

  // ---------- icons clicked on, and windows closed ----------

  /**
   The window is gone if it was closed, or is listed where it was, and any click on its icon may
   have been seen to.
   */
  predicate Tidies(d: Desktop, d': Desktop, w: nat) {
    && |d'.outputs| == |d.outputs|
    && (w in d'.windows ==>
          && w in d.windows
          && FlagsOf(d'.windows[w]) in [FlagsOf(d.windows[w]), Toggled(FlagsOf(d.windows[w]))]
          && forall k :: 0 <= k < |d.outputs| && ListedOn(d.outputs, k, w) ==> ListedOn(d'.outputs, k, w))
    && (w in d.windows && w !in d'.windows ==> d.windows[w].closed)
  }

  lemma TidiesTwice(d: Desktop, d1: Desktop, d2: Desktop, w: nat)
    requires Tidies(d, d1, w) && Tidies(d1, d2, w)
    ensures Tidies(d, d2, w)
  {
    hide ListedOn;
  }

  /** Neither closed, nor its icon clicked on. */
  predicate Clear(d: Desktop, w: nat) {
    w in d.windows ==> !d.windows[w].closed && !d.windows[w].queueMinimize
  }

  lemma ClearStays(d: Desktop, d': Desktop, w: nat)
    requires Clear(d, w) && Tidies(d, d', w)
    ensures Clear(d', w)
  {
    hide ListedOn;
  }

  lemma TidiesSelf(d: Desktop, w: nat)
    ensures Tidies(d, d, w)
  {
    hide ListedOn;
  }

  lemma MinimizeFlags(d: Desktop, v: nat, w: nat)
    requires v in d.windows && w in d.windows
    ensures var d', f := Minimize(d, v), FlagsOf(d.windows[w]);
            && v in d'.windows && d'.windows.Keys == d.windows.Keys && |d'.outputs| == |d.outputs|
            && FlagsOf(d'.windows[w]) ==
               (if v == w && !Orphaned(d, w) then f.(minimized := !f.minimized, wantMinimized := false) else f)
            && forall k :: 0 <= k < |d.outputs| && ListedOn(d.outputs, k, w) ==> ListedOn(d'.outputs, k, w)
  {
    MinimizeListing(d, v, w);
    hide ListedOn, OutputOf, Erase, Unfocus;
  }

  lemma FocusFlags(d: Desktop, s: nat, v: nat, w: nat)
    requires s < |d.seats|
    ensures var d' := Focus(d, s, Some(v));
            && d'.windows == d.windows && |d'.outputs| == |d.outputs| && d'.orphans == d.orphans
            && forall k :: 0 <= k < |d.outputs| && ListedOn(d.outputs, k, w) ==> ListedOn(d'.outputs, k, w)
  {
    hide ToTop, ListedOn;
    ToTopLists(d.outputs, v, w);
  }

  lemma QueuedTidies(d: Desktop, v: nat, w: nat)
    requires v in d.windows && !Orphaned(d, v)
    ensures var d' := Queued(d, v);
            Tidies(d, d', w) && v in d'.windows && (v == w ==> !d'.windows[w].queueMinimize)
  {
    hide Minimize, Focus, OutputOf, ListedOn;
    TidiesSelf(d, w);
    if d.windows[v].queueMinimize {
      var d1 := Minimize(d, v);
      MinimizeFlags(d, v, v);
      if w in d.windows {
        MinimizeFlags(d, v, w);
      }
      assert w in d1.windows.Keys <==> w in d.windows;
      var d2 := Put(d1, v, d1.windows[v].(queueMinimize := false));
      if !d2.windows[v].minimized && d2.seats != [] {
        FocusFlags(d2, 0, v, w);
      }
    }
  }

  lemma DestroyedTidies(d: Desktop, v: nat, w: nat)
    requires v in d.windows
    ensures var d' := MaybeDestroy(d, v);
            Tidies(d, d', w) && (v == w && w in d'.windows ==> !d'.windows[w].closed)
  {
    hide ListedOn, Erase, EraseEverywhere, Forget;
    TidiesSelf(d, w);
    if v != w && w in d.windows {
      DeskCleanup.DestroyedListing(d, v, w);
    }
  }

  /** Windows on one output, each seen to in turn. */
  lemma {:induction false} TidyTidies(d: Desktop, ws: seq<nat>, w: nat)
    requires Part(d) && d.orphans == []
    ensures var d' := Tidy(d, ws); Part(d') && d'.orphans == [] && Tidies(d, d', w) && (w in ws ==> Clear(d', w))
    decreases |ws|
  {
    hide Queued, MaybeDestroy, Part, Tidies, Clear, Orphaned;
    TidiesSelf(d, w);
    if ws != [] {
      assert ws == [ws[0]] + ws[1..];
      var d2 := TidyOne(d, ws, w);
      TidyTidies(d2, ws[1..], w);
      TidiesTwice(d, d2, Tidy(d2, ws[1..]), w);
      if w == ws[0] {
        ClearStays(d2, Tidy(d2, ws[1..]), w);
      }
    }
  }

  lemma TidyOne(d: Desktop, ws: seq<nat>, w: nat) returns (d2: Desktop)
    requires Part(d) && d.orphans == [] && ws != []
    ensures Part(d2) && d2.orphans == [] && Tidies(d, d2, w) && (w == ws[0] ==> Clear(d2, w))
    ensures Tidy(d, ws) == Tidy(d2, ws[1..])
  {
    hide Queued, MaybeDestroy, Part, ListedOn, DeskRuns.SameOutputs, SameOpen, Stay;
    var v := ws[0];
    d2 := d;
    TidiesSelf(d, w);
    if v in d.windows {
      DeskCleanup.OrphansApart(d, v);
      var d1 := Queued(d, v);
      QueuedTidies(d, v, w);
      DeskRuns.QueuedKeeps(d, v);
      SameNone(d, d1);
      d2 := MaybeDestroy(d1, v);
      DestroyedTidies(d1, v, w);
      DeskRuns.MaybeDestroyOpen(d1, v);
      SameNone(d1, d2);
      TidiesTwice(d, d1, d2, w);
    }
  }

  lemma {:induction false} TidyOutputsTidies(d: Desktop, n: nat, w: nat)
    requires Part(d) && d.orphans == [] && n <= |d.outputs|
    ensures var d' := TidyOutputs(d, n);
            && Part(d') && d'.orphans == [] && Tidies(d, d', w)
            && forall k :: 0 <= k < n && ListedOn(d.outputs, k, w) ==> Clear(d', w)
    decreases n
  {
    hide Tidy, Part, Clear;
    TidiesSelf(d, w);
    if n > 0 {
      TidyOutputsTidies(d, n - 1, w);
      var d1 := TidyOutputs(d, n - 1);
      var ws := Listed(d1.outputs[n - 1]);
      TidyTidies(d1, ws, w);
      var d2 := Tidy(d1, ws);
      TidiesTwice(d, d1, d2, w);
      if ListedOn(d.outputs, n - 1, w) && w !in d1.windows {
        NotThereClear(d1, w);
      }
      if Clear(d1, w) {
        ClearStays(d1, d2, w);
      }
    }
  }

  lemma NotThereClear(d: Desktop, w: nat)
    requires w !in d.windows
    ensures Clear(d, w)
  {
  }

  /** Windows without an output are only destroyed. */
  lemma {:induction false} DestroyClosedTidies(d: Desktop, ws: seq<nat>, w: nat)
    ensures var d' := DestroyClosed(d, ws);
            && |d'.outputs| == |d.outputs| && (w in d'.windows ==> w in d.windows && d'.windows[w] == d.windows[w])
            && (w in d.windows && w !in d'.windows ==> d.windows[w].closed)
            && (w in ws && w in d'.windows ==> !d'.windows[w].closed)
    decreases |ws|
  {
    hide EraseEverywhere, Erase, Forget;
    if ws != [] {
      assert ws == [ws[0]] + ws[1..];
      var d1 := if ws[0] in d.windows then MaybeDestroy(d, ws[0]) else d;
      DestroyClosedTidies(d1, ws[1..], w);
    }
  }

  /** What the clean-up makes of a window. */
  lemma CleanedUp(d: Desktop, w: nat)
    requires Part(d)
    ensures
      var c := Cleanup(d);
      && Part(c) && (w in c.windows <==> w in d.windows && !d.windows[w].closed)
      && (w in c.windows ==>
            FlagsOf(c.windows[w]) == if Housed(d) then Toggled(FlagsOf(d.windows[w])) else FlagsOf(d.windows[w]))
      && if Housed(d) then c.orphans == [] else c.outputs == []
  {
    hide Part, Housed, DestroyOutputs, AdoptOrphans, Refill, TidyOutputs, DestroyClosed, Ids, Stay,
      DeskRuns.NoneWaiting;
    DeskRuns.CleanupKeeps(d);
    HousekeptIs(d);
    var d3 := Housekept(d);
    QuietFlags(d, d3, w);
    hide Quiet, Cleanup, Housekept;
    if Housed(d) {
      CleanedHoused(d, d3, w);
    } else {
      CleanedAway(d, d3, w);
    }
  }

  lemma QuietFlags(d: Desktop, d': Desktop, w: nat)
    requires Quiet(d, d')
    ensures (w in d'.windows <==> w in d.windows)
            && (w in d.windows ==> FlagsOf(d'.windows[w]) == FlagsOf(d.windows[w]))
  {
    assert w in d'.windows.Keys <==> w in d.windows.Keys;
  }

  lemma CleanedHoused(d: Desktop, d3: Desktop, w: nat)
    requires d3 == Housekept(d) && Part(d3) && d3.orphans == []
    ensures var c := Cleanup(d);
            && c.orphans == [] && (w in c.windows <==> w in d3.windows && !d3.windows[w].closed)
            && (w in c.windows ==> FlagsOf(c.windows[w]) == Toggled(FlagsOf(d3.windows[w])))
  {
    hide Part, DestroyOutputs, AdoptOrphans, Refill, TidyOutputs, Ids, ListedOn;
    var d4 := TidyOutputs(d3, |d3.outputs|);
    TidyOutputsTidies(d3, |d3.outputs|, w);
    assert Cleanup(d) == DestroyClosed(d4, []) == d4;
    if w in d3.windows {
      DeskCleanup.OrphansApart(d3, w);
      OnSome(d3, w);
    }
  }

  lemma OnSome(d: Desktop, w: nat)
    requires !Orphaned(d, w)
    ensures ListedOn(d.outputs, OutputOf(d.outputs, w), w)
  {
  }

  lemma CleanedAway(d: Desktop, d3: Desktop, w: nat)
    requires d3 == Housekept(d) && Part(d3) && d3.outputs == []
    ensures var c := Cleanup(d);
            && c.outputs == [] && (w in c.windows <==> w in d3.windows && !d3.windows[w].closed)
            && (w in c.windows ==> FlagsOf(c.windows[w]) == FlagsOf(d3.windows[w]))
  {
    hide Part, DestroyOutputs, AdoptOrphans, Refill, DestroyClosed, Ids;
    assert TidyOutputs(d3, 0) == d3;
    assert Cleanup(d) == DestroyClosed(d3, d3.orphans);
    DestroyClosedTidies(d3, d3.orphans, w);
    if w in d3.windows {
      DeskCleanup.OrphansApart(d3, w);
    }
  }

  // ---------- window_manage ----------

  /** It may have arrived and been minimized meanwhile; whether it is to be minimized in the end is as before. */
  predicate Onward(f: Flags, f': Flags) {
    f'.closed == f.closed && (f.minimized ==> f'.minimized) && (f'.isNew ==> f.isNew) && (ToHide(f') <==> ToHide(f))
  }

  /** Managing a window settles whether it is minimized, if it has an output. */
  lemma OwnManaged(d: Desktop, w: nat)
    requires w in d.windows
    ensures var d' := Desk.Manage(d, w);
            && w in d'.windows
            && var f, f' := FlagsOf(d.windows[w]), FlagsOf(d'.windows[w]);
               && Onward(f, f') && (Orphaned(d, w) <==> Orphaned(d', w))
               && f'.minimized == if Orphaned(d, w) then f.minimized else ToHide(f)
  {
    hide Begun, DragOff, Resize, FollowWishes, Center, OutputOf;
    var d2 := Begun(d, w);
    BegunFlags(d, w);
    var d3 := DragOff(d2, w);
    DragOffFlags(d2, w);
    var d4 := Resize(d3, w);
    ResizeFlags(d3, w);
    var d5 := FollowWishes(d4, w);
    WishesFlags(d4, w);
    CenterFlags(d5, w);
  }

  lemma BegunFlags(d: Desktop, w: nat)
    requires w in d.windows
    ensures var d', f := Begun(d, w), FlagsOf(d.windows[w]);
            && d'.outputs == d.outputs && w in d'.windows
            && FlagsOf(d'.windows[w]) == f.(isNew := false, pendingNav := NoNav,
                                            wantMinimized := f.wantMinimized || f.pendingNav == NavMinimize)
  {
    hide Arrive, PressNav;
    ArriveFlags(d, w);
    PressedFlags((if d.windows[w].isNew then Arrive(d, w) else d).windows[w]);
  }

  lemma ArriveFlags(d: Desktop, w: nat)
    requires w in d.windows
    ensures var d' := Arrive(d, w);
            && d'.outputs == d.outputs && w in d'.windows
            && FlagsOf(d'.windows[w]) == FlagsOf(d.windows[w]).(isNew := false)
  {
    hide OutputOf, Interact;
  }

  lemma PressedFlags(win: Window)
    ensures var f := FlagsOf(win);
            FlagsOf(PressNav(win))
            == f.(pendingNav := NoNav, wantMinimized := f.wantMinimized || f.pendingNav == NavMinimize)
  {
    PressedFields(win);
    hide PressNav;
  }

  lemma PressedFields(win: Window)
    ensures var p := PressNav(win);
            && p.closed == win.closed && p.isNew == win.isNew && p.minimized == win.minimized
            && p.queueMinimize == win.queueMinimize && p.pendingNav == NoNav
            && (p.wantMinimized <==> win.wantMinimized || win.pendingNav == NavMinimize)
  {
    var a, b, c := win.(wantMaximized := !win.frame.maximized, pendingNav := NoNav),
        win.(wantMinimized := true, pendingNav := NoNav), win.(pendingNav := NoNav);
    assert PressNav(win) == if win.pendingNav == NavMaximize then a else if win.pendingNav == NavMinimize then b else c;
    hide PressNav;
  }

  lemma SetStateFlags(d: Desktop, w: nat, maximized: bool, fullscreen: bool, target: Option<nat>)
    requires w in d.windows && (target.Some? ==> target.value < |d.outputs|)
    ensures var d' := SetState(d, w, maximized, fullscreen, target);
            && w in d'.windows && d'.windows[w] == d.windows[w].(frame := d'.windows[w].frame)
            && (Orphaned(d', w) <==> Orphaned(d, w))
  {
    hide SetState, MoveToOutput, Quiet, OutputOf;
    SetStateQuiet(d, w, maximized, fullscreen, target);
    if SetStateDoes(d, w, maximized, fullscreen) {
      var goes, f := SetStateChanges(d, w, maximized, fullscreen, target);
      if goes {
        MoveLists(d, w, target.value);
        ListedHoused(MoveToOutput(d, w, target.value), w, target.value);
      }
    } else {
      SetStateStays(d, w, maximized, fullscreen, target);
    }
  }

  lemma ListedHoused(d: Desktop, w: nat, k: nat)
    requires ListedOn(d.outputs, k, w)
    ensures !Orphaned(d, w)
  {
  }

  lemma DragOffFlags(d: Desktop, w: nat)
    requires w in d.windows
    ensures var d' := DragOff(d, w);
            && w in d'.windows && FlagsOf(d'.windows[w]) == FlagsOf(d.windows[w])
              && (Orphaned(d', w) <==> Orphaned(d, w))
  {
    hide DragOff, SetState, StartOp, Orphaned;
    var win := d.windows[w];
    if win.moveRequested.None? || win.frame.fullscreen {
      NotDragged(d, w);
      OrphanedSame(d, DragOff(d, w), w);
    } else {
      var d1 := Put(d, w, win.(wantMaximized := false));
      OrphanedSame(d, d1, w);
      SetStateFlags(d1, w, false, false, None);
      var d2 := SetState(d1, w, false, false, None);
      StartedOp(d2, win.moveRequested, w);
      DeskRuns.DragOffIs(d, w, d1, StartOp(d2, win.moveRequested, Moving, w));
      OrphanedSame(d2, DragOff(d, w), w);
    }
  }

  lemma NotDragged(d: Desktop, w: nat)
    requires w in d.windows && (d.windows[w].moveRequested.None? || d.windows[w].frame.fullscreen)
    ensures var d' := DragOff(d, w);
            d'.outputs == d.outputs && w in d'.windows && FlagsOf(d'.windows[w]) == FlagsOf(d.windows[w])
  {
  }

  lemma ResizeFlags(d: Desktop, w: nat)
    requires w in d.windows
    ensures var d' := Resize(d, w);
            d'.outputs == d.outputs && w in d'.windows && FlagsOf(d'.windows[w]) == FlagsOf(d.windows[w])
  {
  }

  lemma WishesFlags(d: Desktop, w: nat)
    requires w in d.windows
    ensures var d', f := FollowWishes(d, w), FlagsOf(d.windows[w]);
            && w in d'.windows && (Orphaned(d', w) <==> Orphaned(d, w))
            && FlagsOf(d'.windows[w]) ==
               if f.wantMinimized && !f.minimized && !Orphaned(d, w) then f.(minimized := true, wantMinimized := false)
               else f
  {
    hide FollowState, Minimize, OutputOf;
    var d1 := FollowState(d, w);
    StateFlags(d, w);
    MinimizeFlags(d1, w, w);
    MinimizeListing(d1, w, w);
    ListingNearby(d1, Minimize(d1, w), w);
  }

  lemma StateFlags(d: Desktop, w: nat)
    requires w in d.windows
    ensures var d' := FollowState(d, w);
            && w in d'.windows && FlagsOf(d'.windows[w]) == FlagsOf(d.windows[w])
              && (Orphaned(d', w) <==> Orphaned(d, w))
  {
    hide FollowState, SetState, FullscreenOutput, Orphaned, Quiet, Put, FlagsOf;
    var win := d.windows[w];
    var target := FullscreenOutput(d.outputs, win.wantFullscreenOutput, |d.outputs|);
    FollowStateIs(d, w);
    SetStateFlags(d, w, win.wantMaximized, win.wantFullscreen, target);
    var d1 := SetState(d, w, win.wantMaximized, win.wantFullscreen, target);
    FrameFlags(d.windows[w], d1.windows[w]);
    AnsweredFlags(d, w);
    AnsweredFlags(d1, w);
  }

  lemma FrameFlags(win: Window, win': Window)
    requires win' == win.(frame := win'.frame)
    ensures FlagsOf(win') == FlagsOf(win)
  {
  }

  lemma AnsweredFlags(d: Desktop, w: nat)
    requires w in d.windows
    ensures var d' := Put(d, w, d.windows[w].(wantFullscreenOutput := None));
            w in d'.windows && FlagsOf(d'.windows[w]) == FlagsOf(d.windows[w]) && (Orphaned(d', w) <==> Orphaned(d, w))
  {
    hide OutputOf;
  }

  lemma CenterFlags(d: Desktop, w: nat)
    requires w in d.windows
    ensures var d' := Center(d, w);
            d'.outputs == d.outputs && w in d'.windows && FlagsOf(d'.windows[w]) == FlagsOf(d.windows[w])
  {
    hide OutputOf, Centered;
  }

  // ---------- all windows ----------

  /** Whether it is minimized is settled. */
  predicate Done(d: Desktop, w: nat) {
    w in d.windows ==> d.windows[w].minimized == ToHide(FlagsOf(d.windows[w]))
  }

  /** What managing some windows does to each window. */
  ghost predicate Moves(d: Desktop, d': Desktop) {
    && d'.windows.Keys == d.windows.Keys && |d'.outputs| == |d.outputs|
    && (forall w :: w in d.windows ==>
          Onward(FlagsOf(d.windows[w]), FlagsOf(d'.windows[w])) && (Orphaned(d, w) <==> Orphaned(d', w))
          && (Orphaned(d, w) ==> d'.windows[w].minimized == d.windows[w].minimized))
  }

  lemma MovesTwice(d: Desktop, d1: Desktop, d2: Desktop)
    requires Moves(d, d1) && Moves(d1, d2)
    ensures Moves(d, d2)
  {
    hide ToHide, Orphaned;
    assert forall w :: w in d.windows ==> w in d1.windows.Keys;
  }

  lemma MovesSelf(d: Desktop)
    ensures Moves(d, d)
  {
    hide Orphaned;
  }

  lemma DoneStays(d: Desktop, d': Desktop, w: nat)
    requires Done(d, w) && Moves(d, d')
    ensures Done(d', w)
  {
    hide Orphaned;
    assert w in d'.windows.Keys ==> w in d.windows;
  }

  lemma ManageMoves(d: Desktop, v: nat)
    ensures var d' := Desk.Manage(d, v); Moves(d, d') && (!Orphaned(d, v) ==> Done(d', v))
  {
    hide Orphaned, Desk.Manage, Aside;
    AsideManage(d, v);
    var d' := Desk.Manage(d, v);
    if v in d.windows {
      OwnManaged(d, v);
    }
    forall w | w in d.windows
      ensures w in d'.windows && Onward(FlagsOf(d.windows[w]), FlagsOf(d'.windows[w]))
              && (Orphaned(d, w) <==> Orphaned(d', w))
              && (Orphaned(d, w) ==> d'.windows[w].minimized == d.windows[w].minimized)
    {
      if w != v {
        AsideSame(d, d', v, w);
      }
    }
    AsideKeys(d, d', v);
  }

  lemma AsideKeys(d: Desktop, d': Desktop, v: nat)
    requires Aside(d, d', v)
    ensures d'.windows.Keys == d.windows.Keys && |d'.outputs| == |d.outputs|
  {
  }

  lemma AsideSame(d: Desktop, d': Desktop, v: nat, w: nat)
    requires Aside(d, d', v) && w != v && w in d.windows
    ensures w in d'.windows && d'.windows[w] == d.windows[w] && (Orphaned(d, w) <==> Orphaned(d', w))
    ensures forall k: nat :: ListedOn(d.outputs, k, w) <==> ListedOn(d'.outputs, k, w)
  {
    hide Alike, SameOrigin, OutputOf, ListedOn;
    AsideNear(d, d', v, w);
    assert w in d'.windows.Keys;
  }

  // ---------- what seats make of it ----------

  /**
   What a seat is about stays, but that it may have turned to a window that is new; a minimized one
   has no stack to be on.
   */
  predicate Turned(housed: bool, d: Desktop, seat: Seat, seat': Seat) {
    && seat'.hovered == seat.hovered && seat'.action == seat.action && seat'.opRelease == seat.opRelease
    && (seat'.interacted == seat.interacted
        || (seat.interacted.None? && seat'.interacted.Some?
            && var v := seat'.interacted.value;
               v in d.windows && d.windows[v].isNew && (housed ==> !d.windows[v].minimized)))
  }

  predicate AllTurned(housed: bool, d: Desktop, d': Desktop) {
    |d'.seats| == |d.seats| && forall s :: 0 <= s < |d.seats| ==> Turned(housed, d, d.seats[s], d'.seats[s])
  }

  lemma TurnedSelf(housed: bool, d: Desktop)
    ensures AllTurned(housed, d, d)
  {
  }

  /** Seats differ in what they focus and drag at most. */
  predicate SameCores(d: Desktop, d': Desktop) {
    && |d'.seats| == |d.seats|
    && forall s :: 0 <= s < |d.seats| ==>
         d'.seats[s] == d.seats[s].(focused := d'.seats[s].focused, op := d'.seats[s].op,
                                    opWindow := d'.seats[s].opWindow)
  }

  lemma CoresTwice(d: Desktop, d1: Desktop, d2: Desktop)
    requires SameCores(d, d1) && SameCores(d1, d2)
    ensures SameCores(d, d2)
  {
  }

  lemma SameSeats(d: Desktop, d': Desktop)
    requires d'.seats == d.seats
    ensures SameCores(d, d')
  {
  }

  lemma BegunTurns(d: Desktop, v: nat)
    requires v in d.windows
    ensures var d' := Begun(d, v);
            && |d'.seats| == |d.seats|
            && forall s :: 0 <= s < |d.seats| ==>
                 d'.seats[s] == if d.windows[v].isNew && d.seats[s].interacted.None?
                                then d.seats[s].(interacted := Some(v)) else d.seats[s]
  {
    hide OutputOf, PressNav;
  }

  lemma RestSeats(d: Desktop, v: nat)
    requires v in d.windows
    ensures v in DragOff(d, v).windows && v in Resize(DragOff(d, v), v).windows
            && v in FollowWishes(Resize(DragOff(d, v), v), v).windows
    ensures SameCores(d, Center(FollowWishes(Resize(DragOff(d, v), v), v), v))
  {
    hide DragOff, Resize, FollowWishes, Center, SameCores;
    var d3 := DragOff(d, v);
    DragOffSeats(d, v);
    var d4 := Resize(d3, v);
    ResizeSeats(d3, v);
    CoresTwice(d, d3, d4);
    var d5 := FollowWishes(d4, v);
    WishesSeats(d4, v);
    CoresTwice(d, d4, d5);
    CenterSeats(d5, v);
    CoresTwice(d, d5, Center(d5, v));
  }

  lemma StartOpSeats(d: Desktop, s: Option<nat>, op: SeatOp, v: nat)
    ensures SameCores(d, StartOp(d, s, op, v)) && StartOp(d, s, op, v).windows == d.windows
  {
  }

  lemma DragOffSeats(d: Desktop, v: nat)
    requires v in d.windows
    ensures SameCores(d, DragOff(d, v)) && v in DragOff(d, v).windows
  {
    hide SetState, StartOp, SameCores, OnlyFrames;
    SameSeats(d, d);
    var win := d.windows[v];
    SameSeats(d, Put(d, v, win.(moveRequested := None)));
    if win.moveRequested.Some? && !win.frame.fullscreen {
      var d1 := Put(d, v, win.(wantMaximized := false));
      SetStateQuiet(d1, v, false, false, None);
      var d2 := SetState(d1, v, false, false, None);
      SameSeats(d, d2);
      StartOpSeats(d2, win.moveRequested, Moving, v);
      var d3 := StartOp(d2, win.moveRequested, Moving, v);
      CoresTwice(d, d2, d3);
      SameSeats(d3, DragOff(d, v));
      CoresTwice(d, d3, DragOff(d, v));
    }
  }

  lemma ResizeSeats(d: Desktop, v: nat)
    requires v in d.windows
    ensures SameCores(d, Resize(d, v)) && v in Resize(d, v).windows
  {
  }

  lemma WishesSeats(d: Desktop, v: nat)
    requires v in d.windows
    ensures SameCores(d, FollowWishes(d, v)) && v in FollowWishes(d, v).windows
  {
    hide FollowState, Minimize, SameCores, OnlyFrames;
    var d1 := FollowState(d, v);
    FollowStateSeats(d, v);
    MinimizeSeats(d1, v);
    CoresTwice(d, d1, Minimize(d1, v));
  }

  lemma FollowStateSeats(d: Desktop, v: nat)
    requires v in d.windows
    ensures SameCores(d, FollowState(d, v)) && v in FollowState(d, v).windows
  {
    hide FollowState, SetState, FullscreenOutput, OnlyFrames, SameCores;
    FollowStateIs(d, v);
    SameSeats(d, FollowState(d, v));
  }

  lemma MinimizeSeats(d: Desktop, v: nat)
    requires v in d.windows
    ensures SameCores(d, Minimize(d, v)) && v in Minimize(d, v).windows
  {
    hide OutputOf, Erase;
  }

  lemma CenterSeats(d: Desktop, v: nat)
    requires v in d.windows
    ensures SameCores(d, Center(d, v))
  {
    hide OutputOf, Centered;
  }

  // ---------- all windows of an output, and all outputs ----------

  ghost predicate Managed(housed: bool, d: Desktop, d': Desktop) {
    Part(d') && Moves(d, d') && AllTurned(housed, d, d')
  }

  lemma ManagedSelf(housed: bool, d: Desktop)
    requires Part(d)
    ensures Managed(housed, d, d)
  {
    hide Part, Moves, AllTurned;
    MovesSelf(d);
    TurnedSelf(housed, d);
  }

  predicate Shown(d: Desktop, ws: seq<nat>) {
    forall v :: v in ws && v in d.windows ==> !d.windows[v].minimized
  }

  /** The windows of a list are managed one by one; what was not on it is listed as before. */
  lemma {:induction false} ManageAllManaged(housed: bool, d0: Desktop, d: Desktop, ws: seq<nat>, w: nat)
    requires Part(d) && Managed(housed, d0, d) && (housed ==> Shown(d0, ws))
    ensures var d' := ManageAll(d, ws);
            && Managed(housed, d0, d') && Moves(d, d')
            && (w in ws && !Orphaned(d, w) ==> Done(d', w))
            && (w !in ws && w in d.windows ==>
                  forall k: nat :: ListedOn(d.outputs, k, w) <==> ListedOn(d'.outputs, k, w))
    decreases |ws|
  {
    hide Desk.Manage, Part, Moves, AllTurned, Done, Orphaned, Shown, ListedOn;
    MovesSelf(d);
    if ws != [] {
      var v, d1 := ws[0], Desk.Manage(d, ws[0]);
      assert ws == [v] + ws[1..];
      ShownRest(d0, ws);
      OneMoreManaged(housed, d0, d, ws);
      ManageMoves(d, v);
      ManageAllManaged(housed, d0, d1, ws[1..], w);
      MovesTwice(d, d1, ManageAll(d1, ws[1..]));
      if w == v {
        if !Orphaned(d, w) {
          DoneStays(d1, ManageAll(d1, ws[1..]), w);
        }
      } else {
        if w in d.windows {
          AsideManage(d, v);
          AsideSame(d, d1, v, w);
        } else {
          NoneDone(d, w);
          DoneStays(d, ManageAll(d1, ws[1..]), w);
        }
      }
    }
  }

  lemma NoneDone(d: Desktop, w: nat)
    requires w !in d.windows
    ensures Done(d, w)
  {
  }

  lemma ShownRest(d: Desktop, ws: seq<nat>)
    requires ws != []
    ensures Shown(d, ws) ==> Shown(d, ws[1..]) && (ws[0] in d.windows ==> !d.windows[ws[0]].minimized)
  {
  }

  /** A window that is new was so in the beginning, and shown there. */
  lemma OneMoreManaged(housed: bool, d0: Desktop, d: Desktop, ws: seq<nat>)
    requires Part(d) && Managed(housed, d0, d) && ws != [] && (housed ==> Shown(d0, ws))
    ensures Managed(housed, d0, Desk.Manage(d, ws[0]))
  {
    hide Desk.Manage, Part, Moves, Turned, DeskRuns.SameOutputs, SameOpen;
    var v := ws[0];
    ShownRest(d0, ws);
    DeskRuns.ManageKeeps(d, v);
    ManageMoves(d, v);
    MovesTwice(d0, d, Desk.Manage(d, v));
    TurnsSince(housed, d0, d, v);
  }

  lemma TurnsSince(housed: bool, d0: Desktop, d: Desktop, v: nat)
    requires AllTurned(housed, d0, d) && Moves(d0, d) && (housed ==> v in d0.windows ==> !d0.windows[v].minimized)
    ensures AllTurned(housed, d0, Desk.Manage(d, v))
  {
    hide Desk.Manage, Orphaned, ToHide;
    ManageTurnsTo(d, v);
    forall s | 0 <= s < |d.seats|
      ensures Turned(housed, d0, d0.seats[s], Desk.Manage(d, v).seats[s])
    {
      assert Turned(housed, d0, d0.seats[s], d.seats[s]);
      assert v in d.windows ==> v in d0.windows.Keys;
    }
  }

  /** A seat that turns when a window is managed turns to that. */
  lemma ManageTurnsTo(d: Desktop, v: nat)
    ensures var d' := Desk.Manage(d, v);
            && |d'.seats| == |d.seats|
            && forall s :: 0 <= s < |d.seats| ==>
                 var seat, seat' := d.seats[s], d'.seats[s];
                 && seat'.hovered == seat.hovered && seat'.action == seat.action && seat'.opRelease == seat.opRelease
                 && (seat'.interacted == seat.interacted
                     || (seat.interacted.None? && seat'.interacted == Some(v) && v in d.windows && d.windows[v].isNew))
  {
    hide Begun, DragOff, Resize, FollowWishes, Center;
    if v in d.windows {
      BegunTurns(d, v);
      BegunFlags(d, v);
      RestSeats(Begun(d, v), v);
    }
  }

  /** It is settled, or its output is still to come. */
  predicate Comes(d: Desktop, n: nat, w: nat) {
    Done(d, w) || exists k :: n <= k < |d.outputs| && ListedOn(d.outputs, k, w)
  }

  lemma {:induction false} ManageOutputsManaged(d: Desktop, n: nat, w: nat)
    requires Part(d) && n <= |d.outputs|
    ensures var d' := ManageOutputs(d, n); Managed(true, d, d') && (!Orphaned(d, w) ==> Comes(d', n, w))
    decreases n
  {
    hide ManageAll, Part, Moves, AllTurned, Comes, Orphaned, Shown;
    if n == 0 {
      ManagedSelf(true, d);
      if !Orphaned(d, w) {
        FirstComes(d, w);
      }
    } else {
      ManageOutputsManaged(d, n - 1, w);
      var d1 := ManageOutputs(d, n - 1);
      MovedOutputs(d, d1);
      OutputShown(d, d1, n - 1);
      ManageAllManaged(true, d, d1, d1.outputs[n - 1].windows, w);
      if !Orphaned(d, w) {
        OneOutputDone(d, d1, ManageAll(d1, d1.outputs[n - 1].windows), n, w);
      }
    }
  }

  lemma MovedOutputs(d: Desktop, d': Desktop)
    requires Moves(d, d')
    ensures |d'.outputs| == |d.outputs|
  {
  }

  lemma FirstComes(d: Desktop, w: nat)
    requires !Orphaned(d, w)
    ensures Comes(d, 0, w)
  {
    hide Done;
    OnSome(d, w);
  }

  lemma OutputShown(d: Desktop, d': Desktop, k: nat)
    requires Part(d') && Moves(d, d') && k < |d'.outputs|
    ensures Shown(d, d'.outputs[k].windows)
  {
    hide Places, Orphaned, ToHide;
    assert Filed(d'.outputs[k], d'.windows);
    assert forall v :: v in d.windows ==> v in d'.windows.Keys;
  }

  lemma OneOutputDone(d: Desktop, d1: Desktop, d2: Desktop, n: nat, w: nat)
    requires 0 < n <= |d1.outputs| && Part(d1) && Moves(d, d1) && Moves(d1, d2) && !Orphaned(d, w)
             && Comes(d1, n - 1, w)
    requires var ws := d1.outputs[n - 1].windows;
             && (w in ws && !Orphaned(d1, w) ==> Done(d2, w))
             && (w !in ws && w in d1.windows ==>
                   forall k: nat :: ListedOn(d1.outputs, k, w) <==> ListedOn(d2.outputs, k, w))
    ensures Comes(d2, n, w)
  {
    hide Part, Moves, Done, Orphaned;
    MovedOutputs(d1, d2);
    if Done(d1, w) {
      DoneStays(d1, d2, w);
    } else {
      StillHoused(d, d1, w);
      var k :| n - 1 <= k < |d1.outputs| && ListedOn(d1.outputs, k, w);
      if w !in d1.outputs[n - 1].windows {
        if k == n - 1 {
          IconDone(d1, k, w);
        }
        assert ListedOn(d2.outputs, k, w);
      }
    }
  }

  lemma StillHoused(d: Desktop, d': Desktop, w: nat)
    requires Moves(d, d') && !Done(d', w) && !Orphaned(d, w)
    ensures w in d'.windows && !Orphaned(d', w)
  {
    hide Orphaned, ToHide;
    assert w in d'.windows.Keys ==> w in d.windows;
  }

  lemma IconDone(d: Desktop, k: nat, w: nat)
    requires Part(d) && ListedOn(d.outputs, k, w) && w !in d.outputs[k].windows
    ensures Done(d, w)
  {
    hide Places;
    assert Filed(d.outputs[k], d.windows);
  }

  // ---------- the whole sequence up to the seats ----------

  /** What is there when the seats are managed, what is minimized then, and what seats will look at. */
  lemma Before(d: Desktop, w: nat)
    requires Part(d)
    ensures var c, b := Cleanup(d), BeforeSeats(d);
            && (w in b.windows <==> w in d.windows && !d.windows[w].closed)
            && (w in b.windows ==> b.windows[w].minimized == Hides(d, w))
            && AllTurned(Housed(d), c, b)
  {
    hide Part, Cleanup, ManageOutputs, ManageAll, Housed, Moves, AllTurned, Comes, Orphaned, Toggled, ToHide;
    CleanedUp(d, w);
    var c := Cleanup(d);
    ManagedSelf(Housed(d), c);
    var d2 := ManageOutputs(c, |c.outputs|);
    if Housed(d) {
      ManageOutputsManaged(c, |c.outputs|, w);
      if w in c.windows {
        NoOrphans(c, w);
        LastDone(c, d2, w);
      }
      DeskRuns.ManageOutputsKeeps(c, |c.outputs|);
      StillNone(c, d2);
      MovedWindow(c, d2, w);
    } else {
      NothingManaged(c);
      ManageAllManaged(false, c, c, c.orphans, w);
      MovedWindow(c, ManageAll(c, c.orphans), w);
      NoOutputs(c, w);
    }
  }

  lemma NoOrphans(c: Desktop, w: nat)
    requires Part(c) && c.orphans == [] && w in c.windows
    ensures !Orphaned(c, w)
  {
    DeskCleanup.OrphansApart(c, w);
  }

  lemma LastDone(c: Desktop, d: Desktop, w: nat)
    requires Moves(c, d) && Comes(d, |c.outputs|, w)
    ensures Done(d, w)
  {
    hide Done, Orphaned;
  }

  lemma StillNone(c: Desktop, d: Desktop)
    requires DeskRuns.Keeps(c, d) && c.orphans == []
    ensures d.orphans == [] && ManageAll(d, d.orphans) == d
  {
    hide Part;
  }

  lemma MovedWindow(c: Desktop, d: Desktop, w: nat)
    requires Moves(c, d)
    ensures w in d.windows <==> w in c.windows
    ensures w in c.windows ==>
              && (ToHide(FlagsOf(d.windows[w])) <==> ToHide(FlagsOf(c.windows[w])))
              && (Orphaned(c, w) ==> d.windows[w].minimized == c.windows[w].minimized)
  {
    hide Orphaned, ToHide;
    assert w in d.windows.Keys <==> w in c.windows;
  }

  lemma NothingManaged(c: Desktop)
    requires c.outputs == []
    ensures ManageOutputs(c, 0) == c
  {
  }

  lemma NoOutputs(c: Desktop, w: nat)
    requires c.outputs == []
    ensures Orphaned(c, w)
  {
  }

  // ---------- the seats before the clean-up ----------

  lemma QueuedCores(d: Desktop, v: nat)
    requires v in d.windows
    ensures SameCores(d, Queued(d, v))
  {
    hide Minimize, ToTop;
    if d.windows[v].queueMinimize {
      MinimizeSeats(d, v);
    }
  }

  lemma DestroyedCores(d: Desktop, v: nat)
    requires v in d.windows
    ensures SameCores(d, MaybeDestroy(d, v))
  {
    hide EraseEverywhere, Erase;
  }

  lemma {:induction false} TidyCores(d: Desktop, ws: seq<nat>)
    ensures SameCores(d, Tidy(d, ws))
    decreases |ws|
  {
    hide Queued, MaybeDestroy, SameCores;
    SameSeats(d, d);
    if ws != [] {
      var d1 := if ws[0] in d.windows then Queued(d, ws[0]) else d;
      if ws[0] in d.windows {
        QueuedCores(d, ws[0]);
      }
      var d2 := if ws[0] in d.windows && ws[0] in d1.windows then MaybeDestroy(d1, ws[0]) else d1;
      if ws[0] in d1.windows {
        DestroyedCores(d1, ws[0]);
      }
      SameSeats(d1, d1);
      CoresTwice(d, d1, d2);
      TidyCores(d2, ws[1..]);
      CoresTwice(d, d2, Tidy(d2, ws[1..]));
    }
  }

  lemma {:induction false} TidyOutputsCores(d: Desktop, n: nat)
    ensures SameCores(d, TidyOutputs(d, n))
    decreases n
  {
    hide Tidy, SameCores;
    SameSeats(d, d);
    if n > 0 {
      TidyOutputsCores(d, n - 1);
      var d1 := TidyOutputs(d, n - 1);
      if n <= |d1.outputs| {
        TidyCores(d1, Listed(d1.outputs[n - 1]));
        CoresTwice(d, d1, Tidy(d1, Listed(d1.outputs[n - 1])));
      }
    }
  }

  lemma {:induction false} DestroyClosedCores(d: Desktop, ws: seq<nat>)
    ensures SameCores(d, DestroyClosed(d, ws))
    decreases |ws|
  {
    hide MaybeDestroy, SameCores;
    SameSeats(d, d);
    if ws != [] {
      var d1 := if ws[0] in d.windows then MaybeDestroy(d, ws[0]) else d;
      if ws[0] in d.windows {
        DestroyedCores(d, ws[0]);
      }
      DestroyClosedCores(d1, ws[1..]);
      CoresTwice(d, d1, DestroyClosed(d1, ws[1..]));
    }
  }

  lemma CleanupCores(d: Desktop)
    requires Part(d)
    ensures SameCores(d, Cleanup(d))
  {
    hide Part, Housed, OnlyFrames, SameCores, DestroyOutputs, AdoptOrphans, Refill, TidyOutputs, DestroyClosed, Ids;
    HousekeptIs(d);
    var d3 := Housekept(d);
    SameSeats(d, d3);
    var d4 := TidyOutputs(d3, |d3.outputs|);
    TidyOutputsCores(d3, |d3.outputs|);
    DestroyClosedCores(d4, d4.orphans);
    CoresTwice(d, d3, d4);
    CoresTwice(d, d4, DestroyClosed(d4, d4.orphans));
  }

  // ---------- exactly when ----------

  /** What the seat has to do with is there, and what it is to focus is not minimized. */
  predicate SoundSeat(windows: map<nat, Window>, seat: Seat) {
    && (seat.interacted.Some? ==> Live(windows, seat.interacted.value))
    && ((seat.action == MoveAction || seat.action == ResizeAction) && seat.hovered.Some? && !seat.opRelease ==>
          seat.hovered.value in windows)
  }

  lemma SoundFine(d: Desktop, s: nat)
    requires s < |d.seats|
    ensures SoundSeat(d.windows, d.seats[s]) ==> Fine(d, s)
    ensures d.seats[s].action == NoAction && Fine(d, s) ==> SoundSeat(d.windows, d.seats[s])
  {
    hide HasNext, Live;
  }

  lemma {:induction false} AllSoundFine(d: Desktop, n: nat)
    requires Part(d) && SeatsOk(d) && n <= |d.seats|
    ensures (forall s :: 0 <= s < n ==> SoundSeat(d.windows, d.seats[s])) ==> AllFine(d, n)
    ensures (forall s :: 0 <= s < n ==> d.seats[s].action == NoAction) && AllFine(d, n) ==>
              forall s :: 0 <= s < n ==> SoundSeat(d.windows, d.seats[s])
    decreases n
  {
    hide Part, SeatsManage, SoundSeat, Fine, SeatOk;
    if n > 0 {
      AllSoundFine(d, n - 1);
      SeatsManageSeats(d, n - 1);
      SoundFine(SeatsManage(d, n - 1), n - 1);
    }
  }

  /** The seat when it is managed, and what it was before. */
  lemma SeatBefore(d: Desktop, s: nat)
    requires Part(d) && s < |d.seats|
    ensures var b := BeforeSeats(d);
            && |b.seats| == |d.seats|
            && var seat, seat' := d.seats[s], b.seats[s];
               && seat'.hovered == seat.hovered && seat'.action == seat.action && seat'.opRelease == seat.opRelease
               && (seat'.interacted == seat.interacted
                   || (seat.interacted.None? && seat'.interacted.Some? && Appears(d, seat'.interacted.value)))
  {
    hide Part, Cleanup, BeforeSeats, Housed, Appears;
    CleanupCores(d);
    Before(d, 0);
    var c, b := Cleanup(d), BeforeSeats(d);
    assert Turned(Housed(d), c, c.seats[s], b.seats[s]);
    if b.seats[s].interacted != d.seats[s].interacted {
      NewAppears(d, b.seats[s].interacted.value);
    }
  }

  /** The window is new, and its arrival will be seen to. */
  predicate Appears(d: Desktop, w: nat) {
    && w in d.windows && d.windows[w].isNew && !d.windows[w].closed
    && (Housed(d) ==> !Toggled(FlagsOf(d.windows[w])).minimized)
  }

  lemma NewAppears(d: Desktop, w: nat)
    requires Part(d)
    requires var c := Cleanup(d); w in c.windows && c.windows[w].isNew && (Housed(d) ==> !c.windows[w].minimized)
    ensures Appears(d, w)
  {
    hide Part, Cleanup, Housed;
    CleanedUp(d, w);
  }

  lemma SteadySound(d: Desktop, s: nat)
    requires Part(d) && s < |d.seats| && |BeforeSeats(d).seats| == |d.seats|
    requires forall w :: !Fleeting(d, w)
    ensures SteadySeat(d, d.seats[s]) ==> SoundSeat(BeforeSeats(d).windows, BeforeSeats(d).seats[s])
    ensures d.seats[s].action == NoAction && SoundSeat(BeforeSeats(d).windows, BeforeSeats(d).seats[s]) ==>
              SteadySeat(d, d.seats[s])
  {
    hide Part, Cleanup, BeforeSeats, Housed, Hides, AllTurned, Toggled;
    SeatBefore(d, s);
    var seat, seat' := d.seats[s], BeforeSeats(d).seats[s];
    if seat'.interacted.Some? {
      Before(d, seat'.interacted.value);
      assert !Fleeting(d, seat'.interacted.value);
    }
    if seat.hovered.Some? {
      Before(d, seat.hovered.value);
    }
  }

  /**
   With no window new only to be minimized, the seats are in order after a manage
   sequence if what they have to do with stays; and where no key or button has
   been pressed, only then.
   */
  lemma SteadyExactly(d: Desktop)
    requires Part(d) && SeatsOk(d) && forall w :: !Fleeting(d, w)
    ensures Steady(d) ==> SeatsOk(ManageStart(d))
    ensures (forall s :: 0 <= s < |d.seats| ==> d.seats[s].action == NoAction) ==>
              (SeatsOk(ManageStart(d)) <==> Steady(d))
  {
    hide Part, BeforeSeats, ManageStart, SeatOk, AllFine, SteadySeat, SoundSeat, Appears, Fleeting;
    var b := BeforeSeats(d);
    ManagingOk(d);
    BeforeSeatsOk(d);
    BeforeSeatsPart(d);
    forall s | 0 <= s < |d.seats| {
      SeatBefore(d, s);
    }
    SeatsThere(d);
    forall s | 0 <= s < |d.seats|
      ensures SteadySeat(d, d.seats[s]) ==> SoundSeat(b.windows, b.seats[s])
      ensures b.seats[s].action == d.seats[s].action
      ensures d.seats[s].action == NoAction && SoundSeat(b.windows, b.seats[s]) ==> SteadySeat(d, d.seats[s])
    {
      SeatBefore(d, s);
      SteadySound(d, s);
    }
    AllSoundFine(b, |b.seats|);
  }

  lemma SeatsThere(d: Desktop)
    requires Part(d)
    ensures |BeforeSeats(d).seats| == |d.seats|
  {
    hide Part, Cleanup, BeforeSeats, Turned, Housed;
    CleanupCores(d);
    Before(d, 0);
  }

  /** Each manage sequence begins with what seats have to do with being such as stays. */
  ghost predicate SteadyRun(events: seq<Event>) {
    forall n :: 0 <= n < |events| && events[n].Managing? ==> SteadyNow(Run(events[..n]))
  }

  ghost predicate SteadyNow(d: Desktop) {
    Steady(d) && forall w :: !Fleeting(d, w)
  }

  /** Over such runs the seats are in order throughout. */
  lemma {:induction false} SteadyRunsOk(events: seq<Event>)
    requires DeskRuns.SaneRun(events) && SteadyRun(events)
    ensures SeatsOk(Run(events))
  {
    hide *;
    if events == [] {
      NoneOk();
    } else {
      var before, last := events[..|events| - 1], events[|events| - 1];
      DeskRuns.SaneShorter(events);
      SteadyShorter(events);
      SteadyRunsOk(before);
      DeskRuns.RunPart(before);
      DeskRuns.RunMore(before, last);
      assert events == before + [last];
      SteadyStep(Run(before), last);
    }
  }

  lemma SteadyStep(d: Desktop, e: Event)
    requires Part(d) && SeatsOk(d) && DeskRuns.Sane(d, e) && (e.Managing? ==> SteadyNow(d))
    ensures SeatsOk(Step(d, e))
  {
    hide Part, SeatsOk, ManageStart, Steady, Fleeting, DeskRuns.Sane;
    if e.Managing? {
      SteadyExactly(d);
    } else {
      OtherEventsOk(d, e);
    }
  }

  lemma SteadyShorter(events: seq<Event>)
    requires SteadyRun(events) && events != []
    ensures var before, last := events[..|events| - 1], events[|events| - 1];
            SteadyRun(before) && (last.Managing? ==> SteadyNow(Run(before)))
  {
    hide SteadyNow, Run;
    var before := events[..|events| - 1];
    assert forall n :: 0 <= n < |before| ==> before[..n] == events[..n];
  }
}
