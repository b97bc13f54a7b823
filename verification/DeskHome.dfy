/**
 Where a maximized or fullscreen window goes back to, and that managing it or
 another window keeps that.
 */
module DeskHome {
  import opened Bytes
  import opened Desk
  import opened DeskPartition
  import opened DeskGeometry
  import DeskRuns
  import DeskSeats

  // ---------- where a window is ----------

  predicate Orphaned(d: Desktop, w: nat) {
    OutputOf(d.outputs, w) == |d.outputs|
  }

  function Own(d: Desktop, w: nat): Rect
    requires !Orphaned(d, w)
  {
    d.outputs[OutputOf(d.outputs, w)].rect
  }

  /** On outputs with the same corner, or on none. */
  predicate Nearby(d: Desktop, d': Desktop, w: nat) {
    if Orphaned(d, w) then Orphaned(d', w) else !Orphaned(d', w) && SameOrigin(Own(d, w), Own(d', w))
  }

  /** All that bears on where it goes. */
  predicate Alike(win: Window, win': Window) {
    && win'.frame == win.frame && win'.isNew == win.isNew && win'.closed == win.closed
    && win'.wantMaximized == win.wantMaximized && win'.wantFullscreen == win.wantFullscreen
    && win'.moveRequested == win.moveRequested && win'.pendingNav == win.pendingNav
  }

  predicate Near(d: Desktop, d': Desktop, w: nat) {
    w in d.windows && w in d'.windows && Alike(d.windows[w], d'.windows[w]) && Nearby(d, d', w)
  }

  lemma NearTwice(d: Desktop, d1: Desktop, d2: Desktop, w: nat)
    requires Near(d, d1, w) && Near(d1, d2, w)
    ensures Near(d, d2, w)
  {
    hide OutputOf;
  }

  /** The outputs list the window as before, and have their corners where they were. */
  predicate Listing(d: Desktop, d': Desktop, w: nat) {
    && |d'.outputs| == |d.outputs|
    && forall k :: 0 <= k < |d.outputs| ==>
         SameOrigin(d.outputs[k].rect, d'.outputs[k].rect)
           && (ListedOn(d.outputs, k, w) <==> ListedOn(d'.outputs, k, w))
  }

  lemma ListingNearby(d: Desktop, d': Desktop, w: nat)
    requires Listing(d, d', w)
    ensures Nearby(d, d', w) && OutputOf(d'.outputs, w) == OutputOf(d.outputs, w)
  {
    var k, k' := OutputOf(d.outputs, w), OutputOf(d'.outputs, w);
    assert k' < k ==> ListedOn(d.outputs, k', w);
    assert k < k' ==> ListedOn(d'.outputs, k, w);
  }

  lemma ListingNear(d: Desktop, d': Desktop, w: nat)
    requires Listing(d, d', w) && w in d.windows && w in d'.windows && Alike(d.windows[w], d'.windows[w])
    ensures Near(d, d', w)
  {
    ListingNearby(d, d', w);
    hide Listing, Alike, Nearby;
  }

  lemma NearSelf(d: Desktop, w: nat)
    requires w in d.windows
    ensures Near(d, d, w)
  {
    hide OutputOf;
  }

  // ---------- its home ----------

  /** Nothing more is asked of it. */
  predicate Settled(win: Window) {
    !win.wantMaximized && !win.wantFullscreen && win.moveRequested.None? && win.pendingNav == NoNav
  }

  predicate Here(f: Frame, r: Rect, home: Home) {
    f.x - r.x == home.dx && f.y - r.y == home.dy
  }

  /** Floating at home: come back there, or (`still`) not left yet. */
  predicate AtHome(still: bool, win: Window, r: Rect, home: Home) {
    && Here(win.frame, r, home)
    && ((still && win.frame.width == home.width && win.frame.height == home.height)
        || (Settled(win) && win.frame.proposed == Some((home.width, home.height))))
  }

  /** The window's home is known: on the way, or at home. An orphan's is lost but for its size. */
  predicate Spot(still: bool, d: Desktop, w: nat, home: Home) {
    && w in d.windows && home.width > 0
    && var win := d.windows[w];
       && !win.isNew && !win.frame.centerRequested
       && if Orphaned(d, w) then
            !Floating(win.frame) && win.frame.savedWidth == home.width && win.frame.savedHeight == home.height
          else if Floating(win.frame) then AtHome(still, win, Own(d, w), home)
          else SavedHome(win.frame, Own(d, w)) == home
  }

  lemma SpotNear(still: bool, d: Desktop, d': Desktop, w: nat, home: Home)
    requires Spot(still, d, w, home) && Near(d, d', w)
    ensures Spot(still, d', w, home)
  {
    hide OutputOf;
  }

  /**
   Dragged off while maximized and to be fullscreen at once, a window takes the
   size it has then for the one to go back to.
   */
  predicate Robbed(win: Window) {
    && win.moveRequested.Some? && win.frame.maximized && !win.frame.fullscreen && win.wantFullscreen
    && !(win.frame.width == win.frame.savedWidth && win.frame.height == win.frame.savedHeight)
  }

  // ---------- other windows ----------

  lemma MoveListing(d: Desktop, v: nat, k: nat, w: nat)
    requires v in d.windows && k < |d.outputs| && v != w
    ensures Listing(d, MoveToOutput(d, v, k), w) && MoveToOutput(d, v, k).windows == d.windows
  {
    forall s, x {
      EraseIn(s, v, x);
    }
    hide Erase, OutputOf;
  }

  lemma OtherPut(d: Desktop, v: nat, win: Window, w: nat)
    requires v in d.windows && v != w && w in d.windows
    ensures Near(d, Put(d, v, win), w)
  {
    NearSelf(d, w);
    ListingNear(d, Put(d, v, win), w);
    hide OutputOf;
  }

  lemma OtherSeats(d: Desktop, seats: seq<Seat>, w: nat)
    requires w in d.windows
    ensures Near(d, d.(seats := seats), w)
  {
    hide OutputOf;
  }

  lemma OtherMove(d: Desktop, v: nat, k: nat, w: nat)
    requires v in d.windows && k < |d.outputs| && v != w && w in d.windows
    ensures Near(d, MoveToOutput(d, v, k), w)
  {
    MoveListing(d, v, k, w);
    hide MoveToOutput, Listing;
    ListingNear(d, MoveToOutput(d, v, k), w);
  }

  lemma MinimizeListing(d: Desktop, v: nat, w: nat)
    requires v in d.windows
    ensures Listing(d, Minimize(d, v), w)
  {
    forall s, x {
      EraseIn(s, v, x);
    }
    hide Erase, Unfocus;
  }

  /** Minimizing and restoring, of this window or of another, is no matter. */
  lemma MinimizeNear(d: Desktop, v: nat, w: nat)
    requires v in d.windows && w in d.windows
    ensures Near(d, Minimize(d, v), w)
  {
    MinimizeListing(d, v, w);
    assert w in Minimize(d, v).windows && Alike(d.windows[w], Minimize(d, v).windows[w]) by {
      hide OutputOf, Erase, Unfocus;
    }
    hide Minimize, Listing, Alike;
    ListingNear(d, Minimize(d, v), w);
  }

  lemma {:induction false} ToTopLists(outputs: seq<Output>, v: nat, w: nat)
    ensures |ToTop(outputs, v)| == |outputs|
    ensures forall k :: 0 <= k < |outputs| ==>
              ToTop(outputs, v)[k].rect == outputs[k].rect
                && (ListedOn(outputs, k, w) <==> ListedOn(ToTop(outputs, v), k, w))
  {
    if outputs != [] {
      ToTopLists(outputs[1..], v, w);
      EraseIn(outputs[0].windows, v, w);
      hide Erase;
      forall k | 0 <= k < |outputs|
        ensures ToTop(outputs, v)[k].rect == outputs[k].rect
                && (ListedOn(outputs, k, w) <==> ListedOn(ToTop(outputs, v), k, w))
      {
        if k > 0 {
          assert ListedOn(outputs, k, w) <==> ListedOn(outputs[1..], k - 1, w);
          assert ToTop(outputs, v)[k] == ToTop(outputs[1..], v)[k - 1];
        }
      }
    }
  }

  lemma FocusNear(d: Desktop, s: nat, v: Option<nat>, w: nat)
    requires s < |d.seats| && w in d.windows
    ensures Near(d, Focus(d, s, v), w)
  {
    NearSelf(d, w);
    if v.Some? {
      ToTopLists(d.outputs, v.value, w);
    }
    assert Listing(d, Focus(d, s, v), w) by {
      hide ToTop;
    }
    assert Focus(d, s, v).windows == d.windows;
    hide Focus, Listing;
    ListingNear(d, Focus(d, s, v), w);
  }

  // ---------- window_manage of another window ----------

  /** All windows but v are as they were, and listed where they were, by outputs that are where they were. */
  ghost predicate Aside(d: Desktop, d': Desktop, v: nat) {
    && d'.windows.Keys == d.windows.Keys && |d'.outputs| == |d.outputs|
    && (forall w :: w in d.windows && w != v ==> d'.windows[w] == d.windows[w])
    && (forall k :: 0 <= k < |d.outputs| ==> d'.outputs[k].rect == d.outputs[k].rect)
    && (forall k: nat, w :: w != v ==> (ListedOn(d.outputs, k, w) <==> ListedOn(d'.outputs, k, w)))
  }

  lemma AsideNear(d: Desktop, d': Desktop, v: nat, w: nat)
    requires Aside(d, d', v) && w != v && w in d.windows
    ensures Near(d, d', w)
  {
    hide ListedOn, OutputOf;
    assert w in d'.windows.Keys;
    ListingNear(d, d', w);
  }

  lemma AsideTwice(d: Desktop, d1: Desktop, d2: Desktop, v: nat)
    requires Aside(d, d1, v) && Aside(d1, d2, v)
    ensures Aside(d, d2, v) && (v in d.windows <==> v in d2.windows)
  {
    hide ListedOn;
    assert forall w :: w in d.windows <==> w in d1.windows.Keys;
    assert forall w :: w in d.windows <==> w in d2.windows.Keys;
  }

  /** Only the window and the seats. */
  lemma AsideAlone(d: Desktop, d': Desktop, v: nat)
    requires v in d.windows && d'.outputs == d.outputs && v in d'.windows && d'.windows == d.windows[v := d'.windows[v]]
    ensures Aside(d, d', v)
  {
    hide ListedOn;
  }

  lemma AsideSelf(d: Desktop, v: nat)
    ensures Aside(d, d, v)
  {
    hide ListedOn;
  }

  lemma AsideMove(d: Desktop, v: nat, k: nat)
    requires v in d.windows && k < |d.outputs|
    ensures Aside(d, MoveToOutput(d, v, k), v) && MoveToOutput(d, v, k).windows == d.windows
  {
    forall s, x {
      EraseIn(s, v, x);
    }
    hide Erase, OutputOf;
  }

  lemma AsideSetState(d: Desktop, v: nat, maximized: bool, fullscreen: bool, target: Option<nat>)
    requires v in d.windows && (target.Some? ==> target.value < |d.outputs|)
    ensures Aside(d, SetState(d, v, maximized, fullscreen, target), v)
  {
    hide SetState, MoveToOutput, Aside, Put;
    AsideSelf(d, v);
    if SetStateDoes(d, v, maximized, fullscreen) {
      var goes, f := SetStateChanges(d, v, maximized, fullscreen, target);
      var win := d.windows[v].(frame := f);
      if goes {
        AsideMove(d, v, target.value);
      }
      var d1 := if goes then MoveToOutput(d, v, target.value) else d;
      AsidePut(d1, v, win);
      AsideTwice(d, d1, Put(d1, v, win), v);
    } else {
      SetStateStays(d, v, maximized, fullscreen, target);
    }
  }

  lemma AsidePut(d: Desktop, v: nat, win: Window)
    requires v in d.windows
    ensures Aside(d, Put(d, v, win), v) && v in Put(d, v, win).windows
  {
    hide Aside;
    AsideAlone(d, Put(d, v, win), v);
  }

  lemma AsideMinimize(d: Desktop, v: nat)
    requires v in d.windows
    ensures Aside(d, Minimize(d, v), v)
  {
    forall s, x {
      EraseIn(s, v, x);
    }
    hide Erase, Unfocus, OutputOf;
  }

  lemma AsideBegun(d: Desktop, v: nat)
    requires v in d.windows
    ensures Aside(d, Begun(d, v), v) && v in Begun(d, v).windows
  {
    hide Aside, OutputOf, PressNav;
    AsideAlone(d, Begun(d, v), v);
  }

  lemma AsideDragOff(d: Desktop, v: nat)
    requires v in d.windows
    ensures Aside(d, DragOff(d, v), v) && v in DragOff(d, v).windows
  {
    hide Aside, SetState, StartOp, Put;
    AsideSelf(d, v);
    var win := d.windows[v];
    AsidePut(d, v, win.(moveRequested := None));
    if win.moveRequested.Some? && !win.frame.fullscreen {
      var d1 := Put(d, v, win.(wantMaximized := false));
      AsidePut(d, v, win.(wantMaximized := false));
      var d2 := SetState(d1, v, false, false, None);
      AsideSetState(d1, v, false, false, None);
      AsideTwice(d, d1, d2, v);
      var d3 := StartOp(d2, win.moveRequested, Moving, v);
      AsideStartOp(d2, win.moveRequested, Moving, v);
      AsideTwice(d, d2, d3, v);
      AsidePut(d3, v, d3.windows[v].(moveRequested := None));
      AsideTwice(d, d3, DragOff(d, v), v);
    }
  }

  lemma AsideStartOp(d: Desktop, s: Option<nat>, op: SeatOp, v: nat)
    ensures Aside(d, StartOp(d, s, op, v), v) && StartOp(d, s, op, v).windows == d.windows
  {
    hide ListedOn;
  }

  lemma AsideResize(d: Desktop, v: nat)
    requires v in d.windows
    ensures Aside(d, Resize(d, v), v) && v in Resize(d, v).windows
  {
    hide Aside, StartOp, Put;
    AsideSelf(d, v);
    var win := d.windows[v];
    var d1 := if win.frame.maximized || win.frame.fullscreen then d else StartOp(d, win.resizeRequested, Resizing, v);
    AsideStartOp(d, win.resizeRequested, Resizing, v);
    AsidePut(d1, v, win.(resizeRequested := None));
    AsideTwice(d, d1, Put(d1, v, win.(resizeRequested := None)), v);
  }

  lemma AsideFollowState(d: Desktop, v: nat)
    requires v in d.windows
    ensures Aside(d, FollowState(d, v), v) && v in FollowState(d, v).windows
  {
    hide Aside, FollowState, SetState, Put, FullscreenOutput;
    DeskSeats.FollowStateIs(d, v);
    var win := d.windows[v];
    var target := FullscreenOutput(d.outputs, win.wantFullscreenOutput, |d.outputs|);
    var d1 := SetState(d, v, win.wantMaximized, win.wantFullscreen, target);
    AsideSetState(d, v, win.wantMaximized, win.wantFullscreen, target);
    AsidePut(d, v, win.(wantFullscreenOutput := None));
    AsidePut(d1, v, d1.windows[v].(wantFullscreenOutput := None));
    AsideTwice(d, d1, Put(d1, v, d1.windows[v].(wantFullscreenOutput := None)), v);
  }

  lemma AsideFollowWishes(d: Desktop, v: nat)
    requires v in d.windows
    ensures Aside(d, FollowWishes(d, v), v) && v in FollowWishes(d, v).windows
  {
    hide Aside, FollowState, Minimize;
    AsideFollowState(d, v);
    AsideMinimize(FollowState(d, v), v);
    AsideTwice(d, FollowState(d, v), Minimize(FollowState(d, v), v), v);
  }

  lemma AsideCenter(d: Desktop, v: nat)
    requires v in d.windows
    ensures Aside(d, Center(d, v), v)
  {
    hide Aside, OutputOf, Centered;
    AsideSelf(d, v);
    if Center(d, v) != d {
      AsideAlone(d, Center(d, v), v);
    }
  }

  /** Managing a window leaves the others alone. */
  lemma AsideManage(d: Desktop, v: nat)
    ensures Aside(d, Desk.Manage(d, v), v)
  {
    hide Aside, Begun, DragOff, Resize, FollowWishes, Center;
    AsideSelf(d, v);
    if v in d.windows {
      var d2 := Begun(d, v);
      AsideBegun(d, v);
      var d3 := DragOff(d2, v);
      AsideDragOff(d2, v);
      AsideTwice(d, d2, d3, v);
      var d4 := Resize(d3, v);
      AsideResize(d3, v);
      AsideTwice(d, d3, d4, v);
      var d5 := FollowWishes(d4, v);
      AsideFollowWishes(d4, v);
      AsideTwice(d, d4, d5, v);
      AsideCenter(d5, v);
      AsideTwice(d, d5, Center(d5, v), v);
    }
  }

  lemma InBoth(d: Desktop, d': Desktop, w: nat)
    requires Near(d, d', w)
    ensures w in d.windows && w in d'.windows
  {
    hide Alike, Nearby;
  }

  // ---------- window_manage of the window itself ----------

  /** About to have its wishes granted: not dragged off any more, and at home unless it is to leave. */
  predicate Undragged(still: bool, d: Desktop, w: nat, home: Home) {
    && Spot(true, d, w, home)
    && var win := d.windows[w];
       && win.moveRequested.None? && win.pendingNav == NoNav
       && (!still && Floating(win.frame) && !win.wantMaximized && !win.wantFullscreen && !Orphaned(d, w)
           ==> AtHome(false, win, Own(d, w), home))
  }

  /** What a change of the window alone means for it. */
  lemma OwnPut(still: bool, d: Desktop, w: nat, win: Window, home: Home)
    requires Spot(still, d, w, home) && !win.isNew && win.frame == d.windows[w].frame
    requires Floating(win.frame) && Settled(d.windows[w]) ==>
               Settled(win) || (still && win.frame.width == home.width && win.frame.height == home.height)
    ensures Spot(still, Put(d, w, win), w, home) && Nearby(d, Put(d, w, win), w)
    ensures w in Put(d, w, win).windows && Put(d, w, win).windows[w] == win
  {
    hide OutputOf;
  }

  lemma PressedSettled(win: Window)
    ensures var win' := PressNav(win);
            && win'.frame == win.frame && win'.isNew == win.isNew && win'.closed == win.closed
              && win'.pendingNav == NoNav
            && win'.wantFullscreen == win.wantFullscreen && win'.moveRequested == win.moveRequested
            && (win.pendingNav == NoNav ==> win'.wantMaximized == win.wantMaximized)
  {
    var a, b, c := win.(wantMaximized := !win.frame.maximized, pendingNav := NoNav),
        win.(wantMinimized := true, pendingNav := NoNav),
      win.(pendingNav := NoNav);
    assert PressNav(win) == if win.pendingNav == NavMaximize then a else if win.pendingNav == NavMinimize then b else c;
    hide PressNav;
  }

  lemma OwnPressNav(still: bool, d: Desktop, w: nat, home: Home)
    requires Spot(still, d, w, home) && !Robbed(d.windows[w])
    ensures var d' := Put(d, w, PressNav(d.windows[w]));
            Spot(still, d', w, home) && !Robbed(d'.windows[w]) && d'.windows[w].pendingNav == NoNav
              && d'.outputs == d.outputs
            && d'.windows[w].closed == d.windows[w].closed
  {
    var win := d.windows[w];
    PressedSettled(win);
    hide PressNav, OutputOf, Floating;
    OwnPut(still, d, w, PressNav(win), home);
  }

  lemma SetStateFrame(d: Desktop, w: nat, maximized: bool, fullscreen: bool, target: Option<nat>)
    requires w in d.windows && (target.Some? ==> target.value < |d.outputs|)
    ensures var d', f := SetState(d, w, maximized, fullscreen, target), d.windows[w].frame;
            && w in d'.windows && d'.windows[w] == d.windows[w].(frame := d'.windows[w].frame)
            && d'.windows[w].frame.width == f.width && d'.windows[w].frame.height == f.height
            && (maximized || fullscreen || f.savedWidth > 0 || Floating(f) ==>
                  d'.windows[w].frame.centerRequested == f.centerRequested)
            && (Orphaned(d, w) ==> d' == d)
  {
    hide SetStateOf, MoveToOutput;
    var f := d.windows[w].frame;
    forall out, to {
      StateFrame(f, maximized, fullscreen, out, to);
    }
    if DeskPartition.SetStateDoes(d, w, maximized, fullscreen) {
      var goes, f' := SetStateChanges(d, w, maximized, fullscreen, target);
      hide OutputOf;
    } else {
      hide OutputOf;
    }
  }

  lemma StateFrame(f: Frame, maximized: bool, fullscreen: bool, out: Rect, target: Option<Rect>)
    ensures var f' := SetStateOf(f, maximized, fullscreen, out, target);
            && f'.width == f.width && f'.height == f.height
            && (maximized || fullscreen || f.savedWidth > 0 || Floating(f) ==> f'.centerRequested == f.centerRequested)
  {
  }

  /** Out of the air: what becomes of a window that is maximized, fullscreen or neither, and wants to be so or not. */
  lemma OwnSetState(d: Desktop, w: nat, maximized: bool, fullscreen: bool, target: Option<nat>, home: Home)
    requires Part(d) && Spot(true, d, w, home) && !Orphaned(d, w) && (target.Some? ==> target.value < |d.outputs|)
    requires maximized != d.windows[w].frame.maximized || fullscreen != d.windows[w].frame.fullscreen
    requires Floating(d.windows[w].frame) ==>
               d.windows[w].frame.width == home.width && d.windows[w].frame.height == home.height
    ensures
      var d' := SetState(d, w, maximized, fullscreen, target);
      && Part(d') && w in d'.windows && !d'.windows[w].frame.centerRequested && !Orphaned(d', w)
      && d'.windows[w] == d.windows[w].(frame := d'.windows[w].frame)
      && d'.windows[w].frame.width == d.windows[w].frame.width
        && d'.windows[w].frame.height == d.windows[w].frame.height
      && if maximized || fullscreen then !Floating(d'.windows[w].frame)
        && SavedHome(d'.windows[w].frame, Own(d', w)) == home
         else Floating(d'.windows[w].frame) && Here(d'.windows[w].frame, Own(d', w), home)
              && d'.windows[w].frame.proposed == Some((home.width, home.height)) && d'.outputs == d.outputs
  {
    hide SetState, Part, OutputOf, SetStateOf;
    SetStateKeeps(d, w, maximized, fullscreen, target);
    SetStateFrame(d, w, maximized, fullscreen, target);
    if maximized || fullscreen {
      SetStateAway(d, w, maximized, fullscreen, target, home);
    } else {
      SetStateBack(d, w, target, home);
    }
  }

  lemma OwnDragOff(still: bool, d: Desktop, w: nat, home: Home)
    requires Part(d) && Spot(still, d, w, home) && !Robbed(d.windows[w]) && d.windows[w].pendingNav == NoNav
    ensures var d' := DragOff(d, w);
            Part(d') && Undragged(still, d', w, home) && d'.windows[w].closed == d.windows[w].closed
  {
    var win := d.windows[w];
    DeskRuns.DragOffKeeps(d, w);
    DeskRuns.KeepsPart(d, DragOff(d, w));
    hide Part, DeskRuns.Keeps, SetState, StartOp;
    if win.moveRequested.None? {
      assert DragOff(d, w) == d;
      hide DragOff, OutputOf;
    } else if win.frame.fullscreen {
      OwnPut(still, d, w, win.(moveRequested := None), home);
      hide OutputOf;
    } else {
      DragsOff(still, d, w, home);
      hide *;
    }
  }

  lemma DragsOff(still: bool, d: Desktop, w: nat, home: Home)
    requires Part(d) && Spot(still, d, w, home) && !Robbed(d.windows[w]) && d.windows[w].pendingNav == NoNav
    requires d.windows[w].moveRequested.Some? && !d.windows[w].frame.fullscreen
    ensures var d' := DragOff(d, w); Undragged(still, d', w, home) && d'.windows[w].closed == d.windows[w].closed
  {
    hide *;
    SpotIn(still, d, w, home);
    var win := d.windows[w];
    var d1 := Put(d, w, win.(wantMaximized := false));
    PutKeeps(d, w, win.(wantMaximized := false));
    OwnAsked(still, d, w, home);
    var d2 := SetState(d1, w, false, false, None);
    var d3 := StartOp(d2, win.moveRequested, Moving, w);
    SetStateFrame(d1, w, false, false, None);
    StartedOp(d2, win.moveRequested, w);
    DeskRuns.DragOffIs(d, w, d1, d3);
    if Orphaned(d, w) || Floating(win.frame) {
      StaysFloating(d1, w);
      OrphanedSame(d, d1, w);
      DragsOffNothing(still, d, w, home, d3);
    } else {
      DragSpot(still, d, w, home);
      OnlyMaximized(d, w);
      OwnSetState(d1, w, false, false, None, home);
      OrphanedSame(d, d1, w);
      OrphanedSame(d1, d2, w);
      DragsOffHome(still, d, w, home, d3);
    }
  }

  lemma OnlyMaximized(d: Desktop, w: nat)
    requires w in d.windows && !Floating(d.windows[w].frame) && !d.windows[w].frame.fullscreen
    ensures d.windows[w].frame.maximized
  {
  }

  lemma OrphanedSame(d: Desktop, d': Desktop, w: nat)
    requires d'.outputs == d.outputs
    ensures Orphaned(d, w) <==> Orphaned(d', w)
    ensures !Orphaned(d, w) ==> Own(d, w) == Own(d', w)
  {
    hide OutputOf;
  }

  lemma StartedOp(d: Desktop, s: Option<nat>, w: nat)
    ensures var d' := StartOp(d, s, Moving, w); d'.windows == d.windows && d'.outputs == d.outputs
  {
  }

  lemma StaysFloating(d: Desktop, w: nat)
    requires w in d.windows
    ensures Orphaned(d, w) || Floating(d.windows[w].frame) ==> SetState(d, w, false, false, None) == d
  {
    hide SetStateOf, MoveToOutput, OutputOf;
  }

  /** Asked to be maximized no more. */
  lemma OwnAsked(still: bool, d: Desktop, w: nat, home: Home)
    requires Spot(still, d, w, home) && d.windows[w].moveRequested.Some?
    ensures var asked := d.windows[w].(wantMaximized := false);
            Put(d, w, asked).outputs == d.outputs && w in Put(d, w, asked).windows
              && Put(d, w, asked).windows[w] == asked
  {
    hide Spot;
  }

  lemma DragSpot(still: bool, d: Desktop, w: nat, home: Home)
    requires Spot(still, d, w, home) && !Orphaned(d, w) && !Floating(d.windows[w].frame)
    ensures var d1 := Put(d, w, d.windows[w].(wantMaximized := false)); Spot(true, d1, w, home) && !Orphaned(d1, w)
  {
    hide OutputOf;
  }

  lemma DragsOffNothing(still: bool, d: Desktop, w: nat, home: Home, d3: Desktop)
    requires Spot(still, d, w, home) && d.windows[w].pendingNav == NoNav && d.windows[w].moveRequested.Some?
    requires d3.outputs == d.outputs && w in d3.windows && d3.windows[w] == d.windows[w].(wantMaximized := false)
    requires Orphaned(d, w) || Floating(d.windows[w].frame)
    ensures var d' := Put(d3, w, d3.windows[w].(moveRequested := None));
            Undragged(still, d', w, home) && d'.windows[w].closed == d.windows[w].closed
  {
    hide OutputOf;
  }

  lemma DragsOffHome(still: bool, d: Desktop, w: nat, home: Home, d3: Desktop)
    requires Spot(still, d, w, home) && d.windows[w].pendingNav == NoNav && d.windows[w].moveRequested.Some?
    requires !Orphaned(d, w) && !Floating(d.windows[w].frame) && !d.windows[w].frame.fullscreen && !Robbed(d.windows[w])
    requires d3.outputs == d.outputs && w in d3.windows
    requires var win, win3 := d.windows[w], d3.windows[w];
             && win3 == win.(wantMaximized := false, frame := win3.frame)
             && !win3.frame.centerRequested && Floating(win3.frame) && Here(win3.frame, Own(d, w), home)
             && win3.frame.proposed == Some((home.width, home.height))
             && win3.frame.width == win.frame.width && win3.frame.height == win.frame.height
    ensures var d' := Put(d3, w, d3.windows[w].(moveRequested := None));
            Undragged(still, d', w, home) && d'.windows[w].closed == d.windows[w].closed
  {
    hide OutputOf;
  }

  lemma OwnResize(still: bool, d: Desktop, w: nat, home: Home)
    requires Part(d) && Undragged(still, d, w, home)
    ensures var d' := Resize(d, w);
            Part(d') && Undragged(still, d', w, home) && d'.windows[w].closed == d.windows[w].closed
  {
    UndraggedIs(still, d, w, home);
    DeskRuns.ResizeKeeps(d, w);
    DeskRuns.KeepsPart(d, Resize(d, w));
    ResizeSame(d, w);
    hide *;
    UndraggedAlike(still, d, Resize(d, w), w, home);
    AlikeClosed(d.windows[w], Resize(d, w).windows[w]);
  }

  lemma ResizeSame(d: Desktop, w: nat)
    requires w in d.windows
    ensures var d' := Resize(d, w); d'.outputs == d.outputs && w in d'.windows && Alike(d.windows[w], d'.windows[w])
  {
  }

  lemma UndraggedAlike(still: bool, d: Desktop, d': Desktop, w: nat, home: Home)
    requires Undragged(still, d, w, home) && d'.outputs == d.outputs
    requires w in d.windows && w in d'.windows && Alike(d.windows[w], d'.windows[w])
    ensures Undragged(still, d', w, home)
  {
    hide OutputOf;
  }

  lemma UndraggedIs(still: bool, d: Desktop, w: nat, home: Home)
    requires Undragged(still, d, w, home)
    ensures w in d.windows && Spot(true, d, w, home) && d.windows[w].moveRequested.None?
            && d.windows[w].pendingNav == NoNav
    ensures !d.windows[w].isNew && !d.windows[w].frame.centerRequested && home.width > 0
    ensures Orphaned(d, w) ==> !Floating(d.windows[w].frame)
  {
    hide OutputOf;
  }

  lemma WishesGranted(still: bool, d: Desktop, w: nat, home: Home) returns (d1: Desktop)
    requires Part(d) && Undragged(still, d, w, home)
    ensures var win := d.windows[w];
            d1 == if win.wantMaximized != win.frame.maximized || win.wantFullscreen != win.frame.fullscreen
                  then SetState(d, w, win.wantMaximized, win.wantFullscreen,
                                FullscreenOutput(d.outputs, win.wantFullscreenOutput, |d.outputs|))
                  else d
    ensures Part(d1) && Spot(still, d1, w, home) && d1.windows[w].moveRequested.None?
            && d1.windows[w].closed == d.windows[w].closed
  {
    hide *;
    UndraggedIs(still, d, w, home);
    var win := d.windows[w];
    var target := FullscreenOutput(d.outputs, win.wantFullscreenOutput, |d.outputs|);
    var differs := win.wantMaximized != win.frame.maximized || win.wantFullscreen != win.frame.fullscreen;
    d1 := if differs then SetState(d, w, win.wantMaximized, win.wantFullscreen, target) else d;
    if !differs {
      AsWished(still, d, w, home);
    } else if Orphaned(d, w) {
      SetStateFrame(d, w, win.wantMaximized, win.wantFullscreen, target);
      OrphanStays(still, d, w, home);
    } else {
      LeavesWithSize(still, d, w, home);
      OwnSetState(d, w, win.wantMaximized, win.wantFullscreen, target, home);
      NowAsWished(still, d, w, home, d1);
    }
  }

  lemma AsWished(still: bool, d: Desktop, w: nat, home: Home)
    requires Undragged(still, d, w, home) && var win := d.windows[w];
             win.wantMaximized == win.frame.maximized && win.wantFullscreen == win.frame.fullscreen
    ensures Spot(still, d, w, home)
  {
    hide OutputOf;
  }

  lemma OrphanStays(still: bool, d: Desktop, w: nat, home: Home)
    requires Spot(true, d, w, home) && Orphaned(d, w)
    ensures Spot(still, d, w, home)
  {
    hide OutputOf;
  }

  lemma LeavesWithSize(still: bool, d: Desktop, w: nat, home: Home)
    requires Undragged(still, d, w, home) && !Orphaned(d, w)
    requires var win := d.windows[w];
             win.wantMaximized != win.frame.maximized || win.wantFullscreen != win.frame.fullscreen
    ensures var f := d.windows[w].frame; Floating(f) ==> f.width == home.width && f.height == home.height
  {
    hide OutputOf;
  }

  lemma NowAsWished(still: bool, d: Desktop, w: nat, home: Home, d1: Desktop)
    requires Undragged(still, d, w, home) && !Orphaned(d, w)
    requires w in d1.windows && !d1.windows[w].frame.centerRequested && !Orphaned(d1, w)
    requires d1.windows[w] == d.windows[w].(frame := d1.windows[w].frame)
    requires if d.windows[w].wantMaximized || d.windows[w].wantFullscreen
             then !Floating(d1.windows[w].frame) && SavedHome(d1.windows[w].frame, Own(d1, w)) == home
             else Floating(d1.windows[w].frame) && Here(d1.windows[w].frame, Own(d1, w), home)
                  && d1.windows[w].frame.proposed == Some((home.width, home.height))
    ensures Spot(still, d1, w, home) && d1.windows[w].moveRequested.None? && d1.windows[w].closed == d.windows[w].closed
  {
    hide OutputOf;
  }

  lemma OwnFollowWishes(still: bool, d: Desktop, w: nat, home: Home)
    requires Part(d) && Undragged(still, d, w, home)
    ensures var d' := FollowWishes(d, w);
            Part(d') && Spot(still, d', w, home) && d'.windows[w].moveRequested.None?
              && d'.windows[w].closed == d.windows[w].closed
  {
    UndraggedIs(still, d, w, home);
    DeskRuns.FollowWishesKeeps(d, w);
    DeskRuns.KeepsPart(d, FollowWishes(d, w));
    var win := d.windows[w];
    var d1 := WishesGranted(still, d, w, home);
    hide Part, DeskRuns.Keeps, SetState, Minimize, FullscreenOutput, Undragged, Spot, Near;
    var win1 := d1.windows[w].(wantFullscreenOutput := None);
    var d2 := Put(d1, w, win1);
    SpotPut(still, d1, w, home);
    if win.wantMinimized && !win.minimized {
      MinimizeNear(d2, w, w);
      SpotNear(still, d2, Minimize(d2, w), w, home);
      NearIs(d2, Minimize(d2, w), w);
    }
  }

  lemma NearIs(d: Desktop, d': Desktop, w: nat)
    requires Near(d, d', w)
    ensures w in d.windows && w in d'.windows && Alike(d.windows[w], d'.windows[w])
            && (Robbed(d.windows[w]) <==> Robbed(d'.windows[w]))
  {
    hide Nearby;
  }

  lemma SpotPut(still: bool, d: Desktop, w: nat, home: Home)
    requires Spot(still, d, w, home)
    ensures var win := d.windows[w].(wantFullscreenOutput := None);
            Spot(still, Put(d, w, win), w, home) && w in Put(d, w, win).windows && Put(d, w, win).windows[w] == win
  {
    hide OutputOf;
  }

  lemma OwnCenter(still: bool, d: Desktop, w: nat, home: Home)
    requires Spot(still, d, w, home)
    ensures Center(d, w) == d
  {
    hide OutputOf, Centered;
  }

  lemma SpotIn(still: bool, d: Desktop, w: nat, home: Home)
    requires Spot(still, d, w, home)
    ensures w in d.windows && !d.windows[w].isNew
  {
    hide OutputOf;
  }

  lemma OwnManage(still: bool, d: Desktop, w: nat, home: Home)
    requires Part(d) && Spot(still, d, w, home) && !Robbed(d.windows[w])
    ensures var d' := Desk.Manage(d, w);
            Part(d') && Spot(still, d', w, home) && !Robbed(d'.windows[w])
              && d'.windows[w].closed == d.windows[w].closed
  {
    SpotIn(still, d, w, home);
    DeskRuns.PressNavKeeps(d, w);
    var d2 := Put(d, w, PressNav(d.windows[w]));
    DeskRuns.KeepsPart(d, d2);
    OwnPressNav(still, d, w, home);
    hide Part, Spot, Robbed, DeskRuns.Keeps, DragOff, Resize, FollowWishes, Center, Undragged, Put, PressNav;
    SpotIn(still, d2, w, home);
    OwnDragOff(still, d2, w, home);
    var d3 := DragOff(d2, w);
    UndraggedIs(still, d3, w, home);
    OwnResize(still, d3, w, home);
    var d4 := Resize(d3, w);
    UndraggedIs(still, d4, w, home);
    OwnFollowWishes(still, d4, w, home);
    var d5 := FollowWishes(d4, w);
    SpotIn(still, d5, w, home);
    OwnCenter(still, d5, w, home);
    assert !Robbed(d5.windows[w]) by {
      NotRobbed(d5.windows[w]);
    }
  }

  lemma NotRobbed(win: Window)
    requires win.moveRequested.None?
    ensures !Robbed(win)
  {
  }

  lemma ManageSpot(still: bool, d: Desktop, v: nat, w: nat, home: Home)
    requires Part(d) && Spot(still, d, w, home) && !Robbed(d.windows[w])
    ensures var d' := Desk.Manage(d, v);
            Part(d') && Spot(still, d', w, home) && !Robbed(d'.windows[w])
              && d'.windows[w].closed == d.windows[w].closed
  {
    SpotIn(still, d, w, home);
    hide *;
    if v == w {
      OwnManage(still, d, w, home);
    } else {
      AsideManage(d, v);
      AsideNear(d, Desk.Manage(d, v), v, w);
      DeskRuns.ManageKeeps(d, v);
      DeskRuns.KeepsPart(d, Desk.Manage(d, v));
      SpotNear(still, d, Desk.Manage(d, v), w, home);
      NearIs(d, Desk.Manage(d, v), w);
      AlikeClosed(d.windows[w], Desk.Manage(d, v).windows[w]);
    }
  }

  lemma AlikeClosed(win: Window, win': Window)
    requires Alike(win, win')
    ensures win'.closed == win.closed
  {
  }

  lemma {:induction false} ManageAllSpot(still: bool, d: Desktop, ws: seq<nat>, w: nat, home: Home)
    requires Part(d) && Spot(still, d, w, home) && !Robbed(d.windows[w])
    ensures var d' := ManageAll(d, ws); Part(d') && Spot(still, d', w, home) && !Robbed(d'.windows[w])
    decreases |ws|
  {
    SpotIn(still, d, w, home);
    hide Part, Spot, Robbed, Desk.Manage;
    if ws != [] {
      ManageSpot(still, d, ws[0], w, home);
      SpotIn(still, Desk.Manage(d, ws[0]), w, home);
      ManageAllSpot(still, Desk.Manage(d, ws[0]), ws[1..], w, home);
    }
  }

  lemma {:induction false} ManageOutputsSpot(still: bool, d: Desktop, n: nat, w: nat, home: Home)
    requires Part(d) && Spot(still, d, w, home) && !Robbed(d.windows[w])
    ensures var d' := ManageOutputs(d, n); Part(d') && Spot(still, d', w, home) && !Robbed(d'.windows[w])
    decreases n
  {
    SpotIn(still, d, w, home);
    hide Part, Spot, Robbed, ManageAll;
    if n > 0 {
      ManageOutputsSpot(still, d, n - 1, w, home);
      var d1 := ManageOutputs(d, n - 1);
      SpotIn(still, d1, w, home);
      if n <= |d1.outputs| {
        ManageAllSpot(still, d1, d1.outputs[n - 1].windows, w, home);
      }
    }
  }
}
