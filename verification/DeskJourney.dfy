/**
 The way back: over whole runs, a window that was maximized or fullscreen goes
 back to the size it had, at the place it had on its output.
 */
module DeskJourney {
  import opened Bytes
  import opened Desk
  import opened DeskPartition
  import opened DeskGeometry
  import opened DeskHome
  import opened DeskCleanup
  import DeskRuns
  import DeskSeats

  // ---------- a manage sequence ----------

  lemma RestSpot(still: bool, d: Desktop, w: nat, home: Home)
    requires var c := Cleanup(d); Part(c) && Spot(still, c, w, home) && !Robbed(c.windows[w])
    requires LetGoWell(DeskSeats.BeforeSeats(d), w)
    ensures Spot(still, ManageStart(d), w, home)
  {
    hide Part, Spot, Robbed, Cleanup, ManageOutputs, ManageAll, SeatsManage, LetGoWell, DeskRuns.SameOutputs, Near;
    var c := Cleanup(d);
    SpotIn(still, c, w, home);
    var d2 := ManageOutputs(c, |c.outputs|);
    ManageOutputsSpot(still, c, |c.outputs|, w, home);
    SpotIn(still, d2, w, home);
    var d3 := ManageAll(d2, d2.orphans);
    ManageAllSpot(still, d2, d2.orphans, w, home);
    SeatsManageNear(d3, |d3.seats|, w);
    SpotNear(still, d3, SeatsManage(d3, |d3.seats|), w, home);
  }

  lemma KinRobbed(win: Window, win': Window)
    requires Kin(win, win')
    ensures Robbed(win) <==> Robbed(win')
  {
  }

  /** A manage sequence leaves a window on its way, or brings it home. */
  lemma ManagingSpot(d: Desktop, w: nat, home: Home)
    requires Part(d) && Tracks(d, w, home) && Undisturbed(d, Managing, w)
    ensures Spot(false, ManageStart(d), w, HomeNow(d, w, home))
  {
    hide Part, Cleanup, Goes, ManageStart, HomeNow, LetGoWell, Robbed, Kin, DeskSeats.BeforeSeats;
    CleanupGoes(d, w, home);
    var c := Cleanup(d);
    var h := HomeNow(d, w, home);
    GoesTracks(d, c, w, h);
    KinRobbed(d.windows[w], c.windows[w]);
    hide Spot;
    RestSpot(false, d, w, h);
  }

  /** A floating window with a size of its own, on an output. */
  predicate Floats(d: Desktop, w: nat) {
    && w in d.windows && !Orphaned(d, w)
    && var win := d.windows[w]; Floating(win.frame) && !win.isNew && !win.frame.centerRequested && win.frame.width > 0
  }

  lemma FloatsSpot(c: Desktop, w: nat)
    requires Floats(c, w)
    ensures var home := HomeOf(c.windows[w].frame, Own(c, w)); Spot(true, c, w, home) && !Robbed(c.windows[w])
  {
    hide OutputOf;
  }

  lemma Departs(d: Desktop, w: nat)
    requires Part(d) && Floats(Cleanup(d), w) && LetGoWell(DeskSeats.BeforeSeats(d), w)
    requires var end := ManageStart(d); w in end.windows && !Floating(end.windows[w].frame)
    ensures var c := Cleanup(d); Tracks(ManageStart(d), w, HomeOf(c.windows[w].frame, Own(c, w)))
  {
    hide Part, Cleanup, ManageStart, LetGoWell, Robbed, DeskSeats.BeforeSeats, DeskRuns.NoneWaiting, OutputOf, Spot;
    var c := Cleanup(d);
    DeskRuns.CleanupKeeps(d);
    FloatsSpot(c, w);
    var home := HomeOf(c.windows[w].frame, Own(c, w));
    RestSpot(true, d, w, home);
    SpotTracked(ManageStart(d), w, home);
  }

  lemma SpotTracked(d: Desktop, w: nat, home: Home)
    requires Spot(true, d, w, home) && !Floating(d.windows[w].frame)
    ensures Tracks(d, w, home)
  {
    hide OutputOf;
  }

  // ---------- exactly when ----------

  /** What the frame goes back to once a maximized window has been dragged off and made fullscreen at once. */
  lemma RobbedFrame(d: Desktop, w: nat, home: Home)
    requires Part(d) && Tracks(d, w, home) && !Orphaned(d, w) && Robbed(d.windows[w])
    ensures var d', f := Desk.Manage(d, w), d.windows[w].frame;
            w in d'.windows && d'.windows[w].frame.savedWidth == f.width && d'.windows[w].frame.savedHeight == f.height
            && d'.windows[w].frame.fullscreen
  {
    TracksIn(d, w, home);
    var win := d.windows[w];
    var win2 := PressNav(win);
    PressedSettled(win);
    var d2 := Put(d, w, win2);
    assert w in d2.windows && d2.windows[w] == win2 && d2.outputs == d.outputs;
    assert Desk.Manage(d, w) == Center(FollowWishes(Resize(DragOff(d2, w), w), w), w) by {
      hide PressNav, DragOff, Resize, FollowWishes, Center, Arrive, Tracks, Part, Robbed;
    }
    OrphanedSame(d, d2, w);
    hide Part, Tracks, PressNav, Orphaned, Put, Desk.Manage, DragOff, Resize, FollowWishes, Center, Kin;
    DraggedOff(d2, w);
    var d3 := DragOff(d2, w);
    ResizeSame(d3, w);
    var d4 := Resize(d3, w);
    OrphanedSame(d3, d4, w);
    MadeFullscreen(d4, w);
    var d5 := FollowWishes(d4, w);
    CenterSaved(d5, w);
  }

  lemma DraggedOff(d: Desktop, w: nat)
    requires w in d.windows && !Orphaned(d, w) && d.windows[w].frame.savedWidth > 0
             && !d.windows[w].frame.centerRequested
    requires var win := d.windows[w];
             win.moveRequested.Some? && win.frame.maximized && !win.frame.fullscreen && win.wantFullscreen
    ensures var d', f := DragOff(d, w), d.windows[w].frame;
            && w in d'.windows && d'.outputs == d.outputs && !Orphaned(d', w)
            && var win' := d'.windows[w];
               Floating(win'.frame) && win'.frame.width == f.width && win'.frame.height == f.height
                 && win'.wantFullscreen
               && !win'.wantMaximized && !win'.frame.centerRequested
  {
    hide OutputOf, MoveToOutput;
  }

  lemma FilledState(d: Desktop, w: nat, maximized: bool, target: Option<nat>)
    requires w in d.windows && !Orphaned(d, w) && (target.Some? ==> target.value < |d.outputs|)
    requires var f := d.windows[w].frame; Floating(f) && !f.centerRequested
    ensures var d', f := SetState(d, w, maximized, true, target), d.windows[w].frame;
            && w in d'.windows
            && var f' := d'.windows[w].frame;
               f'.savedWidth == f.width && f'.savedHeight == f.height && f'.fullscreen && !f'.centerRequested
  {
    hide OutputOf, MoveToOutput;
  }

  lemma MadeFullscreen(d: Desktop, w: nat)
    requires w in d.windows && !Orphaned(d, w)
    requires var win := d.windows[w]; Floating(win.frame) && win.wantFullscreen && !win.frame.centerRequested
    ensures var d', f := FollowWishes(d, w), d.windows[w].frame;
            && w in d'.windows
            && var f' := d'.windows[w].frame;
               f'.savedWidth == f.width && f'.savedHeight == f.height && f'.fullscreen && !f'.centerRequested
  {
    hide SetState, FullscreenOutput, FollowState, Minimize, OutputOf, Nearby, DeskSeats.Quiet;
    var win := d.windows[w];
    FilledState(d, w, win.wantMaximized, FullscreenOutput(d.outputs, win.wantFullscreenOutput, |d.outputs|));
    DeskSeats.FollowStateIs(d, w);
    var d2 := FollowState(d, w);
    MinimizeNear(d2, w, w);
  }

  lemma CenterSaved(d: Desktop, w: nat)
    requires w in d.windows && !d.windows[w].frame.centerRequested
    ensures Center(d, w) == d
  {
    hide OutputOf, Centered;
  }

  /** When its turn to be managed comes, a window on its way keeps its home exactly unless it is robbed. */
  lemma ManagedExactly(d: Desktop, w: nat, home: Home)
    requires Part(d) && Tracks(d, w, home) && !Orphaned(d, w)
    ensures Spot(false, Desk.Manage(d, w), w, home) <==> !Robbed(d.windows[w])
  {
    TracksIn(d, w, home);
    hide Part, Tracks, Orphaned, Desk.Manage, Spot;
    if Robbed(d.windows[w]) {
      RobbedFrame(d, w, home);
      hide Robbed;
      OtherSize(d, w, home, Desk.Manage(d, w));
    } else {
      TracksSpot(d, w, home);
      OwnManage(false, d, w, home);
    }
  }

  lemma TracksSpot(d: Desktop, w: nat, home: Home)
    requires Tracks(d, w, home)
    ensures Spot(false, d, w, home)
  {
    hide Spot;
  }

  lemma OtherSize(d: Desktop, w: nat, home: Home, d': Desktop)
    requires Tracks(d, w, home) && Robbed(d.windows[w]) && w in d'.windows && d'.windows[w].frame.fullscreen
    requires var f, f' := d.windows[w].frame, d'.windows[w].frame;
             f'.savedWidth == f.width && f'.savedHeight == f.height
    ensures !Spot(false, d', w, home)
  {
    TracksIn(d, w, home);
    hide OutputOf, Tracks;
  }

  // ---------- events ----------

  /**
   An event that takes nothing from a window's home: a window let go of settles,
   a maximized one dragged off is not made fullscreen at once with another size,
   and its output does not move.
   */
  predicate Undisturbed(d: Desktop, e: Event, w: nat) {
    match e
    case Managing =>
      w in d.windows && !d.windows[w].closed && !Robbed(d.windows[w]) && LetGoWell(DeskSeats.BeforeSeats(d), w)
    case WindowOpened(v) => v != w
    case OutputMoved(id, x, y) =>
      var k := IndexOf(d.outputs, id);
      k < |d.outputs| && k == OutputOf(d.outputs, w) ==> x == d.outputs[k].rect.x && y == d.outputs[k].rect.y
    case _ => true
  }

  lemma GrantTracks(d: Desktop, w: nat, wish: Wish, home: Home)
    requires Tracks(d, w, home)
    ensures Tracks(Put(d, w, Grant(d.windows[w], wish)), w, home)
  {
    var win := d.windows[w];
    GrantedAway(win, wish);
    hide OutputOf, Grant;
  }

  lemma GrantedAway(win: Window, wish: Wish)
    ensures var win' := Grant(win, wish);
            && win'.isNew == win.isNew && win'.frame.maximized == win.frame.maximized
              && win'.frame.fullscreen == win.frame.fullscreen
            && win'.frame.centerRequested == win.frame.centerRequested
              && (forall r :: SavedHome(win'.frame, r) == SavedHome(win.frame, r))
            && win'.frame.savedWidth == win.frame.savedWidth && win'.frame.savedHeight == win.frame.savedHeight
  {
    GrantedFrame(win, wish);
    hide Grant;
  }

  lemma GrantedFrame(win: Window, wish: Wish)
    ensures var f, f' := win.frame, Grant(win, wish).frame;
            && Grant(win, wish).isNew == win.isNew
            && f' == f.(x := f'.x, y := f'.y, width := f'.width, height := f'.height, hasDecor := f'.hasDecor)
  {
    if wish.Decoration? || wish.Dimensions? {
      var f := win.frame;
      var decorated := win.(frame := At(f, f.x + BORDER, f.y + BORDER_TOP).(hasDecor := true));
      assert wish.Decoration? ==> Grant(win, wish) == win || Grant(win, wish) == decorated;
      assert wish.Dimensions? ==> Grant(win, wish) == win.(frame := f.(width := wish.width, height := wish.height));
      hide Grant;
    } else {
      OtherWish(win, wish);
      hide Grant;
    }
  }

  lemma OtherWish(win: Window, wish: Wish)
    requires !wish.Decoration? && !wish.Dimensions?
    ensures Grant(win, wish).isNew == win.isNew && Grant(win, wish).frame == win.frame
  {
    match wish {
      case Close =>
      case Maximize(_) =>
      case Fullscreen(_) =>
      case ExitFullscreen =>
      case Iconify =>
      case Icon =>
      case Nav(_) =>
      case Drag(_) =>
      case Stretch(_) =>
    }
  }

  lemma WindowTracks(d: Desktop, e: Event, w: nat, home: Home)
    requires Tracks(d, w, home) && (e.WindowWishes? || e.Dragged?)
    ensures Tracks(Step(d, e), w, home)
  {
    TracksIn(d, w, home);
    if e.w !in d.windows {
      hide ManageStart, Tracks;
    } else if e.w != w {
      var win := if e.WindowWishes? then Grant(d.windows[e.w], e.wish)
          else d.windows[e.w].(frame := At(d.windows[e.w].frame, e.x, e.y));
      assert Step(d, e) == Put(d, e.w, win) by {
        hide Grant, Put, At, Tracks;
      }
      hide *;
      OtherPut(d, e.w, win, w);
      GoesNear(d, Put(d, e.w, win), w, home);
      GoesTracks(d, Put(d, e.w, win), w, home);
    } else if e.WindowWishes? {
      GrantTracks(d, w, e.wish, home);
      hide Grant, Put, Tracks;
    } else {
      hide OutputOf;
    }
  }

  lemma OutputTracks(d: Desktop, e: Event, w: nat, home: Home)
    requires Tracks(d, w, home) && Undisturbed(d, e, w) && (e.OutputGone? || e.OutputMoved? || e.OutputSized?)
    ensures Tracks(Step(d, e), w, home)
  {
    hide Step, Tracks, Undisturbed, Nearby, IndexOf, Near;
    TracksIn(d, w, home);
    var d' := Step(d, e);
    OutputNearby(d, e, w);
    OutputChanges(d, e);
    NearbyNear(d, d', w);
    GoesNear(d, d', w, home);
    GoesTracks(d, d', w, home);
  }

  lemma NearbyNear(d: Desktop, d': Desktop, w: nat)
    requires Nearby(d, d', w) && d'.windows == d.windows && w in d.windows
    ensures Near(d, d', w)
  {
    AlikeSelf(d.windows[w]);
    hide Nearby;
  }

  /** Outputs that go, move or change their size list what they listed, and only one that moves is elsewhere. */
  lemma OutputChanges(d: Desktop, e: Event)
    requires e.OutputGone? || e.OutputMoved? || e.OutputSized?
    ensures var d', k := Step(d, e), IndexOf(d.outputs, e.id);
            && |d'.outputs| == |d.outputs| && d'.windows == d.windows
            && (forall j :: 0 <= j < |d.outputs| ==>
                  d'.outputs[j].windows == d.outputs[j].windows && d'.outputs[j].minimized == d.outputs[j].minimized
                  && (j != k || !e.OutputMoved? ==> SameOrigin(d.outputs[j].rect, d'.outputs[j].rect)))
            && (e.OutputMoved? && k < |d.outputs| ==> d'.outputs[k].rect == d.outputs[k].rect.(x := e.x, y := e.y))
  {
    hide IndexOf, OutputOf, ManageStart, OpenWindow;
  }

  lemma OutputNearby(d: Desktop, e: Event, w: nat)
    requires Undisturbed(d, e, w) && (e.OutputGone? || e.OutputMoved? || e.OutputSized?)
    ensures Nearby(d, Step(d, e), w)
  {
    hide IndexOf, Step, OutputOf;
    OutputChanges(d, e);
    SameOutputOf(d.outputs, Step(d, e).outputs, w);
  }

  lemma SameOutputOf(xs: seq<Output>, ys: seq<Output>, w: nat)
    requires |xs| == |ys|
    requires forall j :: 0 <= j < |xs| ==> ys[j].windows == xs[j].windows && ys[j].minimized == xs[j].minimized
    ensures OutputOf(xs, w) == OutputOf(ys, w)
  {
    var j, k := OutputOf(xs, w), OutputOf(ys, w);
    assert forall i :: ListedOn(xs, i, w) <==> ListedOn(ys, i, w);
    assert (j < |xs| ==> ListedOn(xs, j, w)) && (k < |ys| ==> ListedOn(ys, k, w));
    assert (forall i :: 0 <= i < j ==> !ListedOn(xs, i, w)) && (forall i :: 0 <= i < k ==> !ListedOn(ys, i, w));
    hide OutputOf, ListedOn;
  }

  lemma AddedNearby(d: Desktop, o: Output, w: nat)
    requires o.windows == [] && o.minimized == []
    ensures Nearby(d, d.(outputs := d.outputs + [o]), w)
  {
    var d' := d.(outputs := d.outputs + [o]);
    var k, m := OutputOf(d.outputs, w), OutputOf(d'.outputs, w);
    assert forall j :: 0 <= j < |d.outputs| ==> d'.outputs[j] == d.outputs[j];
    assert d'.outputs[|d.outputs|] == o;
    assert forall i :: ListedOn(d.outputs, i, w) <==> ListedOn(d'.outputs, i, w);
    assert (k < |d.outputs| ==> ListedOn(d.outputs, k, w)) && (m < |d'.outputs| ==> ListedOn(d'.outputs, m, w));
    assert (forall i :: 0 <= i < k ==> !ListedOn(d.outputs, i, w))
           && (forall i :: 0 <= i < m ==> !ListedOn(d'.outputs, i, w));
    hide OutputOf;
  }

  lemma OpenedListing(d: Desktop, v: nat, w: nat)
    requires v != w
    ensures Listing(d, OpenWindow(d, v), w)
  {
    hide IndexOf;
  }

  lemma OtherTracks(d: Desktop, e: Event, w: nat, home: Home)
    requires Tracks(d, w, home) && (e.OutputAdded? || e.SeatAdded? || e.SeatSays? || (e.WindowOpened? && e.w != w))
    ensures Tracks(Step(d, e), w, home)
  {
    TracksIn(d, w, home);
    var d' := Step(d, e);
    AlikeSelf(d.windows[w]);
    assert Near(d, d', w) by {
      match e {
        case OutputAdded(id) => AddedNearby(d, Output(id, Rect(0, 0, 0, 0), false, false, [], []), w);
        hide Nearby, Tracks;
        case WindowOpened(v) =>
          OpenedListing(d, v, w);
          ListingNearby(d, OpenWindow(d, v), w);
          assert w in OpenWindow(d, v).windows && OpenWindow(d, v).windows[w] == d.windows[w] by {
            hide IndexOf, Tracks;
          }
          hide Nearby, Tracks, Listing, OpenWindow;
        case SeatAdded => OtherSeats(d, d.seats + [NEW_SEAT], w); hide Near, Tracks;
        case SeatSays(s, word) =>
          NearSelf(d, w);
          if s < |d.seats| {
            OtherSeats(d, d.seats[s := Hear(d.seats[s], word)], w);
          }
          hide Near, Tracks, Hear;
      }
    }
    hide Step, Tracks, Near;
    GoesNear(d, d', w, home);
    GoesTracks(d, d', w, home);
  }

  lemma OrphanCorner(d: Desktop, w: nat, home: Home)
    requires Spot(false, d, w, home) && Orphaned(d, w)
    ensures Spot(false, d, w, Corner(home))
  {
    hide OutputOf;
  }

  lemma OrphanStaysSo(d: Desktop, e: Event, w: nat)
    requires Orphaned(d, w) && !e.Managing? && Undisturbed(d, e, w)
    ensures Orphaned(Step(d, e), w)
  {
    var d' := Step(d, e);
    match e {
      case OutputAdded(id) => AddedNearby(d, Output(id, Rect(0, 0, 0, 0), false, false, [], []), w); hide OutputOf;
      case WindowOpened(v) =>
        OpenedListing(d, v, w);
        ListingNearby(d, OpenWindow(d, v), w);
        hide OutputOf, OpenWindow, Listing;
      case OutputGone(_) => OutputNearby(d, e, w); hide OutputOf, Step;
      case OutputMoved(_, _, _) => OutputNearby(d, e, w); hide OutputOf, Step;
      case OutputSized(_, _, _) => OutputNearby(d, e, w); hide OutputOf, Step;
      case _ => hide OutputOf, Grant, Hear;
    }
  }

  lemma EventTracks(d: Desktop, e: Event, w: nat, home: Home)
    requires Tracks(d, w, home) && Undisturbed(d, e, w) && !e.Managing?
    ensures Tracks(Step(d, e), w, HomeNow(d, w, home))
  {
    assert e.WindowOpened? ==> e.w != w by {
      hide LetGoWell;
    }
    assert Tracks(Step(d, e), w, home) by {
      hide Tracks, Step, Undisturbed;
      if e.WindowWishes? || e.Dragged? {
        WindowTracks(d, e, w, home);
      } else if e.OutputGone? || e.OutputMoved? || e.OutputSized? {
        OutputTracks(d, e, w, home);
      } else {
        OtherTracks(d, e, w, home);
      }
    }
    hide Step, Spot, Undisturbed, Orphaned, Corner;
    if Orphaned(d, w) {
      OrphanStaysSo(d, e, w);
      OrphanCorner(Step(d, e), w, home);
      CornerIs(d, e, w, home);
    }
  }

  lemma CornerIs(d: Desktop, e: Event, w: nat, home: Home)
    requires Orphaned(d, w)
    ensures HomeNow(d, w, home) == Corner(home)
  {
    hide OutputOf;
  }

  /** Moved itself, its output takes a window's home along exactly if it stays where it is. */
  lemma OutputMovedExactly(d: Desktop, id: nat, x: int, y: int, w: nat, home: Home)
    requires Tracks(d, w, home) && OutputOf(d.outputs, w) == IndexOf(d.outputs, id) < |d.outputs|
    ensures Tracks(Step(d, OutputMoved(id, x, y)), w, home) <==> Undisturbed(d, OutputMoved(id, x, y), w)
  {
    hide IndexOf, OutputOf;
    var e, d' := OutputMoved(id, x, y), Step(d, OutputMoved(id, x, y));
    TracksIn(d, w, home);
    SameOutputOf(d.outputs, d'.outputs, w);
  }

  // ---------- runs ----------

  /** On its way all along, undisturbed. */
  ghost predicate Journey(events: seq<Event>, more: seq<Event>, w: nat) {
    && (forall n :: 0 <= n <= |more| ==> OnItsWay(Run(events + more[..n]), w))
    && (forall n :: 0 <= n < |more| ==> Undisturbed(Run(events + more[..n]), more[n], w))
  }

  predicate OnItsWay(d: Desktop, w: nat) {
    w in d.windows && !Floating(d.windows[w].frame)
  }

  ghost predicate WasOrphaned(events: seq<Event>, more: seq<Event>, w: nat) {
    exists n :: 0 <= n < |more| && Orphaned(Run(events + more[..n]), w)
  }

  ghost function HomeBy(events: seq<Event>, more: seq<Event>, w: nat, home: Home): Home {
    if WasOrphaned(events, more, w) then Corner(home) else home
  }

  lemma JourneyShorter(events: seq<Event>, more: seq<Event>, w: nat)
    requires more != [] && Journey(events, more, w)
    ensures var before := more[..|more| - 1];
            Journey(events, before, w) && Undisturbed(Run(events + before), more[|more| - 1], w)
              && OnItsWay(Run(events + more), w)
  {
    hide Undisturbed, OnItsWay, Run;
    var before := more[..|more| - 1];
    assert forall n :: 0 <= n <= |before| ==> before[..n] == more[..n];
    assert more[..|more|] == more;
  }

  lemma HomeByMore(events: seq<Event>, more: seq<Event>, w: nat, home: Home)
    requires more != []
    ensures var before := more[..|more| - 1];
            HomeBy(events, more, w, home) == HomeNow(Run(events + before), w, HomeBy(events, before, w, home))
  {
    hide Run, Orphaned;
    var before := more[..|more| - 1];
    assert forall n :: 0 <= n <= |before| ==> before[..n] == more[..n];
    if WasOrphaned(events, before, w) {
      var n :| 0 <= n < |before| && Orphaned(Run(events + before[..n]), w);
      assert Orphaned(Run(events + more[..n]), w);
    }
    if Orphaned(Run(events + before), w) {
      assert before == more[..|before|];
      assert WasOrphaned(events, more, w);
    }
    assert Corner(Corner(home)) == Corner(home);
  }

  lemma NoMore(events: seq<Event>, w: nat, home: Home)
    ensures events + [] == events && HomeBy(events, [], w, home) == home
  {
    hide Run, Orphaned;
  }

  lemma LastOf(events: seq<Event>, more: seq<Event>)
    requires more != []
    ensures var before, e := more[..|more| - 1], more[|more| - 1];
            events + more == events + before + [e] && (events + more)[..|events + more| - 1] == events + before
            && events + more != []
  {
  }

  lemma {:induction false} StaysTracked(events: seq<Event>, more: seq<Event>, w: nat, home: Home)
    requires DeskRuns.SaneRun(events + more) && Tracks(Run(events), w, home) && Journey(events, more, w)
    ensures DeskRuns.SaneRun(events) && Tracks(Run(events + more), w, HomeBy(events, more, w, home))
    decreases |more|
  {
    if more == [] {
      NoMore(events, w, home);
      hide *;
    } else {
      hide *;
      var before, e := more[..|more| - 1], more[|more| - 1];
      var d := Run(events + before);
      LastOf(events, more);
      DeskRuns.SaneShorter(events + more);
      JourneyShorter(events, more, w);
      StaysTracked(events, before, w, home);
      DeskRuns.RunPart(events + before);
      DeskRuns.RunMore(events + before, e);
      HomeByMore(events, more, w, home);
      OneMoreTracked(d, e, w, HomeBy(events, before, w, home));
    }
  }

  lemma OneMoreTracked(d: Desktop, e: Event, w: nat, home: Home)
    requires Part(d) && Tracks(d, w, home) && Undisturbed(d, e, w) && OnItsWay(Step(d, e), w)
    ensures Tracks(Step(d, e), w, HomeNow(d, w, home))
  {
    hide Part, HomeNow, Undisturbed, Tracks, ManageStart;
    if e.Managing? {
      ManagingSpot(d, w, home);
      hide OnItsWay;
      SpotTracks(ManageStart(d), w, HomeNow(d, w, home));
    } else {
      hide Step;
      EventTracks(d, e, w, home);
    }
  }

  lemma SpotTracks(d: Desktop, w: nat, home: Home)
    requires Spot(false, d, w, home) && OnItsWay(d, w)
    ensures Tracks(d, w, home)
  {
    hide Spot;
  }

  /**
   A floating window that has a size is maximized or goes fullscreen in a manage
   sequence. Whatever happens then, as long as it is undisturbed: when a manage
   sequence brings it back it is as large as it was, and at its place on the
   output it is on by then, or in the corner of its output if it had none meanwhile.
   */
  lemma ComesBack(events: seq<Event>, more: seq<Event>, w: nat)
    requires DeskRuns.SaneRun(events + [Managing] + more + [Managing])
    requires Floats(Cleanup(Run(events)), w) && LetGoWell(DeskSeats.BeforeSeats(Run(events)), w)
    requires Journey(events + [Managing], more, w) && Undisturbed(Run(events + [Managing] + more), Managing, w)
    requires Returned(Run(events + [Managing] + more + [Managing]), w)
    ensures
      var was, there := Cleanup(Run(events)), Run(events + [Managing] + more + [Managing]);
      var f, f' := was.windows[w].frame, there.windows[w].frame;
      && !Orphaned(there, w) && f'.proposed == Some((f.width, f.height))
      && if WasOrphaned(events + [Managing], more + [Managing], w)
         then f'.x - Own(there, w).x == BORDER && f'.y - Own(there, w).y == BORDER_TOP
         else f'.x - Own(there, w).x == f.x - Own(was, w).x && f'.y - Own(there, w).y == f.y - Own(was, w).y
  {
    var out := events + [Managing];
    var d, c := Run(events), Cleanup(Run(events));
    assert w in c.windows && !Orphaned(c, w) by {
      hide Cleanup, Run, OutputOf;
    }
    var home := HomeOf(c.windows[w].frame, Own(c, w));
    var last := Run(out + more);
    var there := Run(out + more + [Managing]);
    hide *;
    SaneBefore(events, more);
    DeskRuns.RunPart(events);
    DeskRuns.RunMore(events, Managing);
    DeskRuns.RunMore(out + more, Managing);
    DeskSeats.ManagingStep(d);
    DeskSeats.ManagingStep(last);
    JourneyStarts(out, more, w);
    Departs(d, w);
    StaysTracked(out, more, w, home);
    DeskRuns.RunPart(out + more);
    ManagingSpot(last, w, HomeBy(out, more, w, home));
    LastHome(out, more, w, home);
    BackHome(there, w, HomeBy(out, more + [Managing], w, home));
    HomeIs(out, more + [Managing], w, c);
  }

  predicate Returned(d: Desktop, w: nat) {
    w in d.windows && Floating(d.windows[w].frame)
  }

  lemma SaneBefore(events: seq<Event>, more: seq<Event>)
    requires DeskRuns.SaneRun(events + [Managing] + more + [Managing])
    ensures DeskRuns.SaneRun(events) && DeskRuns.SaneRun(events + [Managing] + more)
  {
    var all := events + [Managing] + more + [Managing];
    assert forall n :: 0 <= n <= |events| ==> events[..n] == all[..n];
    var most := events + [Managing] + more;
    assert forall n :: 0 <= n <= |most| ==> most[..n] == all[..n];
    hide DeskRuns.Sane, Run;
  }

  lemma JourneyStarts(events: seq<Event>, more: seq<Event>, w: nat)
    requires Journey(events, more, w)
    ensures w in Run(events).windows && !Floating(Run(events).windows[w].frame)
  {
    assert more[..0] == [] && events + [] == events;
    assert OnItsWay(Run(events + more[..0]), w);
    hide Run, Undisturbed;
  }

  lemma LastHome(events: seq<Event>, more: seq<Event>, w: nat, home: Home)
    ensures HomeBy(events, more + [Managing], w, home) == HomeNow(Run(events + more), w, HomeBy(events, more, w, home))
  {
    assert (more + [Managing])[..|more + [Managing]| - 1] == more;
    HomeByMore(events, more + [Managing], w, home);
    hide *;
  }

  lemma BackHome(d: Desktop, w: nat, home: Home)
    requires Spot(false, d, w, home) && Returned(d, w)
    ensures !Orphaned(d, w) && Here(d.windows[w].frame, Own(d, w), home)
            && d.windows[w].frame.proposed == Some((home.width, home.height))
  {
    hide OutputOf;
  }

  lemma HomeIs(events: seq<Event>, more: seq<Event>, w: nat, c: Desktop)
    requires w in c.windows && !Orphaned(c, w)
    ensures
      var f, r := c.windows[w].frame, Own(c, w);
      var home := HomeBy(events, more, w, HomeOf(f, r));
      home.width == f.width && home.height == f.height
      && (if WasOrphaned(events, more, w) then home.dx == BORDER && home.dy == BORDER_TOP
          else home.dx == f.x - r.x && home.dy == f.y - r.y)
  {
    hide Run, Orphaned;
  }
}
