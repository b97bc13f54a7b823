/** What manage sequences and whole runs keep of the windows. */
module DeskRuns {
  import opened Bytes
  import opened Desk
  import opened DeskPartition

  /** The outputs are the same but for the windows on them, and no window is orphaned. */
  predicate SameOutputs(d: Desktop, d': Desktop) {
    && |d'.outputs| == |d.outputs| && (d.orphans == [] ==> d'.orphans == [])
    && forall k :: 0 <= k < |d.outputs| ==>
         d'.outputs[k].id == d.outputs[k].id && d'.outputs[k].removed == d.outputs[k].removed
           && d'.outputs[k].rect == d.outputs[k].rect
  }

  /** No window is lost or made up on the way. */
  ghost predicate Keeps(d: Desktop, d': Desktop) {
    Part(d') && SameOpen(d.windows, d'.windows) && SameOutputs(d, d')
  }

  lemma MoveSame(d: Desktop, w: nat, k: nat)
    requires w in d.windows && k < |d.outputs|
    ensures SameOutputs(d, MoveToOutput(d, w, k))
  {
    hide OutputOf;
  }

  lemma MinimizeSame(d: Desktop, w: nat)
    requires w in d.windows
    ensures SameOutputs(d, Minimize(d, w))
  {
    hide OutputOf, Erase, Unfocus;
  }

  lemma SetStateSame(d: Desktop, w: nat, maximized: bool, fullscreen: bool, target: Option<nat>)
    requires w in d.windows && (target.Some? ==> target.value < |d.outputs|)
    ensures SameOutputs(d, SetState(d, w, maximized, fullscreen, target))
  {
    if target.Some? {
      MoveSame(d, w, target.value);
    }
    hide MoveToOutput, SetStateOf, OutputOf;
  }

  lemma {:induction false} ToTopSame(outputs: seq<Output>, w: nat)
    ensures |ToTop(outputs, w)| == |outputs|
    ensures forall k :: 0 <= k < |outputs| ==>
              ToTop(outputs, w)[k] == outputs[k].(windows := ToTop(outputs, w)[k].windows)
  {
    if outputs != [] {
      ToTopSame(outputs[1..], w);
    }
  }

  lemma FocusSame(d: Desktop, s: nat, w: Option<nat>)
    requires s < |d.seats|
    ensures SameOutputs(d, Focus(d, s, w))
  {
    if w.Some? {
      ToTopSame(d.outputs, w.value);
    }
    hide ToTop;
  }

  lemma MaybeDestroySame(d: Desktop, w: nat)
    requires w in d.windows
    ensures SameOutputs(d, MaybeDestroy(d, w))
  {
    hide Forget;
  }

  lemma KeepsSelf(d: Desktop)
    requires Part(d)
    ensures Keeps(d, d)
  {
  }

  lemma KeepsPart(d: Desktop, d1: Desktop)
    requires Keeps(d, d1)
    ensures Part(d1) && |d1.outputs| == |d.outputs|
    ensures forall w :: w in d.windows ==> w in d1.windows && d1.windows[w].closed == d.windows[w].closed
  {
    hide Part;
    assert forall w :: w in d.windows ==> w in d1.windows.Keys;
  }

  lemma KeepsTwice(d: Desktop, d1: Desktop, d2: Desktop)
    requires Keeps(d, d1) && Keeps(d1, d2)
    ensures Keeps(d, d2)
  {
    hide Part;
  }

  lemma PutKeepsFrame(d: Desktop, w: nat, win: Window)
    requires Part(d) && w in d.windows && win.minimized == d.windows[w].minimized && win.closed == d.windows[w].closed
    ensures Keeps(d, Put(d, w, win)) && Put(d, w, win).windows[w] == win
  {
    PutKeeps(d, w, win);
    PutKeys(d, w, win);
    hide Part, Put, SameLists;
  }

  lemma SeatsKeeps(d: Desktop, seats: seq<Seat>)
    requires Part(d)
    ensures Keeps(d, d.(seats := seats))
  {
    SeatsKeep(d, seats);
    hide Part;
  }

  lemma StartOpKeeps(d: Desktop, s: Option<nat>, op: SeatOp, w: nat)
    requires Part(d)
    ensures Keeps(d, StartOp(d, s, op, w)) && StartOp(d, s, op, w).windows == d.windows
  {
    SeatsKeeps(d, StartOp(d, s, op, w).seats);
    hide Keeps, Part;
  }

  // ---------- window_manage ----------

  lemma ArriveKeeps(d: Desktop, w: nat)
    requires Part(d) && w in d.windows
    ensures Keeps(d, Arrive(d, w))
  {
    var win := Arrive(d, w).windows[w];
    PutKeepsFrame(d, w, win);
    SeatsKeeps(Put(d, w, win), Arrive(d, w).seats);
    hide Part, OutputOf, Interact;
  }

  lemma PressNavSame(win: Window)
    ensures PressNav(win).minimized == win.minimized && PressNav(win).closed == win.closed
  {
    var a, b, c := win.(wantMaximized := !win.frame.maximized, pendingNav := NoNav),
        win.(wantMinimized := true, pendingNav := NoNav), win.(pendingNav := NoNav);
    assert PressNav(win) == a || PressNav(win) == b || PressNav(win) == c;
    hide PressNav;
  }

  lemma PressNavKeeps(d: Desktop, w: nat)
    requires Part(d) && w in d.windows
    ensures Keeps(d, Put(d, w, PressNav(d.windows[w])))
  {
    hide *;
    PressNavSame(d.windows[w]);
    PutKeepsFrame(d, w, PressNav(d.windows[w]));
  }

  lemma DragOffKeeps(d: Desktop, w: nat)
    requires Part(d) && w in d.windows
    ensures Keeps(d, DragOff(d, w))
  {
    hide *;
    var win := d.windows[w];
    if win.moveRequested.None? || win.frame.fullscreen {
      StaysPut(d, w);
    } else {
      var d1 := Put(d, w, win.(wantMaximized := false));
      PutKeepsFrame(d, w, win.(wantMaximized := false));
      KeepsPart(d, d1);
      var d2 := StartOp(SetState(d1, w, false, false, None), win.moveRequested, Moving, w);
      Unmaximized(d1, w, win.moveRequested);
      KeepsPart(d1, d2);
      DragOffIs(d, w, d1, d2);
      KeepsTwice(d, d1, d2);
      PutKeepsFrame(d2, w, d2.windows[w].(moveRequested := None));
      KeepsTwice(d, d2, DragOff(d, w));
    }
  }

  lemma StaysPut(d: Desktop, w: nat)
    requires Part(d) && w in d.windows && (d.windows[w].moveRequested.None? || d.windows[w].frame.fullscreen)
    ensures Keeps(d, DragOff(d, w))
  {
    KeepsSelf(d);
    PutKeepsFrame(d, w, d.windows[w].(moveRequested := None));
    hide Keeps, SetState, StartOp, Part;
  }

  lemma DragOffIs(d: Desktop, w: nat, d1: Desktop, d2: Desktop)
    requires w in d.windows && w in d2.windows
    requires var win := d.windows[w];
             win.moveRequested.Some? && !win.frame.fullscreen && d1 == Put(d, w, win.(wantMaximized := false))
    requires w in d1.windows
             && d2 == StartOp(SetState(d1, w, false, false, None), d.windows[w].moveRequested, Moving, w)
    ensures DragOff(d, w) == Put(d2, w, d2.windows[w].(moveRequested := None))
  {
    hide SetState, StartOp;
  }

  lemma SetStateKeepsAll(d: Desktop, w: nat, maximized: bool, fullscreen: bool, target: Option<nat>)
    requires Part(d) && w in d.windows && (target.Some? ==> target.value < |d.outputs|)
    ensures Keeps(d, SetState(d, w, maximized, fullscreen, target))
  {
    SetStateKeeps(d, w, maximized, fullscreen, target);
    SetStateSame(d, w, maximized, fullscreen, target);
    hide Part, SetState;
  }

  lemma Unmaximized(d: Desktop, w: nat, s: Option<nat>)
    requires Part(d) && w in d.windows
    ensures Keeps(d, StartOp(SetState(d, w, false, false, None), s, Moving, w))
  {
    hide *;
    var d1 := SetState(d, w, false, false, None);
    SetStateKeepsAll(d, w, false, false, None);
    KeepsPart(d, d1);
    StartOpKeeps(d1, s, Moving, w);
    KeepsTwice(d, d1, StartOp(d1, s, Moving, w));
  }

  lemma ResizeKeeps(d: Desktop, w: nat)
    requires Part(d) && w in d.windows
    ensures Keeps(d, Resize(d, w))
  {
    var win := d.windows[w];
    StartOpKeeps(d, win.resizeRequested, Resizing, w);
    KeepsSelf(d);
    var d1 := if win.frame.maximized || win.frame.fullscreen then d else StartOp(d, win.resizeRequested, Resizing, w);
    hide StartOp, Put, Part;
    PutKeepsFrame(d1, w, win.(resizeRequested := None));
  }

  lemma WishedState(d: Desktop, w: nat) returns (d1: Desktop)
    requires Part(d) && w in d.windows
    ensures var win := d.windows[w];
            d1 == if win.wantMaximized != win.frame.maximized || win.wantFullscreen != win.frame.fullscreen
                  then SetState(d, w, win.wantMaximized, win.wantFullscreen,
                                FullscreenOutput(d.outputs, win.wantFullscreenOutput, |d.outputs|))
                  else d
    ensures Keeps(d, d1)
  {
    hide *;
    var win := d.windows[w];
    var target := FullscreenOutput(d.outputs, win.wantFullscreenOutput, |d.outputs|);
    SetStateKeepsAll(d, w, win.wantMaximized, win.wantFullscreen, target);
    KeepsSelf(d);
    d1 := if win.wantMaximized != win.frame.maximized || win.wantFullscreen != win.frame.fullscreen
          then SetState(d, w, win.wantMaximized, win.wantFullscreen, target) else d;
  }

  lemma MinimizeKeepsAll(d: Desktop, w: nat)
    requires Part(d) && w in d.windows
    ensures Keeps(d, Minimize(d, w))
  {
    MinimizeKeeps(d, w);
    MinimizeSame(d, w);
    hide Part, Minimize;
  }

  lemma FollowWishesKeeps(d: Desktop, w: nat)
    requires Part(d) && w in d.windows
    ensures Keeps(d, FollowWishes(d, w))
  {
    hide Keeps, SetState, Put, Part, FullscreenOutput, Minimize;
    var win := d.windows[w];
    var d1 := WishedState(d, w);
    KeepsPart(d, d1);
    var d2 := Put(d1, w, d1.windows[w].(wantFullscreenOutput := None));
    PutKeepsFrame(d1, w, d1.windows[w].(wantFullscreenOutput := None));
    KeepsPart(d1, d2);
    KeepsTwice(d, d1, d2);
    MinimizeKeepsAll(d2, w);
    KeepsTwice(d, d2, Minimize(d2, w));
  }

  lemma CenterKeeps(d: Desktop, w: nat)
    requires Part(d) && w in d.windows
    ensures Keeps(d, Center(d, w))
  {
    KeepsSelf(d);
    var win := Center(d, w).windows[w];
    if Center(d, w) != d {
      PutKeepsFrame(d, w, win);
    }
    hide Part, OutputOf, Centered;
  }

  lemma ManageKeeps(d: Desktop, w: nat)
    requires Part(d)
    ensures Keeps(d, Desk.Manage(d, w))
  {
    hide Keeps, Arrive, PressNav, DragOff, Resize, FollowWishes, Center, Part, Put;
    KeepsSelf(d);
    if w in d.windows {
      if d.windows[w].isNew {
        ArriveKeeps(d, w);
      }
      var d1 := if d.windows[w].isNew then Arrive(d, w) else d;
      KeepsPart(d, d1);
      PressNavKeeps(d1, w);
      var d2 := Put(d1, w, PressNav(d1.windows[w]));
      KeepsPart(d1, d2);
      KeepsTwice(d, d1, d2);
      DragOffKeeps(d2, w);
      var d3 := DragOff(d2, w);
      KeepsPart(d2, d3);
      KeepsTwice(d, d2, d3);
      RestKeeps(d, d3, w);
    }
  }

  lemma RestKeeps(d: Desktop, d3: Desktop, w: nat)
    requires Keeps(d, d3) && Part(d3) && w in d3.windows
    ensures Keeps(d, Center(FollowWishes(Resize(d3, w), w), w))
  {
    hide *;
    var d4 := Resize(d3, w);
    ResizeKeeps(d3, w);
    KeepsPart(d3, d4);
    KeepsTwice(d, d3, d4);
    var d5 := FollowWishes(d4, w);
    FollowWishesKeeps(d4, w);
    KeepsPart(d4, d5);
    KeepsTwice(d, d4, d5);
    CenterKeeps(d5, w);
    KeepsTwice(d, d5, Center(d5, w));
  }

  lemma {:induction false} ManageAllKeeps(d: Desktop, ws: seq<nat>)
    requires Part(d)
    ensures Keeps(d, ManageAll(d, ws))
    decreases |ws|
  {
    hide Desk.Manage, Part, Keeps;
    if ws == [] {
      KeepsSelf(d);
    } else {
      var d1 := Desk.Manage(d, ws[0]);
      ManageKeeps(d, ws[0]);
      KeepsPart(d, d1);
      ManageAllKeeps(d1, ws[1..]);
      KeepsTwice(d, d1, ManageAll(d1, ws[1..]));
    }
  }

  lemma {:induction false} ManageOutputsKeeps(d: Desktop, n: nat)
    requires Part(d)
    ensures Keeps(d, ManageOutputs(d, n))
    decreases n
  {
    hide Part, ManageAll, Keeps;
    KeepsSelf(d);
    if n > 0 {
      ManageOutputsKeeps(d, n - 1);
      var d1 := ManageOutputs(d, n - 1);
      KeepsPart(d, d1);
      if n <= |d1.outputs| {
        ManageAllKeeps(d1, d1.outputs[n - 1].windows);
        KeepsTwice(d, d1, ManageAll(d1, d1.outputs[n - 1].windows));
      }
    }
  }

  // ---------- seat_manage ----------

  lemma FocusKeepsAll(d: Desktop, s: nat, w: Option<nat>)
    requires Part(d) && s < |d.seats|
    ensures Keeps(d, Focus(d, s, w))
  {
    FocusKeeps(d, s, w);
    FocusSame(d, s, w);
    hide Part, Focus;
  }

  lemma SeatFocusesKeeps(d: Desktop, s: nat)
    requires Part(d) && s < |d.seats|
    ensures Keeps(d, SeatFocuses(d, s))
  {
    hide Focus, Part, OutputUnderPointer;
    KeepsSelf(d);
    forall w {
      FocusKeepsAll(d, s, w);
    }
    var seat := d.seats[s];
    var k := OutputUnderPointer(d);
    var top := if k < |d.outputs|
      && d.outputs[k].windows != [] then Some(d.outputs[k].windows[|d.outputs[k].windows| - 1]) else None;
    var d1 := if seat.interacted.Some? then Focus(d, s, seat.interacted)
              else if seat.focused.None? then Focus(d, s, top) else d;
    assert Keeps(d, d1);
    SeatsKeeps(d1, SeatFocuses(d, s).seats);
  }

  lemma SeatActsKeeps(d: Desktop, s: nat)
    requires Part(d) && s < |d.seats|
    ensures Keeps(d, SeatActs(d, s))
  {
    KeepsSelf(d);
    forall w {
      FocusKeepsAll(d, s, w);
    }
    hide Focus, Part, OutputUnderPointer;
    var d1 := if d.seats[s].action == NextAction then FocusNext(d, s) else d;
    assert Keeps(d, d1);
    SeatsKeeps(d1, SeatActs(d, s).seats);
  }

  lemma SeatReleasesKeeps(d: Desktop, s: nat)
    requires Part(d) && s < |d.seats|
    ensures Keeps(d, SeatReleases(d, s))
  {
    hide UpdateOutput, Part;
    KeepsSelf(d);
    var seat := d.seats[s];
    var d1 := d;
    if seat.op != NoOp && seat.opRelease && seat.opWindow.Some? && seat.opWindow.value in d.windows {
      d1 := UpdateOutput(d, seat.opWindow.value);
      UpdateOutputKeeps(d, seat.opWindow.value);
    }
    SeatsKeeps(d1, SeatReleases(d, s).seats);
  }

  lemma MoveKeepsAll(d: Desktop, w: nat, k: nat)
    requires Part(d) && w in d.windows && k < |d.outputs|
    ensures Keeps(d, MoveToOutput(d, w, k))
  {
    MoveKeeps(d, w, k);
    MoveSame(d, w, k);
    hide Part, MoveToOutput;
  }

  lemma UpdateOutputKeeps(d: Desktop, w: nat)
    requires Part(d) && w in d.windows
    ensures Keeps(d, UpdateOutput(d, w))
  {
    hide Part, MoveToOutput, OutputAt, Keeps;
    KeepsSelf(d);
    var f := d.windows[w].frame;
    var k := OutputAt(d.outputs, f.x + Half(f.width), f.y + Half(f.height));
    if k < |d.outputs| {
      MoveKeepsAll(d, w, k);
    }
  }

  lemma SeatManageKeeps(d: Desktop, s: nat)
    requires Part(d)
    ensures Keeps(d, SeatManage(d, s))
  {
    hide SeatFocuses, SeatActs, SeatReleases, Part, Keeps;
    KeepsSelf(d);
    if s < |d.seats| {
      SeatFocusesKeeps(d, s);
      var d1 := SeatFocuses(d, s);
      KeepsPart(d, d1);
      if s < |d1.seats| {
        SeatActsKeeps(d1, s);
        var d2 := SeatActs(d1, s);
        KeepsPart(d1, d2);
        KeepsTwice(d, d1, d2);
        if s < |d2.seats| {
          SeatReleasesKeeps(d2, s);
          KeepsTwice(d, d2, SeatReleases(d2, s));
        }
      }
    }
  }

  lemma {:induction false} SeatsManageKeeps(d: Desktop, n: nat)
    requires Part(d)
    ensures Keeps(d, SeatsManage(d, n))
    decreases n
  {
    hide Part, SeatManage, Keeps;
    KeepsSelf(d);
    if n > 0 {
      SeatsManageKeeps(d, n - 1);
      KeepsPart(d, SeatsManage(d, n - 1));
      SeatManageKeeps(SeatsManage(d, n - 1), n - 1);
      KeepsTwice(d, SeatsManage(d, n - 1), SeatsManage(d, n));
    }
  }

  // ---------- the clean-up before ----------

  lemma FramesTwice(a: map<nat, Window>, b: map<nat, Window>, c: map<nat, Window>)
    requires OnlyFrames(a, b) && OnlyFrames(b, c)
    ensures OnlyFrames(a, c)
  {
    assert forall w :: w in a ==> w in b.Keys;
  }

  lemma FramesFiles(windows: map<nat, Window>, windows': map<nat, Window>)
    requires OnlyFrames(windows, windows')
    ensures SameFiles(windows, windows') && SameOpen(windows, windows')
  {
  }

  lemma RefitFrames(windows: map<nat, Window>, w: nat, f: Frame)
    requires w in windows
    ensures OnlyFrames(windows, windows[w := windows[w].(frame := f)])
  {
  }

  lemma {:induction false} RefillFrames(windows: map<nat, Window>, ws: seq<nat>, r: Rect)
    ensures OnlyFrames(windows, RefillAll(windows, ws, r))
    decreases |ws|
  {
    hide ApplyGeometry, OnlyFrames;
    if ws == [] {
      SameFrames(windows);
    } else if ws[0] in windows {
      var f := ApplyGeometry(windows[ws[0]].frame, r);
      var next := windows[ws[0] := windows[ws[0]].(frame := f)];
      RefitFrames(windows, ws[0], f);
      RefillFrames(next, ws[1..], r);
      FramesTwice(windows, next, RefillAll(next, ws[1..], r));
    } else {
      RefillFrames(windows, ws[1..], r);
    }
  }

  lemma SameFrames(windows: map<nat, Window>)
    ensures OnlyFrames(windows, windows)
  {
  }

  /** One more output refilled. */
  lemma RefillOne(d: Desktop, n: nat)
    requires 0 < n <= |d.outputs|
    ensures var d1, d2 := Refill(d, n - 1), Refill(d, n);
            d2 == d1 || (n <= |d1.outputs| && d2.orphans == d1.orphans && SameFiles(d1.windows, d2.windows)
              && SameOpen(d1.windows, d2.windows) && OnlyFrames(d1.windows, d2.windows)
                         && d2.outputs == d1.outputs[n - 1 := d1.outputs[n - 1].(geometryChanged := false)])
  {
    var d1 := Refill(d, n - 1);
    if |d1.outputs| == |d.outputs| {
      RefillFrames(d1.windows, Listed(d1.outputs[n - 1]), d1.outputs[n - 1].rect);
      FramesFiles(d1.windows, RefillAll(d1.windows, Listed(d1.outputs[n - 1]), d1.outputs[n - 1].rect));
    }
    hide RefillAll, Listed, SameFiles, SameOpen, OnlyFrames;
  }

  lemma SameListsTwice(d: Desktop, d1: Desktop, d2: Desktop)
    requires SameLists(d, d1) && SameLists(d1, d2)
    ensures SameLists(d, d2)
  {
  }

  lemma {:induction false} RefillLists(d: Desktop, n: nat)
    requires n <= |d.outputs|
    ensures SameLists(d, Refill(d, n)) && SameOpen(d.windows, Refill(d, n).windows)
    decreases n
  {
    if n > 0 {
      RefillLists(d, n - 1);
      RefillOne(d, n);
      var d1, d2 := Refill(d, n - 1), Refill(d, n);
      assert SameLists(d1, d2) && SameOpen(d1.windows, d2.windows) by {
        hide Refill;
      }
      hide *;
      SameListsTwice(d, d1, d2);
      SameOpenTwice(d.windows, d1.windows, d2.windows);
    }
  }

  lemma {:induction false} RefillSame(d: Desktop, n: nat)
    requires n <= |d.outputs|
    ensures SameOutputs(d, Refill(d, n))
    decreases n
  {
    if n > 0 {
      RefillSame(d, n - 1);
      hide RefillAll, Listed;
    }
  }

  lemma RefillKeeps(d: Desktop)
    requires Part(d)
    ensures Keeps(d, Refill(d, |d.outputs|))
  {
    RefillLists(d, |d.outputs|);
    RefillSame(d, |d.outputs|);
    SameListsKeeps(d, Refill(d, |d.outputs|));
    hide Part, Refill;
  }

  lemma QueuedKeeps(d: Desktop, w: nat)
    requires Part(d) && w in d.windows
    ensures Keeps(d, Queued(d, w)) && w in Queued(d, w).windows
  {
    hide Keeps, Minimize, Part, Put, Focus;
    KeepsSelf(d);
    if d.windows[w].queueMinimize {
      var d1 := Minimize(d, w);
      MinimizeKeepsAll(d, w);
      KeepsPart(d, d1);
      var d2 := Put(d1, w, d1.windows[w].(queueMinimize := false));
      PutKeepsFrame(d1, w, d1.windows[w].(queueMinimize := false));
      KeepsTwice(d, d1, d2);
      KeepsPart(d, d2);
      if d2.seats != [] {
        FocusKeepsAll(d2, 0, Some(w));
        KeepsTwice(d, d2, Focus(d2, 0, Some(w)));
      }
      KeepsPart(d, Queued(d, w));
    }
  }

  /** Windows only go if they are closed. */
  ghost predicate KeepsOpen(d: Desktop, d': Desktop) {
    Part(d') && Stay(d.windows, d'.windows) && SameOutputs(d, d')
  }

  lemma OpenTwice(d: Desktop, d1: Desktop, d2: Desktop)
    requires (Keeps(d, d1) || KeepsOpen(d, d1)) && KeepsOpen(d1, d2)
    ensures KeepsOpen(d, d2)
  {
    hide Part;
  }

  lemma MaybeDestroyOpen(d: Desktop, w: nat)
    requires Part(d) && w in d.windows
    ensures KeepsOpen(d, MaybeDestroy(d, w)) && Part(MaybeDestroy(d, w))
  {
    MaybeDestroyKeeps(d, w);
    MaybeDestroySame(d, w);
    hide Part, MaybeDestroy;
  }

  lemma OpenSelf(d: Desktop)
    requires Part(d)
    ensures KeepsOpen(d, d)
  {
    hide Part;
  }

  lemma {:induction false} TidyKeeps(d: Desktop, ws: seq<nat>)
    requires Part(d)
    ensures KeepsOpen(d, Tidy(d, ws)) && Part(Tidy(d, ws))
    decreases |ws|
  {
    hide Queued, MaybeDestroy, Part, Keeps, KeepsOpen;
    if ws == [] {
      OpenSelf(d);
    } else {
      var w := ws[0];
      if w !in d.windows {
        TidyKeeps(d, ws[1..]);
      } else {
        QueuedKeeps(d, w);
        var d1 := Queued(d, w);
        KeepsPart(d, d1);
        MaybeDestroyOpen(d1, w);
        var d2 := MaybeDestroy(d1, w);
        OpenTwice(d, d1, d2);
        TidyKeeps(d2, ws[1..]);
        OpenTwice(d, d2, Tidy(d2, ws[1..]));
      }
    }
  }

  lemma {:induction false} TidyOutputsKeeps(d: Desktop, n: nat)
    requires Part(d)
    ensures KeepsOpen(d, TidyOutputs(d, n)) && Part(TidyOutputs(d, n))
    decreases n
  {
    hide Part, Tidy, Listed, KeepsOpen;
    OpenSelf(d);
    if n > 0 {
      TidyOutputsKeeps(d, n - 1);
      var d1 := TidyOutputs(d, n - 1);
      if n <= |d1.outputs| {
        TidyKeeps(d1, Listed(d1.outputs[n - 1]));
        OpenTwice(d, d1, Tidy(d1, Listed(d1.outputs[n - 1])));
      }
    }
  }

  lemma {:induction false} DestroyClosedKeeps(d: Desktop, ws: seq<nat>)
    requires Part(d)
    ensures KeepsOpen(d, DestroyClosed(d, ws)) && Part(DestroyClosed(d, ws))
    decreases |ws|
  {
    hide Part, MaybeDestroy, KeepsOpen;
    if ws == [] {
      OpenSelf(d);
    } else if ws[0] in d.windows {
      var d1 := MaybeDestroy(d, ws[0]);
      MaybeDestroyOpen(d, ws[0]);
      DestroyClosedKeeps(d1, ws[1..]);
      OpenTwice(d, d1, DestroyClosed(d1, ws[1..]));
    } else {
      DestroyClosedKeeps(d, ws[1..]);
    }
  }

  /** No window waits for an output while there is one. */
  predicate NoneWaiting(d: Desktop) {
    d.orphans != [] ==> forall k :: 0 <= k < |d.outputs| ==> d.outputs[k].removed
  }

  lemma NoneWaitingStays(d: Desktop, d': Desktop)
    requires NoneWaiting(d) && SameOutputs(d, d')
    ensures NoneWaiting(d')
  {
  }

  lemma AdoptSame(d: Desktop)
    ensures |AdoptOrphans(d).outputs| == |d.outputs|
            ==> forall k :: 0 <= k < |d.outputs| ==> AdoptOrphans(d).outputs[k].removed == d.outputs[k].removed
  {
    var target := OutputUnderPointer(d);
    if target < |d.outputs| {
      AdoptAllSame(d, d.orphans, target);
    }
    hide Adopt, OutputUnderPointer;
  }

  lemma {:induction false} AdoptAllSame(d: Desktop, ws: seq<nat>, k: nat)
    requires k < |d.outputs|
    ensures |Adopt(d, ws, k).outputs| == |d.outputs|
    ensures forall j :: 0 <= j < |d.outputs| ==> Adopt(d, ws, k).outputs[j].removed == d.outputs[j].removed
    decreases |ws|
  {
    if ws != [] {
      var w := ws[0];
      if w !in d.windows {
        AdoptAllSame(d, ws[1..], k);
      } else {
        MoveSame(d, w, k);
        var d1 := MoveToOutput(d, w, k);
        var win := d1.windows[w].(frame := Transfer(d1.windows[w].frame, None, d1.outputs[k].rect));
        hide MoveToOutput, Transfer;
        AdoptAllSame(Put(d1, w, win), ws[1..], k);
      }
    }
  }

  lemma AdoptOrphansNone(d: Desktop)
    requires Part(d)
    ensures Part(AdoptOrphans(d)) && SameOpen(d.windows, AdoptOrphans(d).windows) && NoneWaiting(AdoptOrphans(d))
  {
    AdoptOrphansKeeps(d);
    AdoptSame(d);
    hide Part, AdoptOrphans;
  }

  lemma CleanupKeeps(d: Desktop)
    requires Part(d)
    ensures Part(Cleanup(d)) && Stay(d.windows, Cleanup(d).windows) && NoneWaiting(Cleanup(d))
  {
    hide DestroyOutputs, AdoptOrphans, Refill, TidyOutputs, DestroyClosed, Part, Ids, SameOutputs, NoneWaiting;
    DestroyOutputsKeeps(d, Ids(d.outputs));
    var d1 := DestroyOutputs(d, Ids(d.outputs));
    AdoptOrphansNone(d1);
    var d2 := AdoptOrphans(d1);
    RefillKeeps(d2);
    var d3 := Refill(d2, |d2.outputs|);
    NoneWaitingStays(d2, d3);
    TidyOutputsKeeps(d3, |d3.outputs|);
    var d4 := TidyOutputs(d3, |d3.outputs|);
    NoneWaitingStays(d3, d4);
    DestroyClosedKeeps(d4, d4.orphans);
    NoneWaitingStays(d4, DestroyClosed(d4, d4.orphans));
  }

  /** A manage sequence files every window, lets only closed ones go, and leaves none waiting. */
  lemma ManageStartKeeps(d: Desktop)
    requires Part(d)
    ensures Part(ManageStart(d)) && Stay(d.windows, ManageStart(d).windows) && NoneWaiting(ManageStart(d))
  {
    hide Cleanup, ManageOutputs, ManageAll, SeatsManage, Part, SameOutputs, NoneWaiting;
    CleanupKeeps(d);
    var d1 := Cleanup(d);
    ManageOutputsKeeps(d1, |d1.outputs|);
    var d2 := ManageOutputs(d1, |d1.outputs|);
    NoneWaitingStays(d1, d2);
    ManageAllKeeps(d2, d2.orphans);
    var d3 := ManageAll(d2, d2.orphans);
    NoneWaitingStays(d2, d3);
    SeatsManageKeeps(d3, |d3.seats|);
    NoneWaitingStays(d3, SeatsManage(d3, |d3.seats|));
  }

  // ---------- events and runs ----------

  /**
   Window ids are fresh, and when a window opens the pointer to the main output
   is null or points to an output that is still there.
   */
  predicate Sane(d: Desktop, e: Event) {
    match e
    case WindowOpened(w) => w !in d.windows && MainLive(d)
    case _ => true
  }

  predicate MainLive(d: Desktop) {
    d.main.Some? ==> IndexOf(d.outputs, d.main.value) < |d.outputs|
  }

  lemma PutNew(d: Desktop, w: nat)
    requires Part(d) && w !in d.windows
    ensures PartBut(Put(d, w, NEW_WINDOW), [w])
  {
    var d1 := Put(d, w, NEW_WINDOW);
    forall v: nat
      ensures Places(d1, v) + Count([w], v) == One(v in d1.windows)
    {
      assert Places(d, v) == One(v in d.windows);
      CountOne(w, v);
    }
    hide Places, Count;
    forall k | 0 <= k < |d1.outputs|
      ensures Filed(d1.outputs[k], d1.windows)
    {
      assert Filed(d.outputs[k], d.windows);
    }
  }

  /** A new window is somewhere exactly if the main output is null or still there. */
  lemma OpenWindowPlaced(d: Desktop, w: nat)
    requires Part(d) && w !in d.windows
    ensures Part(OpenWindow(d, w)) <==> MainLive(d)
    ensures w in OpenWindow(d, w).windows
  {
    PutNew(d, w);
    var d1 := Put(d, w, NEW_WINDOW);
    assert d1.windows[w] == NEW_WINDOW && d1.outputs == d.outputs && d1.main == d.main;
    if d.main.None? {
      OrphansBut(d1, [w]);
    } else {
      var k := IndexOf(d.outputs, d.main.value);
      if k < |d.outputs| {
        PushOneKeeps(d1, [w], k);
        PartButNone(OpenWindow(d, w));
      } else {
        CountOne(w, w);
        assert Places(d1, w) + Count([w], w) == One(w in d1.windows);
        assert Places(d1, w) == 0;
      }
    }
    hide Part, PartBut, Places, With;
  }

  lemma OutputAddedKeeps(d: Desktop, id: nat)
    requires Part(d)
    ensures Part(Step(d, OutputAdded(id)))
  {
    var o := Output(id, Rect(0, 0, 0, 0), false, false, [], []);
    var d' := Step(d, OutputAdded(id));
    forall w: nat
      ensures Places(d', w) == One(w in d'.windows)
    {
      PlacesJoin(d.outputs, [o], w);
      assert [o][1..] == [];
      assert Places(d, w) == One(w in d.windows);
    }
    forall k | 0 <= k < |d'.outputs|
      ensures Filed(d'.outputs[k], d'.windows)
    {
      if k < |d.outputs| {
        assert Filed(d.outputs[k], d.windows);
      }
    }
    hide Places, Filed;
  }

  lemma OutputEventLists(d: Desktop, e: Event)
    requires e.OutputGone? || e.OutputMoved? || e.OutputSized? || e.SeatAdded? || e.SeatSays?
    ensures SameLists(d, Step(d, e))
  {
    hide IndexOf, Hear;
    if e.OutputSized? {
      var k := IndexOf(d.outputs, e.id);
      if k < |d.outputs| {
        SizeOutputLists(d, k, e.width, e.height);
      }
    }
    hide SizeOutput;
  }

  lemma SizeOutputLists(d: Desktop, k: nat, width: int, height: int)
    requires k < |d.outputs|
    ensures SameLists(d, SizeOutput(d, k, width, height))
  {
    hide IndexOf;
  }

  lemma GrantSame(win: Window, wish: Wish)
    ensures Grant(win, wish).minimized == win.minimized
  {
    hide At;
    match wish
    case Decoration(on) =>
    case Dimensions(_, _) =>
    case _ =>
  }

  lemma WindowEventKeeps(d: Desktop, e: Event)
    requires Part(d) && (e.WindowWishes? || e.Dragged?)
    ensures Part(Step(d, e))
  {
    if e.w in d.windows {
      if e.WindowWishes? {
        GrantSame(d.windows[e.w], e.wish);
        PutKeeps(d, e.w, Grant(d.windows[e.w], e.wish));
      } else {
        PutKeeps(d, e.w, d.windows[e.w].(frame := At(d.windows[e.w].frame, e.x, e.y)));
      }
    }
    hide Part, Grant, Put, SameLists;
  }

  lemma StepPart(d: Desktop, e: Event)
    requires Part(d) && Sane(d, e)
    ensures Part(Step(d, e))
  {
    match e
    case WindowOpened(w) => OpenWindowPlaced(d, w); hide Part, OpenWindow;
    case WindowWishes(_, _) => WindowEventKeeps(d, e); hide *;
    case Dragged(_, _, _) => WindowEventKeeps(d, e); hide *;
    case OutputAdded(id) => OutputAddedKeeps(d, id); hide *;
    case Managing => ManageStartKeeps(d); hide Part, ManageStart;
    case _ => OutputEventLists(d, e); SameListsKeeps(d, Step(d, e)); hide *;
  }

  ghost predicate SaneRun(events: seq<Event>) {
    forall n :: 0 <= n < |events| ==> Sane(Run(events[..n]), events[n])
  }

  lemma SaneShorter(events: seq<Event>)
    requires SaneRun(events) && events != []
    ensures SaneRun(events[..|events| - 1]) && Sane(Run(events[..|events| - 1]), events[|events| - 1])
  {
    var before := events[..|events| - 1];
    assert forall n :: 0 <= n < |before| ==> before[..n] == events[..n];
    hide Run, Sane;
  }

  /** One event more. */
  lemma RunMore(events: seq<Event>, e: Event)
    ensures Run(events + [e]) == Step(Run(events), e)
    ensures SaneRun(events) && Sane(Run(events), e) ==> SaneRun(events + [e])
  {
    var more := events + [e];
    assert more[..|events|] == events;
    assert forall n :: 0 <= n <= |events| ==> more[..n] == events[..n];
    hide Step, Sane;
  }

  lemma {:induction false} RunPart(events: seq<Event>)
    requires SaneRun(events)
    ensures Part(Run(events))
  {
    if events != [] {
      SaneShorter(events);
      RunPart(events[..|events| - 1]);
      hide Part, Step, Sane;
      StepPart(Run(events[..|events| - 1]), events[|events| - 1]);
    }
  }

  /**
   In every run each window is listed once: with the stacked windows of an
   output or with its icons as it is minimized or not, or with the orphans.
   */
  lemma EachWindowOnce(events: seq<Event>, w: nat)
    requires SaneRun(events)
    ensures var d := Run(events);
            Places(d, w) == One(w in d.windows)
            && forall k :: 0 <= k < |d.outputs| ==>
                 (w in d.outputs[k].windows ==> w in d.windows && !d.windows[w].minimized)
                 && (w in d.outputs[k].minimized ==> w in d.windows && d.windows[w].minimized)
  {
    RunPart(events);
    var d := Run(events);
    forall k | 0 <= k < |d.outputs|
      ensures (w in d.outputs[k].windows ==> w in d.windows && !d.windows[w].minimized)
              && (w in d.outputs[k].minimized ==> w in d.windows && d.windows[w].minimized)
    {
      assert Filed(d.outputs[k], d.windows);
    }
    hide Run, Filed, Places;
  }

  /** Only a manage sequence destroys windows, and only closed ones. */
  lemma OnlyClosedGo(events: seq<Event>, e: Event, w: nat)
    requires SaneRun(events + [e]) && w in Run(events).windows && w !in Run(events + [e]).windows
    ensures e.Managing? && Run(events).windows[w].closed
  {
    SaneShorter(events + [e]);
    assert (events + [e])[..|events|] == events;
    assert Run(events + [e]) == Step(Run(events), e);
    hide *;
    RunPart(events);
    StepGone(Run(events), e, w);
  }

  lemma StepGone(d: Desktop, e: Event, w: nat)
    requires Part(d) && w in d.windows && w !in Step(d, e).windows
    ensures e.Managing? && d.windows[w].closed
  {
    hide Part, IndexOf, ManageStart, Grant, Hear, At;
    if e.Managing? {
      ManageStartKeeps(d);
    }
  }

  /** After a manage sequence no window waits for an output while there is one. */
  lemma NoneWaitAfterManaging(events: seq<Event>)
    requires SaneRun(events + [Managing])
    ensures NoneWaiting(Run(events + [Managing]))
  {
    SaneShorter(events + [Managing]);
    assert (events + [Managing])[..|events|] == events;
    assert Run(events + [Managing]) == Step(Run(events), Managing) == ManageStart(Run(events));
    hide *;
    RunPart(events);
    ManageStartKeeps(Run(events));
  }

  // ---------- a window that is nowhere ----------

  /** The main output, with nothing on it, goes. */
  const MAIN_GONE: seq<Event> := [OutputAdded(0)] + [OutputSized(0, 100, 100)] + [OutputGone(0)] + [Managing]

  /** A run in which the main output goes, and the window opened after it is on no output and no orphan either. */
  lemma WindowNowhere()
    ensures SaneRun(MAIN_GONE) && !MainLive(Run(MAIN_GONE))
    ensures var d := Run(MAIN_GONE + [WindowOpened(7)]); 7 in d.windows && Places(d, 7) == 0
  {
    var a, b, c := OutputAdded(0), OutputSized(0, 100, 100), OutputGone(0);
    RunMore([], a);
    assert [] + [a] == [a];
    RunMore([a], b);
    RunMore([a] + [b], c);
    RunMore([a] + [b] + [c], Managing);
    RunMore(MAIN_GONE, WindowOpened(7));
    MainGoes();
    MainManaged();
    hide *;
  }

  const LEAVING: Desktop := Desktop([Output(0, Rect(0, 0, 100, 100), true, true, [], [])], map[], [], Some(0), [])

  lemma MainGoes()
    ensures var a, b, c := OutputAdded(0), OutputSized(0, 100, 100), OutputGone(0);
            Step(Step(Step(Run([]), a), b), c) == LEAVING
            && Sane(Run([]), a) && Sane(Step(Run([]), a), b) && Sane(Step(Step(Run([]), a), b), c)
              && Sane(LEAVING, Managing)
            && SaneRun([])
  {
    hide ManageStart, OpenWindow;
    var o := Output(0, Rect(0, 0, 0, 0), false, false, [], []);
    assert Step(EMPTY, OutputAdded(0)) == EMPTY.(outputs := [o]);
  }

  lemma MainManaged()
    ensures var d := Step(LEAVING, Managing);
            !MainLive(d) && var d' := Step(d, WindowOpened(7)); 7 in d'.windows && Places(d', 7) == 0
  {
    var d1 := EMPTY.(main := Some(0));
    assert DestroyOutputs(LEAVING, Ids(LEAVING.outputs)) == d1 by {
      assert Ids(LEAVING.outputs) == [0];
      assert OutputMaybeDestroy(LEAVING, 0) == d1;
      assert DestroyOutputs(LEAVING, [0]) == DestroyOutputs(d1, []) == d1;
    }
    assert Cleanup(LEAVING) == d1;
    assert ManageStart(LEAVING) == d1;
    assert IndexOf([], 0) == 0;
  }
}
