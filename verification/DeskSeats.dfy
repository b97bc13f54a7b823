/** What seats refer to: whether the window a seat focuses or drags is there, and to be seen. */
module DeskSeats {
  import opened Bytes
  import opened Desk
  import opened DeskPartition
  import opened DeskRuns

  predicate Live(windows: map<nat, Window>, w: nat) {
    w in windows && !windows[w].minimized
  }

  /** The seat focuses a window only if it is there and not minimized, and drags or resizes only one that is there. */
  predicate SeatOk(windows: map<nat, Window>, seat: Seat) {
    && (seat.focused.Some? ==> Live(windows, seat.focused.value))
    && (seat.op != NoOp ==> seat.opWindow.Some? && seat.opWindow.value in windows)
  }

  predicate SeatsOk(d: Desktop) {
    forall s :: 0 <= s < |d.seats| ==> SeatOk(d.windows, d.seats[s])
  }

  /** Windows are the same but for where they are, and the seats stay as they are. */
  predicate Quiet(d: Desktop, d': Desktop) {
    d'.seats == d.seats && OnlyFrames(d.windows, d'.windows)
  }

  lemma QuietOk(d: Desktop, d': Desktop)
    requires Quiet(d, d')
    ensures SeatsOk(d) <==> SeatsOk(d')
  {
    hide SeatsOk;
    FilesOk(d, d');
  }

  lemma FilesOk(d: Desktop, d': Desktop)
    requires d'.seats == d.seats && SameFiles(d.windows, d'.windows)
    ensures SeatsOk(d) <==> SeatsOk(d')
  {
    assert forall w :: Live(d.windows, w) <==> Live(d'.windows, w) by {
      assert forall w :: w in d.windows.Keys <==> w in d'.windows.Keys;
    }
    assert forall w :: w in d.windows <==> w in d'.windows by {
      assert forall w :: w in d.windows.Keys <==> w in d'.windows.Keys;
    }
    hide Live;
  }

  lemma QuietTwice(d: Desktop, d1: Desktop, d2: Desktop)
    requires Quiet(d, d1) && Quiet(d1, d2)
    ensures Quiet(d, d2)
  {
    hide OnlyFrames;
    FramesTwice(d.windows, d1.windows, d2.windows);
  }

  // ---------- windows between outputs ----------

  lemma RefitQuiet(d: Desktop, d': Desktop, w: nat, f: Frame)
    requires w in d.windows && d'.seats == d.seats && d'.windows == d.windows[w := d.windows[w].(frame := f)]
    ensures Quiet(d, d')
  {
    hide OnlyFrames;
    RefitFrames(d.windows, w, f);
  }

  lemma QuietSelf(d: Desktop)
    ensures Quiet(d, d)
  {
    hide OnlyFrames;
    SameFrames(d.windows);
  }

  lemma {:induction false} HandOverQuiet(d: Desktop, ws: seq<nat>, from: Rect, k: nat)
    requires k < |d.outputs|
    ensures Quiet(d, HandOver(d, ws, from, k))
    decreases |ws|
  {
    hide Transfer, Quiet, With;
    QuietSelf(d);
    if ws != [] {
      var w := ws[0];
      if w !in d.windows {
        HandOverQuiet(d, ws[1..], from, k);
      } else {
        var win := d.windows[w];
        var d1 := d.(outputs := d.outputs[k := With(d.outputs[k], w, win.minimized)]);
        var d2 := Put(d1, w, win.(frame := Transfer(win.frame, Some(from), d.outputs[k].rect)));
        RefitQuiet(d, d2, w, Transfer(win.frame, Some(from), d.outputs[k].rect));
        HandOverQuiet(d2, ws[1..], from, k);
        QuietTwice(d, d2, HandOver(d2, ws[1..], from, k));
      }
    }
  }

  lemma {:induction false} DestroyOutputsQuiet(d: Desktop, ids: seq<nat>)
    ensures Quiet(d, DestroyOutputs(d, ids))
    decreases |ids|
  {
    hide OutputMaybeDestroy, IndexOf, Quiet;
    QuietSelf(d);
    if ids != [] {
      var k := IndexOf(d.outputs, ids[0]);
      if k < |d.outputs| {
        OutputMaybeDestroyQuiet(d, k);
        var d1 := OutputMaybeDestroy(d, k);
        DestroyOutputsQuiet(d1, ids[1..]);
        QuietTwice(d, d1, DestroyOutputs(d1, ids[1..]));
      } else {
        DestroyOutputsQuiet(d, ids[1..]);
      }
    }
  }

  lemma OutputMaybeDestroyQuiet(d: Desktop, k: nat)
    requires k < |d.outputs|
    ensures Quiet(d, OutputMaybeDestroy(d, k))
  {
    hide HandOver, FirstLive, OnlyFrames;
    QuietSelf(d);
    var d1 := d.(outputs := d.outputs[..k] + d.outputs[k + 1..]);
    var target := FirstLive(d1.outputs);
    if target < |d1.outputs| {
      HandOverQuiet(d1, Listed(d.outputs[k]), d.outputs[k].rect, target);
    }
  }

  lemma {:induction false} AdoptQuiet(d: Desktop, ws: seq<nat>, k: nat)
    requires k < |d.outputs|
    ensures Quiet(d, Adopt(d, ws, k))
    decreases |ws|
  {
    hide Transfer, MoveToOutput, Quiet;
    QuietSelf(d);
    if ws != [] {
      var w := ws[0];
      if w !in d.windows {
        AdoptQuiet(d, ws[1..], k);
      } else {
        var d1 := MoveToOutput(d, w, k);
        MoveQuiet(d, w, k);
        var f := Transfer(d1.windows[w].frame, None, d1.outputs[k].rect);
        var d2 := Put(d1, w, d1.windows[w].(frame := f));
        RefitQuiet(d, d2, w, f);
        AdoptQuiet(d2, ws[1..], k);
        QuietTwice(d, d2, Adopt(d2, ws[1..], k));
      }
    }
  }

  lemma AdoptOrphansQuiet(d: Desktop)
    ensures Quiet(d, AdoptOrphans(d))
  {
    var target := OutputUnderPointer(d);
    if target < |d.outputs| {
      AdoptQuiet(d, d.orphans, target);
    }
    hide Adopt, OutputUnderPointer;
  }

  lemma {:induction false} RefillQuiet(d: Desktop, n: nat)
    requires n <= |d.outputs|
    ensures Quiet(d, Refill(d, n))
    decreases n
  {
    if n > 0 {
      RefillQuiet(d, n - 1);
      RefillOne(d, n);
      assert Refill(d, n).seats == Refill(d, n - 1).seats by {
        hide RefillAll, Listed;
      }
      hide Refill;
      QuietTwice(d, Refill(d, n - 1), Refill(d, n));
    }
  }

  // ---------- windows minimized and destroyed ----------

  /** A window that is minimized loses the focus of every seat that has it, and no other window does. */
  lemma MinimizeOk(d: Desktop, w: nat)
    requires w in d.windows && SeatsOk(d)
    ensures SeatsOk(Minimize(d, w)) && w in Minimize(d, w).windows && |Minimize(d, w).seats| == |d.seats|
    ensures forall s ::
              0 <= s < |d.seats| && (d.seats[s].focused != Some(w) || !Minimize(d, w).windows[w].minimized) ==>
                Minimize(d, w).seats[s] == d.seats[s]
  {
    var d' := Minimize(d, w);
    hide OutputOf, Erase;
    forall s | 0 <= s < |d'.seats|
      ensures SeatOk(d'.windows, d'.seats[s])
    {
      assert SeatOk(d.windows, d.seats[s]);
    }
  }

  lemma FocusOk(d: Desktop, s: nat, w: Option<nat>)
    requires s < |d.seats| && SeatsOk(d) && (w.Some? ==> Live(d.windows, w.value))
    ensures SeatsOk(Focus(d, s, w))
  {
    hide ToTop;
  }

  lemma QueuedOk(d: Desktop, w: nat)
    requires w in d.windows && SeatsOk(d)
    ensures SeatsOk(Queued(d, w))
  {
    if d.windows[w].queueMinimize {
      MinimizeOk(d, w);
      hide Minimize, Focus;
      var d1 := Minimize(d, w);
      var d2 := Put(d1, w, d1.windows[w].(queueMinimize := false));
      assert d2.windows.Keys == d1.windows.Keys;
      FilesOk(d1, d2);
      if !d2.windows[w].minimized && d2.seats != [] {
        FocusOk(d2, 0, Some(w));
      }
    }
  }

  /** No seat focuses or drags a window that has just been destroyed, and no other window is affected. */
  lemma MaybeDestroyOk(d: Desktop, w: nat)
    requires w in d.windows && SeatsOk(d)
    ensures SeatsOk(MaybeDestroy(d, w)) && |MaybeDestroy(d, w).seats| == |d.seats|
    ensures forall s :: 0 <= s < |d.seats| && d.windows[w].closed ==>
              MaybeDestroy(d, w).seats[s].focused != Some(w) && MaybeDestroy(d, w).seats[s].opWindow != Some(w)
    ensures forall s :: 0 <= s < |d.seats| && d.seats[s].focused != Some(w) && d.seats[s].opWindow != Some(w) ==>
              MaybeDestroy(d, w).seats[s] == d.seats[s]
  {
    var d' := MaybeDestroy(d, w);
    hide Erase, EraseEverywhere;
    forall s | 0 <= s < |d'.seats|
      ensures SeatOk(d'.windows, d'.seats[s])
    {
      assert SeatOk(d.windows, d.seats[s]);
    }
  }

  lemma {:induction false} TidyOk(d: Desktop, ws: seq<nat>)
    requires SeatsOk(d)
    ensures SeatsOk(Tidy(d, ws))
    decreases |ws|
  {
    hide Queued, MaybeDestroy, SeatsOk;
    if ws != [] {
      var w := ws[0];
      if w !in d.windows {
        TidyOk(d, ws[1..]);
      } else {
        QueuedOk(d, w);
        var d1 := Queued(d, w);
        if w in d1.windows {
          MaybeDestroyOk(d1, w);
          TidyOk(MaybeDestroy(d1, w), ws[1..]);
        } else {
          TidyOk(d1, ws[1..]);
        }
      }
    }
  }

  lemma {:induction false} TidyOutputsOk(d: Desktop, n: nat)
    requires SeatsOk(d)
    ensures SeatsOk(TidyOutputs(d, n))
    decreases n
  {
    hide Tidy, SeatsOk, Listed;
    if n > 0 {
      TidyOutputsOk(d, n - 1);
      var d1 := TidyOutputs(d, n - 1);
      if n <= |d1.outputs| {
        TidyOk(d1, Listed(d1.outputs[n - 1]));
      }
    }
  }

  lemma {:induction false} DestroyClosedOk(d: Desktop, ws: seq<nat>)
    requires SeatsOk(d)
    ensures SeatsOk(DestroyClosed(d, ws))
    decreases |ws|
  {
    hide MaybeDestroy, SeatsOk;
    if ws != [] {
      if ws[0] in d.windows {
        MaybeDestroyOk(d, ws[0]);
        DestroyClosedOk(MaybeDestroy(d, ws[0]), ws[1..]);
      } else {
        DestroyClosedOk(d, ws[1..]);
      }
    }
  }

  lemma CleanupOk(d: Desktop)
    requires SeatsOk(d)
    ensures SeatsOk(Cleanup(d))
  {
    hide DestroyOutputs, AdoptOrphans, Refill, TidyOutputs, DestroyClosed, SeatsOk, Quiet, Ids;
    DestroyOutputsQuiet(d, Ids(d.outputs));
    var d1 := DestroyOutputs(d, Ids(d.outputs));
    QuietOk(d, d1);
    AdoptOrphansQuiet(d1);
    var d2 := AdoptOrphans(d1);
    QuietOk(d1, d2);
    RefillQuiet(d2, |d2.outputs|);
    var d3 := Refill(d2, |d2.outputs|);
    QuietOk(d2, d3);
    TidyOutputsOk(d3, |d3.outputs|);
    var d4 := TidyOutputs(d3, |d3.outputs|);
    DestroyClosedOk(d4, d4.orphans);
  }

  // ---------- window_manage ----------

  lemma PutOk(d: Desktop, w: nat, win: Window)
    requires w in d.windows && win.minimized == d.windows[w].minimized
    ensures SeatsOk(d) <==> SeatsOk(Put(d, w, win))
    ensures w in Put(d, w, win).windows
  {
    assert Put(d, w, win).windows.Keys == d.windows.Keys;
    FilesOk(d, Put(d, w, win));
    hide SeatsOk;
  }

  lemma StartOpOk(d: Desktop, s: Option<nat>, op: SeatOp, w: nat)
    requires w in d.windows && SeatsOk(d)
    ensures SeatsOk(StartOp(d, s, op, w)) && StartOp(d, s, op, w).windows == d.windows
  {
  }

  lemma SetStateQuiet(d: Desktop, w: nat, maximized: bool, fullscreen: bool, target: Option<nat>)
    requires w in d.windows && (target.Some? ==> target.value < |d.outputs|)
    ensures var d' := SetState(d, w, maximized, fullscreen, target);
            Quiet(d, d') && w in d'.windows && d'.windows[w] == d.windows[w].(frame := d'.windows[w].frame)
  {
    hide SetState, MoveToOutput, Quiet;
    if SetStateDoes(d, w, maximized, fullscreen) {
      var goes, f := SetStateChanges(d, w, maximized, fullscreen, target);
      if goes {
        MoveQuiet(d, w, target.value);
      }
      RefitQuiet(d, SetState(d, w, maximized, fullscreen, target), w, f);
    } else {
      SetStateStays(d, w, maximized, fullscreen, target);
      QuietSelf(d);
    }
  }

  lemma MoveQuiet(d: Desktop, w: nat, k: nat)
    requires w in d.windows && k < |d.outputs|
    ensures var d' := MoveToOutput(d, w, k);
            d'.windows == d.windows && d'.seats == d.seats && |d'.outputs| == |d.outputs|
  {
    hide OutputOf, Without, With;
  }

  lemma ArriveOk(d: Desktop, w: nat)
    requires w in d.windows && SeatsOk(d)
    ensures SeatsOk(Arrive(d, w)) && w in Arrive(d, w).windows
  {
    var d' := Arrive(d, w);
    hide OutputOf;
    forall s | 0 <= s < |d'.seats|
      ensures SeatOk(d'.windows, d'.seats[s])
    {
      assert SeatOk(d.windows, d.seats[s]);
    }
  }

  lemma DragOffOk(d: Desktop, w: nat)
    requires w in d.windows && SeatsOk(d)
    ensures SeatsOk(DragOff(d, w)) && w in DragOff(d, w).windows
  {
    hide SetState, StartOp, SeatsOk, Put, SameFiles;
    var win := d.windows[w];
    PutOk(d, w, win.(moveRequested := None));
    if win.moveRequested.Some? && !win.frame.fullscreen {
      var d1 := Put(d, w, win.(wantMaximized := false));
      PutOk(d, w, win.(wantMaximized := false));
      SetStateQuiet(d1, w, false, false, None);
      var d2 := SetState(d1, w, false, false, None);
      QuietOk(d1, d2);
      StartOpOk(d2, win.moveRequested, Moving, w);
      var d3 := StartOp(d2, win.moveRequested, Moving, w);
      PutOk(d3, w, d3.windows[w].(moveRequested := None));
    }
  }

  lemma ResizeOk(d: Desktop, w: nat)
    requires w in d.windows && SeatsOk(d)
    ensures SeatsOk(Resize(d, w)) && w in Resize(d, w).windows
  {
    hide StartOp, SeatsOk, Put;
    var win := d.windows[w];
    if win.resizeRequested.Some? {
      StartOpOk(d, win.resizeRequested, Resizing, w);
      var d1 := if win.frame.maximized || win.frame.fullscreen then d else StartOp(d, win.resizeRequested, Resizing, w);
      PutOk(d1, w, win.(resizeRequested := None));
    }
  }

  lemma FollowStateIs(d: Desktop, w: nat)
    requires w in d.windows
    ensures
      var win := d.windows[w];
      var d1 := SetState(d, w, win.wantMaximized, win.wantFullscreen,
                         FullscreenOutput(d.outputs, win.wantFullscreenOutput, |d.outputs|));
      && Quiet(d, d1) && w in d1.windows
      && FollowState(d, w) ==
         if win.wantMaximized != win.frame.maximized || win.wantFullscreen != win.frame.fullscreen
         then Put(d1, w, d1.windows[w].(wantFullscreenOutput := None))
         else Put(d, w, win.(wantFullscreenOutput := None))
  {
    hide SetState, Put, FullscreenOutput, Quiet;
    var win := d.windows[w];
    SetStateQuiet(d, w, win.wantMaximized, win.wantFullscreen,
                  FullscreenOutput(d.outputs, win.wantFullscreenOutput, |d.outputs|));
  }

  lemma FollowStateOk(d: Desktop, w: nat)
    requires w in d.windows && SeatsOk(d)
    ensures var d' := FollowState(d, w); SeatsOk(d') && w in d'.windows
  {
    hide FollowState, SetState, SeatsOk, Put, FullscreenOutput, Quiet;
    FollowStateIs(d, w);
    var win := d.windows[w];
    var d1 := SetState(d, w, win.wantMaximized, win.wantFullscreen,
                       FullscreenOutput(d.outputs, win.wantFullscreenOutput, |d.outputs|));
    QuietOk(d, d1);
    PutOk(d1, w, d1.windows[w].(wantFullscreenOutput := None));
    PutOk(d, w, win.(wantFullscreenOutput := None));
  }

  lemma FollowWishesOk(d: Desktop, w: nat)
    requires w in d.windows && SeatsOk(d)
    ensures SeatsOk(FollowWishes(d, w)) && w in FollowWishes(d, w).windows
  {
    FollowStateOk(d, w);
    hide FollowState, SeatsOk, Minimize;
    if d.windows[w].wantMinimized && !d.windows[w].minimized {
      MinimizeOk(FollowState(d, w), w);
    }
  }

  lemma CenterOk(d: Desktop, w: nat)
    requires w in d.windows && SeatsOk(d)
    ensures SeatsOk(Center(d, w))
  {
    if Center(d, w) != d {
      PutOk(d, w, Center(d, w).windows[w]);
    }
    hide OutputOf, Centered, SeatsOk;
  }

  lemma ManageOk(d: Desktop, w: nat)
    requires SeatsOk(d)
    ensures SeatsOk(Desk.Manage(d, w))
  {
    hide Arrive, PressNav, DragOff, Resize, FollowWishes, Center, Put, SeatsOk;
    if w in d.windows {
      ArriveOk(d, w);
      var d1 := if d.windows[w].isNew then Arrive(d, w) else d;
      PressNavSame(d1.windows[w]);
      PutOk(d1, w, PressNav(d1.windows[w]));
      var d2 := Put(d1, w, PressNav(d1.windows[w]));
      DragOffOk(d2, w);
      ResizeOk(DragOff(d2, w), w);
      FollowWishesOk(Resize(DragOff(d2, w), w), w);
      CenterOk(FollowWishes(Resize(DragOff(d2, w), w), w), w);
    }
  }

  lemma {:induction false} ManageAllOk(d: Desktop, ws: seq<nat>)
    requires SeatsOk(d)
    ensures SeatsOk(ManageAll(d, ws))
    decreases |ws|
  {
    hide Desk.Manage, SeatsOk;
    if ws != [] {
      ManageOk(d, ws[0]);
      ManageAllOk(Desk.Manage(d, ws[0]), ws[1..]);
    }
  }

  lemma {:induction false} ManageOutputsOk(d: Desktop, n: nat)
    requires SeatsOk(d)
    ensures SeatsOk(ManageOutputs(d, n))
    decreases n
  {
    hide ManageAll, SeatsOk;
    if n > 0 {
      ManageOutputsOk(d, n - 1);
      var d1 := ManageOutputs(d, n - 1);
      if n <= |d1.outputs| {
        ManageAllOk(d1, d1.outputs[n - 1].windows);
      }
    }
  }

  /** The desktop when the seats are to be managed. */
  function BeforeSeats(d: Desktop): Desktop {
    var d1 := Cleanup(d);
    var d2 := ManageOutputs(d1, |d1.outputs|);
    ManageAll(d2, d2.orphans)
  }

  lemma BeforeSeatsOk(d: Desktop)
    requires SeatsOk(d)
    ensures SeatsOk(BeforeSeats(d))
  {
    hide Cleanup, ManageOutputs, ManageAll, SeatsOk;
    CleanupOk(d);
    var d1 := Cleanup(d);
    ManageOutputsOk(d1, |d1.outputs|);
    var d2 := ManageOutputs(d1, |d1.outputs|);
    ManageAllOk(d2, d2.orphans);
  }

  lemma BeforeSeatsPart(d: Desktop)
    requires Part(d)
    ensures Part(BeforeSeats(d))
  {
    hide Cleanup, ManageOutputs, ManageAll, Part, SameOutputs, NoneWaiting;
    CleanupKeeps(d);
    var d1 := Cleanup(d);
    ManageOutputsKeeps(d1, |d1.outputs|);
    var d2 := ManageOutputs(d1, |d1.outputs|);
    ManageAllKeeps(d2, d2.orphans);
  }

  // ---------- seat_manage ----------

  /** There is a window to go on to. */
  predicate HasNext(d: Desktop) {
    var k := OutputUnderPointer(d);
    k < |d.outputs| && d.outputs[k].windows != []
  }

  /**
   What a seat is about to focus is there and not minimized, or another window
   is focused right after it; and what it is about to drag is there.
   */
  predicate Fine(d: Desktop, s: nat)
    requires s < |d.seats|
  {
    var seat := d.seats[s];
    && (seat.interacted.Some? ==> Live(d.windows, seat.interacted.value) || (seat.action == NextAction && HasNext(d)))
    && (Act(seat).op != NoOp && seat.op == NoOp && !seat.opRelease ==> seat.hovered.value in d.windows)
  }

  lemma StackLive(d: Desktop, k: nat, i: nat)
    requires Part(d) && k < |d.outputs| && i < |d.outputs[k].windows|
    ensures Live(d.windows, d.outputs[k].windows[i])
  {
    assert Filed(d.outputs[k], d.windows);
    hide Places;
  }

  /** What is focused after the first look at the seat. */
  lemma FocusedFirst(d: Desktop, s: nat)
    requires Part(d) && s < |d.seats| && SeatOk(d.windows, d.seats[s])
    ensures var d1 := SeatFocuses(d, s);
            && |d1.seats| == |d.seats| && d1.windows == d.windows
            && d1.seats == d.seats[s := d.seats[s].(focused := d1.seats[s].focused, interacted := None)]
            && (if d.seats[s].interacted.Some? then d1.seats[s].focused == d.seats[s].interacted
                else d1.seats[s].focused.Some? ==> Live(d.windows, d1.seats[s].focused.value))
  {
    hide Part, ToTop, OutputUnderPointer, Live;
    var k := OutputUnderPointer(d);
    if k < |d.outputs| && d.outputs[k].windows != [] {
      StackLive(d, k, |d.outputs[k].windows| - 1);
    }
  }

  lemma FocusedNext(d: Desktop, s: nat)
    requires Part(d) && s < |d.seats|
    ensures var d1 := SeatActs(d, s);
            && |d1.seats| == |d.seats| && d1.windows == d.windows
            && d1.seats == d.seats[s := Act(d.seats[s]).(focused := d1.seats[s].focused)]
            && (if d.seats[s].action == NextAction && HasNext(d)
                then d1.seats[s].focused.Some? && Live(d.windows, d1.seats[s].focused.value)
                else d1.seats[s].focused == d.seats[s].focused)
  {
    if HasNext(d) {
      StackLive(d, OutputUnderPointer(d), 0);
    }
    hide Part, ToTop, OutputUnderPointer, Live;
  }

  lemma Released(d: Desktop, s: nat)
    requires s < |d.seats|
    ensures var d1, seat := SeatReleases(d, s), d.seats[s];
            && |d1.seats| == |d.seats| && d1.windows == d.windows
            && d1.seats == d.seats[s := if seat.op != NoOp
              && seat.opRelease then seat.(op := NoOp, opWindow := None, opRelease := false)
                                        else seat.(opRelease := false)]
  {
    hide OutputAt, OutputOf, Without, With;
  }

  /** Going through the stack does not empty it. */
  lemma HasNextStays(d: Desktop, s: nat)
    requires Part(d) && s < |d.seats|
    ensures HasNext(SeatFocuses(d, s)) <==> HasNext(d)
  {
    var d1 := SeatFocuses(d, s);
    SeatFocusesIs(d, s);
    var k := OutputUnderPointer(d);
    hide SeatFocuses, Part, OutputUnderPointer;
    SamePointer(d, d1);
  }

  lemma SeatFocusesIs(d: Desktop, s: nat)
    requires s < |d.seats|
    ensures var d1 := SeatFocuses(d, s);
            && |d1.outputs| == |d.outputs| && |d1.seats| == |d.seats|
            && (forall k :: 0 <= k < |d.outputs| ==>
                  d1.outputs[k] == d.outputs[k].(windows := d1.outputs[k].windows)
                  && (d1.outputs[k].windows == [] <==> d.outputs[k].windows == []))
            && (forall i :: 0 <= i < |d.seats| ==>
                  d1.seats[i].pointerX == d.seats[i].pointerX && d1.seats[i].pointerY == d.seats[i].pointerY)
  {
    forall w: nat {
      ToTopStacks(d.outputs, w);
    }
    hide ToTop, OutputUnderPointer;
  }

  lemma {:induction false} ToTopStacks(outputs: seq<Output>, w: nat)
    ensures |ToTop(outputs, w)| == |outputs|
    ensures forall k :: 0 <= k < |outputs| ==>
              ToTop(outputs, w)[k] == outputs[k].(windows := ToTop(outputs, w)[k].windows)
              && (ToTop(outputs, w)[k].windows == [] <==> outputs[k].windows == [])
  {
    if outputs != [] {
      ToTopStacks(outputs[1..], w);
      hide Erase;
    }
  }

  lemma {:induction false} SameAt(xs: seq<Output>, ys: seq<Output>, x: int, y: int)
    requires |xs| == |ys| && forall k :: 0 <= k < |xs| ==> xs[k].rect == ys[k].rect && xs[k].removed == ys[k].removed
    ensures OutputAt(xs, x, y) == OutputAt(ys, x, y) && FirstLive(xs) == FirstLive(ys)
  {
    if xs != [] {
      SameAt(xs[1..], ys[1..], x, y);
    }
  }

  lemma SamePointer(d: Desktop, d1: Desktop)
    requires |d1.outputs| == |d.outputs| && |d1.seats| == |d.seats|
    requires forall k :: 0 <= k < |d.outputs| ==>
               d1.outputs[k].rect == d.outputs[k].rect && d1.outputs[k].removed == d.outputs[k].removed
    requires forall i :: 0 <= i < |d.seats| ==>
               d1.seats[i].pointerX == d.seats[i].pointerX && d1.seats[i].pointerY == d.seats[i].pointerY
    ensures OutputUnderPointer(d1) == OutputUnderPointer(d)
  {
    forall x, y {
      SameAt(d.outputs, d1.outputs, x, y);
    }
  }

  /** Managing a seat leaves the others as they are, and it is in order afterwards exactly if it is fine before. */
  lemma SeatManageOk(d: Desktop, s: nat)
    requires Part(d) && s < |d.seats| && SeatOk(d.windows, d.seats[s])
    ensures var d' := SeatManage(d, s);
            && |d'.seats| == |d.seats| && d'.windows == d.windows
            && (forall i :: 0 <= i < |d.seats| && i != s ==> d'.seats[i] == d.seats[i])
            && (SeatOk(d'.windows, d'.seats[s]) <==> Fine(d, s))
  {
    hide Part, SeatFocuses, SeatActs, SeatReleases, HasNext, Live;
    var d1 := SeatFocuses(d, s);
    FocusedFirst(d, s);
    HasNextStays(d, s);
    SeatFocusesKeeps(d, s);
    KeepsPart(d, d1);
    hide DeskRuns.Keeps;
    var d2 := SeatActs(d1, s);
    FocusedNext(d1, s);
    Released(d2, s);
  }

  lemma {:induction false} SeatsManageSeats(d: Desktop, n: nat)
    requires Part(d) && n <= |d.seats| && SeatsOk(d)
    ensures var d' := SeatsManage(d, n);
            && |d'.seats| == |d.seats| && d'.windows == d.windows && Part(d')
            && (forall i :: n <= i < |d.seats| ==> d'.seats[i] == d.seats[i])
            && ((forall i :: 0 <= i < n ==> SeatOk(d'.windows, d'.seats[i])) <==> AllFine(d, n))
    decreases n
  {
    hide Part, SeatManage, SeatOk, Fine, DeskRuns.Keeps;
    if n > 0 {
      SeatsManageSeats(d, n - 1);
      var d1 := SeatsManage(d, n - 1);
      assert SeatOk(d.windows, d.seats[n - 1]);
      SeatManageOk(d1, n - 1);
      SeatManageKeeps(d1, n - 1);
      KeepsPart(d1, SeatManage(d1, n - 1));
    }
  }

  /** Each of the first n seats is fine when its turn comes. */
  predicate AllFine(d: Desktop, n: nat)
    decreases n
  {
    n == 0 || (AllFine(d, n - 1) && var d1 := SeatsManage(d, n - 1); n - 1 < |d1.seats| && Fine(d1, n - 1))
  }

  /**
   After a manage sequence each seat focuses only a window that is there and not
   minimized, and drags only one that is there, exactly if this is so of what it
   is about to focus and drag when its turn comes.
   */
  lemma ManagingOk(d: Desktop)
    requires Part(d) && SeatsOk(d)
    ensures SeatsOk(ManageStart(d)) <==> AllFine(BeforeSeats(d), |BeforeSeats(d).seats|)
  {
    BeforeSeatsOk(d);
    BeforeSeatsPart(d);
    var d3 := BeforeSeats(d);
    assert ManageStart(d) == SeatsManage(d3, |d3.seats|) by {
      hide Cleanup, ManageOutputs, ManageAll, SeatsManage;
    }
    hide ManageStart, BeforeSeats, Part, SeatOk, SeatsManage, AllFine;
    SeatsManageSeats(d3, |d3.seats|);
  }

  // ---------- runs ----------

  predicate FineEvent(d: Desktop, e: Event) {
    e.Managing? ==> AllFine(BeforeSeats(d), |BeforeSeats(d).seats|)
  }

  lemma OtherEventsOk(d: Desktop, e: Event)
    requires SeatsOk(d) && Sane(d, e) && !e.Managing?
    ensures SeatsOk(Step(d, e))
  {
    hide IndexOf, With, SizeOutput, SeatOk;
    match e
    case WindowOpened(w) => OpenedOk(d, w); hide *;
    case WindowWishes(w, wish) =>
      if w in d.windows {
        GrantSame(d.windows[w], wish);
        PutOk(d, w, Grant(d.windows[w], wish));
      }
      hide Grant, SeatsOk, Put;
    case Dragged(w, x, y) =>
      if w in d.windows {
        PutOk(d, w, d.windows[w].(frame := At(d.windows[w].frame, x, y)));
      }
      hide SeatsOk, Put;
    case OutputSized(id, width, height) => SizedQuiet(d, e); hide *;
    case SeatAdded => assert SeatOk(d.windows, NEW_SEAT) by { NewSeatOk(d.windows); }
    case SeatSays(s, word) => SaysOk(d, s, word); hide *;
    case _ =>
  }

  lemma NewSeatOk(windows: map<nat, Window>)
    ensures SeatOk(windows, NEW_SEAT)
  {
  }

  lemma SaysOk(d: Desktop, s: nat, word: Word)
    requires SeatsOk(d)
    ensures SeatsOk(Step(d, SeatSays(s, word)))
  {
    if s < |d.seats| {
      assert SeatOk(d.windows, d.seats[s]);
      assert SeatOk(d.windows, Hear(d.seats[s], word)) by {
        hide Live;
      }
      hide SeatOk, Hear;
    }
  }

  lemma SizedQuiet(d: Desktop, e: Event)
    requires SeatsOk(d) && e.OutputSized?
    ensures SeatsOk(Step(d, e))
  {
    hide IndexOf, SeatOk;
  }

  lemma OpenedOk(d: Desktop, w: nat)
    requires SeatsOk(d) && w !in d.windows
    ensures SeatsOk(Step(d, WindowOpened(w)))
  {
    var d' := Step(d, WindowOpened(w));
    hide IndexOf, With;
    forall s | 0 <= s < |d'.seats|
      ensures SeatOk(d'.windows, d'.seats[s])
    {
      assert SeatOk(d.windows, d.seats[s]);
    }
  }

  ghost predicate FineRun(events: seq<Event>) {
    forall n :: 0 <= n < |events| ==> FineEvent(Run(events[..n]), events[n])
  }

  /** An event leaves the seats in order exactly if it is fine. */
  lemma StepOk(d: Desktop, e: Event)
    requires Part(d) && SeatsOk(d) && Sane(d, e)
    ensures SeatsOk(Step(d, e)) <==> FineEvent(d, e)
  {
    hide Part, SeatsOk, AllFine, BeforeSeats, ManageStart, Sane;
    if e.Managing? {
      ManagingOk(d);
    } else {
      OtherEventsOk(d, e);
      hide Step;
    }
  }

  lemma FineShorter(events: seq<Event>)
    requires FineRun(events) && events != []
    ensures var before := events[..|events| - 1]; FineRun(before) && FineEvent(Run(before), events[|events| - 1])
  {
    hide FineEvent, Run;
    var before := events[..|events| - 1];
    assert forall n :: 0 <= n < |before| ==> before[..n] == events[..n];
  }

  lemma NoneOk()
    ensures SeatsOk(Run([]))
  {
  }

  /**
   In every fine run no seat focuses a window that is minimized or has been
   destroyed, nor drags one that has been destroyed; and it is so after one
   more event exactly if that is fine too.
   */
  lemma {:induction false} SeatsInOrder(events: seq<Event>)
    requires SaneRun(events) && FineRun(events)
    ensures SeatsOk(Run(events))
    ensures forall e :: Sane(Run(events), e) ==> (SeatsOk(Run(events + [e])) <==> FineEvent(Run(events), e))
  {
    hide *;
    RunPart(events);
    if events == [] {
      NoneOk();
    } else {
      var before, last := events[..|events| - 1], events[|events| - 1];
      SaneShorter(events);
      FineShorter(events);
      SeatsInOrder(before);
      RunPart(before);
      StepOk(Run(before), last);
      RunMore(before, last);
      assert events == before + [last];
    }
    forall e | Sane(Run(events), e)
      ensures SeatsOk(Run(events + [e])) <==> FineEvent(Run(events), e)
    {
      RunMore(events, e);
      StepOk(Run(events), e);
    }
  }

  // ---------- how a run is not fine ----------

  const CLICKED: Seat := NEW_SEAT.(interacted := Some(7))

  /** One output with one window on it. */
  function OneWindow(win: Window, seat: Seat): Desktop {
    Desktop([Output(0, Rect(0, 0, 100, 100), false, true, [7], [])], map[7 := win], [], Some(0), [seat])
  }

  const OPENING: seq<Event> := [OutputAdded(0)] + [OutputSized(0, 100, 100)] + [SeatAdded] + [WindowOpened(7)]

  lemma Opened()
    ensures Run(OPENING) == OneWindow(NEW_WINDOW, NEW_SEAT) && SaneRun(OPENING)
  {
    var a, b, c := OutputAdded(0), OutputSized(0, 100, 100), SeatAdded;
    var o := Output(0, Rect(0, 0, 0, 0), false, false, [], []);
    var o' := Output(0, Rect(0, 0, 100, 100), false, true, [], []);
    var d2 := Desktop([o'], map[], [], Some(0), []);
    RunMore([], a);
    assert [] + [a] == [a];
    assert Run([a]) == EMPTY.(outputs := [o]);
    RunMore([a], b);
    assert Run([a] + [b]) == d2;
    RunMore([a] + [b], c);
    assert Run([a] + [b] + [c]) == d2.(seats := [NEW_SEAT]);
    RunMore([a] + [b] + [c], WindowOpened(7));
    FirstWindow(o', d2.(seats := [NEW_SEAT]));
    hide *;
  }

  lemma FirstWindow(o: Output, d: Desktop)
    requires o == Output(0, Rect(0, 0, 100, 100), false, true, [], [])
             && d == Desktop([o], map[], [], Some(0), [NEW_SEAT])
    ensures Step(d, WindowOpened(7)) == OneWindow(NEW_WINDOW, NEW_SEAT) && Sane(d, WindowOpened(7))
  {
    assert map[][7 := NEW_WINDOW] == map[7 := NEW_WINDOW];
    assert IndexOf([o], 0) == 0;
    assert [] + [7] == [7];
    assert With(o, 7, false) == o.(windows := [7]);
    assert [o][0 := o.(windows := [7])] == [o.(windows := [7])];
    assert OpenWindow(d, 7) == OneWindow(NEW_WINDOW, NEW_SEAT);
    hide OpenWindow, ManageStart;
  }

  const CLOSED_AFTER_CLICK: seq<Event> :=
    OPENING + [SeatSays(0, Interaction(7))] + [WindowWishes(7, Close)] + [Managing]

  /** A window is clicked on, and then closed before the next manage sequence: its seat goes on to focus it. */
  lemma ClosedWindowFocused()
    ensures SaneRun(CLOSED_AFTER_CLICK)
    ensures var d := Run(CLOSED_AFTER_CLICK); 7 !in d.windows && |d.seats| == 1 && d.seats[0].focused == Some(7)
  {
    Opened();
    var click, close := SeatSays(0, Interaction(7)), WindowWishes(7, Close);
    RunMore(OPENING, click);
    RunMore(OPENING + [click], close);
    RunMore(OPENING + [click] + [close], Managing);
    ClickedAndClosed(click, close);
    ClosedAfterClick();
    hide *;
  }

  lemma ClickedAndClosed(click: Event, close: Event)
    requires click == SeatSays(0, Interaction(7)) && close == WindowWishes(7, Close)
    ensures forall d :: Sane(d, click) && Sane(d, close) && Sane(d, Managing)
    ensures Step(Step(OneWindow(NEW_WINDOW, NEW_SEAT), click), close) == CLOSING
            && Step(CLOSING, Managing) == ManageStart(CLOSING)
  {
    hide ManageStart, OneWindow, Hear, Grant, SizeOutput, OpenWindow, IndexOf;
    Clicked(click);
    AskedToClose(close);
    hide Sane, Step;
    forall d
      ensures Sane(d, click) && Sane(d, close) && Sane(d, Managing)
    {
      AlwaysSane(d, click, close);
    }
    assert Step(CLOSING, Managing) == ManageStart(CLOSING) by {
      ManagingStep(CLOSING);
    }
  }

  lemma ManagingStep(d: Desktop)
    ensures Step(d, Managing) == ManageStart(d)
  {
    hide ManageStart;
  }

  lemma AlwaysSane(d: Desktop, click: Event, close: Event)
    requires click.SeatSays? && close.WindowWishes?
    ensures Sane(d, click) && Sane(d, close) && Sane(d, Managing)
  {
  }

  lemma Clicked(click: Event)
    requires click == SeatSays(0, Interaction(7))
    ensures Step(OneWindow(NEW_WINDOW, NEW_SEAT), click) == OneWindow(NEW_WINDOW, CLICKED)
  {
    hide ManageStart;
    assert [NEW_SEAT][0 := CLICKED] == [CLICKED];
  }

  lemma AskedToClose(close: Event)
    requires close == WindowWishes(7, Close)
    ensures Step(OneWindow(NEW_WINDOW, CLICKED), close) == CLOSING
  {
    hide ManageStart;
    assert map[7 := NEW_WINDOW][7 := OPENED] == map[7 := OPENED];
  }

  const ICONIFIED_AT_ONCE: seq<Event> := OPENING + [WindowWishes(7, Iconify)] + [Managing]

  /** A window that is minimized as it opens has the focus all the same. */
  lemma MinimizedWindowFocused()
    ensures SaneRun(ICONIFIED_AT_ONCE)
    ensures var d := Run(ICONIFIED_AT_ONCE);
            7 in d.windows && d.windows[7].minimized && |d.seats| == 1 && d.seats[0].focused == Some(7)
  {
    Opened();
    var iconify := WindowWishes(7, Iconify);
    RunMore(OPENING, iconify);
    RunMore(OPENING + [iconify], Managing);
    IconicAsked(iconify);
    IconicManaged();
    hide *;
  }

  lemma IconicAsked(iconify: Event)
    requires iconify == WindowWishes(7, Iconify)
    ensures forall d :: Sane(d, iconify) && Sane(d, Managing)
    ensures var d := OneWindow(ICONIC, NEW_SEAT);
            Step(OneWindow(NEW_WINDOW, NEW_SEAT), iconify) == d && Step(d, Managing) == ManageStart(d)
  {
    hide ManageStart;
    assert map[7 := NEW_WINDOW][7 := ICONIC] == map[7 := ICONIC];
  }

  const ICONIC: Window := NEW_WINDOW.(wantMinimized := true)
  const ARRIVED: Window := ICONIC.(isNew := false, frame := ICONIC.frame.(proposed := Some((0, 0))))
  const AWAY: Window := ARRIVED.(minimized := true, wantMinimized := false, shown := false)

  lemma IconicCleaned()
    ensures var d := OneWindow(ICONIC, NEW_SEAT);
            Cleanup(d) == d.(outputs := [Output(0, Rect(0, 0, 100, 100), false, false, [7], [])])
  {
    var d := OneWindow(ICONIC, NEW_SEAT);
    var r := Rect(0, 0, 100, 100);
    var d1 := d.(outputs := [Output(0, r, false, false, [7], [])]);
    assert Listed(d.outputs[0]) == [7];
    assert DestroyOutputs(d, Ids(d.outputs)) == d;
    assert Refill(d, 1) == d1 by {
      assert Refill(d, 0) == d;
      assert RefillAll(d.windows, [7], r) == d.windows;
    }
    assert TidyOutputs(d1, 1) == d1 by {
      assert TidyOutputs(d1, 0) == d1;
      assert Listed(d1.outputs[0]) == [7];
      assert Tidy(d1, [7]) == Tidy(d1, []) == d1;
    }
    assert DestroyClosed(d1, []) == d1;
  }

  lemma IconicManaged()
    ensures var d := ManageStart(OneWindow(ICONIC, NEW_SEAT));
            7 in d.windows && d.windows[7].minimized && |d.seats| == 1 && d.seats[0].focused == Some(7)
  {
    hide Cleanup, Desk.Manage, SeatManage;
    var d := OneWindow(ICONIC, NEW_SEAT);
    var r := Rect(0, 0, 100, 100);
    var d1 := d.(outputs := [Output(0, r, false, false, [7], [])]);
    var d2 := Desktop([Output(0, r, false, false, [], [7])], map[7 := AWAY], [], Some(0), [CLICKED]);
    IconicCleaned();
    IconicManages(d1, d2, r);
    assert ManageOutputs(d1, 1) == d2 by {
      assert ManageOutputs(d1, 0) == d1;
      assert ManageAll(d1, [7]) == ManageAll(d2, []) == d2;
    }
    IconicFocused(d2);
  }

  lemma IconicFocused(d: Desktop)
    requires d == Desktop([Output(0, Rect(0, 0, 100, 100), false, false, [], [7])], map[7 := AWAY], [], Some(0),
                          [CLICKED])
    ensures ManageAll(d, d.orphans) == d && SeatsManage(d, 1) == SeatManage(d, 0)
    ensures SeatManage(d, 0).windows == d.windows && |SeatManage(d, 0).seats| == 1
            && SeatManage(d, 0).seats[0].focused == Some(7)
  {
    assert SeatsManage(d, 0) == d;
  }

  lemma IconicManages(d1: Desktop, d2: Desktop, r: Rect)
    requires r == Rect(0, 0, 100, 100)
             && d1 == OneWindow(ICONIC, NEW_SEAT).(outputs := [Output(0, r, false, false, [7], [])])
    requires d2 == Desktop([Output(0, r, false, false, [], [7])], map[7 := AWAY], [], Some(0), [CLICKED])
    ensures Desk.Manage(d1, 7) == d2
  {
    var d3 := Desktop(d1.outputs, map[7 := ARRIVED], [], Some(0), [CLICKED]);
    assert Arrive(d1, 7) == d3 by {
      assert map[7 := ICONIC][7 := ARRIVED] == map[7 := ARRIVED];
      assert Interact([NEW_SEAT], 7) == [CLICKED];
    }
    assert map[7 := ARRIVED][7 := ARRIVED] == map[7 := ARRIVED];
    IconicMinimized(d3, d2, r);
    assert FollowWishes(d3, 7) == d2;
    assert Center(d2, 7) == d2;
    assert PressNav(ARRIVED) == ARRIVED && Put(d3, 7, ARRIVED) == d3;
    assert DragOff(d3, 7) == d3 && Resize(d3, 7) == d3;
    hide Arrive, Minimize, FollowWishes, Center, DragOff, Resize, PressNav, Put;
  }

  lemma IconicMinimized(d3: Desktop, d2: Desktop, r: Rect)
    requires d3 == Desktop([Output(0, r, false, false, [7], [])], map[7 := ARRIVED], [], Some(0), [CLICKED])
    requires d2 == Desktop([Output(0, r, false, false, [], [7])], map[7 := AWAY], [], Some(0), [CLICKED])
    ensures Minimize(d3, 7) == d2
  {
    assert Erase([7], 7) == [] && [] + [7] == [7];
    assert map[7 := ARRIVED][7 := AWAY] == map[7 := AWAY];
    assert Unfocus([CLICKED], 7) == [CLICKED];
    var o := d3.outputs[0];
    assert o.(windows := Erase(o.windows, 7), minimized := o.minimized + [7]) == d2.outputs[0];
    assert d3.outputs[0 := d2.outputs[0]] == d2.outputs;
    hide Erase, Unfocus;
  }

  const OPENED: Window := NEW_WINDOW.(closed := true)

  /** The window has been clicked on, and is closed. */
  const CLOSING: Desktop := OneWindow(OPENED, CLICKED)

  /** The clean-up destroys the window. */
  const CLOSED: Desktop :=
    Desktop([Output(0, Rect(0, 0, 100, 100), false, false, [], [])], map[], [], Some(0), [CLICKED])

  lemma ClosedGone(d: Desktop)
    requires d == CLOSING.(outputs := [Output(0, Rect(0, 0, 100, 100), false, false, [7], [])])
    ensures MaybeDestroy(d, 7) == CLOSED && Queued(d, 7) == d
  {
    assert Erase([7], 7) == [];
    assert EraseEverywhere(d.outputs, 7) == CLOSED.outputs;
    assert d.windows - {7} == CLOSED.windows;
    assert Forget(d.seats, 7) == d.seats;
  }

  lemma ClosedTidied(d: Desktop)
    requires d == CLOSING.(outputs := [Output(0, Rect(0, 0, 100, 100), false, false, [7], [])])
    ensures TidyOutputs(d, 1) == CLOSED
  {
    hide MaybeDestroy, Queued;
    ClosedGone(d);
    assert TidyOutputs(d, 0) == d;
    assert Listed(d.outputs[0]) == [7];
    assert Tidy(d, [7]) == Tidy(CLOSED, []) == CLOSED;
  }

  lemma ClosedCleaned()
    ensures Cleanup(CLOSING) == CLOSED
  {
    hide TidyOutputs;
    var d := CLOSING.(outputs := [Output(0, Rect(0, 0, 100, 100), false, false, [7], [])]);
    assert DestroyOutputs(CLOSING, Ids(CLOSING.outputs)) == CLOSING;
    assert Refill(CLOSING, 1) == d by {
      assert Refill(CLOSING, 0) == CLOSING;
      assert Listed(CLOSING.outputs[0]) == [7];
      assert RefillAll(CLOSING.windows, [7], Rect(0, 0, 100, 100)) == CLOSING.windows;
    }
    ClosedTidied(d);
  }

  /** The seat then focuses it. */
  lemma ClosedAfterClick()
    ensures var d := ManageStart(CLOSING); 7 !in d.windows && |d.seats| == 1 && d.seats[0].focused == Some(7)
  {
    hide Cleanup;
    ClosedCleaned();
    assert ManageOutputs(CLOSED, 1) == CLOSED by {
      assert ManageOutputs(CLOSED, 0) == CLOSED;
    }
    assert SeatsManage(CLOSED, 0) == CLOSED;
  }
}
