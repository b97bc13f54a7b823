/** The window manager as it runs: helpers that update windows, outputs and seats in place. */
module WindowManager {
  import opened Bytes
  import opened Desk
  import opened DeskPartition
  import Runs = DeskRuns
  import Geometry = DeskGeometry
  import Seats = DeskSeats

  lemma {:induction false} OutputOfIs(outputs: seq<Output>, w: nat, k: nat)
    requires k <= |outputs| && (forall j :: 0 <= j < k ==> w !in outputs[j].windows && w !in outputs[j].minimized)
    requires k < |outputs| ==> w in outputs[k].windows || w in outputs[k].minimized
    ensures OutputOf(outputs, w) == k
  {
    if k > 0 {
      OutputOfIs(outputs[1..], w, k - 1);
    }
  }

  lemma {:induction false} OutputAtIs(outputs: seq<Output>, x: int, y: int, k: nat)
    requires k <= |outputs| && (forall j :: 0 <= j < k ==> outputs[j].removed || !Contains(outputs[j].rect, x, y))
    requires k < |outputs| ==> !outputs[k].removed && Contains(outputs[k].rect, x, y)
    ensures OutputAt(outputs, x, y) == k
  {
    if k > 0 {
      OutputAtIs(outputs[1..], x, y, k - 1);
    }
  }

  lemma {:induction false} FirstLiveIs(outputs: seq<Output>, k: nat)
    requires k <= |outputs| && (forall j :: 0 <= j < k ==> outputs[j].removed)
             && (k < |outputs| ==> !outputs[k].removed)
    ensures FirstLive(outputs) == k
  {
    if k > 0 {
      FirstLiveIs(outputs[1..], k - 1);
    }
  }

  lemma {:induction false} EraseJoin(s: seq<nat>, t: seq<nat>, w: nat)
    ensures Erase(s + t, w) == Erase(s, w) + Erase(t, w)
  {
    if s == [] {
      assert s + t == t;
    } else {
      assert (s + t)[1..] == s[1..] + t;
      EraseJoin(s[1..], t, w);
    }
  }

  method EraseFrom(s: seq<nat>, w: nat) returns (r: seq<nat>)
    ensures r == Erase(s, w)
  {
    r := [];
    for i := 0 to |s|
      invariant r == Erase(s[..i], w)
    {
      assert s[..i + 1] == s[..i] + [s[i]];
      EraseJoin(s[..i], [s[i]], w);
      assert [s[i]][1..] == [];
      if s[i] != w {
        r := r + [s[i]];
      }
    }
    assert s[..|s|] == s;
  }

  lemma {:induction false} ToTopEach(outputs: seq<Output>, w: nat)
    ensures |ToTop(outputs, w)| == |outputs|
    ensures forall i :: 0 <= i < |outputs| ==>
              ToTop(outputs, w)[i] == if w in outputs[i].windows
                  then outputs[i].(windows := Erase(outputs[i].windows, w) + [w]) else outputs[i]
  {
    if outputs != [] {
      ToTopEach(outputs[1..], w);
    }
  }

  class TCCClient {
    var mOutputs: seq<Output>
    var mWindows: map<nat, Window>
    var mOrphanedWindows: seq<nat>
    var mMainOutput: Option<nat>
    var mSeats: seq<Seat>

    constructor ()
      ensures Snap() == EMPTY && Valid()
    {
      mOutputs, mWindows, mOrphanedWindows, mMainOutput, mSeats := [], map[], [], None, [];
    }

    function Snap(): Desktop
      reads this
    {
      Desktop(mOutputs, mWindows, mOrphanedWindows, mMainOutput, mSeats)
    }

    /** Each window is listed once, where its being minimized says, or waits for an output. */
    ghost predicate Valid()
      reads this
    {
      Part(Snap())
    }

    // ---------- lookups ----------

    method OutputOf(w: nat) returns (k: nat)
      ensures k == Desk.OutputOf(mOutputs, w)
    {
      k := 0;
      while k < |mOutputs| && !(w in mOutputs[k].windows || w in mOutputs[k].minimized)
        invariant k <= |mOutputs|
        invariant forall j :: 0 <= j < k ==> w !in mOutputs[j].windows && w !in mOutputs[j].minimized
      {
        k := k + 1;
      }
      OutputOfIs(mOutputs, w, k);
    }

    method OutputAt(x: int, y: int) returns (k: nat)
      ensures k == Desk.OutputAt(mOutputs, x, y)
    {
      k := 0;
      while k < |mOutputs| && (mOutputs[k].removed || !Contains(mOutputs[k].rect, x, y))
        invariant k <= |mOutputs|
        invariant forall j :: 0 <= j < k ==> mOutputs[j].removed || !Contains(mOutputs[j].rect, x, y)
      {
        k := k + 1;
      }
      OutputAtIs(mOutputs, x, y, k);
    }

    method OutputUnderPointer() returns (k: nat)
      ensures k == Desk.OutputUnderPointer(Snap())
    {
      if mSeats != [] {
        k := OutputAt(mSeats[0].pointerX, mSeats[0].pointerY);
        if k < |mOutputs| {
          return;
        }
      }
      k := 0;
      while k < |mOutputs| && mOutputs[k].removed
        invariant k <= |mOutputs| && forall j :: 0 <= j < k ==> mOutputs[j].removed
      {
        k := k + 1;
      }
      FirstLiveIs(mOutputs, k);
    }

    method FindOutput(id: nat) returns (k: nat)
      ensures k == IndexOf(mOutputs, id)
    {
      k := 0;
      while k < |mOutputs| && mOutputs[k].id != id
        invariant k <= |mOutputs| && forall j :: 0 <= j < k ==> mOutputs[j].id != id
      {
        k := k + 1;
      }
      IndexOfIs(mOutputs, id, k);
    }

    // ---------- windows between outputs ----------

    method WindowMoveToOutput(w: nat, k: nat)
      requires Valid() && w in mWindows && k < |mOutputs|
      modifies this`mOutputs, this`mOrphanedWindows
      ensures Valid() && Snap() == MoveToOutput(old(Snap()), w, k)
      ensures |mOutputs| == |old(mOutputs)| && Desk.OutputOf(mOutputs, w) == k
    {
      hide Part, MoveToOutput, Without, With, Desk.OutputOf, Erase;
      MovedThere(Snap(), w, k);
      MoveIs(Snap(), w, k);
      var from := OutputOf(w);
      if from == k {
        return;
      }
      if from < |mOutputs| {
        EraseOn(from, w);
      } else {
        mOrphanedWindows := EraseFrom(mOrphanedWindows, w);
      }
      PushOn(k, w, mWindows[w].minimized);
    }

    method EraseOn(k: nat, w: nat)
      requires k < |mOutputs|
      modifies this`mOutputs
      ensures mOutputs == old(mOutputs)[k := Without(old(mOutputs[k]), w)]
    {
      var windows := EraseFrom(mOutputs[k].windows, w);
      var minimized := EraseFrom(mOutputs[k].minimized, w);
      mOutputs := mOutputs[k := mOutputs[k].(windows := windows, minimized := minimized)];
    }

    method PushOn(k: nat, w: nat, minimized: bool)
      requires k < |mOutputs|
      modifies this`mOutputs
      ensures mOutputs == old(mOutputs)[k := With(old(mOutputs[k]), w, minimized)]
    {
      var o := mOutputs[k];
      if minimized {
        mOutputs := mOutputs[k := o.(minimized := o.minimized + [w])];
      } else {
        mOutputs := mOutputs[k := o.(windows := o.windows + [w])];
      }
    }

    method SetFrame(w: nat, f: Frame)
      requires w in mWindows
      modifies this`mWindows
      ensures Snap() == Put(old(Snap()), w, old(mWindows[w]).(frame := f)) && (old(Valid()) ==> Valid())
    {
      if Part(Snap()) {
        PutKeeps(Snap(), w, mWindows[w].(frame := f));
      }
      hide Part;
      mWindows := mWindows[w := mWindows[w].(frame := f)];
    }

    method WindowTransfer(w: nat, from: Option<Rect>, to: Rect)
      requires w in mWindows
      modifies this`mWindows
      ensures Snap() == Put(old(Snap()), w, old(mWindows[w]).(frame := Transfer(old(mWindows[w].frame), from, to)))
      ensures old(Valid()) ==> Valid()
      ensures var was, f := old(mWindows[w].frame), mWindows[w].frame;
              && (!Geometry.Floating(was) && from.Some? ==>
                  Geometry.SavedHome(f, to) == Geometry.SavedHome(was, from.value))
              && (Geometry.Floating(was) && to.width > BORDER && to.height > BORDER_TOP ==> Contains(to, f.x, f.y))
    {
      Transferred(mWindows[w].frame, from, to);
      var f := FrameTransfer(mWindows[w].frame, from, to);
      hide Transfer, Part, Geometry.Floating, Geometry.SavedHome, Contains;
      SetFrame(w, f);
    }

    method FrameTransfer(was: Frame, from: Option<Rect>, to: Rect) returns (f: Frame)
      ensures f == Transfer(was, from, to)
    {
      f := was;
      if f.maximized || f.fullscreen {
        if from.Some? {
          f := f.(savedX := f.savedX + to.x - from.value.x, savedY := f.savedY + to.y - from.value.y);
        } else {
          f := f.(savedX := to.x + BORDER, savedY := to.y + BORDER_TOP);
        }
        hide ApplyGeometry;
        f := ApplyGeometry(f, to);
        return;
      }
      var x, y := f.x, f.y;
      if from.Some? {
        x, y := x + to.x - from.value.x, y + to.y - from.value.y;
      }
      if !Contains(to, x, y) {
        x, y := to.x + BORDER, to.y + BORDER_TOP;
      }
      f := At(f, x, y);
    }

    method OutputMaybeDestroy(k: nat)
      requires Valid() && k < |mOutputs|
      modifies this`mOutputs, this`mOrphanedWindows, this`mWindows
      ensures Valid() && Snap() == Desk.OutputMaybeDestroy(old(Snap()), k) && SameOpen(old(mWindows), mWindows)
    {
      hide Part, SameOpen;
      OutputMaybeDestroyKeeps(Snap(), k);
      var out := mOutputs[k];
      if !out.removed {
        return;
      }
      mOutputs := mOutputs[..k] + mOutputs[k + 1..];
      var target := 0;
      while target < |mOutputs| && mOutputs[target].removed
        invariant target <= |mOutputs| && forall j :: 0 <= j < target ==> mOutputs[j].removed
      {
        target := target + 1;
      }
      FirstLiveIs(mOutputs, target);
      var windows := out.windows + out.minimized;
      if target < |mOutputs| {
        HandOverWindows(windows, out.rect, target);
      } else {
        mOrphanedWindows := mOrphanedWindows + windows;
      }
    }

    method HandOverWindows(ws: seq<nat>, from: Rect, target: nat)
      requires target < |mOutputs|
      modifies this`mOutputs, this`mWindows
      ensures Snap() == HandOver(old(Snap()), ws, from, target)
    {
      hide Part, Transfer, Contains, Geometry.Floating, Geometry.SavedHome;
      for i := 0 to |ws|
        invariant target < |mOutputs|
        invariant HandOver(Snap(), ws[i..], from, target) == HandOver(old(Snap()), ws, from, target)
      {
        var w := ws[i];
        assert ws[i..][1..] == ws[i + 1..];
        if w in mWindows {
          var to := mOutputs[target].rect;
          PushOn(target, w, mWindows[w].minimized);
          WindowTransfer(w, Some(from), to);
        }
      }
    }

    method OutputAdoptOrphans()
      requires Valid()
      modifies this`mOutputs, this`mOrphanedWindows, this`mWindows
      ensures Valid() && Snap() == AdoptOrphans(old(Snap()))
      ensures SameOpen(old(mWindows), mWindows) && Runs.NoneWaiting(Snap())
    {
      hide Part, SameOpen, Runs.NoneWaiting, MoveToOutput, Transfer, Desk.OutputUnderPointer;
      Runs.AdoptOrphansNone(Snap());
      if mOrphanedWindows == [] {
        return;
      }
      var target := OutputUnderPointer();
      if target == |mOutputs| {
        return;
      }
      var orphans := mOrphanedWindows;
      for i := 0 to |orphans|
        invariant Valid() && target < |mOutputs|
        invariant Adopt(Snap(), orphans[i..], target) == Adopt(old(Snap()), orphans, target)
      {
        assert orphans[i..][1..] == orphans[i + 1..];
        if orphans[i] in mWindows {
          WindowMoveToOutput(orphans[i], target);
          WindowTransfer(orphans[i], None, mOutputs[target].rect);
        }
      }
    }

    method WindowUpdateOutput(w: nat)
      requires Valid() && w in mWindows
      modifies this`mOutputs, this`mOrphanedWindows
      ensures Valid() && Snap() == UpdateOutput(old(Snap()), w)
      ensures forall home :: old(Geometry.Away(Snap(), w, home)) ==>
                (Geometry.Away(Snap(), w, home) <==> old(Geometry.Settles(Snap(), w)))
    {
      hide Part, Geometry.Away, Geometry.Settles, MoveToOutput, Desk.OutputOf, Half;
      Updated(Snap(), w);
      var f := mWindows[w].frame;
      var k := OutputAt(f.x + Half(f.width), f.y + Half(f.height));
      if k < |mOutputs| {
        WindowMoveToOutput(w, k);
      }
    }

    // ---------- one window ----------

    method WindowSetState(w: nat, maximized: bool, fullscreen: bool, target: Option<nat>)
      requires Valid() && w in mWindows && (target.Some? ==> target.value < |mOutputs|)
      modifies this`mOutputs, this`mOrphanedWindows, this`mWindows
      ensures Valid() && Snap() == SetState(old(Snap()), w, maximized, fullscreen, target)
      ensures StateSet(old(Snap()), Snap(), w, maximized, fullscreen)
    {
      hide Part, StateSet;
      StateIsSet(Snap(), w, maximized, fullscreen, target);
      var k := OutputOf(w);
      if k == |mOutputs| {
        return;
      }
      var f := mWindows[w].frame;
      if maximized == f.maximized && fullscreen == f.fullscreen {
        return;
      }
      var out := mOutputs[k].rect;
      var to: Option<Rect> := None;
      if fullscreen && !f.fullscreen && target.Some? && target.value != k {
        to := Some(mOutputs[target.value].rect);
        WindowMoveToOutput(w, target.value);
      }
      var f' := FrameSetState(f, maximized, fullscreen, out, to);
      hide MoveToOutput, SetStateOf;
      SetFrame(w, f');
    }

    /** The frame for a state; `to` is the output it has just been moved to for that. */
    method FrameSetState(was: Frame, maximized: bool, fullscreen: bool, out: Rect, to: Option<Rect>) returns (f: Frame)
      requires maximized != was.maximized || fullscreen != was.fullscreen
      ensures f == SetStateOf(was, maximized, fullscreen, out, to)
      ensures maximized || fullscreen ==>
                Geometry.SavedHome(f, if fullscreen && !was.fullscreen && to.Some? then to.value else out)
                == if Geometry.Floating(was) then Geometry.HomeOf(was, out) else Geometry.SavedHome(was, out)
      ensures !maximized && !fullscreen && was.savedWidth > 0 ==>
                f.x == was.savedX && f.y == was.savedY && f.proposed == Some((was.savedWidth, was.savedHeight))
    {
      if maximized || fullscreen {
        Geometry.SetStateSaves(was, maximized, fullscreen, out, to);
      }
      hide ApplyGeometry;
      f := was;
      var on := out;
      if !was.maximized && !was.fullscreen {
        f := f.(savedX := f.x, savedY := f.y, savedWidth := f.width, savedHeight := f.height);
      }
      if fullscreen && !was.fullscreen && to.Some? {
        f := f.(savedX := f.savedX + to.value.x - out.x, savedY := f.savedY + to.value.y - out.y);
        on := to.value;
      }
      f := f.(maximized := maximized, fullscreen := fullscreen);
      if fullscreen || maximized {
        f := ApplyGeometry(f, on);
      } else if f.savedWidth > 0 {
        f := At(f, f.savedX, f.savedY).(proposed := Some((f.savedWidth, f.savedHeight)));
      } else {
        f := f.(centerRequested := true, proposed := Some((0, 0)));
      }
    }

    method WindowMinimize(w: nat)
      requires Valid() && w in mWindows
      modifies this`mOutputs, this`mWindows, this`mSeats
      ensures Valid() && Snap() == Minimize(old(Snap()), w)
      ensures w in mWindows && (old(Seats.SeatsOk(Snap())) ==> Seats.SeatsOk(Snap()))
    {
      hide Part, Seats.SeatsOk, Unfocus, Erase, Desk.OutputOf;
      Minimized(Snap(), w);
      var k := OutputOf(w);
      if k == |mOutputs| {
        return;
      }
      var win, o := mWindows[w], mOutputs[k];
      mWindows := mWindows[w := win.(minimized := !win.minimized, wantMinimized := false, shown := win.minimized)];
      if !win.minimized {
        var windows := EraseFrom(o.windows, w);
        mOutputs := mOutputs[k := o.(windows := windows, minimized := o.minimized + [w])];
        UnfocusSeats(w);
      } else {
        var minimized := EraseFrom(o.minimized, w);
        mOutputs := mOutputs[k := o.(minimized := minimized, windows := o.windows + [w])];
      }
    }

    method UnfocusSeats(w: nat)
      modifies this`mSeats
      ensures mSeats == Unfocus(old(mSeats), w)
    {
      for i := 0 to |mSeats|
        invariant |mSeats| == |old(mSeats)|
        invariant forall j :: 0 <= j < |mSeats| ==>
                    mSeats[j] == if j < i then Unfocus(old(mSeats), w)[j] else old(mSeats)[j]
      {
        if mSeats[i].focused == Some(w) {
          mSeats := mSeats[i := mSeats[i].(focused := None)];
        }
      }
      assert mSeats == Unfocus(old(mSeats), w);
    }

    method WindowMaybeDestroy(w: nat)
      requires Valid() && w in mWindows
      modifies this`mOutputs, this`mOrphanedWindows, this`mWindows, this`mSeats
      ensures Valid() && Snap() == MaybeDestroy(old(Snap()), w)
      ensures (w in mWindows <==> !old(mWindows[w]).closed) && (old(Seats.SeatsOk(Snap())) ==> Seats.SeatsOk(Snap()))
    {
      hide Part, Seats.SeatsOk;
      Destroyed(Snap(), w);
      if !mWindows[w].closed {
        return;
      }
      hide Forget, EraseEverywhere;
      ForgetWindow(w);
      EraseOnAll(w);
      mOrphanedWindows := EraseFrom(mOrphanedWindows, w);
      mWindows := mWindows - {w};
    }

    method EraseOnAll(w: nat)
      modifies this`mOutputs
      ensures mOutputs == EraseEverywhere(old(mOutputs), w)
    {
      hide Without;
      for k := 0 to |mOutputs|
        invariant |mOutputs| == |old(mOutputs)|
        invariant forall j :: 0 <= j < |mOutputs| ==>
                    mOutputs[j] == if j < k then EraseEverywhere(old(mOutputs), w)[j] else old(mOutputs)[j]
      {
        EraseOn(k, w);
      }
      assert mOutputs == EraseEverywhere(old(mOutputs), w);
    }

    method ForgetWindow(w: nat)
      modifies this`mSeats
      ensures mSeats == Forget(old(mSeats), w)
    {
      for i := 0 to |mSeats|
        invariant |mSeats| == |old(mSeats)|
        invariant forall j :: 0 <= j < |mSeats| ==>
                    mSeats[j] == if j < i then Forget(old(mSeats), w)[j] else old(mSeats)[j]
      {
        if mSeats[i].focused == Some(w) {
          mSeats := mSeats[i := mSeats[i].(focused := None)];
        }
        if mSeats[i].opWindow == Some(w) {
          mSeats := mSeats[i := mSeats[i].(op := NoOp, opWindow := None)];
        }
      }
      assert mSeats == Forget(old(mSeats), w);
    }

    /** A window new to the policy. */
    method WindowArrive(w: nat)
      requires Valid() && w in mWindows
      modifies this`mWindows, this`mSeats
      ensures Valid() && Snap() == Arrive(old(Snap()), w)
    {
      hide Part, Runs.Keeps, Interact, Desk.OutputOf;
      Runs.ArriveKeeps(Snap(), w);
      Runs.KeepsPart(Snap(), Arrive(Snap(), w));
      WindowPlace(w);
      InteractSeats(w);
    }

    /** Where a window that arrives is put. */
    method WindowPlace(w: nat)
      requires w in mWindows
      modifies this`mWindows
      ensures mWindows == Arrive(old(Snap()), w).windows
    {
      hide Desk.OutputOf, Interact;
      var win := mWindows[w];
      var f := win.frame;
      if f.hasDecor {
        f := At(f, f.x + BORDER, f.y + BORDER_TOP).(centerRequested := true);
      } else {
        var k := OutputOf(w);
        if k < |mOutputs| {
          f := At(f, mOutputs[k].rect.x, mOutputs[k].rect.y);
        } else {
          f := At(f, 0, 0);
        }
      }
      f := f.(proposed := Some((0, 0)));
      mWindows := mWindows[w := win.(isNew := false, frame := f, shown := win.shown && !f.hasDecor)];
    }

    method InteractSeats(w: nat)
      modifies this`mSeats
      ensures mSeats == Interact(old(mSeats), w)
    {
      for i := 0 to |mSeats|
        invariant |mSeats| == |old(mSeats)|
        invariant forall j :: 0 <= j < |mSeats| ==>
                    mSeats[j] == if j < i then Interact(old(mSeats), w)[j] else old(mSeats)[j]
      {
        if mSeats[i].interacted.None? {
          mSeats := mSeats[i := mSeats[i].(interacted := Some(w))];
        }
      }
      assert mSeats == Interact(old(mSeats), w);
    }

    method SeatPointerOp(s: Option<nat>, op: SeatOp, w: nat)
      modifies this`mSeats
      ensures Snap() == StartOp(old(Snap()), s, op, w)
    {
      if s.Some? && s.value < |mSeats| {
        mSeats := mSeats[s.value := mSeats[s.value].(op := op, opWindow := Some(w))];
      }
    }

    method WindowDragOff(w: nat)
      requires Valid() && w in mWindows
      modifies this
      ensures Valid() && Snap() == DragOff(old(Snap()), w)
    {
      hide Part, Runs.Keeps, StateSet, SameLists, SetState, StartOp;
      ghost var d := Snap();
      Runs.DragOffKeeps(d, w);
      Runs.KeepsPart(d, DragOff(d, w));
      PutKeeps(d, w, mWindows[w].(wantMaximized := false));
      var seat := mWindows[w].moveRequested;
      if seat.None? {
        return;
      }
      if !mWindows[w].frame.fullscreen {
        mWindows := mWindows[w := mWindows[w].(wantMaximized := false)];
        WishedStateHas(Snap(), w, false, false, None);
        WindowSetState(w, false, false, None);
        SeatPointerOp(seat, Moving, w);
      }
      mWindows := mWindows[w := mWindows[w].(moveRequested := None)];
    }

    method WindowResize(w: nat)
      requires Valid() && w in mWindows
      modifies this`mWindows, this`mSeats
      ensures Valid() && Snap() == Resize(old(Snap()), w)
    {
      hide Part, Runs.Keeps;
      Runs.ResizeKeeps(Snap(), w);
      Runs.KeepsPart(Snap(), Resize(Snap(), w));
      var win := mWindows[w];
      if win.resizeRequested.None? {
        return;
      }
      if !win.frame.maximized && !win.frame.fullscreen {
        SeatPointerOp(win.resizeRequested, Resizing, w);
      }
      mWindows := mWindows[w := win.(resizeRequested := None)];
    }

    method FindFullscreenOutput(id: Option<nat>) returns (target: Option<nat>)
      ensures target == FullscreenOutput(mOutputs, id, |mOutputs|)
    {
      target := None;
      for k := 0 to |mOutputs|
        invariant target == FullscreenOutput(mOutputs, id, k)
      {
        if !mOutputs[k].removed && Some(mOutputs[k].id) == id {
          target := Some(k);
        }
      }
    }

    method WindowFollowState(w: nat)
      requires Valid() && w in mWindows
      modifies this`mOutputs, this`mOrphanedWindows, this`mWindows
      ensures Valid() && Snap() == FollowState(old(Snap()), w) && w in mWindows
    {
      hide SetState, FullscreenOutput, Part, StateSet;
      var win := mWindows[w];
      if win.wantMaximized != win.frame.maximized || win.wantFullscreen != win.frame.fullscreen {
        var target := FindFullscreenOutput(win.wantFullscreenOutput);
        WindowSetState(w, win.wantMaximized, win.wantFullscreen, target);
        WishedStateHas(old(Snap()), w, win.wantMaximized, win.wantFullscreen, target);
      }
      PutKeeps(Snap(), w, mWindows[w].(wantFullscreenOutput := None));
      mWindows := mWindows[w := mWindows[w].(wantFullscreenOutput := None)];
    }

    method WindowFollowWishes(w: nat)
      requires Valid() && w in mWindows
      modifies this
      ensures Valid() && Snap() == FollowWishes(old(Snap()), w)
    {
      FollowedFlags(Snap(), w);
      hide FollowState, Minimize, Part, Seats.SeatsOk;
      WindowFollowState(w);
      if mWindows[w].wantMinimized && !mWindows[w].minimized {
        WindowMinimize(w);
      }
    }

    method WindowCenter(w: nat)
      requires Valid() && w in mWindows
      modifies this`mWindows
      ensures Valid() && Snap() == Center(old(Snap()), w)
    {
      hide Part, Runs.Keeps, Centered, Desk.OutputOf;
      Runs.CenterKeeps(Snap(), w);
      Runs.KeepsPart(Snap(), Center(Snap(), w));
      var f := mWindows[w].frame;
      var k := OutputOf(w);
      if f.centerRequested && k < |mOutputs| && f.width > 0 && f.height > 0 {
        if !f.maximized && !f.fullscreen {
          f := Centered(f, mOutputs[k].rect);
        }
        mWindows := mWindows[w := mWindows[w].(frame := f.(centerRequested := false), shown := true)];
      }
    }

    method WindowManage(w: nat)
      requires Valid()
      modifies this
      ensures Valid() && Snap() == Desk.Manage(old(Snap()), w)
      ensures SameOpen(old(mWindows), mWindows) && (old(Seats.SeatsOk(Snap())) ==> Seats.SeatsOk(Snap()))
    {
      hide Begun, Desk.Manage, DragOff, Resize, FollowWishes, Center, Part, SameOpen, Seats.SeatsOk;
      Managed(Snap(), w);
      ManagedParts(Snap(), w);
      if w in mWindows {
        WindowBegin(w);
        WindowGrant(w);
      }
    }

    /** A new window arrives, and a navigation button says what to do next. */
    method WindowBegin(w: nat)
      requires Valid() && w in mWindows
      modifies this`mWindows, this`mSeats
      ensures Valid() && Snap() == Begun(old(Snap()), w) && w in mWindows
    {
      hide Arrive, PressNav, Part;
      if mWindows[w].isNew {
        StillThere(Snap(), w);
        WindowArrive(w);
      }
      Runs.PressNavSame(mWindows[w]);
      PutKeeps(Snap(), w, PressNav(mWindows[w]));
      mWindows := mWindows[w := PressNav(mWindows[w])];
    }

    /** What the window and its user ask for. */
    method WindowGrant(w: nat)
      requires Valid() && w in mWindows
      modifies this
      ensures GrantIn(old(Snap()), w)
      ensures Valid() && Snap() == Center(FollowWishes(Resize(DragOff(old(Snap()), w), w), w), w)
    {
      hide DragOff, Resize, FollowWishes, Center, Part;
      StillThere(Snap(), w);
      WindowDragOff(w);
      StillThere(Snap(), w);
      WindowResize(w);
      StillThere(Snap(), w);
      WindowFollowWishes(w);
      WindowCenter(w);
    }

    // ---------- seats ----------

    method SeatFocus(s: nat, w: Option<nat>)
      requires Valid() && s < |mSeats|
      modifies this`mOutputs, this`mSeats
      ensures Valid() && Snap() == Focus(old(Snap()), s, w) && mSeats[s].focused == w
    {
      FocusKeeps(Snap(), s, w);
      hide Part;
      if mSeats[s].focused == w {
        return;
      }
      if w.Some? {
        RaiseWindow(w.value);
      }
      mSeats := mSeats[s := mSeats[s].(focused := w)];
    }

    method RaiseWindow(w: nat)
      modifies this`mOutputs
      ensures mOutputs == ToTop(old(mOutputs), w)
    {
      ToTopEach(mOutputs, w);
      for i := 0 to |mOutputs|
        invariant |mOutputs| == |old(mOutputs)|
        invariant forall j :: 0 <= j < |mOutputs| ==>
                    mOutputs[j] == if j < i then ToTop(old(mOutputs), w)[j] else old(mOutputs)[j]
      {
        if w in mOutputs[i].windows {
          var windows := EraseFrom(mOutputs[i].windows, w);
          mOutputs := mOutputs[i := mOutputs[i].(windows := windows + [w])];
        }
      }
      assert mOutputs == ToTop(old(mOutputs), w);
    }

    method SeatManage(s: nat)
      requires Valid() && s < |mSeats|
      modifies this
      ensures Valid() && Snap() == Desk.SeatManage(old(Snap()), s)
      ensures old(Seats.SeatOk(mWindows, mSeats[s])) ==>
                s < |mSeats| && (Seats.SeatOk(mWindows, mSeats[s]) <==> old(Seats.Fine(Snap(), s)))
    {
      SeatManaged(Snap(), s);
      hide Part, Seats.SeatOk, Seats.Fine, SeatFocuses, SeatActs, SeatReleases;
      SeatFocusSomething(s);
      if s >= |mSeats| {
        return;
      }
      SeatAction(s);
      if s >= |mSeats| {
        return;
      }
      SeatRelease(s);
    }

    method SeatFocusSomething(s: nat)
      requires Valid() && s < |mSeats|
      modifies this`mOutputs, this`mSeats
      ensures Valid() && Snap() == SeatFocuses(old(Snap()), s)
    {
      hide Part, Runs.Keeps, ToTop, Desk.OutputUnderPointer;
      Runs.SeatFocusesKeeps(Snap(), s);
      Runs.KeepsPart(Snap(), SeatFocuses(Snap(), s));
      if mSeats[s].interacted.Some? {
        SeatFocus(s, mSeats[s].interacted);
      } else if mSeats[s].focused.None? {
        var k := OutputUnderPointer();
        SeatFocus(s, if k < |mOutputs|
          && mOutputs[k].windows != [] then Some(mOutputs[k].windows[|mOutputs[k].windows| - 1]) else None);
      }
      mSeats := mSeats[s := mSeats[s].(interacted := None)];
    }

    method SeatAction(s: nat)
      requires Valid() && s < |mSeats|
      modifies this`mOutputs, this`mSeats
      ensures Valid() && Snap() == SeatActs(old(Snap()), s)
    {
      hide Part, Runs.Keeps;
      Runs.SeatActsKeeps(Snap(), s);
      Runs.KeepsPart(Snap(), SeatActs(Snap(), s));
      if mSeats[s].action == NextAction {
        var k := OutputUnderPointer();
        if k < |mOutputs| && mOutputs[k].windows != [] {
          SeatFocus(s, Some(mOutputs[k].windows[0]));
        }
      }
      mSeats := mSeats[s := Act(mSeats[s])];
    }

    method SeatRelease(s: nat)
      requires Valid() && s < |mSeats|
      modifies this
      ensures Valid() && Snap() == SeatReleases(old(Snap()), s)
    {
      hide Part, Runs.Keeps, Geometry.Away, Geometry.Settles;
      Runs.SeatReleasesKeeps(Snap(), s);
      Runs.KeepsPart(Snap(), SeatReleases(Snap(), s));
      var seat := mSeats[s];
      if seat.op != NoOp && seat.opRelease {
        if seat.opWindow.Some? && seat.opWindow.value in mWindows {
          WindowUpdateOutput(seat.opWindow.value);
        }
        seat := seat.(op := NoOp, opWindow := None);
      }
      mSeats := mSeats[s := seat.(opRelease := false)];
    }

    // ---------- a manage sequence ----------

    method DestroyOutputs()
      requires Valid()
      modifies this`mOutputs, this`mOrphanedWindows, this`mWindows
      ensures Valid() && Snap() == Desk.DestroyOutputs(old(Snap()), Ids(old(mOutputs)))
              && SameOpen(old(mWindows), mWindows)
    {
      hide Desk.OutputMaybeDestroy, Part, SameOpen;
      DestroyOutputsKeeps(Snap(), Ids(mOutputs));
      ghost var ids := Ids(mOutputs);
      var outputs := mOutputs;
      assert ids[0..] == ids;
      for i := 0 to |outputs|
        invariant Valid() && Desk.DestroyOutputs(Snap(), ids[i..]) == Desk.DestroyOutputs(old(Snap()), ids)
      {
        assert ids[i..][1..] == ids[i + 1..];
        var k := FindOutput(outputs[i].id);
        if k < |mOutputs| {
          OutputMaybeDestroy(k);
        }
      }
    }

    method RefillOutputs()
      requires Valid()
      modifies this`mOutputs, this`mWindows
      ensures Valid() && Snap() == Refill(old(Snap()), |old(mOutputs)|)
    {
      hide Part, Runs.Keeps, RefillAll;
      Runs.RefillKeeps(Snap());
      Runs.KeepsPart(Snap(), Refill(Snap(), |mOutputs|));
      for k := 0 to |mOutputs|
        invariant |mOutputs| == |old(mOutputs)| && Snap() == Refill(old(Snap()), k)
      {
        if mOutputs[k].geometryChanged {
          var o := mOutputs[k];
          mOutputs := mOutputs[k := o.(geometryChanged := false)];
          RefillWindows(o.windows + o.minimized, o.rect);
        }
      }
    }

    method RefillWindows(ws: seq<nat>, r: Rect)
      modifies this`mWindows
      ensures mWindows == RefillAll(old(mWindows), ws, r)
    {
      hide ApplyGeometry;
      for i := 0 to |ws|
        invariant RefillAll(mWindows, ws[i..], r) == RefillAll(old(mWindows), ws, r)
      {
        assert ws[i..][1..] == ws[i + 1..];
        if ws[i] in mWindows {
          mWindows := mWindows[ws[i] := mWindows[ws[i]].(frame := ApplyGeometry(mWindows[ws[i]].frame, r))];
        }
      }
    }

    method WindowQueued(w: nat)
      requires Valid() && w in mWindows
      modifies this
      ensures Valid() && Snap() == Queued(old(Snap()), w)
    {
      hide Part, Seats.SeatsOk;
      if !mWindows[w].queueMinimize {
        return;
      }
      WindowMinimize(w);
      PutKeeps(Snap(), w, mWindows[w].(queueMinimize := false));
      mWindows := mWindows[w := mWindows[w].(queueMinimize := false)];
      if !mWindows[w].minimized && mSeats != [] {
        SeatFocus(0, Some(w));
      }
    }

    method TidyWindows(ws: seq<nat>)
      requires Valid()
      modifies this
      ensures Valid() && Snap() == Tidy(old(Snap()), ws)
    {
      hide Queued, MaybeDestroy, Part, Seats.SeatsOk;
      for i := 0 to |ws|
        invariant Valid() && Tidy(Snap(), ws[i..]) == Tidy(old(Snap()), ws)
      {
        assert ws[i..][1..] == ws[i + 1..];
        if ws[i] in mWindows {
          WindowQueued(ws[i]);
          if ws[i] in mWindows {
            WindowMaybeDestroy(ws[i]);
          }
        }
      }
    }

    method ManageWindows(ws: seq<nat>)
      requires Valid()
      modifies this
      ensures Valid() && Snap() == ManageAll(old(Snap()), ws)
    {
      hide Desk.Manage, Part, SameOpen, Seats.SeatsOk;
      for i := 0 to |ws|
        invariant Valid() && ManageAll(Snap(), ws[i..]) == ManageAll(old(Snap()), ws)
      {
        assert ws[i..][1..] == ws[i + 1..];
        WindowManage(ws[i]);
      }
    }

    method DestroyClosedOrphans()
      requires Valid()
      modifies this
      ensures Valid() && Snap() == DestroyClosed(old(Snap()), old(mOrphanedWindows))
    {
      hide MaybeDestroy, Part, Seats.SeatsOk;
      var orphans := mOrphanedWindows;
      for i := 0 to |orphans|
        invariant Valid() && DestroyClosed(Snap(), orphans[i..]) == DestroyClosed(old(Snap()), orphans)
      {
        assert orphans[i..][1..] == orphans[i + 1..];
        if orphans[i] in mWindows {
          WindowMaybeDestroy(orphans[i]);
        }
      }
    }

    method Clean()
      requires Valid()
      modifies this
      ensures Valid() && Snap() == Cleanup(old(Snap()))
    {
      hide Desk.DestroyOutputs, AdoptOrphans, Refill, Tidy, DestroyClosed, Part, SameOpen, Runs.NoneWaiting;
      DestroyOutputs();
      OutputAdoptOrphans();
      RefillOutputs();
      ghost var d := Snap();
      var n := |mOutputs|;
      for k := 0 to n
        invariant Valid() && Snap() == TidyOutputs(d, k)
      {
        if k < |mOutputs| {
          TidyWindows(mOutputs[k].windows + mOutputs[k].minimized);
        }
      }
      DestroyClosedOrphans();
    }

    method RiverWmManageStart()
      requires Valid()
      modifies this
      ensures Valid() && Snap() == ManageStart(old(Snap())) && Stay(old(mWindows), mWindows) && Runs.NoneWaiting(Snap())
      ensures old(Seats.SeatsOk(Snap())) ==>
                (Seats.SeatsOk(Snap()) <==>
                    old(Seats.AllFine(Seats.BeforeSeats(Snap()), |Seats.BeforeSeats(Snap()).seats|)))
    {
      Sequenced(Snap());
      hide Cleanup, ManageAll, Desk.SeatManage, Part, Stay, Runs.NoneWaiting, Seats.SeatsOk, Seats.AllFine,
        Seats.BeforeSeats,
        Seats.SeatOk, Seats.Fine;
      Clean();
      ghost var d := Snap();
      var n := |mOutputs|;
      for k := 0 to n
        invariant Valid() && Snap() == ManageOutputs(d, k)
      {
        if k < |mOutputs| {
          ManageWindows(mOutputs[k].windows);
        }
      }
      ManageWindows(mOrphanedWindows);
      ghost var d3 := Snap();
      var seats := |mSeats|;
      for s := 0 to seats
        invariant Valid() && Snap() == SeatsManage(d3, s)
      {
        if s < |mSeats| {
          SeatManage(s);
        } else {
          NoSeat(Snap(), s);
        }
      }
    }

    // ---------- events ----------

    method RiverWmWindow(w: nat)
      requires Valid() && w !in mWindows
      modifies this`mOutputs, this`mWindows, this`mOrphanedWindows
      ensures Snap() == OpenWindow(old(Snap()), w) && (Valid() <==> old(Runs.MainLive(Snap())))
    {
      hide Part, Runs.MainLive;
      Runs.OpenWindowPlaced(Snap(), w);
      mWindows := mWindows[w := NEW_WINDOW];
      if mMainOutput.None? {
        mOrphanedWindows := mOrphanedWindows + [w];
        return;
      }
      var k := FindOutput(mMainOutput.value);
      if k < |mOutputs| {
        PushOn(k, w, false);
      }
    }
  }

  // ---------- what the handlers keep ----------

  lemma MovedThere(d: Desktop, w: nat, k: nat)
    requires Part(d) && w in d.windows && k < |d.outputs|
    ensures var d' := MoveToOutput(d, w, k);
            Part(d') && |d'.outputs| == |d.outputs| && Desk.OutputOf(d'.outputs, w) == k
  {
    var d' := MoveToOutput(d, w, k);
    MoveKeeps(d, w, k);
    Geometry.MoveLists(d, w, k);
    hide Part, MoveToOutput;
    Geometry.OutputOfIs(d', w, k);
  }

  lemma MoveIs(d: Desktop, w: nat, k: nat)
    requires w in d.windows && k < |d.outputs|
    ensures var from, min := Desk.OutputOf(d.outputs, w), d.windows[w].minimized;
            MoveToOutput(d, w, k) ==
            if from == k then d
            else if from < |d.outputs| then
              var outputs := d.outputs[from := Without(d.outputs[from], w)];
              d.(outputs := outputs[k := With(outputs[k], w, min)])
            else d.(orphans := Erase(d.orphans, w), outputs := d.outputs[k := With(d.outputs[k], w, min)])
  {
    hide Without, With, Desk.OutputOf, Erase;
  }

  lemma Transferred(was: Frame, from: Option<Rect>, to: Rect)
    ensures var f := Transfer(was, from, to);
            && (!Geometry.Floating(was) && from.Some? ==>
                Geometry.SavedHome(f, to) == Geometry.SavedHome(was, from.value))
            && (Geometry.Floating(was) && to.width > BORDER && to.height > BORDER_TOP ==> Contains(to, f.x, f.y))
  {
    if !Geometry.Floating(was) && from.Some? {
      Geometry.TransferSaves(was, from.value, to);
    } else if Geometry.Floating(was) && to.width > BORDER && to.height > BORDER_TOP {
      Geometry.TransferReachable(was, from, to);
    }
    hide Transfer;
  }

  lemma Updated(d: Desktop, w: nat)
    requires Part(d) && w in d.windows
    ensures Part(UpdateOutput(d, w))
    ensures forall home :: Geometry.Away(d, w, home) ==>
              (Geometry.Away(UpdateOutput(d, w), w, home) <==> Geometry.Settles(d, w))
  {
    Runs.UpdateOutputKeeps(d, w);
    Runs.KeepsPart(d, UpdateOutput(d, w));
    hide Part, Runs.Keeps, UpdateOutput, Geometry.Away, Geometry.Settles;
    forall home | Geometry.Away(d, w, home)
      ensures Geometry.Away(UpdateOutput(d, w), w, home) <==> Geometry.Settles(d, w)
    {
      Geometry.LetGoAway(d, w, home);
    }
  }

  /** The window's home is noted or kept while it is maximized or fullscreen, and then gone back to. */
  ghost predicate StateSet(d: Desktop, d': Desktop, w: nat, maximized: bool, fullscreen: bool)
    requires w in d.windows
  {
    var k, f := Desk.OutputOf(d.outputs, w), d.windows[w].frame;
    && w in d'.windows
    && (k < |d.outputs| && (maximized || fullscreen) ==>
          Geometry.Away(d', w, if Geometry.Floating(f) then Geometry.HomeOf(f, d.outputs[k].rect)
                               else Geometry.SavedHome(f, d.outputs[k].rect)))
    && (!maximized && !fullscreen ==> forall home :: Geometry.Away(d, w, home) && home.width > 0 ==>
          var f' := d'.windows[w].frame;
          && d'.outputs == d.outputs && k < |d.outputs| && Geometry.Floating(f')
          && f'.x - d.outputs[k].rect.x == home.dx && f'.y - d.outputs[k].rect.y == home.dy
          && f'.proposed == Some((home.width, home.height)))
  }

  lemma StateIsSet(d: Desktop, w: nat, maximized: bool, fullscreen: bool, target: Option<nat>)
    requires Part(d) && w in d.windows && (target.Some? ==> target.value < |d.outputs|)
    ensures var d' := SetState(d, w, maximized, fullscreen, target);
            Part(d') && StateSet(d, d', w, maximized, fullscreen)
  {
    hide Part, SetState, Desk.OutputOf, Geometry.Away;
    var k, f := Desk.OutputOf(d.outputs, w), d.windows[w].frame;
    var d' := SetState(d, w, maximized, fullscreen, target);
    SetStateKeeps(d, w, maximized, fullscreen, target);
    Seats.SetStateQuiet(d, w, maximized, fullscreen, target);
    if maximized || fullscreen {
      if k < |d.outputs| {
        Geometry.SetStateAway(d, w, maximized, fullscreen, target,
                              if Geometry.Floating(f) then Geometry.HomeOf(f, d.outputs[k].rect)
                                  else Geometry.SavedHome(f, d.outputs[k].rect));
      }
    } else {
      forall home | Geometry.Away(d, w, home) && home.width > 0
        ensures var f' := d'.windows[w].frame;
                && d'.outputs == d.outputs && k < |d.outputs| && Geometry.Floating(f')
                && f'.x - d.outputs[k].rect.x == home.dx && f'.y - d.outputs[k].rect.y == home.dy
                && f'.proposed == Some((home.width, home.height))
      {
        Geometry.AwayListed(d, w, home);
        Geometry.SetStateBack(d, w, target, home);
      }
    }
  }

  lemma Minimized(d: Desktop, w: nat)
    requires Part(d) && w in d.windows
    ensures var d' := Minimize(d, w); Part(d') && w in d'.windows && (Seats.SeatsOk(d) ==> Seats.SeatsOk(d'))
  {
    MinimizeKeeps(d, w);
    if Seats.SeatsOk(d) {
      Seats.MinimizeOk(d, w);
    }
    WishedMinimized(d, w);
    hide Part, Minimize, Seats.SeatsOk;
  }

  lemma WishedMinimized(d: Desktop, w: nat)
    requires w in d.windows
    ensures w in Minimize(d, w).windows
  {
  }

  lemma Destroyed(d: Desktop, w: nat)
    requires Part(d) && w in d.windows
    ensures var d' := MaybeDestroy(d, w);
            Part(d') && (w in d'.windows <==> !d.windows[w].closed) && (Seats.SeatsOk(d) ==> Seats.SeatsOk(d'))
  {
    MaybeDestroyKeeps(d, w);
    if Seats.SeatsOk(d) {
      Seats.MaybeDestroyOk(d, w);
    }
    hide Part, Seats.SeatsOk, EraseEverywhere, Forget, Erase;
  }

  lemma Managed(d: Desktop, w: nat)
    requires Part(d)
    ensures var d' := Desk.Manage(d, w);
            Part(d') && SameOpen(d.windows, d'.windows) && (Seats.SeatsOk(d) ==> Seats.SeatsOk(d'))
  {
    Runs.ManageKeeps(d, w);
    Runs.KeepsPart(d, Desk.Manage(d, w));
    hide Part, Desk.Manage, Seats.SeatsOk;
    if Seats.SeatsOk(d) {
      Seats.ManageOk(d, w);
    }
  }

  lemma SeatManaged(d: Desktop, s: nat)
    requires Part(d) && s < |d.seats|
    ensures var d' := Desk.SeatManage(d, s);
            Part(d') && (Seats.SeatOk(d.windows, d.seats[s]) ==>
                           s < |d'.seats| && (Seats.SeatOk(d'.windows, d'.seats[s]) <==> Seats.Fine(d, s)))
  {
    Runs.SeatManageKeeps(d, s);
    Runs.KeepsPart(d, Desk.SeatManage(d, s));
    hide Part, Desk.SeatManage, Runs.Keeps, Seats.SeatOk, Seats.Fine;
    if Seats.SeatOk(d.windows, d.seats[s]) {
      Seats.SeatManageOk(d, s);
    }
  }

  lemma Sequenced(d: Desktop)
    requires Part(d)
    ensures var d' := ManageStart(d);
            && Part(d') && Stay(d.windows, d'.windows) && Runs.NoneWaiting(d')
            && (Seats.SeatsOk(d) ==>
                (Seats.SeatsOk(d') <==> Seats.AllFine(Seats.BeforeSeats(d), |Seats.BeforeSeats(d).seats|)))
  {
    hide *;
    Runs.ManageStartKeeps(d);
    if Seats.SeatsOk(d) {
      Seats.ManagingOk(d);
    }
  }

  lemma ManagedParts(d: Desktop, w: nat)
    ensures w !in d.windows ==> Desk.Manage(d, w) == d
    ensures w in d.windows ==>
              var d1 := Begun(d, w);
              GrantIn(d1, w) && Desk.Manage(d, w) == Center(FollowWishes(Resize(DragOff(d1, w), w), w), w)
  {
    if w in d.windows {
      var d1 := Begun(d, w);
      StillThere(d1, w);
      StillThere(DragOff(d1, w), w);
      StillThere(Resize(DragOff(d1, w), w), w);
    }
    hide Arrive, DragOff, Resize, FollowWishes, Center, PressNav;
  }

  /** Whether it is to be minimized is not affected by the state it is given. */
  lemma FollowedFlags(d: Desktop, w: nat)
    requires w in d.windows
    ensures w in FollowState(d, w).windows
    ensures var win, win' := d.windows[w], FollowState(d, w).windows[w];
            win'.wantMinimized == win.wantMinimized && win'.minimized == win.minimized
  {
    var win := d.windows[w];
    Seats.SetStateQuiet(d, w, win.wantMaximized, win.wantFullscreen,
                        FullscreenOutput(d.outputs, win.wantFullscreenOutput, |d.outputs|));
    hide SetState, FullscreenOutput;
  }

  predicate GrantIn(d: Desktop, w: nat) {
    && w in d.windows && w in DragOff(d, w).windows && w in Resize(DragOff(d, w), w).windows
    && w in FollowWishes(Resize(DragOff(d, w), w), w).windows
  }

  lemma StillThere(d: Desktop, w: nat)
    requires w in d.windows
    ensures w in Arrive(d, w).windows && w in DragOff(d, w).windows && w in Resize(d, w).windows
            && w in FollowWishes(d, w).windows
  {
  }

  lemma NoSeat(d: Desktop, s: nat)
    requires s >= |d.seats|
    ensures Desk.SeatManage(d, s) == d
  {
  }

  lemma WishedStateHas(d: Desktop, w: nat, maximized: bool, fullscreen: bool, target: Option<nat>)
    requires w in d.windows && (target.Some? ==> target.value < |d.outputs|)
    ensures w in SetState(d, w, maximized, fullscreen, target).windows
  {
  }

  lemma {:induction false} IndexOfIs(outputs: seq<Output>, id: nat, k: nat)
    requires k <= |outputs| && (forall j :: 0 <= j < k ==> outputs[j].id != id)
             && (k < |outputs| ==> outputs[k].id == id)
    ensures IndexOf(outputs, id) == k
  {
    if k > 0 {
      IndexOfIs(outputs[1..], id, k - 1);
    }
  }
}
