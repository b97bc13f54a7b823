/**
 The window manager's policy: which output a window is on and where, and the
 order windows are stacked and focused in. Each helper is a function from the
 state before to the state after.
 */
module Desk {
  import opened Bytes

  const BORDER: int := 5
  const BORDER_TOP: int := 32

  datatype Rect = Rect(x: int, y: int, width: int, height: int)

  datatype NavAction = NoNav | NavClose | NavMaximize | NavMinimize

  /** Where a window is, what it goes back to, and the size it was last asked to have. */
  datatype Frame = Frame(
    x: int, y: int, width: int, height: int,
    savedX: int, savedY: int, savedWidth: int, savedHeight: int,
    maximized: bool, fullscreen: bool, hasDecor: bool, centerRequested: bool, proposed: Option<(int, int)>)

  datatype Window = Window(
    frame: Frame, isNew: bool, closed: bool, shown: bool, minimized: bool,
    wantMaximized: bool, wantFullscreen: bool, wantFullscreenOutput: Option<nat>, wantMinimized: bool,
    queueMinimize: bool, pendingNav: NavAction, moveRequested: Option<nat>, resizeRequested: Option<nat>)

  datatype Output = Output(
    id: nat, rect: Rect, removed: bool, geometryChanged: bool, windows: seq<nat>, minimized: seq<nat>)

  datatype SeatOp = NoOp | Moving | Resizing

  /** What a key or a button pressed has a seat do next. */
  datatype Action = NoAction | NextAction | MoveAction | ResizeAction

  datatype Seat = Seat(
    pointerX: int, pointerY: int, focused: Option<nat>, interacted: Option<nat>, hovered: Option<nat>, action: Action,
    op: SeatOp, opWindow: Option<nat>, opRelease: bool)

  datatype Desktop = Desktop(
    outputs: seq<Output>, windows: map<nat, Window>, orphans: seq<nat>, main: Option<nat>, seats: seq<Seat>)

  const NEW_WINDOW: Window :=
    Window(Frame(0, 0, 0, 0, 0, 0, 0, 0, false, false, false, false, None), true, false, true, false,
           false, false, None, false, false, NoNav, None, None)

  const NEW_SEAT: Seat := Seat(0, 0, None, None, None, NoAction, NoOp, None, false)

  /** C's division by two. */
  function Half(n: int): int {
    if n >= 0 then n / 2 else -(-n / 2)
  }

  function Contains(r: Rect, px: int, py: int): bool {
    r.x <= px < r.x + r.width && r.y <= py < r.y + r.height
  }

  // ---------- one window's geometry ----------

  function At(w: Frame, x: int, y: int): Frame {
    w.(x := x, y := y)
  }

  function ApplyFullscreen(w: Frame, out: Rect): Frame {
    At(w, out.x, out.y).(proposed := Some((out.width, out.height)))
  }

  function ApplyMaximized(w: Frame, out: Rect): Frame {
    if w.hasDecor then
      At(w, out.x + BORDER, out.y + BORDER_TOP).(
        proposed := Some((out.width - BORDER * 2, out.height - BORDER_TOP - BORDER)))
    else At(w, out.x, out.y).(proposed := Some((out.width, out.height)))
  }

  function ApplyGeometry(w: Frame, out: Rect): Frame {
    if w.fullscreen then ApplyFullscreen(w, out) else if w.maximized then ApplyMaximized(w, out) else w
  }

  /** From one output's space to another's; `from` is unknown for a window that had none. */
  function Transfer(w: Frame, from: Option<Rect>, to: Rect): Frame {
    if w.maximized || w.fullscreen then
      var moved :=
        match from
        case Some(r) => w.(savedX := w.savedX + to.x - r.x, savedY := w.savedY + to.y - r.y)
        case None => w.(savedX := to.x + BORDER, savedY := to.y + BORDER_TOP);
      ApplyGeometry(moved, to)
    else
      var x := if from.Some? then w.x + to.x - from.value.x else w.x;
      var y := if from.Some? then w.y + to.y - from.value.y else w.y;
      if Contains(to, x, y) then At(w, x, y) else At(w, to.x + BORDER, to.y + BORDER_TOP)
  }

  /**
   Maximized and fullscreen as asked for; `target` is another output to be
   fullscreen on. Nothing to do if both are so already.
   */
  function SetStateOf(w: Frame, maximized: bool, fullscreen: bool, out: Rect, target: Option<Rect>): Frame {
    if maximized == w.maximized && fullscreen == w.fullscreen then w
    else
      var saved :=
        if !w.maximized && !w.fullscreen
        then w.(savedX := w.x, savedY := w.y, savedWidth := w.width, savedHeight := w.height)
        else w;
      var moves := fullscreen && !w.fullscreen && target.Some?;
      var moved :=
        if moves then saved.(savedX := saved.savedX + target.value.x - out.x,
                             savedY := saved.savedY + target.value.y - out.y)
        else saved;
      var now := moved.(maximized := maximized, fullscreen := fullscreen);
      if fullscreen || maximized then ApplyGeometry(now, if moves then target.value else out)
      else if now.savedWidth > 0 then
        At(now, now.savedX, now.savedY).(proposed := Some((now.savedWidth, now.savedHeight)))
      else now.(centerRequested := true, proposed := Some((0, 0)))
  }

  function Centered(w: Frame, out: Rect): Frame {
    var dx, dy := if w.hasDecor then BORDER else 0, if w.hasDecor then BORDER_TOP else 0;
    At(w, out.x + (Half(out.width) - Half(w.width)) + dx, out.y + (Half(out.height) - Half(w.height)) + dy)
  }

  // ---------- lists of windows ----------

  function Erase(s: seq<nat>, w: nat): seq<nat> {
    if s == [] then [] else (if s[0] == w then [] else [s[0]]) + Erase(s[1..], w)
  }

  function Listed(o: Output): seq<nat> {
    o.windows + o.minimized
  }

  function Without(o: Output, w: nat): Output {
    o.(windows := Erase(o.windows, w), minimized := Erase(o.minimized, w))
  }

  function With(o: Output, w: nat, minimized: bool): Output {
    if minimized then o.(minimized := o.minimized + [w]) else o.(windows := o.windows + [w])
  }

  /** The first output that lists the window, the number of outputs if none does. */
  function OutputOf(outputs: seq<Output>, w: nat): (k: nat)
    ensures k <= |outputs| && (k < |outputs| ==> w in outputs[k].windows || w in outputs[k].minimized)
    ensures forall j :: 0 <= j < k ==> w !in outputs[j].windows && w !in outputs[j].minimized
  {
    if outputs == [] || w in outputs[0].windows || w in outputs[0].minimized then 0
    else 1 + OutputOf(outputs[1..], w)
  }

  function OutputAt(outputs: seq<Output>, x: int, y: int): (k: nat)
    ensures k <= |outputs| && (k < |outputs| ==> !outputs[k].removed)
  {
    if outputs == [] || (!outputs[0].removed && Contains(outputs[0].rect, x, y)) then 0
    else 1 + OutputAt(outputs[1..], x, y)
  }

  function FirstLive(outputs: seq<Output>): (k: nat)
    ensures k <= |outputs| && (k < |outputs| ==> !outputs[k].removed)
    ensures forall j :: 0 <= j < k ==> outputs[j].removed
  {
    if outputs == [] || !outputs[0].removed then 0 else 1 + FirstLive(outputs[1..])
  }

  function IndexOf(outputs: seq<Output>, id: nat): (k: nat)
    ensures k <= |outputs| && (k < |outputs| ==> outputs[k].id == id)
    ensures forall j :: 0 <= j < k ==> outputs[j].id != id
  {
    if outputs == [] || outputs[0].id == id then 0 else 1 + IndexOf(outputs[1..], id)
  }

  function OutputUnderPointer(d: Desktop): (k: nat)
    ensures k <= |d.outputs| && (k < |d.outputs| ==> !d.outputs[k].removed)
    ensures k == |d.outputs| ==> forall j :: 0 <= j < |d.outputs| ==> d.outputs[j].removed
  {
    var k := if d.seats == [] then |d.outputs| else OutputAt(d.outputs, d.seats[0].pointerX, d.seats[0].pointerY);
    if k < |d.outputs| then k else FirstLive(d.outputs)
  }

  function Put(d: Desktop, w: nat, win: Window): Desktop {
    d.(windows := d.windows[w := win])
  }

  // ---------- windows between outputs ----------

  function MoveToOutput(d: Desktop, w: nat, k: nat): Desktop
    requires w in d.windows && k < |d.outputs|
  {
    var from := OutputOf(d.outputs, w);
    if from == k then d
    else
      var d1 :=
        if from < |d.outputs| then d.(outputs := d.outputs[from := Without(d.outputs[from], w)])
        else d.(orphans := Erase(d.orphans, w));
      d1.(outputs := d1.outputs[k := With(d1.outputs[k], w, d.windows[w].minimized)])
  }

  /** The windows of an output that is gone, handed over to another. */
  function HandOver(d: Desktop, ws: seq<nat>, from: Rect, k: nat): Desktop
    requires k < |d.outputs|
    decreases |ws|
  {
    if ws == [] then d
    else
      var w := ws[0];
      if w !in d.windows then HandOver(d, ws[1..], from, k)
      else
        var win := d.windows[w];
        var d1 := d.(outputs := d.outputs[k := With(d.outputs[k], w, win.minimized)]);
        HandOver(Put(d1, w, win.(frame := Transfer(win.frame, Some(from), d.outputs[k].rect))), ws[1..], from, k)
  }

  function OutputMaybeDestroy(d: Desktop, k: nat): Desktop
    requires k < |d.outputs|
  {
    var out := d.outputs[k];
    if !out.removed then d
    else
      var d1 := d.(outputs := d.outputs[..k] + d.outputs[k + 1..]);
      var target := FirstLive(d1.outputs);
      if target < |d1.outputs| then HandOver(d1, Listed(out), out.rect, target)
      else d1.(orphans := d1.orphans + Listed(out))
  }

  function Adopt(d: Desktop, ws: seq<nat>, k: nat): Desktop
    requires k < |d.outputs|
    decreases |ws|
  {
    if ws == [] then d
    else
      var w := ws[0];
      if w !in d.windows then Adopt(d, ws[1..], k)
      else
        var d1 := MoveToOutput(d, w, k);
        var win := d1.windows[w];
        Adopt(Put(d1, w, win.(frame := Transfer(win.frame, None, d1.outputs[k].rect))), ws[1..], k)
  }

  function AdoptOrphans(d: Desktop): Desktop {
    var target := OutputUnderPointer(d);
    if d.orphans == [] || target == |d.outputs| then d else Adopt(d, d.orphans, target)
  }

  function UpdateOutput(d: Desktop, w: nat): Desktop
    requires w in d.windows
  {
    var f := d.windows[w].frame;
    var k := OutputAt(d.outputs, f.x + Half(f.width), f.y + Half(f.height));
    if k < |d.outputs| then MoveToOutput(d, w, k) else d
  }

  // ---------- seats ----------

  function ToTop(outputs: seq<Output>, w: nat): seq<Output> {
    if outputs == [] then []
    else
      var o := outputs[0];
      [if w in o.windows then o.(windows := Erase(o.windows, w) + [w]) else o] + ToTop(outputs[1..], w)
  }

  function Focus(d: Desktop, s: nat, w: Option<nat>): Desktop
    requires s < |d.seats|
  {
    if d.seats[s].focused == w then d
    else
      d.(outputs := if w.Some? then ToTop(d.outputs, w.value) else d.outputs,
         seats := d.seats[s := d.seats[s].(focused := w)])
  }

  /** Input focus, taken from every seat that has it on the window. */
  function Unfocus(seats: seq<Seat>, w: nat): (r: seq<Seat>)
    ensures |r| == |seats|
  {
    seq(|seats|, i requires 0 <= i < |seats| => if seats[i].focused == Some(w) then seats[i].(focused := None)
        else seats[i])
  }

  function Forget(seats: seq<Seat>, w: nat): (r: seq<Seat>)
    ensures |r| == |seats|
  {
    seq(|seats|, i requires 0 <= i < |seats| =>
      var a := if seats[i].focused == Some(w) then seats[i].(focused := None) else seats[i];
      if a.opWindow == Some(w) then a.(op := NoOp, opWindow := None) else a)
  }

  function Interact(seats: seq<Seat>, w: nat): (r: seq<Seat>)
    ensures |r| == |seats|
  {
    seq(|seats|, i requires 0 <= i < |seats| => if seats[i].interacted.None? then seats[i].(interacted := Some(w))
        else seats[i])
  }

  function StartOp(d: Desktop, s: Option<nat>, op: SeatOp, w: nat): Desktop {
    if s.Some? && s.value < |d.seats|
        then d.(seats := d.seats[s.value := d.seats[s.value].(op := op, opWindow := Some(w))]) else d
  }

  // ---------- one window ----------

  function SetState(d: Desktop, w: nat, maximized: bool, fullscreen: bool, target: Option<nat>): Desktop
    requires w in d.windows && (target.Some? ==> target.value < |d.outputs|)
  {
    var win, k := d.windows[w], OutputOf(d.outputs, w);
    if k == |d.outputs| || (maximized == win.frame.maximized && fullscreen == win.frame.fullscreen) then d
    else
      var goes := fullscreen && !win.frame.fullscreen && target.Some? && target.value != k;
      var d1 := if goes then MoveToOutput(d, w, target.value) else d;
      Put(d1, w, win.(frame := SetStateOf(win.frame, maximized, fullscreen, d.outputs[k].rect,
                                          if goes then Some(d.outputs[target.value].rect) else None)))
  }

  function Minimize(d: Desktop, w: nat): Desktop
    requires w in d.windows
  {
    var k, win := OutputOf(d.outputs, w), d.windows[w];
    if k == |d.outputs| then d
    else
      var o := d.outputs[k];
      var win' := win.(minimized := !win.minimized, wantMinimized := false, shown := win.minimized);
      var o' :=
        if win'.minimized then o.(windows := Erase(o.windows, w), minimized := o.minimized + [w])
        else o.(minimized := Erase(o.minimized, w), windows := o.windows + [w]);
      Put(d, w, win').(outputs := d.outputs[k := o'], seats := if win'.minimized then Unfocus(d.seats, w) else d.seats)
  }

  function EraseEverywhere(outputs: seq<Output>, w: nat): (r: seq<Output>)
    ensures |r| == |outputs| && forall k :: 0 <= k < |outputs| ==> r[k] == Without(outputs[k], w)
  {
    seq(|outputs|, k requires 0 <= k < |outputs| => Without(outputs[k], w))
  }

  function MaybeDestroy(d: Desktop, w: nat): Desktop
    requires w in d.windows
  {
    if !d.windows[w].closed then d
    else
      Desktop(EraseEverywhere(d.outputs, w), d.windows - {w}, Erase(d.orphans, w), d.main, Forget(d.seats, w))
  }

  function Arrive(d: Desktop, w: nat): Desktop
    requires w in d.windows
  {
    var win, k := d.windows[w], OutputOf(d.outputs, w);
    var f := win.frame.(proposed := Some((0, 0)));
    var f' :=
      if f.hasDecor then At(f, f.x + BORDER, f.y + BORDER_TOP).(centerRequested := true)
      else if k < |d.outputs| then At(f, d.outputs[k].rect.x, d.outputs[k].rect.y)
      else At(f, 0, 0);
    var win' := win.(isNew := false, frame := f', shown := win.shown && !f.hasDecor);
    Put(d, w, win').(seats := Interact(d.seats, w))
  }

  /** The output to be fullscreen on: the last live one with the asked for id. */
  function FullscreenOutput(outputs: seq<Output>, id: Option<nat>, n: nat): (k: Option<nat>)
    requires n <= |outputs|
    ensures k.Some? ==> k.value < n
  {
    if n == 0 then None
    else if !outputs[n - 1].removed && Some(outputs[n - 1].id) == id then Some(n - 1)
    else FullscreenOutput(outputs, id, n - 1)
  }

  function PressNav(win: Window): Window {
    match win.pendingNav
    case NavMaximize => win.(wantMaximized := !win.frame.maximized, pendingNav := NoNav)
    case NavMinimize => win.(wantMinimized := true, pendingNav := NoNav)
    case _ => win.(pendingNav := NoNav)
  }

  /** Dragging a maximized window off unmaximizes it. */
  function DragOff(d: Desktop, w: nat): Desktop
    requires w in d.windows
  {
    var win := d.windows[w];
    if win.moveRequested.None? then d
    else
      var d1 :=
        if win.frame.fullscreen then d
        else StartOp(SetState(Put(d, w, win.(wantMaximized := false)), w, false, false, None), win.moveRequested,
                     Moving, w);
      Put(d1, w, d1.windows[w].(moveRequested := None))
  }

  function Resize(d: Desktop, w: nat): Desktop
    requires w in d.windows
  {
    var win := d.windows[w];
    if win.resizeRequested.None? then d
    else
      var d1 := if win.frame.maximized || win.frame.fullscreen then d else StartOp(d, win.resizeRequested, Resizing, w);
      Put(d1, w, win.(resizeRequested := None))
  }

  /** Maximized and fullscreen as its client asked, on the output it asked for. */
  function FollowState(d: Desktop, w: nat): Desktop
    requires w in d.windows
  {
    var win := d.windows[w];
    var d1 :=
      if win.wantMaximized != win.frame.maximized || win.wantFullscreen != win.frame.fullscreen
      then SetState(d, w, win.wantMaximized, win.wantFullscreen,
                    FullscreenOutput(d.outputs, win.wantFullscreenOutput, |d.outputs|))
      else d;
    Put(d1, w, d1.windows[w].(wantFullscreenOutput := None))
  }

  function FollowWishes(d: Desktop, w: nat): Desktop
    requires w in d.windows
  {
    var win, d1 := d.windows[w], FollowState(d, w);
    if win.wantMinimized && !win.minimized then Minimize(d1, w) else d1
  }

  function Center(d: Desktop, w: nat): Desktop
    requires w in d.windows
  {
    var win, k := d.windows[w], OutputOf(d.outputs, w);
    var f := win.frame;
    if f.centerRequested && k < |d.outputs| && f.width > 0 && f.height > 0 then
      var centered := if !f.maximized && !f.fullscreen then Centered(f, d.outputs[k].rect) else f;
      Put(d, w, win.(frame := centered.(centerRequested := false), shown := true))
    else d
  }

  /** A window that has arrived, with what its user pressed taken in. */
  function Begun(d: Desktop, w: nat): Desktop
    requires w in d.windows
  {
    var d1 := if d.windows[w].isNew then Arrive(d, w) else d;
    Put(d1, w, PressNav(d1.windows[w]))
  }

  function Manage(d: Desktop, w: nat): Desktop {
    if w !in d.windows then d else Center(FollowWishes(Resize(DragOff(Begun(d, w), w), w), w), w)
  }

  // ---------- a manage sequence ----------

  function DestroyOutputs(d: Desktop, ids: seq<nat>): Desktop
    decreases |ids|
  {
    if ids == [] then d
    else
      var k := IndexOf(d.outputs, ids[0]);
      DestroyOutputs(if k < |d.outputs| then OutputMaybeDestroy(d, k) else d, ids[1..])
  }

  function Ids(outputs: seq<Output>): (r: seq<nat>)
    ensures |r| == |outputs| && forall k :: 0 <= k < |outputs| ==> r[k] == outputs[k].id
  {
    seq(|outputs|, k requires 0 <= k < |outputs| => outputs[k].id)
  }

  function RefillAll(windows: map<nat, Window>, ws: seq<nat>, r: Rect): map<nat, Window>
    decreases |ws|
  {
    if ws == [] then windows
    else RefillAll(if ws[0] in windows
        then windows[ws[0] := windows[ws[0]].(frame := ApplyGeometry(windows[ws[0]].frame, r))]
            else windows, ws[1..], r)
  }

  /** Of the outputs, the first n have their maximized and fullscreen windows fill them again. */
  function Refill(d: Desktop, n: nat): Desktop
    requires n <= |d.outputs|
  {
    if n == 0 then d
    else
      var d1 := Refill(d, n - 1);
      if |d1.outputs| != |d.outputs| || !d1.outputs[n - 1].geometryChanged then d1
      else
        var o := d1.outputs[n - 1];
        d1.(outputs := d1.outputs[n - 1 := o.(geometryChanged := false)],
            windows := RefillAll(d1.windows, Listed(o), o.rect))
  }

  /** A window asked back from the desktop's icons, or onto them. */
  function Queued(d: Desktop, w: nat): Desktop
    requires w in d.windows
  {
    if !d.windows[w].queueMinimize then d
    else
      var d1 := Minimize(d, w);
      var d2 := Put(d1, w, d1.windows[w].(queueMinimize := false));
      if !d2.windows[w].minimized && d2.seats != [] then Focus(d2, 0, Some(w)) else d2
  }

  function Tidy(d: Desktop, ws: seq<nat>): Desktop
    decreases |ws|
  {
    if ws == [] then d
    else
      var w := ws[0];
      if w !in d.windows then Tidy(d, ws[1..])
      else
        var d1 := Queued(d, w);
        Tidy(if w in d1.windows then MaybeDestroy(d1, w) else d1, ws[1..])
  }

  function TidyOutputs(d: Desktop, n: nat): Desktop {
    if n == 0 then d
    else
      var d1 := TidyOutputs(d, n - 1);
      if n <= |d1.outputs| then Tidy(d1, Listed(d1.outputs[n - 1])) else d1
  }

  function DestroyClosed(d: Desktop, ws: seq<nat>): Desktop
    decreases |ws|
  {
    if ws == [] then d else DestroyClosed(if ws[0] in d.windows then MaybeDestroy(d, ws[0]) else d, ws[1..])
  }

  function ManageAll(d: Desktop, ws: seq<nat>): Desktop
    decreases |ws|
  {
    if ws == [] then d else ManageAll(Manage(d, ws[0]), ws[1..])
  }

  function ManageOutputs(d: Desktop, n: nat): Desktop {
    if n == 0 then d
    else
      var d1 := ManageOutputs(d, n - 1);
      if n <= |d1.outputs| then ManageAll(d1, d1.outputs[n - 1].windows) else d1
  }

  /** What a seat focuses: what was interacted with, or the top window if nothing is focused. */
  function SeatFocuses(d: Desktop, s: nat): Desktop
    requires s < |d.seats|
  {
    var seat := d.seats[s];
    var d1 :=
      if seat.interacted.Some? then Focus(d, s, seat.interacted)
      else if seat.focused.None? then
        var k := OutputUnderPointer(d);
        Focus(d, s, if k < |d.outputs| && d.outputs[k].windows != []
                    then Some(d.outputs[k].windows[|d.outputs[k].windows| - 1]) else None)
      else d;
    if s < |d1.seats| then d1.(seats := d1.seats[s := d1.seats[s].(interacted := None)]) else d1
  }

  /** The bottom window of the output under the pointer comes to the top, and is focused. */
  function FocusNext(d: Desktop, s: nat): Desktop
    requires s < |d.seats|
  {
    var k := OutputUnderPointer(d);
    if k < |d.outputs| && d.outputs[k].windows != [] then Focus(d, s, Some(d.outputs[k].windows[0])) else d
  }

  /** The hovered window is dragged or resized, unless one is already. */
  function Grab(seat: Seat, op: SeatOp): Seat {
    if seat.op == NoOp && seat.hovered.Some? then seat.(op := op, opWindow := seat.hovered) else seat
  }

  function Act(seat: Seat): Seat {
    var acted :=
      match seat.action
      case MoveAction => Grab(seat, Moving)
      case ResizeAction => Grab(seat, Resizing)
      case _ => seat;
    acted.(action := NoAction)
  }

  function SeatActs(d: Desktop, s: nat): Desktop
    requires s < |d.seats|
  {
    var d1 := if d.seats[s].action == NextAction then FocusNext(d, s) else d;
    if s < |d1.seats| then d1.(seats := d1.seats[s := Act(d1.seats[s])]) else d1
  }

  /** A window let go of after being dragged is on whichever output it is now over. */
  function SeatReleases(d: Desktop, s: nat): Desktop
    requires s < |d.seats|
  {
    var seat := d.seats[s];
    var d1 :=
      if seat.op != NoOp && seat.opRelease && seat.opWindow.Some? && seat.opWindow.value in d.windows
      then UpdateOutput(d, seat.opWindow.value) else d;
    var seat' := if seat.op != NoOp && seat.opRelease then seat.(op := NoOp, opWindow := None) else seat;
    d1.(seats := d.seats[s := seat'.(opRelease := false)])
  }

  function SeatManage(d: Desktop, s: nat): Desktop {
    if s >= |d.seats| then d
    else
      var d1 := SeatFocuses(d, s);
      if s >= |d1.seats| then d1
      else
        var d2 := SeatActs(d1, s);
        if s >= |d2.seats| then d2 else SeatReleases(d2, s)
  }

  function SeatsManage(d: Desktop, n: nat): Desktop {
    if n == 0 then d else SeatManage(SeatsManage(d, n - 1), n - 1)
  }

  function Cleanup(d: Desktop): Desktop {
    var d1 := DestroyOutputs(d, Ids(d.outputs));
    var d2 := AdoptOrphans(d1);
    var d3 := Refill(d2, |d2.outputs|);
    var d4 := TidyOutputs(d3, |d3.outputs|);
    DestroyClosed(d4, d4.orphans)
  }

  function ManageStart(d: Desktop): Desktop {
    var d1 := Cleanup(d);
    var d2 := ManageOutputs(d1, |d1.outputs|);
    var d3 := ManageAll(d2, d2.orphans);
    SeatsManage(d3, |d3.seats|)
  }

  // ---------- events ----------

  datatype Wish =
    | Close
    | Maximize(on: bool)
    | Fullscreen(output: Option<nat>)
    | ExitFullscreen
    | Iconify
    | Icon
    | Nav(action: NavAction)
    | Drag(seat: nat)
    | Stretch(seat: nat)
    | Dimensions(width: int, height: int)
    | Decoration(on: bool)

  datatype Word =
    | Pointer(x: int, y: int)
    | Enters(w: nat)
    | Leaves
    | Interaction(w: nat)
    | Pressed(action: Action)
    | ButtonReleased

  datatype Event =
    | WindowOpened(w: nat)
    | WindowWishes(w: nat, wish: Wish)
    | Dragged(w: nat, x: int, y: int)
    | OutputAdded(id: nat)
    | OutputGone(id: nat)
    | OutputMoved(id: nat, x: int, y: int)
    | OutputSized(id: nat, width: int, height: int)
    | SeatAdded
    | SeatSays(s: nat, word: Word)
    | Managing

  function Grant(win: Window, wish: Wish): Window {
    match wish
    case Close => win.(closed := true)
    case Maximize(on) => win.(wantMaximized := on)
    case Fullscreen(output) => win.(wantFullscreen := true, wantFullscreenOutput := output)
    case ExitFullscreen => win.(wantFullscreen := false)
    case Iconify => win.(wantMinimized := true)
    case Icon => win.(queueMinimize := true)
    case Nav(action) => win.(pendingNav := action)
    case Drag(seat) => win.(moveRequested := Some(seat))
    case Stretch(seat) => win.(resizeRequested := Some(seat))
    case Dimensions(width, height) => win.(frame := win.frame.(width := width, height := height))
    case Decoration(on) =>
      var f := win.frame;
      if on && !f.hasDecor then win.(frame := At(f, f.x + BORDER, f.y + BORDER_TOP).(hasDecor := true)) else win
  }

  /** A window opens on the main output; the pointer to it is followed whether or not it is still there. */
  function OpenWindow(d: Desktop, w: nat): Desktop {
    var d1 := Put(d, w, NEW_WINDOW);
    match d.main
    case None => d1.(orphans := d1.orphans + [w])
    case Some(id) =>
      var k := IndexOf(d1.outputs, id);
      if k < |d1.outputs| then d1.(outputs := d1.outputs[k := With(d1.outputs[k], w, false)]) else d1
  }

  function SizeOutput(d: Desktop, k: nat, width: int, height: int): Desktop
    requires k < |d.outputs|
  {
    var w, h := if width < 1 then 1 else width, if height < 1 then 1 else height;
    var o := d.outputs[k];
    var d1 := d.(outputs := d.outputs[k := o.(rect := o.rect.(width := w, height := h), geometryChanged := true)]);
    var m := if d.main.Some? then IndexOf(d1.outputs, d.main.value) else |d1.outputs|;
    if d.main.None? || (m < |d1.outputs| && w >= d1.outputs[m].rect.width) then d1.(main := Some(o.id)) else d1
  }

  function Hear(seat: Seat, word: Word): Seat {
    match word
    case Pointer(x, y) => seat.(pointerX := x, pointerY := y)
    case Interaction(w) => seat.(interacted := Some(w))
    case Enters(w) => seat.(hovered := Some(w))
    case Leaves => seat.(hovered := None)
    case Pressed(action) => seat.(action := action)
    case ButtonReleased => seat.(opRelease := true)
  }

  function Step(d: Desktop, e: Event): Desktop {
    match e
    case WindowOpened(w) => OpenWindow(d, w)
    case WindowWishes(w, wish) => if w in d.windows then Put(d, w, Grant(d.windows[w], wish)) else d
    case Dragged(w, x, y) => if w in d.windows then Put(d, w, d.windows[w].(frame := At(d.windows[w].frame, x, y)))
        else d
    case OutputAdded(id) => d.(outputs := d.outputs + [Output(id, Rect(0, 0, 0, 0), false, false, [], [])])
    case OutputGone(id) =>
      var k := IndexOf(d.outputs, id);
      if k < |d.outputs| then d.(outputs := d.outputs[k := d.outputs[k].(removed := true)]) else d
    case OutputMoved(id, x, y) =>
      var k := IndexOf(d.outputs, id);
      if k < |d.outputs|
      then d.(outputs := d.outputs[k :=
          d.outputs[k].(rect := d.outputs[k].rect.(x := x, y := y), geometryChanged := true)])
      else d
    case OutputSized(id, width, height) =>
      var k := IndexOf(d.outputs, id);
      if k < |d.outputs| then SizeOutput(d, k, width, height) else d
    case SeatAdded => d.(seats := d.seats + [NEW_SEAT])
    case SeatSays(s, word) => if s < |d.seats| then d.(seats := d.seats[s := Hear(d.seats[s], word)]) else d
    case Managing => ManageStart(d)
  }

  const EMPTY: Desktop := Desktop([], map[], [], None, [])

  function Run(events: seq<Event>): Desktop {
    if events == [] then EMPTY else Step(Run(events[..|events| - 1]), events[|events| - 1])
  }
}
