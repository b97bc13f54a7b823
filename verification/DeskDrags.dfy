/**
 Two outputs and a window that is maximized on the left one: runs in which
 dragging it costs it its size (`SizeLost`) or its place (`PlaceLost`). The
 lemmas before them say what a manage sequence makes of such a desktop.
 */
module DeskDrags {
  import opened Bytes
  import opened Desk
  import opened DeskPartition
  import opened DeskGeometry
  import DeskRuns
  import DeskHome

  const LEFT: Rect := Rect(0, 0, 100, 100)
  const RIGHT: Rect := Rect(100, 0, 100, 100)

  function Side(on: nat): Rect {
    if on == 0 then LEFT else RIGHT
  }

  function Half(id: nat, r: Rect, has: bool, changed: bool): Output {
    Output(id, r, false, changed, if has then [7] else [], [])
  }

  /** The window on one of the two. */
  function Pair(on: nat, win: Window, seat: Seat, changed: bool): Desktop {
    Desktop([Half(0, LEFT, on == 0, changed), Half(1, RIGHT, on == 1, changed)], map[7 := win], [], Some(0), [seat])
  }

  // ---------- looking things up ----------

  lemma PairOutput(on: nat, win: Window, seat: Seat, changed: bool)
    requires on < 2
    ensures OutputOf(Pair(on, win, seat, changed).outputs, 7) == on
  {
    var outputs := Pair(on, win, seat, changed).outputs;
    assert outputs[1..] == [outputs[1]];
    if on == 1 {
      assert OutputOf([outputs[1]], 7) == 0;
    }
  }

  lemma PairPut(on: nat, win: Window, seat: Seat, changed: bool, win': Window)
    ensures 7 in Pair(on, win, seat, changed).windows && Pair(on, win, seat, changed).windows[7] == win
    ensures Put(Pair(on, win, seat, changed), 7, win') == Pair(on, win', seat, changed)
  {
    assert map[7 := win][7 := win'] == map[7 := win'];
  }

  lemma NoFullscreenOutput(outputs: seq<Output>, n: nat)
    requires n <= |outputs|
    ensures FullscreenOutput(outputs, None, n) == None
    decreases n
  {
  }

  // ---------- one window ----------

  lemma PairSetState(on: nat, win: Window, seat: Seat, maximized: bool, fullscreen: bool)
    requires on < 2
    ensures var d, f := Pair(on, win, seat, false), win.frame;
            7 in d.windows && SetState(d, 7, maximized, fullscreen, None) ==
            if maximized == f.maximized && fullscreen == f.fullscreen then d
            else Pair(on, win.(frame := SetStateOf(f, maximized, fullscreen, Side(on), None)), seat, false)
  {
    PairOutput(on, win, seat, false);
    PairPut(on, win, seat, false, win.(frame := SetStateOf(win.frame, maximized, fullscreen, Side(on), None)));
    hide OutputOf, SetStateOf, Put;
  }

  /** A window that has arrived, and asks for nothing of its user's. */
  predicate Plain(win: Window) {
    && !win.isNew && !win.minimized && !win.wantMinimized && !win.queueMinimize && !win.closed
      && win.pendingNav == NoNav
    && win.resizeRequested.None? && win.wantFullscreenOutput.None? && !win.frame.centerRequested
      && win.frame.savedWidth >= 0
  }

  function Wished(win: Window, on: nat): Window {
    if win.wantMaximized != win.frame.maximized || win.wantFullscreen != win.frame.fullscreen
    then win.(frame := SetStateOf(win.frame, win.wantMaximized, win.wantFullscreen, Side(on), None)) else win
  }

  lemma PairWishes(on: nat, win: Window, seat: Seat)
    requires on < 2 && Plain(win)
    ensures var d := Pair(on, win, seat, false);
            7 in d.windows && FollowWishes(d, 7) == Pair(on, Wished(win, on), seat, false)
  {
    var d := Pair(on, win, seat, false);
    PairSetState(on, win, seat, win.wantMaximized, win.wantFullscreen);
    NoFullscreenOutput(d.outputs, 2);
    PairPut(on, Wished(win, on), seat, false, Wished(win, on));
    assert Wished(win, on).(wantFullscreenOutput := None) == Wished(win, on) by {
      hide SetStateOf;
    }
    hide SetState, SetStateOf, Put, FullscreenOutput, Minimize;
  }

  lemma PairSettles(on: nat, win: Window, seat: Seat)
    requires on < 2 && !win.frame.centerRequested
    ensures 7 in Pair(on, win, seat, false).windows
            && Center(Pair(on, win, seat, false), 7) == Pair(on, win, seat, false)
  {
    PairPut(on, win, seat, false, win);
    hide OutputOf, Centered;
  }

  lemma PlainPress(win: Window)
    requires Plain(win)
    ensures PressNav(win) == win
  {
  }

  /** What managing it does to a plain window that is not dragged. */
  lemma PairManage(on: nat, win: Window, seat: Seat)
    requires on < 2 && Plain(win) && win.moveRequested.None? && !Wished(win, on).frame.centerRequested
    ensures Desk.Manage(Pair(on, win, seat, false), 7) == Pair(on, Wished(win, on), seat, false)
  {
    var d := Pair(on, win, seat, false);
    PairPut(on, win, seat, false, win);
    PlainPress(win);
    assert DragOff(d, 7) == d && Resize(d, 7) == d by {
      hide SetState, StartOp, Put;
    }
    PairWishes(on, win, seat);
    PairSettles(on, Wished(win, on), seat);
    hide Pair, DragOff, Resize, FollowWishes, Center, PressNav, Put, Arrive, Wished;
  }

  /** One that is dragged off floats, and its seat drags it. */
  function Floated(win: Window, on: nat): Window {
    win.(wantMaximized := false, moveRequested := None,
         frame := if win.frame.maximized then SetStateOf(win.frame, false, false, Side(on), None) else win.frame)
  }

  function Holding(seat: Seat): Seat {
    seat.(op := Moving, opWindow := Some(7))
  }

  lemma PairDragOff(on: nat, win: Window, seat: Seat)
    requires on < 2 && win.moveRequested == Some(0) && !win.frame.fullscreen
    ensures 7 in Pair(on, win, seat, false).windows
            && DragOff(Pair(on, win, seat, false), 7) == Pair(on, Floated(win, on), Holding(seat), false)
  {
    hide SetState, SetStateOf, Floated, StartOp, Put, Pair, DragOff;
    var d := Pair(on, win, seat, false);
    var win1 := win.(wantMaximized := false);
    var win2 := Floated(win, on).(moveRequested := Some(0));
    PairPut(on, win, seat, false, win1);
    PairPut(on, win1, seat, false, win1);
    PairFloats(on, win, seat);
    PairStarts(on, win2, seat);
    PairPut(on, win2, Holding(seat), false, Floated(win, on));
    FloatedMore(win, on);
    DeskRuns.DragOffIs(d, 7, Put(d, 7, win1), Pair(on, win2, Holding(seat), false));
  }

  lemma FloatedMore(win: Window, on: nat)
    ensures Floated(win, on).(moveRequested := Some(0)).(moveRequested := None) == Floated(win, on)
  {
    hide SetStateOf;
  }

  lemma PairStarts(on: nat, win: Window, seat: Seat)
    ensures StartOp(Pair(on, win, seat, false), Some(0), Moving, 7) == Pair(on, win, Holding(seat), false)
  {
    assert [seat][0 := Holding(seat)] == [Holding(seat)];
  }

  lemma PairFloats(on: nat, win: Window, seat: Seat)
    requires on < 2 && win.moveRequested == Some(0) && !win.frame.fullscreen
    ensures var d := Pair(on, win.(wantMaximized := false), seat, false);
            7 in d.windows && SetState(d, 7, false, false, None)
                              == Pair(on, Floated(win, on).(moveRequested := Some(0)), seat, false)
  {
    PairSetState(on, win.(wantMaximized := false), seat, false, false);
    hide SetState, SetStateOf;
  }

  lemma PairDragged(on: nat, win: Window, seat: Seat)
    requires on < 2 && Plain(win) && win.moveRequested == Some(0) && !win.frame.fullscreen
    requires Plain(Floated(win, on)) && !Wished(Floated(win, on), on).frame.centerRequested
    ensures Desk.Manage(Pair(on, win, seat, false), 7) == Pair(on, Wished(Floated(win, on), on), Holding(seat), false)
  {
    var d := Pair(on, win, seat, false);
    PairPut(on, win, seat, false, win);
    PlainPress(win);
    PairDragOff(on, win, seat);
    var win1 := Floated(win, on);
    assert Resize(Pair(on, win1, Holding(seat), false), 7) == Pair(on, win1, Holding(seat), false) by {
      PairPut(on, win1, Holding(seat), false, win1);
      hide StartOp, Put, Floated;
    }
    PairWishes(on, win1, Holding(seat));
    PairSettles(on, Wished(win1, on), Holding(seat));
    hide Pair, DragOff, Resize, FollowWishes, Center, PressNav, Put, Arrive, Wished, Floated;
  }

  // ---------- a manage sequence ----------

  lemma SameFrame(win: Window)
    requires Floating(win.frame)
    ensures forall r :: win.(frame := ApplyGeometry(win.frame, r)) == win
  {
  }

  lemma PairRefill(on: nat, win: Window, seat: Seat, changed: bool)
    requires on < 2 && (changed ==> Floating(win.frame))
    ensures Refill(Pair(on, win, seat, changed), 2) == Pair(on, win, seat, false)
  {
    var d := Pair(on, win, seat, changed);
    assert Refill(d, 0) == d;
    if changed {
      SameFrame(win);
      hide ApplyGeometry;
      var d1 := d.(outputs := [Half(0, LEFT, on == 0, false), Half(1, RIGHT, on == 1, true)]);
      RefillNothing(on, win, on == 0, LEFT);
      RefillNothing(on, win, on == 1, RIGHT);
      assert d.outputs[0 := d.outputs[0].(geometryChanged := false)] == d1.outputs;
      assert Refill(d, 1) == d1;
      assert d1.outputs[1 := d1.outputs[1].(geometryChanged := false)] == Pair(on, win, seat, false).outputs;
    } else {
      assert Refill(d, 1) == d;
    }
  }

  lemma NothingMore()
    ensures var none: seq<nat> := []; none + none == none && [7] + none == [7]
  {
  }

  lemma RefillNothing(on: nat, win: Window, has: bool, r: Rect)
    requires Floating(win.frame)
    ensures RefillAll(map[7 := win], (if has then [7] else []) + [], r) == map[7 := win]
  {
    SameFrame(win);
    hide ApplyGeometry;
    assert map[7 := win][7 := win] == map[7 := win];
    NothingMore();
  }

  lemma PairTidy(on: nat, win: Window, seat: Seat)
    requires on < 2 && !win.closed && !win.queueMinimize
    ensures TidyOutputs(Pair(on, win, seat, false), 2) == Pair(on, win, seat, false)
  {
    var d := Pair(on, win, seat, false);
    PairPut(on, win, seat, false, win);
    assert Queued(d, 7) == d && MaybeDestroy(d, 7) == d by {
      hide Minimize, Focus, Put, Pair;
    }
    hide Queued, MaybeDestroy;
    assert Tidy(d, [7]) == Tidy(d, []) == d;
    NothingMore();
    assert TidyOutputs(d, 0) == d;
    assert TidyOutputs(d, 1) == d;
  }

  lemma PairClean(on: nat, win: Window, seat: Seat, changed: bool)
    requires on < 2 && !win.closed && !win.queueMinimize && (changed ==> Floating(win.frame))
    ensures Cleanup(Pair(on, win, seat, changed)) == Pair(on, win, seat, false)
  {
    var d := Pair(on, win, seat, changed);
    assert DestroyOutputs(d, Ids(d.outputs)) == d by {
      assert Ids(d.outputs) == [0, 1];
      assert IndexOf(d.outputs, 0) == 0;
      assert d.outputs[1..] == [d.outputs[1]] && IndexOf([d.outputs[1]], 1) == 0;
      assert IndexOf(d.outputs, 1) == 1;
      assert [0, 1][1..] == [1];
      assert DestroyOutputs(d, [1]) == DestroyOutputs(d, []) == d;
    }
    assert AdoptOrphans(d) == d;
    PairRefill(on, win, seat, changed);
    PairTidy(on, win, seat);
    assert DestroyClosed(Pair(on, win, seat, false), []) == Pair(on, win, seat, false);
    hide DestroyOutputs, AdoptOrphans, Refill, TidyOutputs;
  }

  lemma PairManageAll(on: nat, win: Window, seat: Seat, win': Window, seat': Seat)
    requires on < 2 && Desk.Manage(Pair(on, win, seat, false), 7) == Pair(on, win', seat', false)
    ensures var d := ManageOutputs(Pair(on, win, seat, false), 2);
            d == Pair(on, win', seat', false) && ManageAll(d, d.orphans) == d
  {
    var d, d' := Pair(on, win, seat, false), Pair(on, win', seat', false);
    hide Desk.Manage;
    assert ManageAll(d, [7]) == ManageAll(d', []) == d';
    assert ManageAll(d, []) == d && ManageAll(d', []) == d';
    assert ManageOutputs(d, 0) == d;
    assert ManageOutputs(d, 1) == if on == 0 then d' else d;
  }

  lemma PairManaged(on: nat, win: Window, seat: Seat, changed: bool, win': Window, seat': Seat)
    requires on < 2 && !win.closed && !win.queueMinimize && (changed ==> Floating(win.frame))
    requires Desk.Manage(Pair(on, win, seat, false), 7) == Pair(on, win', seat', false)
    ensures ManageStart(Pair(on, win, seat, changed)) == SeatManage(Pair(on, win', seat', false), 0)
  {
    PairClean(on, win, seat, changed);
    PairManageAll(on, win, seat, win', seat');
    var d' := Pair(on, win', seat', false);
    assert |Pair(on, win, seat, false).outputs| == 2 && |d'.seats| == 1;
    assert SeatsManage(d', 1) == SeatManage(d', 0) by {
      assert SeatsManage(d', 0) == d';
      hide SeatManage;
    }
    hide Pair, Cleanup, ManageOutputs, ManageAll, SeatsManage, SeatManage;
  }

  // ---------- the seat ----------

  const IDLE: Seat := NEW_SEAT.(focused := Some(7))
  const HOVERING: Seat := IDLE.(hovered := Some(7))
  const LETTING_GO: Seat := Holding(HOVERING).(opRelease := true)

  /** A seat with the focus where it should be, and nothing to let go of. */
  lemma SeatActsOnly(on: nat, win: Window, seat: Seat)
    requires on < 2 && seat.focused == Some(7) && seat.interacted.None? && seat.action != NextAction && !seat.opRelease
    ensures SeatManage(Pair(on, win, seat, false), 0) == Pair(on, win, Act(seat), false)
  {
    var d := Pair(on, win, seat, false);
    assert [seat][0 := seat] == [seat];
    assert SeatFocuses(d, 0) == d;
    assert [seat][0 := Act(seat)] == [Act(seat)];
    assert SeatActs(d, 0) == Pair(on, win, Act(seat), false);
    var acted := Act(seat);
    assert !acted.opRelease && acted.(opRelease := false) == acted && [acted][0 := acted] == [acted];
    hide SeatFocuses, SeatActs, Act, UpdateOutput;
    assert SeatReleases(Pair(on, win, acted, false), 0) == Pair(on, win, acted, false);
  }

  lemma SeatFocusesNew(win: Window)
    ensures SeatManage(Pair(0, win, NEW_SEAT.(interacted := Some(7)), false), 0) == Pair(0, win, IDLE, false)
  {
    var seat := NEW_SEAT.(interacted := Some(7));
    var d, d' := Pair(0, win, seat, false), Pair(0, win, IDLE, false);
    assert ToTop(d.outputs, 7) == d.outputs by {
      assert d.outputs[1..] == [d.outputs[1]] && d.outputs == [d.outputs[0]] + [d.outputs[1]];
      assert Erase([7], 7) == [] && [] + [7] == [7];
      assert ToTop([d.outputs[1]], 7) == [d.outputs[1]];
    }
    hide ToTop;
    var focused := seat.(focused := Some(7));
    assert [seat][0 := focused] == [focused] && [focused][0 := IDLE] == [IDLE] && [IDLE][0 := IDLE] == [IDLE];
    assert Focus(d, 0, Some(7)) == d.(seats := [focused]);
    assert SeatFocuses(d, 0) == d';
    assert Act(IDLE) == IDLE;
    assert SeatActs(d', 0) == d';
    hide SeatFocuses, SeatActs, UpdateOutput;
    assert SeatReleases(d', 0) == d';
  }

  /** Let go of over the right output, a window goes there. */
  lemma SeatDrops(win: Window)
    requires win.frame.x == 105 && win.frame.y == 0 && win.frame.width == 100 && win.frame.height == 100
             && !win.minimized
    ensures SeatManage(Pair(0, win, LETTING_GO, false), 0) == Pair(1, win, HOVERING, false)
  {
    var d, seat := Pair(0, win, LETTING_GO, false), LETTING_GO;
    assert [seat][0 := seat] == [seat];
    assert SeatFocuses(d, 0) == d && Act(seat) == seat && SeatActs(d, 0) == d;
    DropsRight(win, seat);
    assert [seat][0 := HOVERING] == [HOVERING];
    hide SeatFocuses, SeatActs, UpdateOutput;
    assert SeatReleases(d, 0) == Pair(1, win, HOVERING, false);
  }

  lemma RightUnder(outputs: seq<Output>)
    requires |outputs| == 2 && outputs[0].rect == LEFT && outputs[1].rect == RIGHT && !outputs[1].removed
    ensures OutputAt(outputs, 155, 50) == 1
  {
    assert outputs[1..] == [outputs[1]];
    assert OutputAt([outputs[1]], 155, 50) == 0;
  }

  lemma DropsRight(win: Window, seat: Seat)
    requires !win.minimized && win.frame.x == 105 && win.frame.y == 0 && win.frame.width == 100
             && win.frame.height == 100
    ensures 7 in Pair(0, win, seat, false).windows
            && UpdateOutput(Pair(0, win, seat, false), 7) == Pair(1, win, seat, false)
  {
    var d := Pair(0, win, seat, false);
    assert Desk.Half(100) == 50;
    RightUnder(d.outputs);
    hide OutputAt;
    PairOutput(0, win, seat, false);
    hide OutputOf;
    assert Without(d.outputs[0], 7) == Half(0, LEFT, false, false) by {
      assert Erase([7], 7) == [] && Erase([], 7) == [];
    }
    assert With(d.outputs[1], 7, false) == Half(1, RIGHT, true, false) by {
      assert [] + [7] == [7];
    }
    hide Without, With;
    assert d.outputs[0 := Half(0, LEFT, false, false)][1 := Half(1, RIGHT, true, false)]
           == Pair(1, win, seat, false).outputs;
    assert MoveToOutput(d, 7, 1) == Pair(1, win, seat, false);
  }

  // ---------- the run up to the window maximized on the left ----------

  const SETTING_UP: seq<Event> :=
    [OutputAdded(0)] + [OutputAdded(1)] + [OutputMoved(1, 100, 0)] + [OutputSized(1, 100, 100)]
        + [OutputSized(0, 100, 100)]
    + [SeatAdded] + [WindowOpened(7)]

  const PLACED: Window := NEW_WINDOW.(isNew := false, frame := NEW_WINDOW.frame.(proposed := Some((0, 0))))
  const SIZED: Window := PLACED.(frame := PLACED.frame.(width := 50, height := 40), wantMaximized := true)
  const FILLING: Frame := Frame(0, 0, 50, 40, 0, 0, 50, 40, true, false, false, false, Some((100, 100)))
  const FILLED: Window := SIZED.(frame := FILLING.(width := 100, height := 100))

  lemma SetUp()
    ensures Run(SETTING_UP) == Pair(0, NEW_WINDOW, NEW_SEAT, true) && DeskRuns.SaneRun(SETTING_UP)
  {
    var a, b, c, e, f := OutputAdded(0), OutputAdded(1), OutputMoved(1, 100, 0), OutputSized(1, 100, 100),
        OutputSized(0, 100, 100);
    DeskRuns.RunMore([], a);
    assert [] + [a] == [a];
    DeskRuns.RunMore([a], b);
    DeskRuns.RunMore([a] + [b], c);
    DeskRuns.RunMore([a] + [b] + [c], e);
    DeskRuns.RunMore([a] + [b] + [c] + [e], f);
    DeskRuns.RunMore([a] + [b] + [c] + [e] + [f], SeatAdded);
    DeskRuns.RunMore([a] + [b] + [c] + [e] + [f] + [SeatAdded], WindowOpened(7));
    BothSides();
    assert Run([]) == EMPTY && DeskRuns.SaneRun([]);
    hide *;
  }

  const EMPTY_SIDES: Desktop :=
    Desktop([Half(0, LEFT, false, true), Half(1, RIGHT, false, true)], map[], [], Some(0), [])

  lemma BothSides()
    ensures
      var a, b, c, e, f := OutputAdded(0), OutputAdded(1), OutputMoved(1, 100, 0), OutputSized(1, 100, 100),
          OutputSized(0, 100, 100);
      && Step(Step(Step(Step(Step(EMPTY, a), b), c), e), f) == EMPTY_SIDES
      && Step(Step(EMPTY_SIDES, SeatAdded), WindowOpened(7)) == Pair(0, NEW_WINDOW, NEW_SEAT, true)
      && (forall d :: DeskRuns.Sane(d, a) && DeskRuns.Sane(d, b) && DeskRuns.Sane(d, c) && DeskRuns.Sane(d, e)
            && DeskRuns.Sane(d, f) && DeskRuns.Sane(d, SeatAdded))
      && DeskRuns.Sane(Step(EMPTY_SIDES, SeatAdded), WindowOpened(7))
  {
    SidesAdded();
    SidesSized();
    SidesOpened();
    hide Step, Pair;
  }

  const ADDED: Desktop :=
    EMPTY.(outputs := [Output(0, Rect(0, 0, 0, 0), false, false, [], []),
                       Output(1, Rect(100, 0, 0, 0), false, true, [], [])])

  lemma SidesAdded()
    ensures Step(Step(Step(EMPTY, OutputAdded(0)), OutputAdded(1)), OutputMoved(1, 100, 0)) == ADDED
  {
    hide ManageStart, OpenWindow, SizeOutput, IndexOf;
    var o, p := Output(0, Rect(0, 0, 0, 0), false, false, [], []), Output(1, Rect(0, 0, 0, 0), false, false, [], []);
    assert Step(EMPTY, OutputAdded(0)) == EMPTY.(outputs := [o]) by {
      hide ManageStart, OpenWindow, SizeOutput;
    }
    assert [o] + [p] == [o, p];
    assert Step(EMPTY.(outputs := [o]), OutputAdded(1)) == EMPTY.(outputs := [o, p]) by {
      hide ManageStart, OpenWindow, SizeOutput;
    }
    SecondOf(o, p);
    assert [o, p][1 := ADDED.outputs[1]] == ADDED.outputs;
  }

  lemma SecondOf(o: Output, p: Output)
    requires o.id == 0 && p.id == 1
    ensures IndexOf([o, p], 1) == 1 && IndexOf([o, p], 0) == 0
  {
    assert [o, p][1..] == [p];
    assert IndexOf([p], 1) == 0;
  }

  lemma SidesSized()
    ensures Step(Step(ADDED, OutputSized(1, 100, 100)), OutputSized(0, 100, 100)) == EMPTY_SIDES
  {
    var o, p := ADDED.outputs[0], Half(1, RIGHT, false, true);
    var d := ADDED.(outputs := [o, p], main := Some(1));
    SecondOf(o, ADDED.outputs[1]);
    SecondOf(o, p);
    SecondOf(Half(0, LEFT, false, true), p);
    hide IndexOf;
    assert ADDED.outputs == [o, ADDED.outputs[1]];
    assert ADDED.outputs[1 := p] == [o, p];
    assert SizeOutput(ADDED, 1, 100, 100) == d;
    assert [o, p][0 := Half(0, LEFT, false, true)] == EMPTY_SIDES.outputs;
    assert SizeOutput(d, 0, 100, 100) == EMPTY_SIDES;
    hide SizeOutput, ManageStart, OpenWindow;
  }

  lemma SidesOpened()
    ensures Step(Step(EMPTY_SIDES, SeatAdded), WindowOpened(7)) == Pair(0, NEW_WINDOW, NEW_SEAT, true)
    ensures DeskRuns.Sane(Step(EMPTY_SIDES, SeatAdded), WindowOpened(7))
  {
    var d := EMPTY_SIDES.(seats := [NEW_SEAT]);
    assert Step(EMPTY_SIDES, SeatAdded) == d by {
      assert [] + [NEW_SEAT] == [NEW_SEAT];
      hide ManageStart, OpenWindow, SizeOutput;
    }
    SecondOf(d.outputs[0], d.outputs[1]);
    assert d.outputs == [d.outputs[0], d.outputs[1]];
    hide IndexOf;
    assert map[][7 := NEW_WINDOW] == map[7 := NEW_WINDOW];
    assert With(d.outputs[0], 7, false) == Half(0, LEFT, true, true) by {
      assert [] + [7] == [7];
    }
    assert d.outputs[0 := Half(0, LEFT, true, true)] == Pair(0, NEW_WINDOW, NEW_SEAT, true).outputs;
    hide With;
    assert OpenWindow(d, 7) == Pair(0, NEW_WINDOW, NEW_SEAT, true);
    hide OpenWindow, ManageStart, SizeOutput;
  }

  // ---------- each manage sequence ----------

  lemma Arrives()
    ensures ManageStart(Pair(0, NEW_WINDOW, NEW_SEAT, true)) == Pair(0, PLACED, IDLE, false)
  {
    var seat := NEW_SEAT.(interacted := Some(7));
    ArrivesPlaced(seat);
    PairManaged(0, NEW_WINDOW, NEW_SEAT, true, PLACED, seat);
    SeatFocusesNew(PLACED);
    hide *;
  }

  lemma ArrivesPlaced(seat: Seat)
    requires seat == NEW_SEAT.(interacted := Some(7))
    ensures Desk.Manage(Pair(0, NEW_WINDOW, NEW_SEAT, false), 7) == Pair(0, PLACED, seat, false)
  {
    var d, d1 := Pair(0, NEW_WINDOW, NEW_SEAT, false), Pair(0, PLACED, seat, false);
    PairOutput(0, NEW_WINDOW, NEW_SEAT, false);
    PairPut(0, NEW_WINDOW, NEW_SEAT, false, PLACED);
    assert Interact([NEW_SEAT], 7) == [seat];
    assert Arrive(d, 7) == d1 by {
      hide OutputOf, Put;
    }
    PairPut(0, PLACED, seat, false, PLACED);
    PlainPress(PLACED);
    assert DragOff(d1, 7) == d1 && Resize(d1, 7) == d1 by {
      hide SetState, StartOp, Put;
    }
    assert Wished(PLACED, 0) == PLACED;
    PairWishes(0, PLACED, seat);
    PairSettles(0, PLACED, seat);
    hide Pair, DragOff, Resize, FollowWishes, Center, PressNav, Put, Arrive, Wished;
  }

  lemma Maximizes()
    ensures ManageStart(Pair(0, SIZED, IDLE, false)) == Pair(0, SIZED.(frame := FILLING), IDLE, false)
  {
    assert Wished(SIZED, 0) == SIZED.(frame := FILLING);
    PairManage(0, SIZED, IDLE);
    PairManaged(0, SIZED, IDLE, false, SIZED.(frame := FILLING), IDLE);
    SeatActsOnly(0, SIZED.(frame := FILLING), IDLE);
    assert Act(IDLE) == IDLE;
    hide *;
  }

  /** A window that is as it should be is left so, and the seat does what it was told. */
  lemma StaysFilled(win: Window, seat: Seat)
    requires Plain(win) && win.moveRequested.None? && win.wantMaximized == win.frame.maximized
             && win.wantFullscreen == win.frame.fullscreen
    ensures ManageStart(Pair(0, win, seat, false)) == SeatManage(Pair(0, win, seat, false), 0)
  {
    PairManage(0, win, seat);
    assert Wished(win, 0) == win;
    PairManaged(0, win, seat, false, win, seat);
    hide Pair, ManageStart, SeatManage;
  }

  // ---------- dragged off and fullscreen at once ----------

  const HASTY: Window := FILLED.(moveRequested := Some(0), wantFullscreen := true)

  lemma HastyFloats()
    ensures var f := Wished(Floated(HASTY, 0), 0).frame;
            f.fullscreen && f.savedWidth == 100 && f.savedHeight == 100 && !f.centerRequested
    ensures Plain(Floated(HASTY, 0)) && Plain(HASTY)
  {
    var win := Floated(HASTY, 0);
    assert win.frame == Frame(0, 0, 100, 100, 0, 0, 50, 40, false, false, false, false, Some((50, 40)));
  }

  lemma HastyManaged()
    ensures var d := ManageStart(Pair(0, HASTY, IDLE, false));
            7 in d.windows && d.windows[7].frame.fullscreen && d.windows[7].frame.savedWidth == 100
            && d.windows[7].frame.savedHeight == 100
  {
    HastyFloats();
    var win := Wished(Floated(HASTY, 0), 0);
    PairDragged(0, HASTY, IDLE);
    PairManaged(0, HASTY, IDLE, false, win, Holding(IDLE));
    SeatActsOnly(0, win, Holding(IDLE));
    PairPut(0, win, Act(Holding(IDLE)), false, win);
    hide Pair, ManageStart, SeatManage, Wished, Floated, Act;
  }

  // ---------- runs ----------

  const MAXIMIZED: seq<Event> :=
    SETTING_UP + [Managing] + [WindowWishes(7, Dimensions(50, 40))] + [WindowWishes(7, Maximize(true))] + [Managing]
    + [WindowWishes(7, Dimensions(100, 100))]

  lemma ManagingStep(d: Desktop)
    ensures Step(d, Managing) == ManageStart(d) && DeskRuns.Sane(d, Managing)
  {
    hide ManageStart;
  }

  lemma WishStep(on: nat, win: Window, seat: Seat, wish: Wish)
    ensures Step(Pair(on, win, seat, false), WindowWishes(7, wish)) == Pair(on, Grant(win, wish), seat, false)
    ensures DeskRuns.Sane(Pair(on, win, seat, false), WindowWishes(7, wish))
  {
    PairPut(on, win, seat, false, Grant(win, wish));
    hide ManageStart, Put, Grant, OpenWindow, SizeOutput;
  }

  lemma SaysStep(on: nat, win: Window, seat: Seat, word: Word)
    ensures Step(Pair(on, win, seat, false), SeatSays(0, word)) == Pair(on, win, Hear(seat, word), false)
    ensures DeskRuns.Sane(Pair(on, win, seat, false), SeatSays(0, word))
  {
    assert [seat][0 := Hear(seat, word)] == [Hear(seat, word)];
    hide ManageStart, Hear, OpenWindow, SizeOutput;
  }

  lemma DraggedStep(on: nat, win: Window, seat: Seat, x: int, y: int)
    ensures Step(Pair(on, win, seat, false), Dragged(7, x, y))
            == Pair(on, win.(frame := At(win.frame, x, y)), seat, false)
    ensures DeskRuns.Sane(Pair(on, win, seat, false), Dragged(7, x, y))
  {
    PairPut(on, win, seat, false, win.(frame := At(win.frame, x, y)));
    hide ManageStart, Put, At, OpenWindow, SizeOutput;
  }

  /** A run that is sane, and where it gets to. */
  ghost predicate Gets(events: seq<Event>, d: Desktop) {
    DeskRuns.SaneRun(events) && Run(events) == d
  }

  lemma Then(events: seq<Event>, d: Desktop, e: Event)
    requires Gets(events, d) && DeskRuns.Sane(d, e)
    ensures Gets(events + [e], Step(d, e))
  {
    DeskRuns.RunMore(events, e);
    hide DeskRuns.SaneRun, Run, Step, DeskRuns.Sane;
  }

  lemma WishThen(events: seq<Event>, on: nat, win: Window, seat: Seat, wish: Wish)
    requires Gets(events, Pair(on, win, seat, false))
    ensures Gets(events + [WindowWishes(7, wish)], Pair(on, Grant(win, wish), seat, false))
  {
    hide *;
    WishStep(on, win, seat, wish);
    Then(events, Pair(on, win, seat, false), WindowWishes(7, wish));
  }

  lemma SaysThen(events: seq<Event>, on: nat, win: Window, seat: Seat, word: Word)
    requires Gets(events, Pair(on, win, seat, false))
    ensures Gets(events + [SeatSays(0, word)], Pair(on, win, Hear(seat, word), false))
  {
    hide *;
    SaysStep(on, win, seat, word);
    Then(events, Pair(on, win, seat, false), SeatSays(0, word));
  }

  lemma ManagedThen(events: seq<Event>, d: Desktop)
    requires Gets(events, d)
    ensures Gets(events + [Managing], ManageStart(d))
  {
    hide *;
    ManagingStep(d);
    Then(events, d, Managing);
  }

  lemma GetsMaximized()
    ensures Gets(MAXIMIZED, Pair(0, FILLED, IDLE, false))
  {
    SetUp();
    assert Gets(SETTING_UP, Pair(0, NEW_WINDOW, NEW_SEAT, true));
    var wide := Grant(PLACED, Dimensions(50, 40));
    assert Grant(wide, Maximize(true)) == SIZED && Grant(SIZED.(frame := FILLING), Dimensions(100, 100)) == FILLED;
    hide *;
    Arrives();
    Maximizes();
    var a := SETTING_UP + [Managing];
    ManagedThen(SETTING_UP, Pair(0, NEW_WINDOW, NEW_SEAT, true));
    WishThen(a, 0, PLACED, IDLE, Dimensions(50, 40));
    var b := a + [WindowWishes(7, Dimensions(50, 40))];
    WishThen(b, 0, wide, IDLE, Maximize(true));
    var c := b + [WindowWishes(7, Maximize(true))];
    ManagedThen(c, Pair(0, SIZED, IDLE, false));
    WishThen(c + [Managing], 0, SIZED.(frame := FILLING), IDLE, Dimensions(100, 100));
  }

  const ASKED: seq<Event> := MAXIMIZED + [WindowWishes(7, Drag(0))] + [WindowWishes(7, Fullscreen(None))]
  const ROBBED: seq<Event> := ASKED + [Managing]

  lemma GetsAsked()
    ensures Gets(ASKED, Pair(0, HASTY, IDLE, false)) && DeskHome.Robbed(HASTY)
  {
    GetsMaximized();
    var dragged := Grant(FILLED, Drag(0));
    assert Grant(dragged, Fullscreen(None)) == HASTY;
    hide Grant, Run, Pair, DeskRuns.SaneRun, ManageStart;
    WishThen(MAXIMIZED, 0, FILLED, IDLE, Drag(0));
    WishThen(MAXIMIZED + [WindowWishes(7, Drag(0))], 0, dragged, IDLE, Fullscreen(None));
  }

  /** Maximized at 50 by 40, dragged off and made fullscreen at once, a window is to go back to 100 by 100. */
  lemma SizeLost()
    ensures DeskRuns.SaneRun(ROBBED)
    ensures var d := Run(MAXIMIZED);
            7 in d.windows && d.windows[7].frame.maximized && d.windows[7].frame.savedWidth == 50
            && d.windows[7].frame.savedHeight == 40
    ensures var d := Run(ASKED); 7 in d.windows && DeskHome.Robbed(d.windows[7])
    ensures var d := Run(ROBBED);
            7 in d.windows && d.windows[7].frame.fullscreen && d.windows[7].frame.savedWidth == 100
            && d.windows[7].frame.savedHeight == 100
  {
    GetsMaximized();
    GetsAsked();
    PairPut(0, FILLED, IDLE, false, FILLED);
    PairPut(0, HASTY, IDLE, false, HASTY);
    assert FILLED.frame.maximized && FILLED.frame.savedWidth == 50 && FILLED.frame.savedHeight == 40;
    hide Run, Pair, DeskRuns.SaneRun, ManageStart, DeskHome.Robbed, Put;
    HastyManaged();
    ManagedThen(ASKED, Pair(0, HASTY, IDLE, false));
  }

  // ---------- dragged to the other output ----------

  const GRABBED: seq<Event> := MAXIMIZED + [SeatSays(0, Enters(7))] + [SeatSays(0, Pressed(MoveAction))] + [Managing]
  const DRAGGED: seq<Event> := GRABBED + [Dragged(7, 105, 0)] + [SeatSays(0, ButtonReleased)]
  const RELEASED: seq<Event> := DRAGGED + [Managing]
  const BACK: seq<Event> := RELEASED + [WindowWishes(7, Maximize(false))] + [Managing]

  const ASIDE: Window := FILLED.(frame := At(FILLED.frame, 105, 0))
  const RELEASING: Desktop := Pair(0, ASIDE, LETTING_GO, false)

  /** What it was before it was maximized, but for where it was asked to be. */
  const RESTORED: Window := ASIDE.(wantMaximized := false, frame := SetStateOf(ASIDE.frame, false, false, RIGHT, None))

  lemma Grabs()
    ensures ManageStart(Pair(0, FILLED, HOVERING.(action := MoveAction), false))
            == Pair(0, FILLED, Holding(HOVERING), false)
  {
    var seat := HOVERING.(action := MoveAction);
    StaysFilled(FILLED, seat);
    SeatActsOnly(0, FILLED, seat);
    assert Act(seat) == Holding(HOVERING);
    hide Pair, ManageStart, SeatManage;
  }

  lemma Drops()
    ensures ManageStart(RELEASING) == Pair(1, ASIDE, HOVERING, false)
  {
    StaysFilled(ASIDE, LETTING_GO);
    SeatDrops(ASIDE);
    hide Pair, ManageStart, SeatManage;
  }

  lemma GoesBack()
    ensures ManageStart(Pair(1, ASIDE.(wantMaximized := false), HOVERING, false)) == Pair(1, RESTORED, HOVERING, false)
    ensures RESTORED.frame.x == 0 && RESTORED.frame.y == 0 && !RESTORED.frame.maximized
  {
    var win := ASIDE.(wantMaximized := false);
    assert Wished(win, 1) == RESTORED;
    PairManage(1, win, HOVERING);
    PairManaged(1, win, HOVERING, false, RESTORED, HOVERING);
    SeatActsOnly(1, RESTORED, HOVERING);
    assert Act(HOVERING) == HOVERING;
    hide Pair, ManageStart, SeatManage, Desk.Manage;
  }

  lemma GetsGrabbed()
    ensures Gets(GRABBED, Pair(0, FILLED, Holding(HOVERING), false))
  {
    GetsMaximized();
    assert Hear(IDLE, Enters(7)) == HOVERING && Hear(HOVERING, Pressed(MoveAction)) == HOVERING.(action := MoveAction);
    hide *;
    SaysThen(MAXIMIZED, 0, FILLED, IDLE, Enters(7));
    var a := MAXIMIZED + [SeatSays(0, Enters(7))];
    SaysThen(a, 0, FILLED, HOVERING, Pressed(MoveAction));
    Grabs();
    ManagedThen(a + [SeatSays(0, Pressed(MoveAction))], Pair(0, FILLED, HOVERING.(action := MoveAction), false));
  }

  lemma GetsDragged()
    ensures Gets(DRAGGED, RELEASING)
  {
    GetsGrabbed();
    assert Hear(Holding(HOVERING), ButtonReleased) == LETTING_GO;
    hide *;
    var d := Pair(0, FILLED, Holding(HOVERING), false);
    DraggedStep(0, FILLED, Holding(HOVERING), 105, 0);
    Then(GRABBED, d, Dragged(7, 105, 0));
    SaysThen(GRABBED + [Dragged(7, 105, 0)], 0, ASIDE, Holding(HOVERING), ButtonReleased);
  }

  lemma GetsBack()
    ensures Gets(RELEASED, Pair(1, ASIDE, HOVERING, false)) && Gets(BACK, Pair(1, RESTORED, HOVERING, false))
  {
    GetsDragged();
    Drops();
    assert Grant(ASIDE, Maximize(false)) == ASIDE.(wantMaximized := false);
    hide *;
    ManagedThen(DRAGGED, RELEASING);
    WishThen(RELEASED, 1, ASIDE, HOVERING, Maximize(false));
    GoesBack();
    ManagedThen(RELEASED + [WindowWishes(7, Maximize(false))],
                Pair(1, ASIDE.(wantMaximized := false), HOVERING, false));
  }

  lemma AsideAway(d: Desktop)
    requires 7 in d.windows && d.windows[7].frame == ASIDE.frame && |d.outputs| == 2 && OutputOf(d.outputs, 7) == 0
    requires d.outputs[0].rect == LEFT
    ensures Away(d, 7, Home(0, 0, 50, 40))
  {
    hide OutputOf;
  }

  lemma AsideUnsettled(d: Desktop)
    requires 7 in d.windows && d.windows[7].frame == ASIDE.frame && |d.outputs| == 2 && OutputOf(d.outputs, 7) == 0
    requires d.outputs[0].rect == LEFT && d.outputs[1].rect == RIGHT && OutputAt(d.outputs, 155, 50) == 1
    ensures !Settles(d, 7)
  {
    hide OutputOf, OutputAt;
  }

  /** Just before it is let go of, it has a home that it will not keep. */
  lemma DraggedUnsettled()
    ensures DeskRuns.SaneRun(DRAGGED) && Away(Run(DRAGGED), 7, Home(0, 0, 50, 40)) && !Settles(Run(DRAGGED), 7)
  {
    GetsDragged();
    AsideReleasing();
    hide Run, DeskRuns.SaneRun, Away, Settles;
  }

  lemma AsideReleasing()
    ensures Away(RELEASING, 7, Home(0, 0, 50, 40)) && !Settles(RELEASING, 7)
  {
    PairOutput(0, ASIDE, LETTING_GO, false);
    RightUnder(RELEASING.outputs);
    assert 7 in RELEASING.windows && RELEASING.windows[7] == ASIDE && |RELEASING.outputs| == 2;
    assert RELEASING.outputs[0].rect == LEFT && RELEASING.outputs[1].rect == RIGHT;
    hide OutputOf, OutputAt, Away, Settles, RELEASING;
    AsideAway(RELEASING);
    AsideUnsettled(RELEASING);
  }

  /**
   Maximized on the left output and dragged to the right one, where it is
   listed, a window goes back to the left output once it is unmaximized.
   */
  lemma PlaceLost()
    ensures DeskRuns.SaneRun(BACK)
    ensures var d := Run(RELEASED);
            |d.outputs| == 2 && OutputOf(d.outputs, 7) == 1 && 7 in d.windows && d.windows[7].frame.maximized
    ensures var d := Run(BACK);
            |d.outputs| == 2 && OutputOf(d.outputs, 7) == 1 && 7 in d.windows && !d.windows[7].frame.maximized
            && Contains(d.outputs[0].rect, d.windows[7].frame.x, d.windows[7].frame.y)
            && !Contains(d.outputs[1].rect, d.windows[7].frame.x, d.windows[7].frame.y)
  {
    GetsBack();
    GoesBack();
    PairOutput(1, ASIDE, HOVERING, false);
    PairOutput(1, RESTORED, HOVERING, false);
    PairPut(1, ASIDE, HOVERING, false, ASIDE);
    PairPut(1, RESTORED, HOVERING, false, RESTORED);
    hide OutputOf, Run, DeskRuns.SaneRun, RESTORED, ManageStart, Put;
  }
}
