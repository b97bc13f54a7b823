/** Going through the windows: the bottom one comes to the top, and so on around. */
module DeskFocus {
  import opened Bytes
  import opened Desk
  import opened DeskPartition
  import DeskRuns

  function Rotated(ws: seq<nat>): seq<nat> {
    if ws == [] then [] else ws[1..] + [ws[0]]
  }

  /** Rotated n times. */
  function Around(ws: seq<nat>, n: nat): seq<nat> {
    if n == 0 then ws else Rotated(Around(ws, n - 1))
  }

  lemma {:induction false} AroundIs(ws: seq<nat>, n: nat)
    requires n <= |ws|
    ensures Around(ws, n) == ws[n..] + ws[..n]
  {
    if n > 0 {
      AroundIs(ws, n - 1);
      assert (ws[n - 1..] + ws[..n - 1])[1..] == ws[n..] + ws[..n - 1];
      assert ws[..n] == ws[..n - 1] + [ws[n - 1]];
    }
  }

  /** The output under the pointer, with the focused window on top of its stack. */
  predicate Ready(d: Desktop, s: nat, k: nat, ws: seq<nat>) {
    && s < |d.seats| && k < |d.outputs| && OutputUnderPointer(d) == k && ws != []
    && d.outputs[k].windows == ws && d.seats[s].focused == Some(ws[|ws| - 1])
    && d.seats[s].interacted == None && d.seats[s].op == NoOp && !d.seats[s].opRelease
  }

  predicate NoRepeats(ws: seq<nat>) {
    forall i, j :: 0 <= i < j < |ws| ==> ws[i] != ws[j]
  }

  /** The key pressed, and a manage sequence's look at the seat. */
  function PressNext(d: Desktop, s: nat): Desktop {
    SeatManage(Step(d, SeatSays(s, Pressed(NextAction))), s)
  }

  function Presses(d: Desktop, s: nat, n: nat): Desktop {
    if n == 0 then d else PressNext(Presses(d, s, n - 1), s)
  }

  lemma {:induction false} ListedOnceNoRepeats(ws: seq<nat>)
    requires forall w :: Count(ws, w) <= 1
    ensures NoRepeats(ws)
  {
    if ws != [] {
      forall w
        ensures Count(ws[1..], w) <= 1
      {
        assert Count(ws, w) <= 1;
      }
      ListedOnceNoRepeats(ws[1..]);
      forall j | 0 < j < |ws|
        ensures ws[0] != ws[j]
      {
        CountIn(ws[1..], ws[j]);
        assert ws[1..][j - 1] == ws[j];
        assert Count(ws, ws[j]) <= 1;
      }
      forall i, j | 0 <= i < j < |ws|
        ensures ws[i] != ws[j]
      {
        if i > 0 {
          assert ws[1..][i - 1] != ws[1..][j - 1];
        }
      }
    }
  }

  lemma PartNoRepeats(d: Desktop, k: nat)
    requires Part(d) && k < |d.outputs|
    ensures NoRepeats(d.outputs[k].windows)
  {
    forall w
      ensures Count(d.outputs[k].windows, w) <= 1
    {
      if w >= 0 {
        assert Places(d, w) == One(w in d.windows);
        PlacesUpdate(d.outputs, k, d.outputs[k], w);
      }
    }
    ListedOnceNoRepeats(d.outputs[k].windows);
  }

  lemma EraseFirst(ws: seq<nat>)
    requires ws != [] && NoRepeats(ws)
    ensures Erase(ws, ws[0]) == ws[1..]
  {
    assert ws[0] !in ws[1..];
    EraseAbsent(ws[1..], ws[0]);
  }

  lemma {:induction false} ToTopAt(outputs: seq<Output>, k: nat, w: nat)
    requires k < |outputs| && w in outputs[k].windows && PlacesIn(outputs, w) <= 1
    ensures ToTop(outputs, w) == outputs[k := outputs[k].(windows := Erase(outputs[k].windows, w) + [w])]
  {
    CountIn(outputs[0].windows, w);
    if k == 0 {
      PlacesOnOne(outputs, 0, w);
      ToTopNowhere(outputs[1..], w);
    } else {
      PlacesOnOne(outputs[1..], k - 1, w);
      ToTopAt(outputs[1..], k - 1, w);
    }
  }

  lemma {:induction false} ToTopNowhere(outputs: seq<Output>, w: nat)
    requires PlacesIn(outputs, w) == 0
    ensures ToTop(outputs, w) == outputs
  {
    if outputs != [] {
      CountIn(outputs[0].windows, w);
      ToTopNowhere(outputs[1..], w);
    }
  }

  /** The stack of output k, and the seat's focus, are what may differ. */
  function Turned(d: Desktop, s: nat, k: nat, ws: seq<nat>): Desktop
    requires s < |d.seats| && k < |d.outputs| && ws != []
  {
    d.(outputs := d.outputs[k := d.outputs[k].(windows := ws)],
       seats := d.seats[s := d.seats[s].(focused := Some(ws[|ws| - 1]))])
  }

  lemma {:induction false} TurnedUnderPointer(xs: seq<Output>, ys: seq<Output>, x: int, y: int)
    requires |xs| == |ys| && forall k :: 0 <= k < |xs| ==> xs[k].rect == ys[k].rect && xs[k].removed == ys[k].removed
    ensures OutputAt(xs, x, y) == OutputAt(ys, x, y) && FirstLive(xs) == FirstLive(ys)
  {
    if xs != [] {
      TurnedUnderPointer(xs[1..], ys[1..], x, y);
    }
  }

  lemma TurnedReady(d: Desktop, s: nat, k: nat, ws: seq<nat>, vs: seq<nat>)
    requires Ready(d, s, k, ws) && vs != []
    ensures Ready(Turned(d, s, k, vs), s, k, vs)
  {
    var d' := Turned(d, s, k, vs);
    TurnedUnderPointer(d.outputs, d'.outputs, d.seats[0].pointerX, d.seats[0].pointerY);
    assert d'.seats[0].pointerX == d.seats[0].pointerX && d'.seats[0].pointerY == d.seats[0].pointerY;
    hide OutputAt, FirstLive;
  }

  /** The focused window is brought to the top of its output's stack. */
  lemma FocusIs(d: Desktop, s: nat, k: nat, ws: seq<nat>)
    requires Part(d) && Ready(d, s, k, ws)
    ensures Focus(d, s, Some(ws[0])) == Turned(d, s, k, Rotated(ws))
  {
    PartNoRepeats(d, k);
    EraseFirst(ws);
    if |ws| == 1 {
      assert Rotated(ws) == ws;
      assert d.outputs[k := d.outputs[k].(windows := ws)] == d.outputs;
      assert d.seats[s := d.seats[s]] == d.seats;
    } else {
      assert ws[0] != ws[|ws| - 1];
      assert Places(d, ws[0]) == One(ws[0] in d.windows);
      ToTopAt(d.outputs, k, ws[0]);
    }
    hide Part, Erase, ToTop, PlacesIn;
  }

  lemma PressedReady(d: Desktop, s: nat, k: nat, ws: seq<nat>)
    requires Part(d) && Ready(d, s, k, ws)
    ensures var d1 := d.(seats := d.seats[s := d.seats[s].(action := NextAction)]);
            Step(d, SeatSays(s, Pressed(NextAction))) == d1 && Part(d1) && Ready(d1, s, k, ws)
  {
    hide OutputAt, FirstLive, ManageStart, OpenWindow, SizeOutput, Part;
    var d1 := d.(seats := d.seats[s := d.seats[s].(action := NextAction)]);
    TurnedUnderPointer(d.outputs, d1.outputs, d.seats[0].pointerX, d.seats[0].pointerY);
    assert d1.seats[0].pointerX == d.seats[0].pointerX && d1.seats[0].pointerY == d.seats[0].pointerY;
    DeskRuns.SeatsKeeps(d, d1.seats);
  }

  /** One press rotates the stack by one, and leaves the focused window on top. */
  lemma PressIs(d: Desktop, s: nat, k: nat, ws: seq<nat>)
    requires Part(d) && Ready(d, s, k, ws)
    ensures PressNext(d, s) == Turned(d, s, k, Rotated(ws)).(seats := PressNext(d, s).seats)
    ensures PressNext(d, s).seats
            == Turned(d, s, k, Rotated(ws)).seats[s := Turned(d, s, k, Rotated(ws)).seats[s].(action := NoAction)]
  {
    hide Part, Focus, OutputUnderPointer, Step, UpdateOutput;
    PressedReady(d, s, k, ws);
    var d1 := d.(seats := d.seats[s := d.seats[s].(action := NextAction)]);
    assert d1.seats[s := d1.seats[s]] == d1.seats;
    assert SeatFocuses(d1, s) == d1;
    FocusIs(d1, s, k, ws);
    var d2 := SeatActs(d1, s);
    assert d2 == Turned(d1, s, k, Rotated(ws)).(seats := d2.seats);
    assert SeatReleases(d2, s) == d2.(seats := d2.seats[s := d2.seats[s].(opRelease := false)]);
    assert d2.seats[s].opRelease == false;
    assert d2.seats[s := d2.seats[s]] == d2.seats;
  }

  lemma PressTurned(d: Desktop, s: nat, k: nat, ws: seq<nat>, vs: seq<nat>)
    requires Ready(d, s, k, ws) && d.seats[s].action == NoAction && vs != [] && Part(Turned(d, s, k, vs))
    ensures Rotated(vs) != [] && PressNext(Turned(d, s, k, vs), s) == Turned(d, s, k, Rotated(vs))
    ensures Part(Turned(d, s, k, Rotated(vs)))
  {
    TurnedReady(d, s, k, ws, vs);
    PressIs(Turned(d, s, k, vs), s, k, vs);
    PressPart(Turned(d, s, k, vs), s);
    hide Part, PressNext, OutputUnderPointer;
    TurnedTwice(d, s, k, vs, Rotated(vs));
  }

  lemma NoPress(d: Desktop, s: nat, k: nat, ws: seq<nat>)
    requires Ready(d, s, k, ws)
    ensures Around(ws, 0) == ws && Presses(d, s, 0) == Turned(d, s, k, ws) == d
  {
    hide OutputUnderPointer;
    assert d.outputs[k := d.outputs[k]] == d.outputs && d.seats[s := d.seats[s]] == d.seats;
  }

  lemma OneMore(d: Desktop, s: nat, ws: seq<nat>, n: nat)
    requires n > 0
    ensures Around(ws, n) == Rotated(Around(ws, n - 1)) && Presses(d, s, n) == PressNext(Presses(d, s, n - 1), s)
  {
    hide PressNext;
  }

  lemma ReadyShape(d: Desktop, s: nat, k: nat, ws: seq<nat>)
    requires Ready(d, s, k, ws)
    ensures s < |d.seats| && k < |d.outputs| && ws != []
  {
  }

  lemma {:induction false} PressesAre(d: Desktop, s: nat, k: nat, ws: seq<nat>, n: nat)
    requires Part(d) && Ready(d, s, k, ws) && d.seats[s].action == NoAction && n <= |ws|
    ensures Around(ws, n) != [] && Presses(d, s, n) == Turned(d, s, k, Around(ws, n)) && Part(Presses(d, s, n))
    decreases n
  {
    hide *;
    ReadyShape(d, s, k, ws);
    if n == 0 {
      NoPress(d, s, k, ws);
    } else {
      PressesAre(d, s, k, ws, n - 1);
      OneMore(d, s, ws, n);
      PressTurned(d, s, k, ws, Around(ws, n - 1));
    }
  }

  lemma PressPart(d: Desktop, s: nat)
    requires Part(d)
    ensures Part(PressNext(d, s))
  {
    hide Part, SeatManage;
    var d1 := Step(d, SeatSays(s, Pressed(NextAction)));
    DeskRuns.SeatsKeeps(d, d1.seats);
    DeskRuns.SeatManageKeeps(d1, s);
  }

  lemma TurnedTwice(d: Desktop, s: nat, k: nat, vs: seq<nat>, us: seq<nat>)
    requires s < |d.seats| && k < |d.outputs| && vs != [] && us != [] && d.seats[s].action == NoAction
    ensures var t := Turned(Turned(d, s, k, vs), s, k, us);
            t == Turned(d, s, k, us) && t.seats[s := t.seats[s].(action := NoAction)] == t.seats
  {
    var t := Turned(Turned(d, s, k, vs), s, k, us);
    assert t.outputs == Turned(d, s, k, us).outputs && t.seats == Turned(d, s, k, us).seats;
  }

  /**
   With the focused window on top of a stack of windows, press after press
   focuses the windows from the bottom up, each once, and after as many presses
   as there are windows everything is as it was.
   */
  lemma GoesAround(d: Desktop, s: nat, k: nat, ws: seq<nat>, n: nat)
    requires Part(d) && Ready(d, s, k, ws) && d.seats[s].action == NoAction && 0 < n <= |ws|
    ensures var there := Presses(d, s, n);
            s < |there.seats| && there.seats[s].focused == Some(ws[n - 1])
            && k < |there.outputs| && there.outputs[k].windows == ws[n..] + ws[..n]
    ensures NoRepeats(ws)
    ensures Presses(d, s, |ws|) == d
  {
    ReadyShape(d, s, k, ws);
    NoPress(d, s, k, ws);
    PartNoRepeats(d, k);
    assert d.outputs[k].windows == ws;
    hide Part, Presses, Around, NoRepeats, OutputUnderPointer;
    PressesAre(d, s, k, ws, n);
    AroundIs(ws, n);
    PressesAre(d, s, k, ws, |ws|);
    AroundIs(ws, |ws|);
    assert ws[|ws|..] + ws[..|ws|] == ws;
  }
}
