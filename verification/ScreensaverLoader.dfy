/**
 The loader process: one turn of its main loop, over all outputs. What it does
 for one output is what `FrameProtocol` has the loader do.
 */
module ScreensaverLoader {
  import opened Bytes
  import opened LockSurface
  import opened FrameProtocol

  /** A message for one output; `driver` is what the graphics driver makes of it. */
  datatype Incoming = Incoming(id: nat, body: Down, driver: Driver)

  datatype Outgoing = Outgoing(id: nat, body: Up)

  datatype Entry = Entry(id: nat, output: Output)

  function Find(entries: seq<Entry>, id: nat): Option<Output> {
    if entries == [] then None
    else if entries[0].id == id then Some(entries[0].output)
    else Find(entries[1..], id)
  }

  /** What was sent for one output. */
  function About(id: nat, sent: seq<Outgoing>): seq<Up> {
    if sent == [] then []
    else About(id, sent[..|sent| - 1]) + if sent[|sent| - 1].id == id then [sent[|sent| - 1].body] else []
  }

  /** What some messages for any outputs make of one of them. */
  function HearAll(o: Option<Output>, id: nat, ms: seq<Incoming>): Told {
    if ms == [] then Told(o, [])
    else
      var before := HearAll(o, id, ms[..|ms| - 1]);
      var m := ms[|ms| - 1];
      if m.id != id then before
      else
        var told := Hear(before.output, m.body, m.driver);
        Told(told.output, before.messages + told.messages)
  }

  /** A turn of the main loop, for one output: everything that came in, then a frame. */
  function Turn(o: Option<Output>, id: nat, ms: seq<Incoming>): Told {
    var heard := HearAll(o, id, ms);
    if heard.output.None? then heard
    else
      var drawn := OutputDraw(heard.output.value);
      Told(drawn.output, heard.messages + drawn.messages)
  }

  lemma {:induction false} AboutJoin(id: nat, xs: seq<Outgoing>, ys: seq<Outgoing>)
    ensures About(id, xs + ys) == About(id, xs) + About(id, ys)
  {
    if ys == [] {
      assert xs + ys == xs;
    } else {
      AboutJoin(id, xs, ys[..|ys| - 1]);
      assert (xs + ys)[..|xs + ys| - 1] == xs + ys[..|ys| - 1];
    }
  }

  lemma AboutOne(id: nat, sent: seq<Outgoing>, to: nat, body: Up)
    ensures About(id, sent + [Outgoing(to, body)]) == About(id, sent) + if to == id then [body] else []
  {
    assert (sent + [Outgoing(to, body)])[..|sent|] == sent;
  }

  predicate Distinct(entries: seq<Entry>) {
    forall j, k :: 0 <= j < k < |entries| ==> entries[j].id != entries[k].id
  }

  lemma {:induction false} FindAt(entries: seq<Entry>, k: nat)
    requires Distinct(entries) && k < |entries|
    ensures Find(entries, entries[k].id) == Some(entries[k].output)
  {
    if k > 0 {
      FindAt(entries[1..], k - 1);
    }
  }

  lemma {:induction false} FindNone(entries: seq<Entry>, id: nat)
    requires forall k :: 0 <= k < |entries| ==> entries[k].id != id
    ensures Find(entries, id) == None
  {
    if entries != [] {
      FindNone(entries[1..], id);
    }
  }

  lemma {:induction false} FindJoin(xs: seq<Entry>, ys: seq<Entry>, id: nat)
    ensures Find(xs + ys, id) == if Find(xs, id).Some? then Find(xs, id) else Find(ys, id)
  {
    if xs == [] {
      assert xs + ys == ys;
    } else {
      FindJoin(xs[1..], ys, id);
      assert (xs + ys)[1..] == xs[1..] + ys;
    }
  }

  lemma FindUpdate(entries: seq<Entry>, k: nat, o: Output, id: nat)
    requires Distinct(entries) && k < |entries|
    ensures Distinct(entries[k := Entry(entries[k].id, o)])
    ensures Find(entries[k := Entry(entries[k].id, o)], id) == if id == entries[k].id then Some(o)
            else Find(entries, id)
  {
    var entries' := entries[k := Entry(entries[k].id, o)];
    if id == entries[k].id {
      FindAt(entries', k);
    } else {
      assert entries' == entries[..k] + ([Entry(entries[k].id, o)] + entries[k + 1..]);
      assert entries == entries[..k] + ([entries[k]] + entries[k + 1..]);
      FindJoin(entries[..k], [Entry(entries[k].id, o)] + entries[k + 1..], id);
      FindJoin(entries[..k], [entries[k]] + entries[k + 1..], id);
      assert ([Entry(entries[k].id, o)] + entries[k + 1..])[1..] == entries[k + 1..];
      assert ([entries[k]] + entries[k + 1..])[1..] == entries[k + 1..];
    }
  }

  lemma FindRemove(entries: seq<Entry>, k: nat, id: nat)
    requires Distinct(entries) && k < |entries|
    ensures Distinct(entries[..k] + entries[k + 1..])
    ensures Find(entries[..k] + entries[k + 1..], id) == if id == entries[k].id then None else Find(entries, id)
  {
    var rest := entries[..k] + entries[k + 1..];
    if id == entries[k].id {
      FindNone(rest, id);
    } else {
      assert entries == entries[..k] + ([entries[k]] + entries[k + 1..]);
      FindJoin(entries[..k], entries[k + 1..], id);
      FindJoin(entries[..k], [entries[k]] + entries[k + 1..], id);
      assert ([entries[k]] + entries[k + 1..])[1..] == entries[k + 1..];
    }
  }

  lemma FindAppend(entries: seq<Entry>, e: Entry, id: nat)
    requires Distinct(entries) && Find(entries, e.id) == None
    ensures Distinct(entries + [e])
    ensures Find(entries + [e], id) == if id == e.id then Some(e.output) else Find(entries, id)
  {
    forall k | 0 <= k < |entries|
      ensures entries[k].id != e.id
    {
      FindAt(entries, k);
    }
    FindJoin(entries, [e], id);
    assert [e][1..] == [];
  }

  /** How one output's state and messages change. */
  predicate Became(outputs0: seq<Entry>, sent0: seq<Outgoing>, outputs: seq<Entry>, sent: seq<Outgoing>, id: nat,
                   told: Told) {
    Find(outputs, id) == told.output && About(id, sent) == About(id, sent0) + told.messages
  }

  class Loader {
    var outputs: seq<Entry>
    var sent: seq<Outgoing>

    constructor ()
      ensures Valid() && outputs == [] && sent == []
    {
      outputs, sent := [], [];
    }

    ghost predicate Valid()
      reads this
    {
      Distinct(outputs) && forall k :: 0 <= k < |outputs| ==> |outputs[k].output.busy| == SLOTS
    }

    method FindOutput(id: nat) returns (k: nat)
      requires Valid()
      ensures k <= |outputs|
      ensures k < |outputs| ==> outputs[k].id == id && Find(outputs, id) == Some(outputs[k].output)
      ensures k == |outputs| ==> Find(outputs, id) == None
    {
      k := 0;
      while k < |outputs|
        invariant k <= |outputs| && forall j :: 0 <= j < k ==> outputs[j].id != id
      {
        if outputs[k].id == id {
          FindAt(outputs, k);
          return;
        }
        k := k + 1;
      }
      FindNone(outputs, id);
    }

    method Send(id: nat, body: Up)
      modifies this`sent
      ensures sent == old(sent) + [Outgoing(id, body)]
    {
      sent := sent + [Outgoing(id, body)];
    }

    /** What a message does is done to the output it names, and to no other. */
    twostate predicate Does(id: nat, told: Told)
      reads this
    {
      && Became(old(outputs), old(sent), outputs, sent, id, told)
      && forall other :: other != id ==>
          Find(outputs, other) == old(Find(outputs, other)) && About(other, sent) == old(About(other, sent))
    }

    /** The entry with the id, made if there is none. */
    method EntryFor(id: nat) returns (k: nat)
      requires Valid()
      modifies this`outputs
      ensures Valid() && k < |outputs| && outputs[k].id == id && Find(outputs, id) == Some(outputs[k].output)
      ensures var o := old(Find(outputs, id));
              outputs[k].output == if o.Some? then o.value else Output(Size(0, 0), ALL_FREE, false, 0)
      ensures forall other :: other != id ==> Find(outputs, other) == old(Find(outputs, other))
    {
      hide Find;
      k := FindOutput(id);
      if k == |outputs| {
        var e := Entry(id, Output(Size(0, 0), ALL_FREE, false, 0));
        forall other {
          FindAppend(outputs, e, other);
        }
        outputs := outputs + [e];
      }
    }

    /** All of the output's buffers are sent, each with its size. */
    method SendBuffers(id: nat, size: Size, gen: nat, driver: Driver)
      modifies this`sent
      ensures forall other :: About(other, sent) == old(About(other, sent)) + if other == id
              then Buffers(size, gen, driver, SLOTS) else []
    {
      hide About;
      var i := 0;
      while i < SLOTS
        invariant 0 <= i <= SLOTS
        invariant forall other :: About(other, sent) == old(About(other, sent)) + if other == id
                  then Buffers(size, gen, driver, i) else []
      {
        forall other {
          AboutOne(other, sent, id, BufferFor(size, gen, i, driver));
        }
        Send(id, BufferFor(size, gen, i, driver));
        i := i + 1;
      }
    }

    method OutputConfigure(id: nat, size: Size, gen: nat, driver: Driver)
      requires Valid()
      modifies this
      ensures Valid()
      ensures Does(id, FrameProtocol.OutputConfigure(old(Find(outputs, id)), size, gen, driver))
    {
      hide Find, About, Buffers;
      if size.width <= 0 || size.height <= 0 || size.width > MAX_SIZE || size.height > MAX_SIZE {
        return;
      }
      var k := EntryFor(id);
      if outputs[k].output.size == size {
        return;
      }
      SendBuffers(id, size, gen, driver);
      forall other {
        FindUpdate(outputs, k, Output(size, ALL_FREE, true, gen), other);
      }
      outputs := outputs[k := Entry(id, Output(size, ALL_FREE, true, gen))];
    }
  
    method OutputRemove(id: nat)
      requires Valid()
      modifies this`outputs
      ensures Valid()
      ensures Does(id, Told(None, []))
    {
      var k := FindOutput(id);
      if k == |outputs| {
        return;
      }
      forall other {
        FindRemove(outputs, k, other);
      }
      outputs := outputs[..k] + outputs[k + 1..];
    }

    method OutputDraw(k: nat)
      requires Valid() && k < |outputs| && outputs[k].output.frameWanted
      modifies this
      ensures Valid()
      ensures |outputs| == |old(outputs)| && outputs == old(outputs)[k := Entry(old(outputs[k].id), outputs[k].output)]
      ensures Does(old(outputs[k].id), FrameProtocol.OutputDraw(old(outputs[k].output)))
    {
      var id, o := outputs[k].id, outputs[k].output;
      FindAt(outputs, k);
      var i := 0;
      while i < SLOTS && o.busy[i]
        invariant 0 <= i <= SLOTS && forall j :: 0 <= j < i ==> o.busy[j]
      {
        i := i + 1;
      }
      FirstFreeIs(o.busy, i);
      if i == SLOTS {
        return;
      }
      var o' := o.(busy := o.busy[i := true], frameWanted := false);
      forall other {
        FindUpdate(outputs, k, o', other);
      }
      forall other {
        AboutOne(other, sent, id, Ready(i, o.gen, None));
      }
      outputs := outputs[k := Entry(id, o')];
      Send(id, Ready(i, o.gen, None));
    }

    method HandleMsg(m: Incoming)
      requires Valid()
      modifies this
      ensures Valid()
      ensures Does(m.id, Hear(old(Find(outputs, m.id)), m.body, m.driver))
    {
      match m.body {
        case Configure(size, gen) => OutputConfigure(m.id, size, gen, m.driver);
        case Remove => OutputRemove(m.id);
        case Frame =>
          var k := FindOutput(m.id);
          if k < |outputs| {
            Set(k, outputs[k].output.(frameWanted := true));
          }
        case Release(i) =>
          var k := FindOutput(m.id);
          if k < |outputs| && i < SLOTS {
            Set(k, outputs[k].output.(busy := outputs[k].output.busy[i := false]));
          }
      }
    }

    method Set(k: nat, o: Output)
      requires Valid() && k < |outputs| && |o.busy| == SLOTS
      modifies this`outputs
      ensures Valid()
      ensures outputs == old(outputs)[k := Entry(old(outputs[k].id), o)]
      ensures Does(old(outputs[k].id), Told(Some(o), []))
    {
      ghost var id, before := outputs[k].id, outputs;
      outputs := outputs[k := Entry(outputs[k].id, o)];
      forall other
        ensures Find(outputs, other) == if other == id then Some(o) else Find(before, other)
      {
        FindUpdate(before, k, o, other);
      }
      FindUpdate(before, k, o, id);
      assert About(id, sent) + [] == About(id, sent);
      hide Find, About;
    }

    /** Everything that came in, and then a frame for each output that wants one. */
    method TakeTurn(ms: seq<Incoming>)
      requires Valid()
      modifies this
      ensures Valid()
      ensures forall id :: Became(old(outputs), old(sent), outputs, sent, id, Turn(old(Find(outputs, id)), id, ms))
    {
      ghost var outputs0, sent0 := outputs, sent;
      HandleAll(ms);
      ghost var outputs1, sent1 := outputs, sent;
      var k := 0;
      while k < |outputs|
        invariant Valid() && k <= |outputs| == |outputs1|
        invariant forall j :: 0 <= j < |outputs| ==> outputs[j].id == outputs1[j].id
        invariant forall j :: k <= j < |outputs| ==> outputs[j] == outputs1[j]
        invariant forall id :: DrawnUpTo(outputs1, sent1, outputs, sent, k, id)
      {
        ghost var outputs2, sent2 := outputs, sent;
        FindAt(outputs, k);
        if outputs[k].output.frameWanted {
          OutputDraw(k);
        }
        ghost var n := k + 1;
        forall id
          ensures DrawnUpTo(outputs1, sent1, outputs, sent, n, id)
        {
          DrawStep(outputs1, sent1, outputs2, sent2, outputs, sent, k, id);
        }
        k := k + 1;
      }
      assert outputs1[..k] == outputs1;
      forall id {
        TurnIs(outputs0, sent0, outputs1, sent1, outputs, sent, id, ms);
      }
    }

    method HandleAll(ms: seq<Incoming>)
      requires Valid()
      modifies this
      ensures Valid()
      ensures forall id :: Became(old(outputs), old(sent), outputs, sent, id, HearAll(old(Find(outputs, id)), id, ms))
    {
      for i := 0 to |ms|
        invariant Valid()
        invariant forall id :: Became(old(outputs), old(sent), outputs, sent, id,
                                      HearAll(old(Find(outputs, id)), id, ms[..i]))
      {
        ghost var outputs1, sent1 := outputs, sent;
        HandleMsg(ms[i]);
        ghost var n := i + 1;
        hide Find, About, HearAll, Hear, Became;
        forall id
          ensures Became(old(outputs), old(sent), outputs, sent, id, HearAll(Find(old(outputs), id), id, ms[..n]))
        {
          HearOneMore(old(outputs), old(sent), outputs1, sent1, outputs, sent, id, ms, i);
        }
      }
      assert ms[..|ms|] == ms;
    }
  }

  /** One message more, for one output. */
  lemma HearOneMore(outputs0: seq<Entry>, sent0: seq<Outgoing>, outputs1: seq<Entry>, sent1: seq<Outgoing>,
                    outputs: seq<Entry>, sent: seq<Outgoing>, id: nat, ms: seq<Incoming>, i: nat)
    requires i < |ms| && Became(outputs0, sent0, outputs1, sent1, id, HearAll(Find(outputs0, id), id, ms[..i]))
    requires ms[i].id == id ==>
               Became(outputs1, sent1, outputs, sent, id, Hear(Find(outputs1, id), ms[i].body, ms[i].driver))
    requires ms[i].id != id ==> Find(outputs, id) == Find(outputs1, id) && About(id, sent) == About(id, sent1)
    ensures Became(outputs0, sent0, outputs, sent, id, HearAll(Find(outputs0, id), id, ms[..i + 1]))
  {
    assert ms[..i + 1][..i] == ms[..i];
    hide Find, About, Hear;
  }

  /** Of the outputs there were, the first k have been drawn. */
  ghost predicate DrawnUpTo(outputs1: seq<Entry>, sent1: seq<Outgoing>, outputs: seq<Entry>, sent: seq<Outgoing>,
                            k: nat, id: nat)
    requires k <= |outputs1|
  {
    var o := Find(outputs1, id);
    if o.Some? && Find(outputs1[..k], id).Some? then
      Find(outputs, id) == FrameProtocol.OutputDraw(o.value).output
      && About(id, sent) == About(id, sent1) + FrameProtocol.OutputDraw(o.value).messages
    else Find(outputs, id) == o && About(id, sent) == About(id, sent1)
  }

  lemma DrawStep(outputs1: seq<Entry>, sent1: seq<Outgoing>, outputs2: seq<Entry>, sent2: seq<Outgoing>,
                 outputs: seq<Entry>, sent: seq<Outgoing>, k: nat, id: nat)
    requires Distinct(outputs1) && k < |outputs1| && DrawnUpTo(outputs1, sent1, outputs2, sent2, k, id)
    requires id == outputs1[k].id ==>
               Became(outputs2, sent2, outputs, sent, id, FrameProtocol.OutputDraw(outputs1[k].output))
    requires id != outputs1[k].id ==> Find(outputs, id) == Find(outputs2, id) && About(id, sent) == About(id, sent2)
    ensures DrawnUpTo(outputs1, sent1, outputs, sent, k + 1, id)
  {
    OneMoreDrawn(outputs1, k, id);
    FindAt(outputs1, k);
    hide Find, About, FrameProtocol.OutputDraw;
  }

  lemma TurnIs(outputs0: seq<Entry>, sent0: seq<Outgoing>, outputs1: seq<Entry>, sent1: seq<Outgoing>,
               outputs: seq<Entry>, sent: seq<Outgoing>, id: nat, ms: seq<Incoming>)
    requires Became(outputs0, sent0, outputs1, sent1, id, HearAll(Find(outputs0, id), id, ms))
    requires outputs1[..|outputs1|] == outputs1 && DrawnUpTo(outputs1, sent1, outputs, sent, |outputs1|, id)
    ensures Became(outputs0, sent0, outputs, sent, id, Turn(Find(outputs0, id), id, ms))
  {
    hide Find, About, HearAll;
  }

  lemma OneMoreDrawn(entries: seq<Entry>, k: nat, id: nat)
    requires Distinct(entries) && k < |entries|
    ensures Find(entries[..k + 1], id).Some? <==> id == entries[k].id || Find(entries[..k], id).Some?
    ensures id == entries[k].id ==> Find(entries[..k], id) == None
    ensures Find(entries[..0], id) == None && entries[..|entries|] == entries
  {
    assert entries[..k + 1] == entries[..k] + [entries[k]];
    FindJoin(entries[..k], [entries[k]], id);
    assert [entries[k]][1..] == [];
    FindNone(entries[..k], entries[k].id);
  }

  lemma {:induction false} FirstFreeIs(busy: seq<bool>, i: nat)
    requires i <= |busy| && (forall j :: 0 <= j < i ==> busy[j]) && (i < |busy| ==> !busy[i])
    ensures FirstFree(busy) == i
  {
    if busy != [] && busy[0] {
      FirstFreeIs(busy[1..], i - 1);
    }
  }
}
