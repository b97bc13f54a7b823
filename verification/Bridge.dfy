/** The D-Bus to varlink bridge: every method call gets exactly one reply. */
module Bridge {
  import opened Bytes
  import opened Introspection

  const OBJECT_PATH := "/org/freedesktop/portal/desktop"
  const VARLINK_PREFIX := "net.ioi-xd.tcc.portal."
  const DBUS_ERROR_PREFIX := "org.freedesktop.portal.Error."
  const PROPS_IFACE := "org.freedesktop.DBus.Properties"
  const INTROSPECT_IFACE := "org.freedesktop.DBus.Introspectable"
  const UNKNOWN_METHOD := "org.freedesktop.DBus.Error.UnknownMethod"
  const UNKNOWN_INTERFACE := "org.freedesktop.DBus.Error.UnknownInterface"
  const UNKNOWN_PROPERTY := "org.freedesktop.DBus.Error.UnknownProperty"
  const READ_ONLY := "org.freedesktop.DBus.Error.PropertyReadOnly"
  const INVALID_ARGS := "org.freedesktop.DBus.Error.InvalidArgs"
  const FAILED := "org.freedesktop.DBus.Error.Failed"

  // ---------- what comes in and goes out ----------

  /** An argument: its signature, a string's text or the signature inside a variant, and whether it converts. */
  datatype Argument = Argument(signature: string, content: string, converts: bool)

  datatype Message = Message(
    id: nat, isCall: bool, path: Option<string>, iface: Option<string>, name: Option<string>, args: seq<Argument>)

  datatype Answer = Returned | Refused(error: string)

  datatype Reply = Reply(to: nat, answer: Answer)

  /** A varlink call in flight; `msg` is the D-Bus call it is for, if any. */
  datatype Call = Call(conn: nat, msg: Option<nat>, done: bool)

  /** What the varlink service answers: an error, or fields of the right types or not. */
  datatype ServiceReply = ServiceReply(error: Option<string>, fits: bool, continues: bool)

  /** How opening a connection and making the call on it went. */
  datatype Connect = NoConnection | CallRefused | Connected(conn: nat)

  // ---------- what to do with a message ----------

  datatype Decision = NotOurs | Now(answer: Answer) | Forward

  function MethodOf(i: Interface, name: string): Option<Member> {
    FindMember(i.methods, name)
  }

  function FindMember(ms: seq<Member>, name: string): Option<Member> {
    if ms == [] then None else if ms[0].name == name then Some(ms[0]) else FindMember(ms[1..], name)
  }

  function FindProperty(ps: seq<Property>, name: string): Option<Property> {
    if ps == [] then None else if ps[0].name == name then Some(ps[0]) else FindProperty(ps[1..], name)
  }

  /** The last interface of that name. */
  function LastNamed(interfaces: seq<Interface>, name: string): Option<Interface> {
    if interfaces == [] then None
    else if interfaces[|interfaces| - 1].name == name then Some(interfaces[|interfaces| - 1])
    else LastNamed(interfaces[..|interfaces| - 1], name)
  }

  /** The first interface of that name that has the method. */
  function FindMethod(interfaces: seq<Interface>, iface: Option<string>, name: string): Option<Member> {
    if interfaces == [] then None
    else if iface == Some(interfaces[0].name) && MethodOf(interfaces[0], name).Some? then
      MethodOf(interfaces[0], name)
    else FindMethod(interfaces[1..], iface, name)
  }

  /** The arguments are exactly the method's, and all of them convert. */
  predicate ArgsMatch(args: seq<Argument>, ins: seq<Arg>) {
    if ins == [] then args == []
    else args != [] && args[0].signature == ins[0].kind && args[0].converts && ArgsMatch(args[1..], ins[1..])
  }

  predicate UnderObjectPath(path: string) {
    OBJECT_PATH <= path && (|path| == |OBJECT_PATH| || path[|OBJECT_PATH|] == '/')
  }

  function Decide(interfaces: seq<Interface>, m: Message): Decision {
    if !m.isCall || m.path.None? || !UnderObjectPath(m.path.value) then NotOurs
    else if m.iface == Some(INTROSPECT_IFACE) && m.name == Some("Introspect") then Now(Returned)
    else if m.iface == Some(PROPS_IFACE) then DecideProperties(interfaces, m)
    else if m.name.None? then Now(Refused(UNKNOWN_METHOD))
    else
      match FindMethod(interfaces, m.iface, m.name.value)
      case None => Now(Refused(UNKNOWN_METHOD))
      case Some(found) => if ArgsMatch(m.args, found.ins) then Forward else Now(Refused(INVALID_ARGS))
  }

  predicate PropertyArgsOk(m: Message) {
    && |m.args| >= 1 && m.args[0].signature == "s"
    && (m.name == Some("Get") || m.name == Some("Set") ==> |m.args| >= 2 && m.args[1].signature == "s")
    && (m.name == Some("Set") ==> |m.args| >= 3 && m.args[2].signature == "v")
  }

  function DecideProperties(interfaces: seq<Interface>, m: Message): (d: Decision)
    ensures !d.NotOurs?
  {
    var get, getAll, setting := m.name == Some("Get"), m.name == Some("GetAll"), m.name == Some("Set");
    if !(get || getAll || setting) then Now(Refused(UNKNOWN_METHOD))
    else if !PropertyArgsOk(m) then Now(Refused(INVALID_ARGS))
    else
      match LastNamed(interfaces, m.args[0].content)
      case None => Now(Refused(UNKNOWN_INTERFACE))
      case Some(iface) =>
        if getAll then if iface.properties == [] then Now(Returned) else Forward
        else
          match FindProperty(iface.properties, m.args[1].content)
          case None => Now(Refused(UNKNOWN_PROPERTY))
          case Some(p) =>
            if setting && !p.writable then Now(Refused(READ_ONLY))
            else if setting && p.kind != m.args[2].content then Now(Refused(INVALID_ARGS))
            else Forward
  }

  // ---------- what the service answers ----------

  /** The part of s after its last c, all of it if there is none. */
  function AfterLast(s: string, c: char): string {
    if s == [] || s[|s| - 1] == c then [] else AfterLast(s[..|s| - 1], c) + [s[|s| - 1]]
  }

  function ErrorName(error: string): string {
    if VARLINK_PREFIX <= error then DBUS_ERROR_PREFIX + AfterLast(error, '.')
    else if error == "org.varlink.service.MethodNotFound" || error == "org.varlink.service.InterfaceNotFound"
    then UNKNOWN_METHOD
    else if error == "org.varlink.service.InvalidParameter" then INVALID_ARGS
    else FAILED
  }

  function AnswerTo(r: ServiceReply): Answer {
    if r.error.Some? then Refused(ErrorName(r.error.value))
    else if r.fits then Returned
    else Refused(FAILED)
  }

  // ---------- the table of calls ----------

  datatype Table = Table(calls: seq<Call>, replies: seq<Reply>)

  function Handle(st: Table, d: Decision, id: nat, connect: Connect): Table {
    match d
    case NotOurs => st
    case Now(answer) => st.(replies := st.replies + [Reply(id, answer)])
    case Forward =>
      match connect
      case Connected(conn) => st.(calls := st.calls + [Call(conn, Some(id), false)])
      case _ => st.(replies := st.replies + [Reply(id, Refused(FAILED))])
  }

  function Subscribe(st: Table, connect: Connect): Table {
    match connect
    case Connected(conn) => st.(calls := st.calls + [Call(conn, None, false)])
    case _ => st
  }

  /** The reply callback, for each reply that comes in on a connection. */
  function Deliver(c: Call, rs: seq<ServiceReply>): (r: (Call, seq<Reply>))
    decreases |rs|
    ensures r.0.conn == c.conn && r.0.msg == c.msg
  {
    if rs == [] then (c, [])
    else
      var c' := c.(done := c.done || !rs[0].continues || rs[0].error.Some?);
      var more := Deliver(c', rs[1..]);
      (more.0, (if c.msg.Some? then [Reply(c.msg.value, AnswerTo(rs[0]))] else []) + more.1)
  }

  /** The first loop of `dispatch`: the first n polled calls have had their replies delivered. */
  function Polled(st: Table, polled: seq<seq<ServiceReply>>, n: nat): (r: Table)
    requires n <= |polled| && n <= |st.calls|
    ensures |r.calls| == |st.calls|
  {
    if n == 0 then st
    else
      var before := Polled(st, polled, n - 1);
      var c := Deliver(before.calls[n - 1], polled[n - 1]);
      Table(before.calls[n - 1 := c.0], before.replies + c.1)
  }

  predicate Finished(c: Call, closed: bool) {
    c.done || closed
  }

  /** Losing the connection before the last reply is answered too. */
  function LostReply(c: Call): seq<Reply> {
    if !c.done && c.msg.Some? then [Reply(c.msg.value, Refused(FAILED))] else []
  }

  /** The second loop: of the first n calls, the unfinished ones stay. */
  function Kept(calls: seq<Call>, closed: seq<bool>, n: nat): seq<Call>
    requires |closed| == |calls| && n <= |calls|
  {
    if n == 0 then []
    else Kept(calls, closed, n - 1) + if Finished(calls[n - 1], closed[n - 1]) then [] else [calls[n - 1]]
  }

  function Lost(calls: seq<Call>, closed: seq<bool>, n: nat): seq<Reply>
    requires |closed| == |calls| && n <= |calls|
  {
    if n == 0 then []
    else Lost(calls, closed, n - 1) + if Finished(calls[n - 1], closed[n - 1]) then LostReply(calls[n - 1]) else []
  }

  function Min(a: nat, b: nat): nat {
    if a < b then a else b
  }

  function Dispatch(st: Table, polled: seq<seq<ServiceReply>>, closed: seq<bool>): Table
    requires |closed| == |st.calls|
  {
    var after := Polled(st, polled, Min(|polled|, |st.calls|));
    Table(Kept(after.calls, closed, |after.calls|), after.replies + Lost(after.calls, closed, |after.calls|))
  }

  // ---------- nothing is answered twice, nothing is forgotten ----------

  /** How often a D-Bus call has been replied to. */
  function RepliesTo(replies: seq<Reply>, id: nat): nat {
    if replies == [] then 0
    else RepliesTo(replies[..|replies| - 1], id) + if replies[|replies| - 1].to == id then 1 else 0
  }

  /** Whether a call still owes that D-Bus call a reply. */
  function Owed(c: Call, id: nat): nat {
    if !c.done && c.msg == Some(id) then 1 else 0
  }

  function OwedBy(calls: seq<Call>, id: nat): nat {
    if calls == [] then 0 else OwedBy(calls[..|calls| - 1], id) + Owed(calls[|calls| - 1], id)
  }

  function Account(st: Table, id: nat): nat {
    RepliesTo(st.replies, id) + OwedBy(st.calls, id)
  }

  /** A call without the `more` flag gets one reply at most, and that is its last. */
  predicate SingleReply(c: Call, rs: seq<ServiceReply>) {
    c.msg.Some? ==> rs == [] || (|rs| == 1 && (!rs[0].continues || rs[0].error.Some?))
  }

  ghost predicate Conforms(calls: seq<Call>, polled: seq<seq<ServiceReply>>) {
    forall i :: 0 <= i < |polled| && i < |calls| ==> SingleReply(calls[i], polled[i])
  }

  ghost predicate NoneDone(calls: seq<Call>) {
    forall c :: c in calls ==> !c.done
  }

  lemma {:induction false} RepliesJoin(a: seq<Reply>, b: seq<Reply>, id: nat)
    ensures RepliesTo(a + b, id) == RepliesTo(a, id) + RepliesTo(b, id)
    decreases |b|
  {
    if b == [] {
      assert a + b == a;
    } else {
      RepliesJoin(a, b[..|b| - 1], id);
      assert (a + b)[..|a + b| - 1] == a + b[..|b| - 1];
    }
  }

  lemma OneReply(r: Reply, id: nat)
    ensures RepliesTo([r], id) == if r.to == id then 1 else 0
  {
    assert [r][..0] == [];
  }

  lemma {:induction false} OwedByUpdate(calls: seq<Call>, i: nat, c: Call, id: nat)
    requires i < |calls|
    ensures OwedBy(calls[i := c], id) + Owed(calls[i], id) == OwedBy(calls, id) + Owed(c, id)
    decreases |calls|
  {
    hide Owed;
    var init, last := calls[..|calls| - 1], |calls| - 1;
    if i == last {
      assert calls[i := c][..last] == init;
    } else {
      OwedByUpdate(init, i, c, id);
      assert calls[i := c][..last] == init[i := c];
      assert calls[i := c][last] == calls[last];
    }
  }

  lemma OwedByMore(calls: seq<Call>, c: Call, id: nat)
    ensures OwedBy(calls + [c], id) == OwedBy(calls, id) + Owed(c, id)
  {
    assert (calls + [c])[..|calls|] == calls;
  }

  lemma DeliverAccount(c: Call, rs: seq<ServiceReply>, id: nat)
    requires !c.done && SingleReply(c, rs)
    ensures RepliesTo(Deliver(c, rs).1, id) + Owed(Deliver(c, rs).0, id) == Owed(c, id)
  {
    if c.msg.None? {
      DeliverNothing(c, rs);
    } else if rs != [] {
      assert rs[1..] == [];
      var sent := [Reply(c.msg.value, AnswerTo(rs[0]))];
      assert Deliver(c, rs).1 == sent + [] == sent;
      OneReply(sent[0], id);
    }
  }

  lemma {:induction false} DeliverNothing(c: Call, rs: seq<ServiceReply>)
    requires c.msg.None?
    ensures Deliver(c, rs).1 == []
    decreases |rs|
  {
    if rs != [] {
      DeliverNothing(c.(done := c.done || !rs[0].continues || rs[0].error.Some?), rs[1..]);
    }
  }

  lemma {:induction false} PolledCalls(st: Table, polled: seq<seq<ServiceReply>>, n: nat)
    requires n <= |polled| && n <= |st.calls|
    ensures forall i :: 0 <= i < |st.calls| ==>
              Polled(st, polled, n).calls[i] == if i < n then Deliver(st.calls[i], polled[i]).0 else st.calls[i]
    decreases n
  {
    hide Deliver;
    if n > 0 {
      PolledCalls(st, polled, n - 1);
    }
  }

  lemma PolledOne(st: Table, polled: seq<seq<ServiceReply>>, n: nat)
    requires 0 < n <= |polled| && n <= |st.calls| && n <= |Polled(st, polled, n - 1).calls|
    ensures var before := Polled(st, polled, n - 1);
            var c := Deliver(before.calls[n - 1], polled[n - 1]);
            Polled(st, polled, n) == Table(before.calls[n - 1 := c.0], before.replies + c.1)
  {
    hide Deliver;
  }

  lemma {:induction false} PolledAccount(st: Table, polled: seq<seq<ServiceReply>>, n: nat, id: nat)
    requires n <= |polled| && n <= |st.calls| && NoneDone(st.calls) && Conforms(st.calls, polled)
    ensures Account(Polled(st, polled, n), id) == Account(st, id)
    decreases n
  {
    if n == 0 {
      hide Account;
    } else {
      var i := n - 1;
      assert st.calls[i] in st.calls && !st.calls[i].done && SingleReply(st.calls[i], polled[i]);
      hide Deliver, SingleReply, Account, Polled;
      PolledAccount(st, polled, i, id);
      PolledCalls(st, polled, i);
      PolledOne(st, polled, n);
      DeliverStep(Polled(st, polled, i), i, polled[i], id);
    }
  }

  /** One polled call's replies, delivered. */
  lemma DeliverStep(before: Table, i: nat, rs: seq<ServiceReply>, id: nat)
    requires i < |before.calls| && !before.calls[i].done && SingleReply(before.calls[i], rs)
    ensures
      var c := Deliver(before.calls[i], rs);
      Account(Table(before.calls[i := c.0], before.replies + c.1), id) == Account(before, id)
  {
    var c := Deliver(before.calls[i], rs);
    hide Deliver, SingleReply, Owed;
    DeliverAccount(before.calls[i], rs, id);
    OwedByUpdate(before.calls, i, c.0, id);
    RepliesJoin(before.replies, c.1, id);
  }

  lemma {:induction false} SweepAccount(calls: seq<Call>, closed: seq<bool>, n: nat, id: nat)
    requires |closed| == |calls| && n <= |calls|
    ensures OwedBy(Kept(calls, closed, n), id) + RepliesTo(Lost(calls, closed, n), id) == OwedBy(calls[..n], id)
    decreases n
  {
    hide LostReply, Owed, Finished, RepliesTo;
    if n > 0 {
      SweepAccount(calls, closed, n - 1, id);
      assert calls[..n][..n - 1] == calls[..n - 1];
      SweepStep(Kept(calls, closed, n - 1), Lost(calls, closed, n - 1), calls[n - 1],
                Finished(calls[n - 1], closed[n - 1]), id);
    } else {
      NoneOwed(id);
    }
  }

  lemma NoneOwed(id: nat)
    ensures OwedBy([], id) == 0 && RepliesTo([], id) == 0
  {
  }

  /** A finished call's debt is paid with its lost reply; any other is kept. */
  lemma SweepStep(kept: seq<Call>, lost: seq<Reply>, c: Call, finished: bool, id: nat)
    ensures OwedBy(kept + if finished then [] else [c], id)
            + RepliesTo(lost + if finished then LostReply(c) else [], id)
            == OwedBy(kept, id) + RepliesTo(lost, id) + Owed(c, id)
  {
    hide LostReply, Owed, RepliesTo, OwedBy;
    if finished {
      LostAccount(c, id);
      RepliesJoin(lost, LostReply(c), id);
      assert kept + [] == kept;
    } else {
      OwedByMore(kept, c, id);
      assert lost + [] == lost;
    }
  }

  lemma LostAccount(c: Call, id: nat)
    ensures RepliesTo(LostReply(c), id) == Owed(c, id)
  {
    if !c.done && c.msg.Some? {
      OneReply(LostReply(c)[0], id);
    }
  }

  /** After a dispatch the calls that are left are the ones still waiting. */
  lemma {:induction false} KeptWait(calls: seq<Call>, closed: seq<bool>, n: nat)
    requires |closed| == |calls| && n <= |calls|
    ensures forall c :: c in Kept(calls, closed, n) ==>
              exists i :: 0 <= i < n && c == calls[i] && !Finished(calls[i], closed[i])
    decreases n
  {
    if n > 0 {
      KeptWait(calls, closed, n - 1);
    }
  }

  lemma DispatchAccount(st: Table, polled: seq<seq<ServiceReply>>, closed: seq<bool>, id: nat)
    requires |closed| == |st.calls| && NoneDone(st.calls) && Conforms(st.calls, polled)
    ensures Account(Dispatch(st, polled, closed), id) == Account(st, id)
  {
    var after := Polled(st, polled, Min(|polled|, |st.calls|));
    PolledAccount(st, polled, Min(|polled|, |st.calls|), id);
    hide Polled, Lost, Kept, Conforms;
    SweepAccount(after.calls, closed, |after.calls|, id);
    RepliesJoin(after.replies, Lost(after.calls, closed, |after.calls|), id);
    assert after.calls[..|after.calls|] == after.calls;
  }

  lemma DispatchNoneDone(st: Table, polled: seq<seq<ServiceReply>>, closed: seq<bool>)
    requires |closed| == |st.calls|
    ensures NoneDone(Dispatch(st, polled, closed).calls)
  {
    var after := Polled(st, polled, Min(|polled|, |st.calls|));
    KeptWait(after.calls, closed, |after.calls|);
    hide Polled, Kept, Lost;
  }

  lemma OneMoreReply(replies: seq<Reply>, to: nat, answer: Answer, id: nat)
    ensures RepliesTo(replies + [Reply(to, answer)], id) == RepliesTo(replies, id) + if id == to then 1 else 0
  {
    hide RepliesTo;
    RepliesJoin(replies, [Reply(to, answer)], id);
    OneReply(Reply(to, answer), id);
  }

  lemma HandleAccount(st: Table, d: Decision, to: nat, connect: Connect, id: nat)
    requires NoneDone(st.calls)
    ensures NoneDone(Handle(st, d, to, connect).calls)
    ensures Account(Handle(st, d, to, connect), id)
         == Account(st, id) + if !d.NotOurs? && id == to then 1 else 0
  {
    hide RepliesTo, OwedBy;
    forall answer {
      OneMoreReply(st.replies, to, answer, id);
    }
    if connect.Connected? {
      OwedByMore(st.calls, Call(connect.conn, Some(to), false), id);
    }
  }

  // ---------- whole runs ----------

  datatype Event =
    | Incoming(msg: Message, connect: Connect)
    | Subscribing(connect: Connect)
    | Poll
    | Dispatching(polled: seq<seq<ServiceReply>>, closed: seq<bool>)

  /** The bridge, what it was last told to poll, and the calls it has been handed. */
  datatype World = World(st: Table, fds: seq<nat>, handled: set<nat>)

  function Conns(calls: seq<Call>): (r: seq<nat>)
    ensures |r| == |calls| && forall i :: 0 <= i < |calls| ==> r[i] == calls[i].conn
  {
    if calls == [] then [] else Conns(calls[..|calls| - 1]) + [calls[|calls| - 1].conn]
  }

  /** What the buses and the event loop promise about an event. */
  ghost predicate Possible(w: World, e: Event) {
    match e
    case Incoming(msg, _) => msg.id !in w.handled
    case Dispatching(polled, closed) =>
      |polled| == |w.fds| && |closed| == |w.st.calls| && Conforms(w.st.calls, polled)
    case _ => true
  }

  function Next(interfaces: seq<Interface>, w: World, e: Event): World
    requires e.Dispatching? ==> |e.closed| == |w.st.calls|
  {
    match e
    case Incoming(msg, connect) =>
      var d := Decide(interfaces, msg);
      World(Handle(w.st, d, msg.id, connect), w.fds, if d.NotOurs? then w.handled else w.handled + {msg.id})
    case Subscribing(connect) => w.(st := Subscribe(w.st, connect))
    case Poll => w.(fds := Conns(w.st.calls))
    case Dispatching(polled, closed) => w.(st := Dispatch(w.st, polled, closed), fds := [])
  }

  ghost predicate Inv(w: World) {
    && NoneDone(w.st.calls)
    && (forall id: nat :: Account(w.st, id) == if id in w.handled then 1 else 0)
    && w.fds <= Conns(w.st.calls)
  }

  lemma NextKeeps(interfaces: seq<Interface>, w: World, e: Event)
    requires Inv(w) && Possible(w, e)
    ensures Inv(Next(interfaces, w, e))
  {
    match e
    case Incoming(msg, connect) => IncomingKeeps(interfaces, w, msg, connect); hide Next, Inv, Decide;
    case Subscribing(connect) => SubscribingKeeps(interfaces, w, connect); hide Next, Inv, Decide;
    case Poll => hide Account, Decide;
    case Dispatching(polled, closed) => DispatchingKeeps(interfaces, w, polled, closed); hide Next, Inv, Decide;
  }

  lemma SubscribingKeeps(interfaces: seq<Interface>, w: World, connect: Connect)
    requires Inv(w)
    ensures Inv(Next(interfaces, w, Subscribing(connect)))
  {
    var w' := Next(interfaces, w, Subscribing(connect));
    if connect.Connected? {
      ConnsGrow(w.st.calls, Call(connect.conn, None, false));
    }
    hide Account, Decide;
    forall id: nat ensures Account(w'.st, id) == Account(w.st, id) { SubscribeAccount(w.st, connect, id); }
  }

  lemma DispatchingKeeps(interfaces: seq<Interface>, w: World, polled: seq<seq<ServiceReply>>, closed: seq<bool>)
    requires Inv(w) && |closed| == |w.st.calls| && Conforms(w.st.calls, polled)
    ensures Inv(Next(interfaces, w, Dispatching(polled, closed)))
  {
    hide Account, Dispatch, Decide, Conforms, Conns, NoneDone;
    var w' := Next(interfaces, w, Dispatching(polled, closed));
    DispatchNoneDone(w.st, polled, closed);
    forall id: nat ensures Account(w'.st, id) == Account(w.st, id) { DispatchAccount(w.st, polled, closed, id); }
  }

  lemma IncomingFds(interfaces: seq<Interface>, w: World, msg: Message, connect: Connect)
    requires w.fds <= Conns(w.st.calls)
    ensures var w' := Next(interfaces, w, Incoming(msg, connect)); w'.fds <= Conns(w'.st.calls)
  {
    hide Decide;
    ConnsGrow(w.st.calls, Call(if connect.Connected? then connect.conn else 0, Some(msg.id), false));
  }

  lemma IncomingKeeps(interfaces: seq<Interface>, w: World, msg: Message, connect: Connect)
    requires Inv(w) && msg.id !in w.handled
    ensures Inv(Next(interfaces, w, Incoming(msg, connect)))
  {
    hide Account, Handle, Decide, Conns, NoneDone;
    var d := Decide(interfaces, msg);
    IncomingFds(interfaces, w, msg, connect);
    HandleAccount(w.st, d, msg.id, connect, 0);
    var w' := Next(interfaces, w, Incoming(msg, connect));
    forall id: nat ensures Account(w'.st, id) == if id in w'.handled then 1 else 0 {
      HandleAccount(w.st, d, msg.id, connect, id);
    }
  }

  lemma ConnsGrow(calls: seq<Call>, c: Call)
    ensures Conns(calls) <= Conns(calls + [c])
  {
    assert (calls + [c])[..|calls|] == calls;
  }

  lemma SubscribeAccount(st: Table, connect: Connect, id: nat)
    ensures Account(Subscribe(st, connect), id) == Account(st, id)
  {
    if connect.Connected? {
      OwedByMore(st.calls, Call(connect.conn, None, false), id);
    }
  }

  ghost predicate Run(interfaces: seq<Interface>, ws: seq<World>, events: seq<Event>) {
    && |ws| == |events| + 1
    && ws[0] == World(Table([], []), [], {})
    && forall i :: 0 <= i < |events| ==> Possible(ws[i], events[i]) && ws[i + 1] == Next(interfaces, ws[i], events[i])
  }

  lemma {:induction false} RunKeeps(interfaces: seq<Interface>, ws: seq<World>, events: seq<Event>, n: nat)
    requires Run(interfaces, ws, events) && n < |ws|
    ensures Inv(ws[n])
    decreases n
  {
    if n > 0 {
      RunKeeps(interfaces, ws, events, n - 1);
      hide Next, Inv, Possible;
      assert Possible(ws[n - 1], events[n - 1]);
      NextKeeps(interfaces, ws[n - 1], events[n - 1]);
    }
  }

  /**
   In every reachable state, every call that was handled has either been
   replied to, once, or is waiting for its varlink call, once; nothing else is.
   */
  lemma ExactlyOneReply(interfaces: seq<Interface>, ws: seq<World>, events: seq<Event>, n: nat, id: nat)
    requires Run(interfaces, ws, events) && n < |ws|
    ensures RepliesTo(ws[n].st.replies, id) + OwedBy(ws[n].st.calls, id) == if id in ws[n].handled then 1 else 0
  {
    RunKeeps(interfaces, ws, events, n);
    assert Account(ws[n].st, id) == RepliesTo(ws[n].st.replies, id) + OwedBy(ws[n].st.calls, id);
  }

  /**
   Once a call's connection has closed, or the last reply has come in on it,
   the dispatch that finds out leaves nothing owed: the reply has been sent.
   */
  lemma FinishedMeansReplied(
    interfaces: seq<Interface>, ws: seq<World>, events: seq<Event>, n: nat, i: nat, id: nat)
    requires Run(interfaces, ws, events) && n < |events| && events[n].Dispatching?
    requires i < |ws[n].st.calls| && ws[n].st.calls[i].msg == Some(id)
    requires i < |events[n].closed| && (events[n].closed[i] || (i < |events[n].polled| && events[n].polled[i] != []))
    ensures RepliesTo(ws[n + 1].st.replies, id) == 1
  {
    var w, e := ws[n], events[n];
    RunKeeps(interfaces, ws, events, n);
    RunKeeps(interfaces, ws, events, n + 1);
    assert Possible(w, e) && ws[n + 1] == Next(interfaces, w, e);
    assert w.st.calls[i] in w.st.calls;
    OnlyOneOwes(w.st.calls, i, id);
    assert Account(w.st, id) == 1 && id in w.handled;
    NothingOwed(w.st, e.polled, e.closed, i, id);
    assert Account(ws[n + 1].st, id) == 1;
  }

  lemma NothingOwed(st: Table, polled: seq<seq<ServiceReply>>, closed: seq<bool>, i: nat, id: nat)
    requires |closed| == |st.calls| && NoneDone(st.calls) && Conforms(st.calls, polled)
    requires i < |st.calls| && st.calls[i].msg == Some(id) && OwedBy(st.calls, id) == 1
    requires closed[i] || (i < |polled| && polled[i] != [])
    ensures OwedBy(Dispatch(st, polled, closed).calls, id) == 0
  {
    var m := Min(|polled|, |st.calls|);
    var calls := Polled(st, polled, m).calls;
    PolledCalls(st, polled, m);
    forall k | 0 <= k < |calls| && calls[k].msg == Some(id)
      ensures Finished(calls[k], closed[k])
    {
      if k != i {
        TwoOwe(st.calls, i, k, id);
      } else if !closed[i] {
        assert SingleReply(st.calls[i], polled[i]);
        DeliverLast(st.calls[i], polled[i]);
      }
    }
    hide Polled, Finished, Lost, Kept;
    KeptNotOwing(calls, closed, |calls|, id);
  }

  lemma DeliverLast(c: Call, rs: seq<ServiceReply>)
    requires c.msg.Some? && SingleReply(c, rs) && rs != []
    ensures Deliver(c, rs).0.done
  {
    assert rs[1..] == [];
  }

  lemma {:induction false} OnlyOneOwes(calls: seq<Call>, i: nat, id: nat)
    requires i < |calls| && !calls[i].done && calls[i].msg == Some(id)
    ensures OwedBy(calls, id) >= 1
    decreases |calls|
  {
    if i < |calls| - 1 {
      OnlyOneOwes(calls[..|calls| - 1], i, id);
    }
  }

  lemma {:induction false} TwoOwe(calls: seq<Call>, i: nat, k: nat, id: nat)
    requires NoneDone(calls) && i < |calls| && k < |calls| && i != k
    requires calls[i].msg == Some(id) && calls[k].msg == Some(id)
    ensures OwedBy(calls, id) >= 2
    decreases |calls|
  {
    var init, last := calls[..|calls| - 1], |calls| - 1;
    assert calls[i] in calls && calls[k] in calls;
    if i == last {
      OnlyOneOwes(init, k, id);
    } else if k == last {
      OnlyOneOwes(init, i, id);
    } else {
      TwoOwe(init, i, k, id);
    }
  }

  lemma {:induction false} KeptNotOwing(calls: seq<Call>, closed: seq<bool>, n: nat, id: nat)
    requires |closed| == |calls| && n <= |calls|
    requires forall k :: 0 <= k < |calls| && calls[k].msg == Some(id) ==> Finished(calls[k], closed[k])
    ensures OwedBy(Kept(calls, closed, n), id) == 0
    decreases n
  {
    if n > 0 {
      KeptNotOwing(calls, closed, n - 1, id);
      OwedByMore(Kept(calls, closed, n - 1), calls[n - 1], id);
      var kept := Kept(calls, closed, n - 1);
      assert kept + [] == kept;
    }
  }

  /** What was polled is what is dispatched: entry i still belongs to call i. */
  lemma PolledAligned(interfaces: seq<Interface>, ws: seq<World>, events: seq<Event>, n: nat, i: nat)
    requires Run(interfaces, ws, events) && n < |events| && events[n].Dispatching? && i < |events[n].polled|
    ensures i < |ws[n].st.calls| && ws[n].st.calls[i].conn == ws[n].fds[i]
  {
    RunKeeps(interfaces, ws, events, n);
    assert Possible(ws[n], events[n]);
  }

  // ---------- the bridge itself ----------

  /** A polled connection and what came in on it; nothing when it had no events. */
  datatype Pollfd = Pollfd(fd: nat, deliveries: seq<ServiceReply>)

  class TCCPortalBridge {
    const interfaces: seq<Interface>
    var calls: seq<Call>
    var replies: seq<Reply>

    constructor (interfaces: seq<Interface>)
      ensures this.interfaces == interfaces && State() == Table([], [])
    {
      this.interfaces := interfaces;
      calls, replies := [], [];
    }

    function State(): Table
      reads this
    {
      Table(calls, replies)
    }

    method Send(to: nat, answer: Answer)
      modifies this`replies
      ensures replies == old(replies) + [Reply(to, answer)]
    {
      replies := replies + [Reply(to, answer)];
    }

    /** Connects, and makes the call; false if either went wrong. */
    method PlaceCall(msg: Option<nat>, connect: Connect) returns (ok: bool)
      modifies this`calls
      ensures ok == connect.Connected?
      ensures calls == old(calls) + if connect.Connected? then [Call(connect.conn, msg, false)] else []
    {
      match connect
      case NoConnection => ok := false;
      case CallRefused => ok := false;
      case Connected(conn) =>
        calls := calls + [Call(conn, msg, false)];
        ok := true;
    }

    method Filter(m: Message, connect: Connect) returns (handled: bool)
      modifies this
      ensures State() == Handle(old(State()), Decide(interfaces, m), m.id, connect)
      ensures handled == !Decide(interfaces, m).NotOurs?
    {
      hide UnderObjectPath, FindMethod, ArgsMatch, DecideProperties;
      if !m.isCall || m.path.None? || !UnderObjectPath(m.path.value) {
        return false;
      }
      handled := true;
      if m.iface == Some(INTROSPECT_IFACE) && m.name == Some("Introspect") {
        Send(m.id, Returned);
        return;
      }
      if m.iface == Some(PROPS_IFACE) {
        Properties(m, connect);
        return;
      }
      if m.name.Some? {
        var found := Lookup(m.iface, m.name.value);
        if found.Some? {
          ForwardCall(m, found.value, connect);
          return;
        }
      }
      Send(m.id, Refused(UNKNOWN_METHOD));
    }

    method Lookup(iface: Option<string>, name: string) returns (found: Option<Member>)
      ensures found == FindMethod(interfaces, iface, name)
    {
      for i := 0 to |interfaces|
        invariant FindMethod(interfaces, iface, name) == FindMethod(interfaces[i..], iface, name)
      {
        assert interfaces[i..][1..] == interfaces[i + 1..];
        if iface == Some(interfaces[i].name) {
          found := MethodOf(interfaces[i], name);
          if found.Some? {
            return;
          }
        }
      }
      found := None;
    }

    method ForwardCall(m: Message, target: Member, connect: Connect)
      modifies this
      ensures State() == Handle(old(State()),
                if ArgsMatch(m.args, target.ins) then Forward else Now(Refused(INVALID_ARGS)), m.id, connect)
    {
      var problem := false;
      var at := 0;
      for i := 0 to |target.ins|
        invariant at == i <= |m.args|
        invariant ArgsMatch(m.args, target.ins) == ArgsMatch(m.args[i..], target.ins[i..])
      {
        assert m.args[i..] != [] ==> m.args[i..][1..] == m.args[i + 1..];
        assert target.ins[i..][1..] == target.ins[i + 1..];
        if at >= |m.args| || m.args[at].signature != target.ins[i].kind || !m.args[at].converts {
          problem := true;
          break;
        }
        at := at + 1;
      }
      if problem || at < |m.args| {
        Send(m.id, Refused(INVALID_ARGS));
        return;
      }
      var ok := PlaceCall(Some(m.id), connect);
      if !ok {
        Send(m.id, Refused(FAILED));
      }
    }

    method Properties(m: Message, connect: Connect)
      modifies this
      ensures State() == Handle(old(State()), DecideProperties(interfaces, m), m.id, connect)
    {
      hide FindProperty;
      var get, getAll, setting := m.name == Some("Get"), m.name == Some("GetAll"), m.name == Some("Set");
      if !(get || getAll || setting) {
        Send(m.id, Refused(UNKNOWN_METHOD));
        return;
      }
      if !PropertyArgsOk(m) {
        Send(m.id, Refused(INVALID_ARGS));
        return;
      }
      var iface: Option<Interface> := None;
      for i := 0 to |interfaces|
        invariant iface == LastNamed(interfaces[..i], m.args[0].content)
      {
        assert interfaces[..i + 1][..i] == interfaces[..i];
        if interfaces[i].name == m.args[0].content {
          iface := Some(interfaces[i]);
        }
      }
      assert interfaces[..|interfaces|] == interfaces;
      if iface.None? {
        Send(m.id, Refused(UNKNOWN_INTERFACE));
        return;
      }
      if !getAll {
        var prop := FindProperty(iface.value.properties, m.args[1].content);
        if prop.None? {
          Send(m.id, Refused(UNKNOWN_PROPERTY));
          return;
        }
        if setting && !prop.value.writable {
          Send(m.id, Refused(READ_ONLY));
          return;
        }
        if setting && prop.value.kind != m.args[2].content {
          Send(m.id, Refused(INVALID_ARGS));
          return;
        }
      } else if iface.value.properties == [] {
        Send(m.id, Returned);
        return;
      }
      var ok := PlaceCall(Some(m.id), connect);
      if !ok {
        Send(m.id, Refused(FAILED));
      }
    }

    method SubscribeTo(connect: Connect)
      modifies this`calls
      ensures State() == Subscribe(old(State()), connect)
    {
      var ok := PlaceCall(None, connect);
      assert calls == old(calls) + [] ==> calls == old(calls);
    }

    method AddPollfds(fds: seq<Pollfd>) returns (all: seq<Pollfd>)
      ensures |all| == |fds| + |calls| && fds <= all
      ensures forall i :: 0 <= i < |calls| ==> all[|fds| + i].fd == calls[i].conn
    {
      all := fds;
      for i := 0 to |calls|
        invariant |all| == |fds| + i && fds <= all
        invariant forall k :: 0 <= k < i ==> all[|fds| + k].fd == calls[k].conn
      {
        all := all + [Pollfd(calls[i].conn, [])];
      }
    }

    /** The callback of one connection, for everything that came in on it. */
    method ProcessEvents(i: nat, rs: seq<ServiceReply>)
      requires i < |calls|
      modifies this
      ensures calls == old(calls)[i := Deliver(old(calls)[i], rs).0]
      ensures replies == old(replies) + Deliver(old(calls)[i], rs).1
    {
      hide AnswerTo;
      for k := 0 to |rs|
        invariant |calls| == |old(calls)| && calls == old(calls)[i := calls[i]]
        invariant Deliver(old(calls)[i], rs).0 == Deliver(calls[i], rs[k..]).0
        invariant old(replies) + Deliver(old(calls)[i], rs).1 == replies + Deliver(calls[i], rs[k..]).1
      {
        assert rs[k..][1..] == rs[k + 1..];
        var r := rs[k];
        if !r.continues || r.error.Some? {
          calls := calls[i := calls[i].(done := true)];
        }
        if calls[i].msg.Some? {
          Send(calls[i].msg.value, AnswerTo(r));
        }
      }
    }

    method DispatchAll(fds: seq<Pollfd>, first: nat, closed: seq<bool>)
      requires first <= |fds| && |closed| == |calls|
      modifies this
      ensures State() == Dispatch(old(State()), Deliveries(fds[first..]), closed)
    {
      ghost var st, polled := State(), Deliveries(fds[first..]);
      var i, it := first, 0;
      while i < |fds| && it < |calls|
        invariant it == i - first <= |fds| - first && it <= |calls| == |closed|
        invariant State() == Polled(st, polled, it)
      {
        ProcessEvents(it, fds[i].deliveries);
        i, it := i + 1, it + 1;
      }
      Sweep(closed);
    }

    /** One call looked at: if it is finished it goes, its lost reply sent. */
    method Settle(it: nat, closed: bool) returns (next: nat)
      requires it < |calls|
      modifies this
      ensures replies == old(replies) + if Finished(old(calls[it]), closed) then LostReply(old(calls[it])) else []
      ensures next <= |calls|
      ensures calls[..next] == old(calls)[..it] + if Finished(old(calls[it]), closed) then [] else [old(calls[it])]
      ensures calls[next..] == old(calls)[it + 1..]
    {
      var c := calls[it];
      if !Finished(c, closed) {
        return it + 1;
      }
      if !c.done && c.msg.Some? {
        Send(c.msg.value, Refused(FAILED));
      }
      calls := calls[..it] + calls[it + 1..];
      next := it;
    }

    method Sweep(closed: seq<bool>)
      requires |closed| == |calls|
      modifies this
      ensures calls == Kept(old(calls), closed, |closed|)
      ensures replies == old(replies) + Lost(old(calls), closed, |closed|)
    {
      hide Finished, LostReply;
      var it, seen := 0, 0;
      while it < |calls|
        invariant 0 <= seen <= |closed| && 0 <= it <= |calls| && |calls| - it == |closed| - seen
        invariant calls[..it] == Kept(old(calls), closed, seen) && calls[it..] == old(calls)[seen..]
        invariant replies == old(replies) + Lost(old(calls), closed, seen)
        decreases |calls| - it
      {
        assert calls[it] == calls[it..][0] == old(calls)[seen];
        assert calls[it + 1..] == calls[it..][1..] == old(calls)[seen + 1..];
        it := Settle(it, closed[seen]);
        seen := seen + 1;
      }
      assert calls[..it] == calls;
    }
  }

  function Deliveries(fds: seq<Pollfd>): (r: seq<seq<ServiceReply>>)
    ensures |r| == |fds| && forall i :: 0 <= i < |fds| ==> r[i] == fds[i].deliveries
  {
    seq(|fds|, i requires 0 <= i < |fds| => fds[i].deliveries)
  }
}
