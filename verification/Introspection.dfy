/** D-Bus introspection XML: the parser, and printing an interface back. */
module Introspection {
  import opened Bytes

  // ---------- what the bridge keeps of an interface ----------

  datatype Arg = Arg(name: string, kind: string)

  datatype Member = Member(name: string, ins: seq<Arg>, outs: seq<Arg>)

  datatype Property = Property(name: string, kind: string, writable: bool)

  datatype Interface = Interface(
    name: string, methods: seq<Member>, signals: seq<Member>, properties: seq<Property>)

  // ---------- scanning, each function from the text that is left ----------

  function SkipPast(s: string, end: string): Option<string> {
    if end <= s then Some(s[|end|..])
    else if s == [] then None
    else SkipPast(s[1..], end)
  }

  predicate IsSpace(c: char) {
    c == ' ' || c == '\t' || c == '\n' || c == '\r'
  }

  function SkipSpace(s: string): (r: string)
    ensures |r| <= |s| && (r != [] ==> !IsSpace(r[0]))
  {
    if s != [] && IsSpace(s[0]) then SkipSpace(s[1..]) else s
  }

  predicate EndsName(c: char) {
    IsSpace(c) || c == '/' || c == '>' || c == '='
  }

  function NameLength(s: string): (n: nat)
    ensures n <= |s|
  {
    if s == [] || EndsName(s[0]) then 0 else 1 + NameLength(s[1..])
  }

  function IndexOf(s: string, c: char): (r: Option<nat>)
    ensures r.Some? ==> r.value < |s| && s[r.value] == c
    ensures r.Some? ==> forall i :: 0 <= i < r.value ==> s[i] != c
    ensures r.None? ==> c !in s
  {
    if s == [] then None
    else if s[0] == c then Some(0)
    else
      match IndexOf(s[1..], c)
      case None => None
      case Some(i) => Some(i + 1)
  }

  /** What the next turn of the attribute loop finds. */
  datatype Step =
    | Failed
    | Closed(selfClosing: bool, rest: string)
    | Read(key: string, value: string, rest: string)

  function NextAttribute(s: string): (r: Step)
    ensures !r.Failed? ==> |r.rest| < |s|
  {
    var s1 := SkipSpace(s);
    if ">" <= s1 then Closed(false, s1[1..])
    else if "/>" <= s1 then Closed(true, s1[2..])
    else
      var n := NameLength(s1);
      var s2 := SkipSpace(s1[n..]);
      if n == 0 || s2 == [] || s2[0] != '=' then Failed
      else AttributeValue(s1[..n], SkipSpace(s2[1..]))
  }

  /** From the quote after '=' on. */
  function AttributeValue(key: string, s: string): (r: Step)
    ensures !r.Failed? ==> |r.rest| < |s|
  {
    if s == [] || (s[0] != '"' && s[0] != '\'') then Failed
    else
      match IndexOf(s[1..], s[0])
      case None => Failed
      case Some(e) => Read(key, s[1..][..e], s[1..][e + 1..])
  }

  /** The rest of a start tag: its attributes, whether it closes itself, and what follows. */
  datatype StartTag = StartTag(attrs: map<string, string>, selfClosing: bool, rest: string)

  function Attributes(s: string, attrs: map<string, string>): (r: Option<StartTag>)
    ensures r.Some? ==> |r.value.rest| < |s|
    decreases |s|
  {
    match NextAttribute(s)
    case Failed => None
    case Closed(selfClosing, rest) => Some(StartTag(attrs, selfClosing, rest))
    case Read(key, value, rest) => Attributes(rest, attrs[key := value])
  }

  function Attr(attrs: map<string, string>, key: string): string {
    if key in attrs then attrs[key] else ""
  }

  // ---------- what tags do ----------

  /** A pointer to a member: which interface, and which of its methods or signals. */
  datatype MemberRef = MemberRef(iface: nat, index: nat)

  /**
   The interfaces read, whether the last of them is still open, the member
   arguments go to, and whether that is a signal.
   */
  datatype State = State(
    out: seq<Interface>, open: bool, member: Option<MemberRef>, inSignal: bool)

  /** The pointers are to things that exist. */
  predicate Consistent(st: State) {
    && (st.open ==> st.out != [])
    && (st.member.Some? ==>
          && st.member.value.iface < |st.out|
          && st.member.value.index < |MemberList(st.out[st.member.value.iface], st.inSignal)|)
  }

  function MemberList(i: Interface, signals: bool): seq<Member> {
    if signals then i.signals else i.methods
  }

  function WithMembers(i: Interface, signals: bool, members: seq<Member>): Interface {
    if signals then i.(signals := members) else i.(methods := members)
  }

  function StartInterface(st: State, name: string, selfClosing: bool): State {
    st.(out := st.out + [Interface(name, [], [], [])], open := !selfClosing)
  }

  function StartMember(st: State, signal: bool, name: string, selfClosing: bool): State
    requires st.open && st.out != []
  {
    var last := |st.out| - 1;
    var members := MemberList(st.out[last], signal);
    State(
      st.out[last := WithMembers(st.out[last], signal, members + [Member(name, [], [])])],
      true,
      if selfClosing then None else Some(MemberRef(last, |members|)),
      signal)
  }

  function AddProperty(st: State, p: Property): State
    requires st.open && st.out != []
  {
    var last := |st.out| - 1;
    st.(out := st.out[last := st.out[last].(properties := st.out[last].properties + [p])])
  }

  function WithArg(m: Member, isIn: bool, a: Arg): Member {
    if isIn then m.(ins := m.ins + [a]) else m.(outs := m.outs + [a])
  }

  function AddArg(st: State, isIn: bool, a: Arg): State
    requires Consistent(st) && st.member.Some?
  {
    var r := st.member.value;
    var members := MemberList(st.out[r.iface], st.inSignal);
    st.(out := st.out[r.iface :=
      WithMembers(st.out[r.iface], st.inSignal, members[r.index := WithArg(members[r.index], isIn, a)])])
  }

  function Start(st: State, tag: string, attrs: map<string, string>, selfClosing: bool): (r: State)
    requires Consistent(st)
    ensures Consistent(r)
  {
    if tag == "interface" then StartInterface(st, Attr(attrs, "name"), selfClosing)
    else if st.open && (tag == "method" || tag == "signal") then
      StartMember(st, tag == "signal", Attr(attrs, "name"), selfClosing)
    else if st.open && tag == "property" then
      AddProperty(st, Property(Attr(attrs, "name"), Attr(attrs, "type"), Attr(attrs, "access") == "readwrite"))
    else if st.member.Some? && tag == "arg" then
      AddArg(st, !st.inSignal && Attr(attrs, "direction") != "out", Arg(Attr(attrs, "name"), Attr(attrs, "type")))
    else st
  }

  function End(st: State, tag: string): (r: State)
    requires Consistent(st)
    ensures Consistent(r)
  {
    if tag == "interface" then st.(open := false)
    else if tag == "method" || tag == "signal" then st.(member := None)
    else st
  }

  // ---------- the parser ----------

  datatype Parsed = Parsed(ok: bool, out: seq<Interface>)

  lemma {:induction false} SkipPastShrinks(s: string, end: string)
    requires end != []
    ensures SkipPast(s, end).Some? ==> |SkipPast(s, end).value| < |s|
  {
    if !(end <= s) && s != [] {
      SkipPastShrinks(s[1..], end);
    }
  }

  function Parse(s: string, st: State): Parsed
    requires Consistent(st)
    decreases |s|
  {
    SkipPastShrinks(s, "<");
    match SkipPast(s, "<")
    case None => Parsed(true, st.out)
    case Some(t) => ParseTag(t, st)
  }

  /** From just after a '<'. */
  function ParseTag(t: string, st: State): Parsed
    requires Consistent(st)
    decreases |t|, 1
  {
    SkipPastShrinks(t, "-->");
    SkipPastShrinks(t, ">");
    if "!--" <= t then Continue(SkipPast(t, "-->"), st, t)
    else if t != [] && (t[0] == '?' || t[0] == '!') then Continue(SkipPast(t, ">"), st, t)
    else if t != [] && t[0] == '/' then
      var n := NameLength(t[1..]);
      SkipPastShrinks(t[1 + n..], ">");
      var ended := End(st, t[1..][..n]);
      match SkipPast(t[1 + n..], ">")
      case None => Parsed(false, ended.out)
      case Some(rest) => Parse(rest, ended)
    else
      var n := NameLength(t);
      match Attributes(t[n..], map[])
      case None => Parsed(false, st.out)
      case Some(a) => Parse(a.rest, Start(st, t[..n], a.attrs, a.selfClosing))
  }

  function Continue(rest: Option<string>, st: State, t: string): Parsed
    requires Consistent(st)
    requires rest.Some? ==> |rest.value| < |t|
    decreases |t|, 0
  {
    match rest
    case None => Parsed(false, st.out)
    case Some(s) => Parse(s, st)
  }

  // ---------- C strings ----------

  /** What a C string is of a text: all before its first NUL. */
  function UpToNul(s: string): (r: string)
    ensures '\0' !in r && r <= s
    ensures '\0' !in s ==> r == s
  {
    if s == [] || s[0] == '\0' then [] else [s[0]] + UpToNul(s[1..])
  }

  /** The parser is given a pointer to the text. */
  function ParseCString(text: string, st: State): Parsed
    requires Consistent(st)
  {
    Parse(UpToNul(text), st)
  }
}
