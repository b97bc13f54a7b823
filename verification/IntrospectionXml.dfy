/** Printing interfaces, and the proof that parsing gives them back. */
module IntrospectionXml {
  import opened Bytes
  import opened Introspection
  import IntrospectionParser

  // ---------- printed text, tag by tag ----------

  datatype Attribute = Attribute(key: string, value: string)

  function AttributeText(a: Attribute): string {
    [' '] + a.key + ['=', '"'] + a.value + ['"']
  }

  function AttributesText(attrs: seq<Attribute>): string {
    if attrs == [] then [] else AttributeText(attrs[0]) + AttributesText(attrs[1..])
  }

  function StartTagText(tag: string, attrs: seq<Attribute>, selfClosing: bool): string {
    ['<'] + tag + AttributesText(attrs) + (if selfClosing then "/>" else ">")
  }

  function EndTagText(tag: string): string {
    ['<', '/'] + tag + ['>']
  }

  function Line(indent: string, tag: string): string {
    indent + tag + ['\n']
  }

  function ArgAttributes(a: Arg, direction: Option<string>): seq<Attribute> {
    [Attribute("name", a.name), Attribute("type", a.kind)]
    + if direction.Some? then [Attribute("direction", direction.value)] else []
  }

  function ArgsXml(args: seq<Arg>, direction: Option<string>): string {
    if args == [] then []
    else
      ArgsXml(args[..|args| - 1], direction)
      + Line("      ", StartTagText("arg", ArgAttributes(args[|args| - 1], direction), true))
  }

  function MemberXml(tag: string, m: Member): string {
    Line("    ", StartTagText(tag, [Attribute("name", m.name)], false))
    + (if tag == "method" then ArgsXml(m.ins, Some("in")) + ArgsXml(m.outs, Some("out")) else ArgsXml(m.outs, None))
    + Line("    ", EndTagText(tag))
  }

  function MembersXml(tag: string, ms: seq<Member>): string {
    if ms == [] then [] else MembersXml(tag, ms[..|ms| - 1]) + MemberXml(tag, ms[|ms| - 1])
  }

  function PropertyAttributes(p: Property): seq<Attribute> {
    [Attribute("name", p.name), Attribute("type", p.kind),
     Attribute("access", if p.writable then "readwrite" else "read")]
  }

  function PropertiesXml(ps: seq<Property>): string {
    if ps == [] then []
    else
      PropertiesXml(ps[..|ps| - 1])
      + Line("    ", StartTagText("property", PropertyAttributes(ps[|ps| - 1]), true))
  }

  function ToXml(i: Interface): string {
    Line("  ", StartTagText("interface", [Attribute("name", i.name)], false))
    + (MembersXml("method", i.methods) + (MembersXml("signal", i.signals) + (PropertiesXml(i.properties)
    + Line("  ", EndTagText("interface")))))
  }

  function AllXml(all: seq<Interface>): string {
    if all == [] then [] else AllXml(all[..|all| - 1]) + ToXml(all[|all| - 1])
  }

  // ---------- what can be printed ----------

  predicate Quotable(s: string) {
    '"' !in s
  }

  ghost predicate PrintableArgs(args: seq<Arg>) {
    forall a :: a in args ==> Quotable(a.name) && Quotable(a.kind)
  }

  ghost predicate PrintableMember(m: Member) {
    Quotable(m.name) && PrintableArgs(m.ins) && PrintableArgs(m.outs)
  }

  /** No quotes inside attributes, and signals only have `out` arguments. */
  ghost predicate Printable(i: Interface) {
    && Quotable(i.name)
    && (forall m :: m in i.methods ==> PrintableMember(m))
    && (forall s :: s in i.signals ==> PrintableMember(s) && s.ins == [])
    && (forall p :: p in i.properties ==> Quotable(p.name) && Quotable(p.kind))
  }

  // ---------- reading one tag ----------

  predicate NameText(s: string) {
    s != [] && forall c :: c in s ==> !EndsName(c)
  }

  predicate TagName(s: string) {
    NameText(s) && s[0] != '!' && s[0] != '?'
  }

  ghost predicate WritableAttributes(attrs: seq<Attribute>) {
    forall a :: a in attrs ==> NameText(a.key) && Quotable(a.value)
  }

  function MapOf(attrs: seq<Attribute>, start: map<string, string>): map<string, string> {
    if attrs == [] then start else MapOf(attrs[1..], start[attrs[0].key := attrs[0].value])
  }

  lemma {:induction false} NameLengthOf(name: string, rest: string)
    requires forall c :: c in name ==> !EndsName(c)
    requires rest != [] && EndsName(rest[0])
    ensures NameLength(name + rest) == |name|
    decreases |name|
  {
    if name == [] {
      assert name + rest == rest;
    } else {
      assert (name + rest)[1..] == name[1..] + rest;
      assert (name + rest)[0] == name[0];
      NameLengthOf(name[1..], rest);
    }
  }

  lemma {:induction false} IndexOfQuote(value: string, rest: string)
    requires Quotable(value)
    ensures IndexOf(value + ['"'] + rest, '"') == Some(|value|)
    decreases |value|
  {
    if value == [] {
      assert value + ['"'] + rest == ['"'] + rest;
    } else {
      assert (value + ['"'] + rest)[1..] == value[1..] + ['"'] + rest;
      assert (value + ['"'] + rest)[0] == value[0];
      IndexOfQuote(value[1..], rest);
    }
  }

  lemma ReadValue(key: string, value: string, rest: string)
    requires Quotable(value)
    ensures AttributeValue(key, ['"'] + value + ['"'] + rest) == Read(key, value, rest)
  {
    var s := ['"'] + value + ['"'] + rest;
    assert s[1..] == value + ['"'] + rest;
    IndexOfQuote(value, rest);
    hide IndexOf;
    assert s[1..][..|value|] == value;
    assert s[1..][|value| + 1..] == rest;
  }

  lemma ReadAttribute(a: Attribute, rest: string)
    requires NameText(a.key) && Quotable(a.value)
    ensures NextAttribute(AttributeText(a) + rest) == Read(a.key, a.value, rest)
  {
    var quoted := ['"'] + a.value + ['"'] + rest;
    AttributeShape(a, rest);
    ReadValue(a.key, a.value, rest);
    hide AttributeText, AttributeValue;
    ReadKey(a.key, quoted);
  }

  /** The name of an attribute, up to its quote. */
  lemma ReadKey(key: string, quoted: string)
    requires NameText(key) && quoted != [] && !IsSpace(quoted[0])
    ensures NextAttribute([' '] + (key + (['='] + quoted))) == AttributeValue(key, quoted)
  {
    var s1 := key + (['='] + quoted);
    var s := [' '] + s1;
    assert key[0] in key;
    assert s1[0] == key[0];
    assert SkipSpace(s) == s1 by { assert s[1..] == s1; }
    NameLengthOf(key, ['='] + quoted);
    assert s1[..|key|] == key && s1[|key|..] == ['='] + quoted;
    AfterKey(quoted);
    hide NameLength, AttributeValue, SkipSpace, NameText;
  }

  lemma AfterKey(quoted: string)
    requires quoted != [] && !IsSpace(quoted[0])
    ensures SkipSpace(['='] + quoted) == ['='] + quoted
    ensures SkipSpace((['='] + quoted)[1..]) == quoted
  {
    assert (['='] + quoted)[1..] == quoted;
  }

  lemma AttributeShape(a: Attribute, rest: string)
    ensures AttributeText(a) + rest == [' '] + (a.key + (['='] + (['"'] + a.value + ['"'] + rest)))
    ensures (AttributeText(a) + rest)[1..] == a.key + (['='] + (['"'] + a.value + ['"'] + rest))
  {
    assert AttributeText(a) + rest == [' '] + (a.key + (['='] + (['"'] + a.value + ['"'] + rest)));
  }

  lemma {:induction false} ReadAttributes(attrs: seq<Attribute>, start: map<string, string>, selfClosing: bool,
                                          rest: string)
    requires WritableAttributes(attrs)
    ensures Attributes(AttributesText(attrs) + (if selfClosing then "/>" else ">") + rest, start)
         == Some(StartTag(MapOf(attrs, start), selfClosing, rest))
    decreases |attrs|
  {
    var close := if selfClosing then "/>" else ">";
    if attrs == [] {
      assert AttributesText(attrs) + close + rest == close + rest;
      ReadClose(selfClosing, rest);
    } else {
      var more := AttributesText(attrs[1..]) + close + rest;
      assert AttributesText(attrs) + close + rest == AttributeText(attrs[0]) + more;
      hide NextAttribute, AttributeText, AttributesText;
      ReadAttribute(attrs[0], more);
      ReadAttributes(attrs[1..], start[attrs[0].key := attrs[0].value], selfClosing, rest);
    }
  }

  lemma ReadClose(selfClosing: bool, rest: string)
    ensures NextAttribute((if selfClosing then "/>" else ">") + rest) == Closed(selfClosing, rest)
  {
    if selfClosing {
      assert ("/>" + rest)[2..] == rest;
    } else {
      assert (">" + rest)[1..] == rest;
    }
  }

  lemma {:induction false} SkipText(text: string, rest: string)
    requires '<' !in text
    ensures SkipPast(text + ['<'] + rest, "<") == Some(rest)
    decreases |text|
  {
    if text == [] {
      assert text + ['<'] + rest == ['<'] + rest;
      assert (['<'] + rest)[1..] == rest;
    } else {
      assert (text + ['<'] + rest)[1..] == text[1..] + ['<'] + rest;
      assert (text + ['<'] + rest)[0] == text[0];
      SkipText(text[1..], rest);
    }
  }

  lemma {:induction false} SkipToTag(text: string, rest: string)
    requires '<' !in text
    ensures SkipPast(text + rest, "<") == SkipPast(rest, "<")
    decreases |text|
  {
    if text == [] {
      assert text + rest == rest;
    } else {
      assert (text + rest)[1..] == text[1..] + rest;
      assert (text + rest)[0] == text[0];
      SkipToTag(text[1..], rest);
    }
  }

  lemma ParseText(text: string, rest: string, st: State)
    requires Consistent(st) && '<' !in text
    ensures Parse(text + rest, st) == Parse(rest, st)
  {
    SkipToTag(text, rest);
    hide SkipPast, ParseTag, Consistent;
  }

  lemma ParseFrom(rest: string, st: State)
    requires Consistent(st)
    ensures Parse(['<'] + rest, st) == ParseTag(rest, st)
  {
    SkipText([], rest);
    assert [] + ['<'] + rest == ['<'] + rest;
    hide SkipPast, ParseTag, Consistent;
  }

  lemma ParseStart(tag: string, attrs: seq<Attribute>, selfClosing: bool, rest: string, st: State)
    requires Consistent(st) && TagName(tag) && WritableAttributes(attrs)
    ensures ParseTag(tag + AttributesText(attrs) + (if selfClosing then "/>" else ">") + rest, st)
         == Parse(rest, Start(st, tag, MapOf(attrs, map[]), selfClosing))
  {
    var tail := AttributesText(attrs) + (if selfClosing then "/>" else ">") + rest;
    var t := tag + AttributesText(attrs) + (if selfClosing then "/>" else ">") + rest;
    assert t == tag + tail;
    assert EndsName(tail[0]);
    NameLengthOf(tag, tail);
    ReadAttributes(attrs, map[], selfClosing, rest);
    assert tag[0] in tag;
    assert t[0] == tag[0];
    assert t[..|tag|] == tag && t[|tag|..] == tail;
    hide Parse, Attributes, AttributesText, Start, SkipPast, Consistent, NameLength;
  }

  lemma ParseEnd(tag: string, rest: string, st: State)
    requires Consistent(st) && NameText(tag)
    ensures ParseTag(['/'] + tag + ['>'] + rest, st) == Parse(rest, End(st, tag))
  {
    var t := ['/'] + tag + ['>'] + rest;
    var tail := ['>'] + rest;
    assert t[0] == '/' && t[1..] == tag + tail;
    NameLengthOf(tag, tail);
    assert t[1..][..|tag|] == tag && t[1 + |tag|..] == tail;
    assert SkipPast(tail, ">") == Some(rest) by { assert tail[1..] == rest; }
    hide Parse, End, SkipPast, Consistent, NameLength;
  }

  predicate Blank(indent: string) {
    '<' !in indent
  }

  lemma ParseStartLine(indent: string, tag: string, attrs: seq<Attribute>, selfClosing: bool, rest: string, st: State)
    requires Blank(indent) && Consistent(st) && TagName(tag) && WritableAttributes(attrs)
    ensures Parse(Line(indent, StartTagText(tag, attrs, selfClosing)) + rest, st)
         == Parse(rest, Start(st, tag, MapOf(attrs, map[]), selfClosing))
  {
    var close := if selfClosing then "/>" else ">";
    var body := tag + AttributesText(attrs) + close + (['\n'] + rest);
    var next := Start(st, tag, MapOf(attrs, map[]), selfClosing);
    assert Line(indent, StartTagText(tag, attrs, selfClosing)) + rest == indent + (['<'] + body);
    hide Parse, ParseTag, Line, StartTagText, AttributesText, Start, Consistent, WritableAttributes, TagName, MapOf;
    ParseText(indent, ['<'] + body, st);
    ParseFrom(body, st);
    ParseStart(tag, attrs, selfClosing, ['\n'] + rest, st);
    ParseText(['\n'], rest, next);
  }

  lemma ParseEndLine(indent: string, tag: string, rest: string, st: State)
    requires Blank(indent) && Consistent(st) && NameText(tag)
    ensures Parse(Line(indent, EndTagText(tag)) + rest, st) == Parse(rest, End(st, tag))
  {
    var body := ['/'] + tag + ['>'] + (['\n'] + rest);
    assert Line(indent, EndTagText(tag)) + rest == indent + (['<'] + body);
    hide Parse, ParseTag, Line, EndTagText, End, Consistent, NameText;
    ParseText(indent, ['<'] + body, st);
    ParseFrom(body, st);
    ParseEnd(tag, ['\n'] + rest, st);
    ParseText(['\n'], rest, End(st, tag));
  }

  // ---------- the attributes that are printed ----------

  lemma MapOfMore(a: Attribute, more: seq<Attribute>, start: map<string, string>)
    ensures MapOf([a] + more, start) == MapOf(more, start[a.key := a.value])
  {
    assert ([a] + more)[1..] == more;
  }

  lemma KeyNames()
    ensures NameText("name") && NameText("type") && NameText("direction") && NameText("access")
    ensures "name" != "type" && "name" != "direction" && "name" != "access"
    ensures "type" != "direction" && "type" != "access"
  {
  }

  lemma NameAttribute(name: string)
    requires Quotable(name)
    ensures WritableAttributes([Attribute("name", name)])
    ensures Attr(MapOf([Attribute("name", name)], map[]), "name") == name
  {
    KeyNames();
    hide NameText;
    MapOfMore(Attribute("name", name), [], map[]);
    assert [Attribute("name", name)] == [Attribute("name", name)] + [];
  }

  lemma TwoAttributes(key: string, name: string, kind: string, value: string)
    requires NameText(key) && key != "name" && key != "type"
    requires Quotable(name) && Quotable(kind) && Quotable(value)
    ensures
      var attrs := [Attribute("name", name), Attribute("type", kind)];
      var more := attrs + [Attribute(key, value)];
      && WritableAttributes(attrs) && WritableAttributes(more)
      && MapOf(attrs, map[]) == map["name" := name, "type" := kind]
      && MapOf(more, map[]) == map["name" := name, "type" := kind, key := value]
  {
    var n, t, v := Attribute("name", name), Attribute("type", kind), Attribute(key, value);
    KeyNames();
    hide NameText, Quotable;
    assert [n, t] == [n] + ([t] + []);
    assert [n, t] + [v] == [n] + ([t] + ([v] + []));
    MapOfMore(n, [t] + [], map[]);
    MapOfMore(n, [t] + ([v] + []), map[]);
    MapOfMore(t, [], map["name" := name]);
    MapOfMore(t, [v] + [], map["name" := name]);
    MapOfMore(v, [], map["name" := name, "type" := kind]);
  }

  lemma ArgAttributesRead(a: Arg, direction: Option<string>)
    requires Quotable(a.name) && Quotable(a.kind) && (direction.Some? ==> Quotable(direction.value))
    ensures WritableAttributes(ArgAttributes(a, direction))
    ensures
      var m := MapOf(ArgAttributes(a, direction), map[]);
      && Attr(m, "name") == a.name && Attr(m, "type") == a.kind
      && Attr(m, "direction") == if direction.Some? then direction.value else ""
  {
    KeyNames();
    hide NameText, MapOf, WritableAttributes;
    TwoAttributes("direction", a.name, a.kind, if direction.Some? then direction.value else "");
    if direction.None? {
      assert ArgAttributes(a, direction) == [Attribute("name", a.name), Attribute("type", a.kind)];
    }
  }

  lemma PropertyAttributesRead(p: Property)
    requires Quotable(p.name) && Quotable(p.kind)
    ensures WritableAttributes(PropertyAttributes(p))
    ensures
      var m := MapOf(PropertyAttributes(p), map[]);
      && Attr(m, "name") == p.name && Attr(m, "type") == p.kind
      && (Attr(m, "access") == "readwrite" <==> p.writable)
  {
    var access := if p.writable then "readwrite" else "read";
    assert Quotable(access) && (access == "readwrite" <==> p.writable);
    KeyNames();
    hide NameText, MapOf, WritableAttributes, Quotable;
    TwoAttributes("access", p.name, p.kind, access);
    assert PropertyAttributes(p)
           == [Attribute("name", p.name), Attribute("type", p.kind)] + [Attribute("access", access)];
  }

  // ---------- reading what was printed ----------

  /** Inside member m, the last of its list, of the last interface. */
  function InMember(pre: seq<Interface>, i: Interface, signal: bool, ms: seq<Member>, m: Member): (st: State)
    ensures Consistent(st)
  {
    State(pre + [WithMembers(i, signal, ms + [m])], true, Some(MemberRef(|pre|, |ms|)), signal)
  }

  /** Inside an interface, between its members. */
  function InInterface(pre: seq<Interface>, i: Interface, inSignal: bool): (st: State)
    ensures Consistent(st)
  {
    State(pre + [i], true, None, inSignal)
  }

  function WithArgs(m: Member, isIn: bool, args: seq<Arg>): Member {
    if isIn then m.(ins := m.ins + args) else m.(outs := m.outs + args)
  }

  lemma ArgStarted(pre: seq<Interface>, i: Interface, signal: bool, ms: seq<Member>, m: Member, a: Arg,
                   direction: Option<string>)
    requires Quotable(a.name) && Quotable(a.kind) && (direction.Some? ==> Quotable(direction.value))
    ensures Start(InMember(pre, i, signal, ms, m), "arg", MapOf(ArgAttributes(a, direction), map[]), true)
         == InMember(pre, i, signal, ms, WithArg(m, !signal && direction != Some("out"), a))
  {
    ArgAttributesRead(a, direction);
    hide MapOf, ArgAttributes, Attr;
    var m' := WithArg(m, !signal && direction != Some("out"), a);
    assert (ms + [m])[|ms| := m'] == ms + [m'];
    assert WithMembers(WithMembers(i, signal, ms + [m]), signal, ms + [m']) == WithMembers(i, signal, ms + [m']);
    assert (pre + [WithMembers(i, signal, ms + [m])])[|pre| := WithMembers(i, signal, ms + [m'])]
        == pre + [WithMembers(i, signal, ms + [m'])];
  }

  /** The line of the last argument, and what that argument adds to the member. */
  lemma LastArg(args: seq<Arg>, direction: Option<string>, m: Member, isIn: bool)
    requires args != []
    ensures var first, a := args[..|args| - 1], args[|args| - 1];
            ArgsXml(args, direction)
                == ArgsXml(first, direction) + Line("      ", StartTagText("arg", ArgAttributes(a, direction), true))
            && WithArg(WithArgs(m, isIn, first), isIn, a) == WithArgs(m, isIn, args)
  {
    hide Line, StartTagText, ArgAttributes;
    assert args[..|args| - 1] + [args[|args| - 1]] == args;
  }

  lemma NoArgs(m: Member, isIn: bool, direction: Option<string>, rest: string)
    ensures ArgsXml([], direction) + rest == rest && WithArgs(m, isIn, []) == m
  {
  }

  lemma PrintableFewer(args: seq<Arg>)
    requires args != [] && PrintableArgs(args)
    ensures PrintableArgs(args[..|args| - 1])
  {
  }

  lemma {:induction false} ReadArgs(
    pre: seq<Interface>, i: Interface, signal: bool, ms: seq<Member>, m: Member,
    args: seq<Arg>, direction: Option<string>, rest: string)
    requires PrintableArgs(args) && (direction.Some? ==> Quotable(direction.value))
    ensures Parse(ArgsXml(args, direction) + rest, InMember(pre, i, signal, ms, m))
         == Parse(rest, InMember(pre, i, signal, ms, WithArgs(m, !signal && direction != Some("out"), args)))
    decreases |args|
  {
    var isIn := !signal && direction != Some("out");
    if args == [] {
      hide *;
      NoArgs(m, isIn, direction, rest);
    } else {
      var first, a := args[..|args| - 1], args[|args| - 1];
      ArgAttributesRead(a, direction);
      hide *;
      var line := Line("      ", StartTagText("arg", ArgAttributes(a, direction), true));
      LastArg(args, direction, m, isIn);
      PrintableFewer(args);
      ArgTag();
      ReadArgs(pre, i, signal, ms, m, first, direction, line + rest);
      Regroup(ArgsXml(first, direction), line, rest);
      var m' := WithArgs(m, isIn, first);
      ParseStartLine("      ", "arg", ArgAttributes(a, direction), true, rest, InMember(pre, i, signal, ms, m'));
      ArgStarted(pre, i, signal, ms, m', a, direction);
    }
  }

  lemma ArgTag()
    ensures TagName("arg") && TagName("method") && TagName("signal") && TagName("property") && TagName("interface")
    ensures NameText("method") && NameText("signal") && NameText("interface")
  {
  }

  lemma MemberStarted(pre: seq<Interface>, i: Interface, inSignal: bool, signal: bool, name: string)
    requires Quotable(name)
    ensures Start(InInterface(pre, i, inSignal), if signal then "signal" else "method",
                  MapOf([Attribute("name", name)], map[]), false)
         == InMember(pre, i, signal, MemberList(i, signal), Member(name, [], []))
  {
    NameAttribute(name);
    hide MapOf, Attr, Quotable, WritableAttributes;
    var i' := WithMembers(i, signal, MemberList(i, signal) + [Member(name, [], [])]);
    LastReplaced(pre, i, i');
    hide WithMembers, MemberList;
  }

  lemma LastReplaced(pre: seq<Interface>, i: Interface, i': Interface)
    ensures (pre + [i])[|pre| := i'] == pre + [i'] && (pre + [i])[|pre|] == i
  {
  }

  lemma MemberEnded(pre: seq<Interface>, i: Interface, signal: bool, ms: seq<Member>, m: Member)
    ensures End(InMember(pre, i, signal, ms, m), if signal then "signal" else "method")
         == InInterface(pre, WithMembers(i, signal, ms + [m]), signal)
  {
  }

  lemma ReadMethod(pre: seq<Interface>, i: Interface, inSignal: bool, m: Member, rest: string)
    requires PrintableMember(m)
    ensures Parse(MemberXml("method", m) + rest, InInterface(pre, i, inSignal))
         == Parse(rest, InInterface(pre, WithMembers(i, false, i.methods + [m]), false))
  {
    var start := Line("    ", StartTagText("method", [Attribute("name", m.name)], false));
    var end := Line("    ", EndTagText("method"));
    var ins, outs := ArgsXml(m.ins, Some("in")), ArgsXml(m.outs, Some("out"));
    MethodShape(start, ins, outs, end, rest);
    assert MemberXml("method", m) == start + (ins + outs) + end;
    var empty := Member(m.name, [], []);
    var half := WithArgs(empty, true, m.ins);
    assert WithArgs(half, false, m.outs) == m;
    NameAttribute(m.name);
    ArgTag();
    assert Quotable("in") && Quotable("out");
    hide MemberXml, ArgsXml, Line, StartTagText, EndTagText, MapOf, Parse, Start, End, InMember, InInterface, WithArgs,
      WithMembers,
      TagName, NameText, WritableAttributes;
    ParseStartLine("    ", "method", [Attribute("name", m.name)], false, ins + (outs + (end + rest)),
                   InInterface(pre, i, inSignal));
    MemberStarted(pre, i, inSignal, false, m.name);
    ReadArgs(pre, i, false, i.methods, empty, m.ins, Some("in"), outs + (end + rest));
    ReadArgs(pre, i, false, i.methods, half, m.outs, Some("out"), end + rest);
    ParseEndLine("    ", "method", rest, InMember(pre, i, false, i.methods, m));
    MemberEnded(pre, i, false, i.methods, m);
  }

  lemma MethodShape(start: string, ins: string, outs: string, end: string, rest: string)
    ensures start + (ins + outs) + end + rest == start + (ins + (outs + (end + rest)))
  {
  }

  lemma SignalParts(m: Member, rest: string)
    requires m.ins == []
    ensures var start, outs := Line("    ", StartTagText("signal", [Attribute("name", m.name)], false)),
            ArgsXml(m.outs, None);
            var end := Line("    ", EndTagText("signal"));
            MemberXml("signal", m) + rest == start + (outs + (end + rest))
  {
    hide Line, StartTagText, EndTagText, ArgsXml;
    var start, outs := Line("    ", StartTagText("signal", [Attribute("name", m.name)], false)), ArgsXml(m.outs, None);
    var end := Line("    ", EndTagText("signal"));
    assert MemberXml("signal", m) == start + outs + end;
    assert start + outs + end + rest == start + (outs + (end + rest));
  }

  lemma OutsOnly(m: Member)
    requires m.ins == []
    ensures WithArgs(Member(m.name, [], []), false, m.outs) == m
  {
  }

  lemma ReadSignal(pre: seq<Interface>, i: Interface, inSignal: bool, m: Member, rest: string)
    requires PrintableMember(m) && m.ins == []
    ensures Parse(MemberXml("signal", m) + rest, InInterface(pre, i, inSignal))
         == Parse(rest, InInterface(pre, WithMembers(i, true, i.signals + [m]), true))
  {
    hide MemberXml, ArgsXml, Line, StartTagText, EndTagText, MapOf, Parse, Start, End, InMember, InInterface, WithArgs,
      WithMembers, TagName, NameText, WritableAttributes;
    var end := Line("    ", EndTagText("signal"));
    var outs := ArgsXml(m.outs, None);
    var empty := Member(m.name, [], []);
    SignalParts(m, rest);
    OutsOnly(m);
    NameAttribute(m.name);
    ArgTag();
    ParseStartLine("    ", "signal", [Attribute("name", m.name)], false, outs + (end + rest),
                   InInterface(pre, i, inSignal));
    MemberStarted(pre, i, inSignal, true, m.name);
    ReadArgs(pre, i, true, i.signals, empty, m.outs, None, end + rest);
    ParseEndLine("    ", "signal", rest, InMember(pre, i, true, i.signals, m));
    MemberEnded(pre, i, true, i.signals, m);
  }

  lemma {:induction false} ReadMembers(pre: seq<Interface>, i: Interface, inSignal: bool, signal: bool,
                                       ms: seq<Member>, rest: string)
    requires forall m :: m in ms ==> PrintableMember(m) && (signal ==> m.ins == [])
    ensures Parse(MembersXml(if signal then "signal" else "method", ms) + rest, InInterface(pre, i, inSignal))
         == Parse(rest, InInterface(pre, WithMembers(i, signal, MemberList(i, signal) + ms),
                                    if ms == [] then inSignal else signal))
    decreases |ms|
  {
    var tag := if signal then "signal" else "method";
    if ms == [] {
      assert MembersXml(tag, ms) + rest == rest;
      assert WithMembers(i, signal, MemberList(i, signal) + ms) == i;
    } else {
      var first, m := ms[..|ms| - 1], ms[|ms| - 1];
      var i' := WithMembers(i, signal, MemberList(i, signal) + first);
      var was := if first == [] then inSignal else signal;
      LastMember(i, signal, tag, ms);
      hide MembersXml, MemberXml, Parse, InInterface, PrintableMember, WithMembers, MemberList;
      ReadMembers(pre, i, inSignal, signal, first, MemberXml(tag, m) + rest);
      Regroup(MembersXml(tag, first), MemberXml(tag, m), rest);
      ReadMember(pre, i', was, signal, m, rest);
    }
  }

  lemma LastMember(i: Interface, signal: bool, tag: string, ms: seq<Member>)
    requires ms != []
    ensures
      var first, m := ms[..|ms| - 1], ms[|ms| - 1];
      var i' := WithMembers(i, signal, MemberList(i, signal) + first);
      && MembersXml(tag, ms) == MembersXml(tag, first) + MemberXml(tag, m)
      && WithMembers(i', signal, MemberList(i', signal) + [m]) == WithMembers(i, signal, MemberList(i, signal) + ms)
  {
    hide MemberXml;
    assert ms[..|ms| - 1] + [ms[|ms| - 1]] == ms;
    assert MemberList(i, signal) + ms == MemberList(i, signal) + ms[..|ms| - 1] + [ms[|ms| - 1]];
  }

  lemma ReadMember(pre: seq<Interface>, i: Interface, inSignal: bool, signal: bool, m: Member, rest: string)
    requires PrintableMember(m) && (signal ==> m.ins == [])
    ensures Parse(MemberXml(if signal then "signal" else "method", m) + rest, InInterface(pre, i, inSignal))
         == Parse(rest, InInterface(pre, WithMembers(i, signal, MemberList(i, signal) + [m]), signal))
  {
    hide MemberXml, Parse, InInterface, PrintableMember, WithMembers;
    if signal {
      ReadSignal(pre, i, inSignal, m, rest);
    } else {
      ReadMethod(pre, i, inSignal, m, rest);
    }
  }

  lemma PropertyStarted(pre: seq<Interface>, i: Interface, inSignal: bool, p: Property)
    requires Quotable(p.name) && Quotable(p.kind)
    ensures Start(InInterface(pre, i, inSignal), "property", MapOf(PropertyAttributes(p), map[]), true)
         == InInterface(pre, i.(properties := i.properties + [p]), inSignal)
  {
    PropertyAttributesRead(p);
    hide MapOf, Attr, PropertyAttributes;
    var i' := i.(properties := i.properties + [p]);
    assert (pre + [i])[|pre| := i'] == pre + [i'];
  }

  lemma {:induction false} ReadProperties(pre: seq<Interface>, i: Interface, inSignal: bool, ps: seq<Property>,
                                          rest: string)
    requires forall p :: p in ps ==> Quotable(p.name) && Quotable(p.kind)
    ensures Parse(PropertiesXml(ps) + rest, InInterface(pre, i, inSignal))
         == Parse(rest, InInterface(pre, i.(properties := i.properties + ps), inSignal))
    decreases |ps|
  {
    if ps == [] {
      assert PropertiesXml(ps) + rest == rest;
      assert i.properties + ps == i.properties;
    } else {
      var first, p := ps[..|ps| - 1], ps[|ps| - 1];
      var line := Line("    ", StartTagText("property", PropertyAttributes(p), true));
      assert PropertiesXml(ps) == PropertiesXml(first) + line;
      var i' := i.(properties := i.properties + first);
      assert first + [p] == ps;
      assert i'.(properties := i'.properties + [p]) == i.(properties := i.properties + ps);
      PropertyAttributesRead(p);
      ArgTag();
      hide PropertiesXml, Line, StartTagText, PropertyAttributes, MapOf, Parse, Start, InInterface, TagName,
        WritableAttributes;
      ReadProperties(pre, i, inSignal, first, line + rest);
      Regroup(PropertiesXml(first), line, rest);
      ParseStartLine("    ", "property", PropertyAttributes(p), true, rest, InInterface(pre, i', inSignal));
      PropertyStarted(pre, i', inSignal, p);
    }
  }

  // ---------- whole interfaces ----------

  /** What is left of the parser's memory after an interface: it is there, closed. */
  function After(st: State, i: Interface): State {
    State(st.out + [i], false, None,
      if i.signals != [] then true else if i.methods != [] then false else st.inSignal)
  }

  lemma InterfaceParts(i: Interface)
    ensures ToXml(i) == Line("  ", StartTagText("interface", [Attribute("name", i.name)], false))
            + (MembersXml("method", i.methods) + (MembersXml("signal", i.signals)
            + (PropertiesXml(i.properties) + Line("  ", EndTagText("interface")))))
  {
    hide Line, StartTagText, EndTagText, MembersXml, PropertiesXml;
  }

  lemma InterfaceStarted(st: State, name: string)
    requires Consistent(st) && st.member.None? && Quotable(name)
    ensures Start(st, "interface", MapOf([Attribute("name", name)], map[]), false)
            == InInterface(st.out, Interface(name, [], [], []), st.inSignal)
  {
    hide MapOf, Quotable, WritableAttributes;
    NameAttribute(name);
  }

  lemma InterfaceEnded(st: State, i: Interface, inSignal: bool)
    requires Consistent(st) && st.member.None?
    requires inSignal == if i.signals != [] then true else if i.methods != [] then false else st.inSignal
    ensures End(InInterface(st.out, i, inSignal), "interface") == After(st, i)
  {
  }

  /** Reading one printed interface adds it. */
  lemma ReadInterface(st: State, i: Interface, rest: string)
    requires Consistent(st) && st.member.None? && Printable(i)
    ensures Parse(ToXml(i) + rest, st) == Parse(rest, After(st, i))
  {
    hide MembersXml, PropertiesXml, ToXml, Line, StartTagText, EndTagText, MapOf, Parse, Start, End, InInterface, After,
      TagName, NameText, WritableAttributes, PrintableMember;
    var start := Line("  ", StartTagText("interface", [Attribute("name", i.name)], false));
    var end := Line("  ", EndTagText("interface"));
    var methods, signals, properties := MembersXml("method", i.methods), MembersXml("signal", i.signals),
        PropertiesXml(i.properties);
    InterfaceParts(i);
    InterfaceShape(start, methods, signals, properties, end, rest);
    var i0 := Interface(i.name, [], [], []);
    var i1, i2 := i0.(methods := i.methods), i0.(methods := i.methods, signals := i.signals);
    var b1 := if i.methods == [] then st.inSignal else false;
    var b2 := if i.signals == [] then b1 else true;
    InterfaceFilled(i);
    NameAttribute(i.name);
    ArgTag();
    InterfaceStarted(st, i.name);
    InterfaceEnded(st, i, b2);
    ParseStartLine("  ", "interface", [Attribute("name", i.name)], false,
                   methods + (signals + (properties + (end + rest))), st);
    ReadMembers(st.out, i0, st.inSignal, false, i.methods, signals + (properties + (end + rest)));
    ReadMembers(st.out, i1, b1, true, i.signals, properties + (end + rest));
    ReadProperties(st.out, i2, b2, i.properties, end + rest);
    ParseEndLine("  ", "interface", rest, InInterface(st.out, i, b2));
  }

  /** An interface is filled with its methods, then its signals, then its properties. */
  lemma InterfaceFilled(i: Interface)
    ensures var i0 := Interface(i.name, [], [], []);
            var i1, i2 := i0.(methods := i.methods), i0.(methods := i.methods, signals := i.signals);
            && WithMembers(i0, false, MemberList(i0, false) + i.methods) == i1
            && WithMembers(i1, true, MemberList(i1, true) + i.signals) == i2
            && i2.(properties := i2.properties + i.properties) == i
  {
  }

  lemma InterfaceShape(start: string, methods: string, signals: string, properties: string, end: string, rest: string)
    ensures start + (methods + (signals + (properties + end))) + rest
         == start + (methods + (signals + (properties + (end + rest))))
  {
  }

  function AfterAll(st: State, all: seq<Interface>): State {
    if all == [] then st else After(AfterAll(st, all[..|all| - 1]), all[|all| - 1])
  }

  lemma {:induction false} AfterAllOut(st: State, all: seq<Interface>)
    requires Consistent(st) && st.member.None?
    ensures AfterAll(st, all).out == st.out + all
    ensures AfterAll(st, all).member.None? && Consistent(AfterAll(st, all))
    decreases |all|
  {
    if all != [] {
      AfterAllOut(st, all[..|all| - 1]);
      assert all[..|all| - 1] + [all[|all| - 1]] == all;
    }
  }

  lemma {:induction false} ReadAll(st: State, all: seq<Interface>, rest: string)
    requires Consistent(st) && st.member.None?
    requires forall i :: i in all ==> Printable(i)
    ensures Consistent(AfterAll(st, all))
    ensures Parse(AllXml(all) + rest, st) == Parse(rest, AfterAll(st, all))
    decreases |all|
  {
    AfterAllOut(st, all);
    if all == [] {
      assert AllXml(all) + rest == rest;
    } else {
      var first, i := all[..|all| - 1], all[|all| - 1];
      AfterAllOut(st, first);
      assert AllXml(all) == AllXml(first) + ToXml(i);
      hide AllXml, ToXml, Parse, After, Printable;
      ReadAll(st, first, ToXml(i) + rest);
      Regroup(AllXml(first), ToXml(i), rest);
      ReadInterface(AfterAll(st, first), i, rest);
    }
  }

  /** Parsing the concatenation of printed interfaces appends exactly those interfaces. */
  lemma ParsePrinted(all: seq<Interface>, out: seq<Interface>)
    requires forall i :: i in all ==> Printable(i)
    ensures Parse(AllXml(all), State(out, false, None, false)) == Parsed(true, out + all)
  {
    var st := State(out, false, None, false);
    assert AllXml(all) + [] == AllXml(all);
    ReadAll(st, all, []);
    AfterAllOut(st, all);
    hide AllXml, AfterAll;
  }

  // ---------- printing, as it appends to a string ----------

  lemma AttributesMore(a: Attribute, more: seq<Attribute>)
    ensures AttributesText([a] + more) == AttributeText(a) + AttributesText(more)
  {
    hide AttributeText;
    assert ([a] + more)[1..] == more;
  }

  lemma OneAttributeText(a: Attribute)
    ensures AttributesText([a]) == AttributeText(a)
  {
    hide AttributeText;
    AttributesMore(a, []);
    assert [a] == [a] + [];
    assert AttributeText(a) + [] == AttributeText(a);
  }

  lemma ArgAttributesText(a: Arg, direction: Option<string>)
    ensures AttributesText(ArgAttributes(a, direction)) == AttributeText(Attribute("name", a.name))
      + (AttributeText(Attribute("type", a.kind))
      + (if direction.Some? then AttributeText(Attribute("direction", direction.value)) else []))
  {
    var n, t := Attribute("name", a.name), Attribute("type", a.kind);
    var more := if direction.Some? then [Attribute("direction", direction.value)] else [];
    assert ArgAttributes(a, direction) == [n] + ([t] + more);
    hide AttributeText;
    AttributesMore(n, [t] + more);
    AttributesMore(t, more);
    if direction.Some? {
      OneAttributeText(Attribute("direction", direction.value));
    }
  }

  method AppendArgs(xml: string, args: seq<Arg>, direction: Option<string>) returns (r: string)
    ensures r == xml + ArgsXml(args, direction)
  {
    hide Line, StartTagText, ArgAttributes;
    r := xml;
    for n := 0 to |args|
      invariant r == xml + ArgsXml(args[..n], direction)
    {
      assert args[..n + 1][..n] == args[..n];
      var line := ArgLine(args[n], direction);
      r := r + line;
    }
    assert args[..|args|] == args;
  }

  method ArgLine(a: Arg, direction: Option<string>) returns (line: string)
    ensures line == Line("      ", StartTagText("arg", ArgAttributes(a, direction), true))
  {
    ghost var name, kind := AttributeText(Attribute("name", a.name)), AttributeText(Attribute("type", a.kind));
    ghost var dir := if direction.Some? then AttributeText(Attribute("direction", direction.value)) else [];
    ArgAttributesText(a, direction);
    ArgSpelling(a, direction);
    hide AttributesText, AttributeText, ArgAttributes;
    line := "      <arg name=\"" + a.name + "\" type=\"" + a.kind + "\"";
    if direction.Some? {
      line := line + (" direction=\"" + direction.value + "\"");
    }
    line := line + "/>\n";
    TagShape("      ", ['<'] + "arg", name, kind, dir);
  }

  lemma TagShape(indent: string, open: string, a: string, b: string, c: string)
    ensures indent + (open + (a + b)) + c + "/>\n" == indent + (open + (a + (b + c)) + "/>") + ['\n']
    ensures indent + (open + (a + b)) + "/>\n" == indent + (open + (a + (b + [])) + "/>") + ['\n']
  {
    assert "/>\n" == "/>" + ['\n'];
  }

  lemma ArgSpelling(a: Arg, direction: Option<string>)
    ensures "      <arg name=\"" + a.name + "\" type=\"" + a.kind + "\""
         == "      " + (['<'] + "arg"
             + (AttributeText(Attribute("name", a.name)) + AttributeText(Attribute("type", a.kind))))
    ensures direction.Some? ==>
              " direction=\"" + direction.value + "\"" == AttributeText(Attribute("direction", direction.value))
  {
    ArgSpelled(a.name, a.kind);
    assert " direction=\"" == [' '] + "direction" + ['=', '"'];
  }

  lemma ArgSpelled(name: string, kind: string)
    ensures "      <arg name=\"" + name + "\" type=\"" + kind + "\""
         == "      " + (['<'] + "arg"
             + (AttributeText(Attribute("name", name)) + AttributeText(Attribute("type", kind))))
  {
    assert "      <arg name=\"" == "      " + (['<'] + "arg") + ([' '] + "name" + ['=', '"']);
    assert "\" type=\"" == ['"'] + ([' '] + "type" + ['=', '"']);
  }

  method AppendNamed(xml: string, indent: string, tag: string, name: string) returns (r: string)
    ensures r == xml + Line(indent, StartTagText(tag, [Attribute("name", name)], false))
  {
    OneAttributeText(Attribute("name", name));
    r := xml + (indent + "<" + tag + " name=\"" + name + "\">\n");
    assert " name=\"" == [' '] + "name" + ['=', '"'] && "\">\n" == ['"'] + ">" + ['\n'];
  }

  method PrintInterface(i: Interface) returns (xml: string)
    ensures xml == ToXml(i)
  {
    hide Line, StartTagText, EndTagText, MembersXml, PropertiesXml, ToXml;
    InterfaceParts(i);
    xml := AppendNamed([], "  ", "interface", i.name);
    ghost var start := xml;
    xml := AppendMethods(xml, i.methods);
    xml := AppendSignals(xml, i.signals);
    xml := AppendProperties(xml, i.properties);
    xml := AppendEnd(xml, "  ", "interface");
    Rightwards(start, MembersXml("method", i.methods), MembersXml("signal", i.signals), PropertiesXml(i.properties),
               Line("  ", EndTagText("interface")));
  }

  lemma Rightwards(a: string, b: string, c: string, d: string, e: string)
    ensures [] + a == a && a + b + c + d + e == a + (b + (c + (d + e)))
  {
  }

  method AppendMethods(xml: string, methods: seq<Member>) returns (r: string)
    ensures r == xml + MembersXml("method", methods)
  {
    hide MemberXml;
    r := xml;
    for n := 0 to |methods|
      invariant r == xml + MembersXml("method", methods[..n])
    {
      assert methods[..n + 1][..n] == methods[..n];
      r := AppendMethod(r, methods[n]);
    }
    assert methods[..|methods|] == methods;
  }

  method AppendSignals(xml: string, signals: seq<Member>) returns (r: string)
    ensures r == xml + MembersXml("signal", signals)
  {
    hide MemberXml;
    r := xml;
    for n := 0 to |signals|
      invariant r == xml + MembersXml("signal", signals[..n])
    {
      assert signals[..n + 1][..n] == signals[..n];
      r := AppendSignal(r, signals[n]);
    }
    assert signals[..|signals|] == signals;
  }

  method AppendProperties(xml: string, properties: seq<Property>) returns (r: string)
    ensures r == xml + PropertiesXml(properties)
  {
    hide Line, StartTagText, PropertyAttributes;
    r := xml;
    for n := 0 to |properties|
      invariant r == xml + PropertiesXml(properties[..n])
    {
      assert properties[..n + 1][..n] == properties[..n];
      r := AppendProperty(r, properties[n]);
    }
    assert properties[..|properties|] == properties;
  }

  method AppendEnd(xml: string, indent: string, tag: string) returns (r: string)
    ensures r == xml + Line(indent, EndTagText(tag))
  {
    r := xml + (indent + "</" + tag + ">\n");
    assert ">\n" == ['>'] + ['\n'];
  }

  method AppendMethod(xml: string, m: Member) returns (r: string)
    ensures r == xml + MemberXml("method", m)
  {
    hide Line, StartTagText, EndTagText, ArgsXml;
    r := AppendNamed(xml, "    ", "method", m.name);
    r := AppendArgs(r, m.ins, Some("in"));
    r := AppendArgs(r, m.outs, Some("out"));
    r := AppendEnd(r, "    ", "method");
  }

  method AppendSignal(xml: string, m: Member) returns (r: string)
    ensures r == xml + MemberXml("signal", m)
  {
    hide Line, StartTagText, EndTagText, ArgsXml;
    r := AppendNamed(xml, "    ", "signal", m.name);
    r := AppendArgs(r, m.outs, None);
    r := AppendEnd(r, "    ", "signal");
  }

  method AppendProperty(xml: string, p: Property) returns (r: string)
    ensures r == xml + Line("    ", StartTagText("property", PropertyAttributes(p), true))
  {
    var access := if p.writable then "readwrite" else "read";
    ghost var n, t, a := AttributeText(Attribute("name", p.name)), AttributeText(Attribute("type", p.kind)),
      AttributeText(Attribute("access", access));
    PropertyText(p);
    PropertySpelling(p, access);
    hide AttributesText, AttributeText, PropertyAttributes;
    var line := "    <property name=\"" + p.name + "\" type=\"" + p.kind + "\" access=\"" + access + "\"/>\n";
    assert line == "    " + (['<'] + "property" + (n + (t + a)) + "/>") + ['\n'];
    r := xml + line;
  }

  lemma PropertyText(p: Property)
    ensures AttributesText(PropertyAttributes(p)) == AttributeText(Attribute("name", p.name))
      + (AttributeText(Attribute("type", p.kind))
      + AttributeText(Attribute("access", if p.writable then "readwrite" else "read")))
  {
    var n, t, a := Attribute("name", p.name), Attribute("type", p.kind),
      Attribute("access", if p.writable then "readwrite" else "read");
    assert PropertyAttributes(p) == [n] + ([t] + [a]);
    hide AttributeText;
    AttributesMore(n, [t] + [a]);
    AttributesMore(t, [a]);
    OneAttributeText(a);
  }

  lemma PropertySpelling(p: Property, access: string)
    ensures "    <property name=\"" + p.name + "\" type=\"" + p.kind + "\" access=\"" + access + "\"/>\n"
         == "    " + (['<'] + "property" + (AttributeText(Attribute("name", p.name))
            + (AttributeText(Attribute("type", p.kind)) + AttributeText(Attribute("access", access)))) + "/>") + ['\n']
  {
    assert "    <property name=\"" == "    " + (['<'] + "property") + ([' '] + "name" + ['=', '"']);
    assert "\" type=\"" == ['"'] + ([' '] + "type" + ['=', '"']);
    assert "\" access=\"" == ['"'] + ([' '] + "access" + ['=', '"']);
    assert "\"/>\n" == ['"'] + "/>" + ['\n'];
    PropertyShape("    ", ['<'] + "property", [' '] + "name" + ['=', '"'], [' '] + "type" + ['=', '"'],
      [' '] + "access" + ['=', '"'], p.name, p.kind, access);
  }

  lemma PropertyShape(indent: string, open: string, k1: string, k2: string, k3: string, v1: string, v2: string,
                      v3: string)
    ensures (indent + open + k1) + v1 + (['"'] + k2) + v2 + (['"'] + k3) + v3 + (['"'] + "/>" + ['\n'])
         == indent + (open + ((k1 + v1 + ['"']) + ((k2 + v2 + ['"']) + (k3 + v3 + ['"']))) + "/>") + ['\n']
  {
  }
}
