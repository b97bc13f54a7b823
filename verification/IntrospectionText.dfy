/**
 Interfaces printed to a text, and the text parsed again as the C string it is:
 exactly which interfaces come back.
 */
module IntrospectionText {
  import opened Bytes
  import opened Introspection
  import opened IntrospectionXml
  import opened IntrospectionExact

  predicate Clear(s: string) {
    '\0' !in s
  }

  /** Neither a quote nor a NUL. */
  predicate Sayable(s: string) {
    Quotable(s) && Clear(s)
  }

  // ---------- what the parser makes of any text ----------

  lemma ClearRegions(text: string)
    requires Clear(text)
    ensures Covers(Clear, text) && Clear("")
  {
    forall x | Region(text, x)
      ensures Clear(x)
    {
      var pre: string, c, post: string :| (c == '"' || c == '\'') && c !in x && text == pre + [c] + x + [c] + post;
      assert forall k :: 0 <= k < |x| ==> x[k] == text[|pre| + 1 + k];
    }
  }

  /** Every string that is parsed is clear, and no signal has `in` arguments. */
  lemma ParsedClear(text: string, out: seq<Interface>)
    ensures OutIs(Clear, |out|, ParseCString(text, State(out, false, None, false)).out)
  {
    ClearRegions(UpToNul(text));
    NothingYet(Clear, out);
    hide *;
    ParseIs(Clear, |out|, UpToNul(text), State(out, false, None, false));
    ParseCStringIs(text, State(out, false, None, false));
  }

  lemma ParseCStringIs(text: string, st: State)
    requires Consistent(st)
    ensures ParseCString(text, st) == Parse(UpToNul(text), st) && (Clear(text) ==> UpToNul(text) == text)
  {
    hide Parse;
  }

  /** The parser never makes a signal with `in` arguments. */
  lemma SignalsHaveNoIns(text: string, i: Interface, s: Member)
    requires i in ParseCString(text, INITIAL).out && s in i.signals
    ensures s.ins == []
  {
    ParsedClear(text, []);
    assert InterfaceIs(Clear, i) by {
      hide ParseCString, InterfaceIs;
    }
    hide MemberIs, ParseCString;
  }

  // ---------- printed texts ----------

  lemma {:induction false} AttributesClear(attrs: seq<Attribute>)
    requires forall a :: a in attrs ==> Clear(a.key) && Clear(a.value)
    ensures Clear(AttributesText(attrs))
  {
    if attrs != [] {
      assert attrs[0] in attrs;
      AttributesClear(attrs[1..]);
    }
  }

  lemma StartClear(indent: string, tag: string, attrs: seq<Attribute>, selfClosing: bool)
    requires Clear(indent) && Clear(tag) && forall a :: a in attrs ==> Clear(a.key) && Clear(a.value)
    ensures Clear(Line(indent, StartTagText(tag, attrs, selfClosing))) && Clear(Line(indent, EndTagText(tag)))
  {
    AttributesClear(attrs);
    hide AttributesText;
  }

  lemma {:induction false} ArgsClear(args: seq<Arg>, direction: Option<string>)
    requires ArgsAre(Clear, args) && (direction.Some? ==> Clear(direction.value))
    ensures Clear(ArgsXml(args, direction))
    decreases |args|
  {
    hide Line, StartTagText;
    if args != [] {
      var a := args[|args| - 1];
      ArgsClear(args[..|args| - 1], direction);
      assert a in args;
      StartClear("      ", "arg", ArgAttributes(a, direction), true);
    }
  }

  lemma MemberClear(tag: string, m: Member)
    requires MemberIs(Clear, m) && Clear(tag)
    ensures Clear(MemberXml(tag, m))
  {
    StartClear("    ", tag, [Attribute("name", m.name)], false);
    ArgsClear(m.ins, Some("in"));
    ArgsClear(m.outs, Some("out"));
    ArgsClear(m.outs, None);
    hide Line, StartTagText, EndTagText, ArgsXml;
  }

  lemma {:induction false} MembersClear(tag: string, ms: seq<Member>)
    requires Clear(tag) && forall m :: m in ms ==> MemberIs(Clear, m)
    ensures Clear(MembersXml(tag, ms))
    decreases |ms|
  {
    hide MemberIs, MemberXml;
    if ms != [] {
      MembersClear(tag, ms[..|ms| - 1]);
      MemberClear(tag, ms[|ms| - 1]);
    }
  }

  lemma {:induction false} PropertiesClear(ps: seq<Property>)
    requires forall p :: p in ps ==> Clear(p.name) && Clear(p.kind)
    ensures Clear(PropertiesXml(ps))
    decreases |ps|
  {
    hide Line, StartTagText;
    if ps != [] {
      var p := ps[|ps| - 1];
      PropertiesClear(ps[..|ps| - 1]);
      assert p in ps;
      StartClear("    ", "property", PropertyAttributes(p), true);
    }
  }

  lemma InterfaceClear(i: Interface)
    requires InterfaceIs(Clear, i)
    ensures Clear(ToXml(i))
  {
    StartClear("  ", "interface", [Attribute("name", i.name)], false);
    MembersClear("method", i.methods);
    MembersClear("signal", i.signals);
    PropertiesClear(i.properties);
    hide Line, StartTagText, EndTagText, MembersXml, PropertiesXml, MemberIs;
  }

  lemma {:induction false} AllClear(all: seq<Interface>)
    requires forall i :: i in all ==> InterfaceIs(Clear, i)
    ensures Clear(AllXml(all))
    decreases |all|
  {
    hide InterfaceIs, ToXml;
    if all != [] {
      AllClear(all[..|all| - 1]);
      InterfaceClear(all[|all| - 1]);
    }
  }

  // ---------- exactly the sayable ones ----------

  lemma SayableIs(i: Interface)
    ensures InterfaceIs(Sayable, i) <==> Printable(i) && InterfaceIs(Clear, i)
  {
    forall m: Member
      ensures MemberIs(Sayable, m) <==> PrintableMember(m) && MemberIs(Clear, m)
    {
      hide Quotable, Clear;
    }
    hide MemberIs, PrintableMember, Quotable, Clear;
  }

  /**
   Printed interfaces come back exactly if no string in them has a quote or a NUL
   and no signal an `in` argument.
   */
  lemma RoundTripExactly(all: seq<Interface>, out: seq<Interface>)
    ensures ParseCString(AllXml(all), State(out, false, None, false)) == Parsed(true, out + all)
            <==> forall i :: i in all ==> InterfaceIs(Sayable, i)
  {
    var st := State(out, false, None, false);
    ParseCStringIs(AllXml(all), st);
    forall i: Interface {
      SayableIs(i);
    }
    hide *;
    if ParseCString(AllXml(all), st) == Parsed(true, out + all) {
      ParsedClear(AllXml(all), out);
      OutHas(Clear, out, all);
      AllClear(all);
      PrintedExactly(all, out);
    }
    if forall i :: i in all ==> InterfaceIs(Sayable, i) {
      AllClear(all);
      PrintedExactly(all, out);
    }
  }

  ghost predicate QuoteFree(i: Interface) {
    && Quotable(i.name)
    && (forall m :: m in i.methods ==> PrintableMember(m))
    && (forall s :: s in i.signals ==> PrintableMember(s))
    && (forall p :: p in i.properties ==> Quotable(p.name) && Quotable(p.kind))
  }

  lemma ClearAndQuoteFree(i: Interface)
    requires InterfaceIs(Clear, i)
    ensures QuoteFree(i) <==> InterfaceIs(Sayable, i)
  {
    SayableIs(i);
    hide PrintableMember, MemberIs, Quotable, Clear, Sayable;
  }

  /** What the parser makes of any text comes back from being printed exactly if it has no quotes. */
  lemma ParsedComesBack(text: string)
    ensures var all := ParseCString(text, INITIAL).out;
            ParseCString(AllXml(all), INITIAL) == Parsed(true, all) <==> forall i :: i in all ==> QuoteFree(i)
  {
    var all := ParseCString(text, INITIAL).out;
    ParsedClear(text, []);
    assert [] + all == all;
    OutHas(Clear, [], all);
    hide *;
    forall i | i in all
      ensures QuoteFree(i) <==> InterfaceIs(Sayable, i)
    {
      ClearAndQuoteFree(i);
    }
    RoundTripExactly(all, []);
  }

  // ---------- what does not come back ----------

  /** An interface as it is printed: a signal's `in` arguments are not. */
  function Emptied(i: Interface): Interface {
    i.(signals := seq(|i.signals|, k requires 0 <= k < |i.signals| => i.signals[k].(ins := [])))
  }

  function EmptiedAll(all: seq<Interface>): seq<Interface> {
    seq(|all|, k requires 0 <= k < |all| => Emptied(all[k]))
  }

  lemma {:induction false} SignalsXmlEmptied(ss: seq<Member>, es: seq<Member>)
    requires |es| == |ss| && forall k :: 0 <= k < |ss| ==> es[k] == ss[k].(ins := [])
    ensures MembersXml("signal", ss) == MembersXml("signal", es)
    decreases |ss|
  {
    hide ArgsXml, Line, StartTagText, EndTagText;
    if ss != [] {
      SignalsXmlEmptied(ss[..|ss| - 1], es[..|es| - 1]);
    }
  }

  lemma {:induction false} AllXmlEmptied(all: seq<Interface>)
    ensures AllXml(all) == AllXml(EmptiedAll(all))
    decreases |all|
  {
    if all != [] {
      var i := all[|all| - 1];
      AllXmlEmptied(all[..|all| - 1]);
      assert EmptiedAll(all)[..|all| - 1] == EmptiedAll(all[..|all| - 1]);
      SignalsXmlEmptied(i.signals, Emptied(i).signals);
      hide MembersXml, PropertiesXml, Line, StartTagText, EndTagText;
      assert ToXml(i) == ToXml(Emptied(i));
    }
  }

  /** Without quotes and NULs in what is printed, all comes back but the signals' `in` arguments. */
  lemma EmptiedComesBack(all: seq<Interface>, out: seq<Interface>)
    requires forall i :: i in all ==> InterfaceIs(Sayable, Emptied(i))
    ensures ParseCString(AllXml(all), State(out, false, None, false)) == Parsed(true, out + EmptiedAll(all))
  {
    AllXmlEmptied(all);
    hide InterfaceIs, AllXml, ParseCString;
    forall i | i in EmptiedAll(all)
      ensures InterfaceIs(Sayable, i)
    {
      var k :| 0 <= k < |all| && i == Emptied(all[k]);
    }
    RoundTripExactly(EmptiedAll(all), out);
  }

  const ECHO: Interface := Interface("e", [], [Member("s", [Arg("a", "i")], [])], [])

  /** A signal's `in` argument is not there any more. */
  lemma InsLost()
    ensures ParseCString(ToXml(ECHO), INITIAL) == Parsed(true, [ECHO.(signals := [Member("s", [], [])])])
  {
    hide ParseCString, ToXml, AllXml, InterfaceIs;
    EchoEmptied();
    OneText(ECHO);
    EmptiedComesBack([ECHO], []);
    assert EmptiedAll([ECHO]) == [Emptied(ECHO)];
  }

  lemma EchoEmptied()
    ensures Emptied(ECHO) == ECHO.(signals := [Member("s", [], [])]) && InterfaceIs(Sayable, Emptied(ECHO))
  {
    assert Sayable("e") && Sayable("s");
    assert Emptied(ECHO).signals == [Member("s", [], [])];
    hide Sayable;
  }

  lemma OneText(i: Interface)
    ensures AllXml([i]) == ToXml(i)
  {
    hide ToXml;
    assert [i][..0] == [];
    assert [] + ToXml(i) == ToXml(i);
  }

  const SPLIT: Interface := Interface("a\0b", [], [], [])

  /** An interface with a NUL in its name does not come back. */
  lemma NulLost()
    ensures ParseCString(ToXml(SPLIT), INITIAL) != Parsed(true, [SPLIT])
  {
    assert SPLIT.name[1] == '\0';
    assert !InterfaceIs(Sayable, SPLIT);
    hide ParseCString, ToXml, AllXml, InterfaceIs;
    OneText(SPLIT);
    RoundTripExactly([SPLIT], []);
    assert SPLIT in [SPLIT] && [] + [SPLIT] == [SPLIT];
  }

  const QUOTING: string := "<interface name='\"'/>"
  const QUOTED: Interface := Interface("\"", [], [], [])

  /** An attribute in single quotes may hold a quote; its interface is parsed, but does not come back. */
  lemma QuoteLost()
    ensures ParseCString(QUOTING, INITIAL) == Parsed(true, [QUOTED])
            && ParseCString(AllXml([QUOTED]), INITIAL) != Parsed(true, [QUOTED])
  {
    QuotingParsed();
    QuotingSays();
    ParseCStringIs(QUOTING, INITIAL);
    RoundTripExactly([QUOTED], []);
    hide *;
    assert [] + [QUOTED] == [QUOTED] && QUOTED in [QUOTED];
  }

  lemma QuotingSays()
    ensures Clear(QUOTING) && Consistent(INITIAL) && !InterfaceIs(Sayable, QUOTED)
  {
    assert QUOTED.name[0] == '"';
  }

  lemma QuotingParsed()
    ensures Parse(QUOTING, INITIAL) == Parsed(true, [QUOTED])
  {
    var rest := " name='\"'/>";
    assert QUOTING == ['<'] + ("interface" + rest);
    QuotingAttributes(rest);
    ArgTag();
    var st := Start(INITIAL, "interface", map["name" := "\""], true);
    assert st == State([QUOTED], false, None, false);
    assert Parse([], st) == Parsed(true, [QUOTED]);
    hide *;
    ParseFrom("interface" + rest, INITIAL);
    TagParsed("interface", rest, map["name" := "\""], true, [], INITIAL);
  }

  lemma TagParsed(tag: string, tail: string, attrs: map<string, string>, selfClosing: bool, rest: string, st: State)
    requires Consistent(st) && TagName(tag) && tail != [] && EndsName(tail[0])
    requires Attributes(tail, map[]) == Some(StartTag(attrs, selfClosing, rest))
    ensures ParseTag(tag + tail, st) == Parse(rest, Start(st, tag, attrs, selfClosing))
  {
    var t := tag + tail;
    NameLengthOf(tag, tail);
    assert tag[0] in tag && t[0] == tag[0];
    assert t[..|tag|] == tag && t[|tag|..] == tail;
    hide Parse, Attributes, Start, SkipPast, Consistent, NameLength;
  }

  lemma TwoTurns(s: string, key: string, value: string, more: string, rest: string)
    requires NextAttribute(s) == Read(key, value, more) && NextAttribute(more) == Closed(true, rest)
    ensures Attributes(s, map[]) == Some(StartTag(map[key := value], true, rest))
  {
    assert map[][key := value] == map[key := value];
    hide NextAttribute;
  }

  lemma QuotingAttributes(rest: string)
    requires rest == " name='\"'/>"
    ensures Attributes(rest, map[]) == Some(StartTag(map["name" := "\""], true, []))
    ensures rest != [] && EndsName(rest[0]) && Consistent(INITIAL)
  {
    var quoted := "'\"'/>";
    QuotingParts(rest, quoted);
    KeyNames();
    QuotingValue();
    CloseAtEnd();
    hide *;
    ReadKey("name", quoted);
    TwoTurns(rest, "name", "\"", "/>", []);
  }

  lemma QuotingParts(rest: string, quoted: string)
    requires rest == " name='\"'/>" && quoted == "'\"'/>"
    ensures rest == [' '] + ("name" + (['='] + quoted)) && !IsSpace(quoted[0]) && EndsName(rest[0])
            && Consistent(INITIAL)
  {
  }

  lemma CloseAtEnd()
    ensures NextAttribute("/>") == Closed(true, [])
  {
    ReadClose(true, []);
    assert "/>" + [] == "/>";
    hide NextAttribute;
  }

  lemma QuotingValue()
    ensures AttributeValue("name", "'\"'/>") == Read("name", "\"", "/>")
  {
    var s := "'\"'/>";
    assert s[1..] == "\"'/>" && s[1..][1..] == "'/>";
    assert IndexOf("'/>", '\'') == Some(0);
    assert IndexOf(s[1..], '\'') == Some(1);
    assert s[1..][..1] == "\"" && s[1..][2..] == "/>";
  }
}
