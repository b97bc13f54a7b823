/**
 Exactly which interfaces are parsed back from their printed text: those without
 `"` in their strings and without `in` arguments of signals.
 */
module IntrospectionExact {
  import opened Bytes
  import opened Introspection
  import opened IntrospectionXml

  // ---------- what can be said of all strings the parser records ----------

  ghost predicate ArgsAre(P: string -> bool, args: seq<Arg>) {
    forall a :: a in args ==> P(a.name) && P(a.kind)
  }

  ghost predicate MemberIs(P: string -> bool, m: Member) {
    P(m.name) && ArgsAre(P, m.ins) && ArgsAre(P, m.outs)
  }

  ghost predicate InterfaceIs(P: string -> bool, i: Interface) {
    && P(i.name)
    && (forall m :: m in i.methods ==> MemberIs(P, m))
    && (forall s :: s in i.signals ==> MemberIs(P, s) && s.ins == [])
    && (forall p :: p in i.properties ==> P(p.name) && P(p.kind))
  }

  lemma PrintableIs(i: Interface)
    ensures InterfaceIs(Quotable, i) <==> Printable(i)
  {
    forall m: Member
      ensures MemberIs(Quotable, m) <==> PrintableMember(m)
    {
      hide Quotable;
    }
    hide MemberIs, PrintableMember, Quotable;
  }

  /** So it is of all interfaces from the nth on, and nothing points to an earlier one. */
  ghost predicate StateIs(P: string -> bool, n: nat, st: State) {
    && Consistent(st) && n <= |st.out|
    && (st.open ==> n < |st.out|)
    && (st.member.Some? ==> n <= st.member.value.iface)
    && forall k :: n <= k < |st.out| ==> InterfaceIs(P, st.out[k])
  }

  ghost predicate MapIs(P: string -> bool, attrs: map<string, string>) {
    forall key :: key in attrs ==> P(attrs[key])
  }

  lemma AttrIs(P: string -> bool, attrs: map<string, string>, key: string)
    requires MapIs(P, attrs) && P("")
    ensures P(Attr(attrs, key))
  {
  }

  lemma StartInterfaceIs(P: string -> bool, n: nat, st: State, name: string, selfClosing: bool)
    requires StateIs(P, n, st) && P(name)
    ensures StateIs(P, n, StartInterface(st, name, selfClosing))
  {
    NewInterfaceIs(P, name);
    hide InterfaceIs;
  }

  lemma NewInterfaceIs(P: string -> bool, name: string)
    requires P(name)
    ensures InterfaceIs(P, Interface(name, [], [], []))
  {
  }

  lemma StartMemberIs(P: string -> bool, n: nat, st: State, signal: bool, name: string, selfClosing: bool)
    requires StateIs(P, n, st) && st.open && P(name)
    ensures StateIs(P, n, StartMember(st, signal, name, selfClosing))
  {
    hide InterfaceIs;
    MemberAddedIs(P, st.out[|st.out| - 1], signal, name);
  }

  lemma PropertyAddedIs(P: string -> bool, i: Interface, p: Property)
    requires InterfaceIs(P, i) && P(p.name) && P(p.kind)
    ensures InterfaceIs(P, i.(properties := i.properties + [p]))
  {
    hide MemberIs;
  }

  lemma AddPropertyIs(P: string -> bool, n: nat, st: State, p: Property)
    requires StateIs(P, n, st) && st.open && P(p.name) && P(p.kind)
    ensures StateIs(P, n, AddProperty(st, p))
  {
    hide InterfaceIs;
    PropertyAddedIs(P, st.out[|st.out| - 1], p);
  }

  lemma AddArgIs(P: string -> bool, n: nat, st: State, isIn: bool, a: Arg)
    requires StateIs(P, n, st) && st.member.Some? && P(a.name) && P(a.kind) && (st.inSignal ==> !isIn)
    ensures StateIs(P, n, AddArg(st, isIn, a))
  {
    hide InterfaceIs, WithArg;
    var r := st.member.value;
    ArgAddedIs(P, st.out[r.iface], st.inSignal, r.index, isIn, a);
  }

  lemma StartIs(P: string -> bool, n: nat, st: State, tag: string, attrs: map<string, string>, selfClosing: bool)
    requires StateIs(P, n, st) && MapIs(P, attrs) && P("")
    ensures StateIs(P, n, Start(st, tag, attrs, selfClosing))
  {
    hide StateIs, MapIs, Attr, StartInterface, StartMember, AddProperty, AddArg;
    var name, kind := Attr(attrs, "name"), Attr(attrs, "type");
    AttrIs(P, attrs, "name");
    AttrIs(P, attrs, "type");
    StateConsistent(P, n, st);
    if tag == "interface" {
      StartInterfaceIs(P, n, st, name, selfClosing);
    } else if st.open && (tag == "method" || tag == "signal") {
      StartMemberIs(P, n, st, tag == "signal", name, selfClosing);
    } else if st.open && tag == "property" {
      AddPropertyIs(P, n, st, Property(name, kind, Attr(attrs, "access") == "readwrite"));
    } else if st.member.Some? && tag == "arg" {
      AddArgIs(P, n, st, !st.inSignal && Attr(attrs, "direction") != "out", Arg(name, kind));
    }
  }

  lemma StateConsistent(P: string -> bool, n: nat, st: State)
    requires StateIs(P, n, st)
    ensures Consistent(st)
  {
  }

  lemma MemberAddedIs(P: string -> bool, i: Interface, signal: bool, name: string)
    requires InterfaceIs(P, i) && P(name)
    ensures InterfaceIs(P, WithMembers(i, signal, MemberList(i, signal) + [Member(name, [], [])]))
  {
    assert MemberIs(P, Member(name, [], []));
    hide MemberIs;
  }

  lemma ArgAddedIs(P: string -> bool, i: Interface, signal: bool, k: nat, isIn: bool, a: Arg)
    requires InterfaceIs(P, i) && P(a.name) && P(a.kind) && k < |MemberList(i, signal)| && (signal ==> !isIn)
    ensures InterfaceIs(P,
                        WithMembers(i, signal, MemberList(i, signal)[k := WithArg(MemberList(i, signal)[k], isIn, a)]))
  {
    var m := MemberList(i, signal)[k];
    assert MemberIs(P, m);
    assert MemberIs(P, WithArg(m, isIn, a));
    hide MemberIs;
  }

  lemma EndIs(P: string -> bool, n: nat, st: State, tag: string)
    requires StateIs(P, n, st)
    ensures StateIs(P, n, End(st, tag))
  {
    hide InterfaceIs;
  }

  // ---------- every recorded string stands between quotes in the text ----------

  ghost predicate Region(text: string, x: string) {
    exists pre: string, c, post: string ::
      (c == '"' || c == '\'') && c !in x && text == pre + [c] + x + [c] + post
  }

  ghost predicate Covers(P: string -> bool, text: string) {
    forall x :: Region(text, x) ==> P(x)
  }

  predicate Suffix(t: string, s: string) {
    |t| <= |s| && t == s[|s| - |t|..]
  }

  lemma CoversSuffix(P: string -> bool, s: string, t: string)
    requires Covers(P, s) && Suffix(t, s)
    ensures Covers(P, t)
  {
    forall x | Region(t, x)
      ensures P(x)
    {
      var pre: string, c, post: string :| (c == '"' || c == '\'') && c !in x && t == pre + [c] + x + [c] + post;
      assert s == (s[..|s| - |t|] + pre) + [c] + x + [c] + post;
      assert Region(s, x);
    }
  }

  lemma SuffixTwice(s: string, t: string, u: string)
    requires Suffix(t, s) && Suffix(u, t)
    ensures Suffix(u, s)
  {
  }

  lemma {:induction false} SkipPastSuffix(s: string, end: string)
    ensures SkipPast(s, end).Some? ==> Suffix(SkipPast(s, end).value, s)
  {
    if !(end <= s) && s != [] {
      SkipPastSuffix(s[1..], end);
    }
  }

  lemma {:induction false} SkipSpaceSuffix(s: string)
    ensures Suffix(SkipSpace(s), s)
  {
    if s != [] && IsSpace(s[0]) {
      SkipSpaceSuffix(s[1..]);
    }
  }

  lemma ValueRegion(P: string -> bool, key: string, s: string)
    requires Covers(P, s)
    ensures var r := AttributeValue(key, s); r.Read? ==> P(r.value) && Suffix(r.rest, s)
  {
    var r := AttributeValue(key, s);
    if r.Read? {
      var e := IndexOf(s[1..], s[0]).value;
      assert s == [] + [s[0]] + r.value + [s[0]] + r.rest;
      assert Region(s, r.value);
    }
  }

  lemma NextAttributeIs(P: string -> bool, s: string)
    requires Covers(P, s)
    ensures var r := NextAttribute(s);
            (r.Read? ==> P(r.value) && Suffix(r.rest, s)) && (r.Closed? ==> Suffix(r.rest, s))
  {
    var key, quoted := AttributeParts(s);
    hide NextAttribute, Covers, AttributeValue;
    var r := NextAttribute(s);
    if r.Read? {
      CoversSuffix(P, s, quoted);
      ValueRegion(P, key, quoted);
      SuffixTwice(s, quoted, r.rest);
    }
  }

  /** Where the value of the next attribute starts. */
  lemma AttributeParts(s: string) returns (key: string, quoted: string)
    ensures var r := NextAttribute(s);
            (r.Closed? ==> Suffix(r.rest, s)) && (r.Read? ==> Suffix(quoted, s) && r == AttributeValue(key, quoted))
  {
    var s1 := SkipSpace(s);
    SkipSpaceSuffix(s);
    key, quoted := "", "";
    if ">" <= s1 {
      SuffixTwice(s, s1, s1[1..]);
      hide Suffix, SkipSpace;
    } else if "/>" <= s1 {
      SuffixTwice(s, s1, s1[2..]);
      hide Suffix, SkipSpace;
    } else {
      var n := NameLength(s1);
      var s2 := SkipSpace(s1[n..]);
      if s2 != [] {
        key, quoted := s1[..n], SkipSpace(s2[1..]);
        ValueSuffix(s, s1, n);
      }
      hide Suffix, SkipSpace, NameLength, AttributeValue;
    }
  }

  lemma RestIsSuffix(s: string, n: nat)
    requires n <= |s|
    ensures Suffix(s[n..], s)
  {
  }

  lemma ValueSuffix(s: string, s1: string, n: nat)
    requires Suffix(s1, s) && n <= |s1| && SkipSpace(s1[n..]) != []
    ensures Suffix(SkipSpace(SkipSpace(s1[n..])[1..]), s)
  {
    var s2 := SkipSpace(s1[n..]);
    SkipSpaceSuffix(s1[n..]);
    SkipSpaceSuffix(s2[1..]);
    RestIsSuffix(s1, n);
    RestIsSuffix(s2, 1);
    hide Suffix, SkipSpace;
    SuffixTwice(s, s1, s1[n..]);
    SuffixTwice(s, s1[n..], s2);
    SuffixTwice(s, s2, s2[1..]);
    SuffixTwice(s, s2[1..], SkipSpace(s2[1..]));
  }

  lemma {:induction false} AttributesAre(P: string -> bool, s: string, attrs: map<string, string>)
    requires Covers(P, s) && MapIs(P, attrs)
    ensures var r := Attributes(s, attrs); r.Some? ==> MapIs(P, r.value.attrs) && Suffix(r.value.rest, s)
    decreases |s|
  {
    NextAttributeIs(P, s);
    hide NextAttribute, Covers;
    var r := NextAttribute(s);
    if r.Read? {
      CoversSuffix(P, s, r.rest);
      AttributesAre(P, r.rest, attrs[r.key := r.value]);
    }
  }

  ghost predicate OutIs(P: string -> bool, n: nat, out: seq<Interface>) {
    n <= |out| && forall k :: n <= k < |out| ==> InterfaceIs(P, out[k])
  }

  /** Whatever is true of the empty string and of all quoted parts of a text is true of all strings parsed from it. */
  lemma {:induction false} ParseIs(P: string -> bool, n: nat, s: string, st: State)
    requires StateIs(P, n, st) && Covers(P, s) && P("")
    ensures OutIs(P, n, Parse(s, st).out)
    decreases |s|
  {
    SkipPastShrinks(s, "<");
    SkipPastSuffix(s, "<");
    hide InterfaceIs, Covers, SkipPast, ParseTag;
    var t := SkipPast(s, "<");
    if t.Some? {
      CoversSuffix(P, s, t.value);
      ParseTagIs(P, n, t.value, st);
    }
  }

  lemma {:induction false} ParseTagIs(P: string -> bool, n: nat, t: string, st: State)
    requires StateIs(P, n, st) && Covers(P, t) && P("")
    ensures OutIs(P, n, ParseTag(t, st).out)
    decreases |t|, 1
  {
    if "!--" <= t || (t != [] && (t[0] == '?' || t[0] == '!')) {
      var end := if "!--" <= t then "-->" else ">";
      SkipPastShrinks(t, end);
      SkipPastSuffix(t, end);
      hide InterfaceIs, Covers, SkipPast, Parse;
      var rest := SkipPast(t, end);
      if rest.Some? {
        CoversSuffix(P, t, rest.value);
        ParseIs(P, n, rest.value, st);
      }
    } else if t != [] && t[0] == '/' {
      hide InterfaceIs, Covers;
      ParseEndIs(P, n, t, st);
    } else {
      hide InterfaceIs, Covers;
      ParseStartIs(P, n, t, st);
    }
  }

  lemma {:induction false} ParseEndIs(P: string -> bool, n: nat, t: string, st: State)
    requires StateIs(P, n, st) && Covers(P, t) && P("") && t != [] && t[0] == '/'
    ensures OutIs(P, n, ParseTag(t, st).out)
    decreases |t|, 0
  {
    var k := NameLength(t[1..]);
    var ended := End(st, t[1..][..k]);
    var rest := SkipPast(t[1 + k..], ">");
    EndIs(P, n, st, t[1..][..k]);
    EndTagIs(P, t, k);
    hide InterfaceIs, Covers, SkipPast, Parse, End, NameLength, Consistent;
    if rest.Some? {
      hide StateIs;
      ParseIs(P, n, rest.value, ended);
    }
  }

  lemma EndTagIs(P: string -> bool, t: string, k: nat)
    requires Covers(P, t) && 1 + k <= |t|
    ensures var rest := SkipPast(t[1 + k..], ">"); rest.Some? ==> Covers(P, rest.value) && |rest.value| < |t|
  {
    var rest := SkipPast(t[1 + k..], ">");
    SkipPastShrinks(t[1 + k..], ">");
    SkipPastSuffix(t[1 + k..], ">");
    hide SkipPast, Covers;
    if rest.Some? {
      CoversSuffix(P, t, rest.value);
    }
  }

  lemma StartTagIs(P: string -> bool, t: string, k: nat)
    requires Covers(P, t) && k <= |t|
    ensures var a := Attributes(t[k..], map[]);
            a.Some? ==> MapIs(P, a.value.attrs) && Covers(P, a.value.rest) && |a.value.rest| < |t|
  {
    CoversSuffix(P, t, t[k..]);
    AttributesAre(P, t[k..], map[]);
    var a := Attributes(t[k..], map[]);
    hide Attributes, Covers;
    if a.Some? {
      CoversSuffix(P, t[k..], a.value.rest);
    }
  }

  lemma {:induction false} ParseStartIs(P: string -> bool, n: nat, t: string, st: State)
    requires StateIs(P, n, st) && Covers(P, t) && P("")
    requires !("!--" <= t) && (t != [] ==> t[0] != '?' && t[0] != '!' && t[0] != '/')
    ensures OutIs(P, n, ParseTag(t, st).out)
    decreases |t|, 0
  {
    var k := NameLength(t);
    var a := Attributes(t[k..], map[]);
    StartTagIs(P, t, k);
    hide InterfaceIs, Covers, Attributes, Parse, Start, NameLength, MapIs, Suffix, Consistent;
    if a.Some? {
      StartIs(P, n, st, t[..k], a.value.attrs, a.value.selfClosing);
      hide StateIs;
      ParseIs(P, n, a.value.rest, Start(st, t[..k], a.value.attrs, a.value.selfClosing));
    }
  }

  const INITIAL: State := State([], false, None, false)

  // ---------- the printed text as tokens ----------

  datatype Token =
    | Blank(text: string)
    | Open(tag: string)
    | Space
    | Pair(a: Attribute)
    | Shut(selfClosing: bool)
    | Close(tag: string)

  function PairText(a: Attribute): string {
    a.key + ['=', '"'] + a.value + ['"']
  }

  function TokenText(t: Token): string {
    match t
    case Blank(text) => text
    case Open(tag) => ['<'] + tag + [' ']
    case Space => [' ']
    case Pair(a) => PairText(a)
    case Shut(selfClosing) => if selfClosing then "/>" else ">"
    case Close(tag) => EndTagText(tag)
  }

  function TokensText(ts: seq<Token>): string {
    if ts == [] then [] else TokenText(ts[0]) + TokensText(ts[1..])
  }

  lemma {:induction false} TokensJoin(xs: seq<Token>, ys: seq<Token>)
    ensures TokensText(xs + ys) == TokensText(xs) + TokensText(ys)
  {
    hide TokenText;
    if xs == [] {
      assert xs + ys == ys;
    } else {
      assert (xs + ys)[1..] == xs[1..] + ys;
      TokensJoin(xs[1..], ys);
    }
  }

  predicate Plain(s: string) {
    '\'' !in s
  }

  /** Whether a token may stand here, inside a start tag or outside of one. */
  predicate Right(inside: bool, t: Token) {
    match t
    case Blank(text) => !inside && '<' !in text && Plain(text)
    case Open(tag) => !inside && TagName(tag) && Plain(tag)
    case Space => inside
    case Pair(a) => inside && NameText(a.key) && Plain(a.key)
    case Shut(_) => inside
    case Close(tag) => !inside && NameText(tag) && Plain(tag)
  }

  predicate InsideAfter(inside: bool, t: Token) {
    t.Open? || (inside && !t.Shut?)
  }

  predicate Proper(inside: bool, ts: seq<Token>)
    decreases ts
  {
    if ts == [] then true else Right(inside, ts[0]) && Proper(InsideAfter(inside, ts[0]), ts[1..])
  }

  /** Inside a start tag after these tokens? */
  predicate Ends(inside: bool, ts: seq<Token>)
    decreases ts
  {
    if ts == [] then inside else Ends(InsideAfter(inside, ts[0]), ts[1..])
  }

  lemma OneMoreToken(inside: bool, t: Token, ts: seq<Token>)
    ensures TokensText([t] + ts) == TokenText(t) + TokensText(ts)
    ensures Proper(inside, [t] + ts) <==> Right(inside, t) && Proper(InsideAfter(inside, t), ts)
    ensures Ends(inside, [t] + ts) <==> Ends(InsideAfter(inside, t), ts)
  {
    assert ([t] + ts)[1..] == ts;
    hide Right, InsideAfter, TokenText;
  }

  /** Three tokens, one after the other. */
  lemma ThreeTokens(inside: bool, t: Token, u: Token, v: Token)
    ensures TokensText([t, u, v]) == TokenText(t) + (TokenText(u) + (TokenText(v) + []))
    ensures Proper(inside, [t, u, v]) <==>
              Right(inside, t) && Right(InsideAfter(inside, t), u) && Right(InsideAfter(InsideAfter(inside, t), u), v)
    ensures Ends(inside, [t, u, v]) == InsideAfter(InsideAfter(InsideAfter(inside, t), u), v)
  {
    var i1 := InsideAfter(inside, t);
    var i2 := InsideAfter(i1, u);
    assert [t, u, v] == [t] + ([u] + ([v] + []));
    hide Right, InsideAfter, TokenText;
    OneMoreToken(inside, t, [u] + ([v] + []));
    OneMoreToken(i1, u, [v] + []);
    OneMoreToken(i2, v, []);
  }

  lemma PairOfTokens(inside: bool, t: Token, u: Token)
    ensures TokensText([t, u]) == TokenText(t) + (TokenText(u) + [])
    ensures Proper(inside, [t, u]) <==> Right(inside, t) && Right(InsideAfter(inside, t), u)
    ensures Ends(inside, [t, u]) == InsideAfter(InsideAfter(inside, t), u)
  {
    assert [t, u] == [t] + ([u] + []);
    hide Right, InsideAfter, TokenText;
    OneMoreToken(inside, t, [u] + []);
    OneMoreToken(InsideAfter(inside, t), u, []);
  }

  lemma {:induction false} ProperJoin(inside: bool, xs: seq<Token>, ys: seq<Token>)
    requires Proper(inside, xs) && Proper(Ends(inside, xs), ys)
    ensures Proper(inside, xs + ys) && Ends(inside, xs + ys) == Ends(Ends(inside, xs), ys)
    decreases |xs|
  {
    hide Right;
    if xs == [] {
      assert xs + ys == ys;
    } else {
      assert (xs + ys)[1..] == xs[1..] + ys && (xs + ys)[0] == xs[0];
      ProperJoin(InsideAfter(inside, xs[0]), xs[1..], ys);
    }
  }

  /** What is said of the values of all attributes. */
  ghost predicate PairsAre(P: string -> bool, ts: seq<Token>) {
    forall t :: t in ts && t.Pair? ==> P(t.a.value)
  }

  /** Tokens that stand by themselves, spell a text, and of whose values something is true. */
  ghost predicate Spell(P: string -> bool, ts: seq<Token>, text: string) {
    TokensText(ts) == text && Proper(false, ts) && !Ends(false, ts) && PairsAre(P, ts)
  }

  lemma SpellJoin(P: string -> bool, xs: seq<Token>, x: string, ys: seq<Token>, y: string)
    requires Spell(P, xs, x) && Spell(P, ys, y)
    ensures Spell(P, xs + ys, x + y)
  {
    TokensJoin(xs, ys);
    ProperJoin(false, xs, ys);
    hide TokensText, Proper, Ends;
  }

  function MorePairs(attrs: seq<Attribute>): seq<Token> {
    if attrs == [] then [] else [Space, Pair(attrs[0])] + MorePairs(attrs[1..])
  }

  lemma {:induction false} MorePairsAre(P: string -> bool, attrs: seq<Attribute>)
    requires forall a :: a in attrs ==> NameText(a.key) && Plain(a.key) && P(a.value)
    ensures var ts := MorePairs(attrs);
            TokensText(ts) == AttributesText(attrs) && Proper(true, ts) && Ends(true, ts) && PairsAre(P, ts)
  {
    if attrs != [] {
      MorePairsAre(P, attrs[1..]);
      TwoTokens(attrs[0]);
      var two := [Space, Pair(attrs[0])];
      TokensJoin(two, MorePairs(attrs[1..]));
      assert attrs[0] in attrs;
      hide NameText, TokenText, AttributeText, Plain, TokensText, Proper, Ends;
      ProperJoin(true, two, MorePairs(attrs[1..]));
    }
  }

  lemma TwoTokens(a: Attribute)
    ensures var two := [Space, Pair(a)];
            TokensText(two) == AttributeText(a)
              && (NameText(a.key) && Plain(a.key) ==> Proper(true, two) && Ends(true, two))
  {
    PairOfTokens(true, Space, Pair(a));
    hide NameText, Plain, TokensText, Proper, Ends;
    assert [' '] + (PairText(a) + []) == AttributeText(a);
  }

  function StartLine(indent: string, tag: string, attrs: seq<Attribute>, selfClosing: bool): seq<Token>
    requires attrs != []
  {
    [Blank(indent), Open(tag), Pair(attrs[0])] + MorePairs(attrs[1..]) + [Shut(selfClosing), Blank("\n")]
  }

  lemma StartLineSpells(P: string -> bool, indent: string, tag: string, attrs: seq<Attribute>, selfClosing: bool)
    requires attrs != [] && Margin(indent) && TagName(tag) && Plain(tag)
    requires forall a :: a in attrs ==> NameText(a.key) && Plain(a.key) && P(a.value)
    ensures Spell(P, StartLine(indent, tag, attrs, selfClosing), Line(indent, StartTagText(tag, attrs, selfClosing)))
  {
    var a, more := attrs[0], attrs[1..];
    var head, tail := [Blank(indent), Open(tag), Pair(a)], [Shut(selfClosing), Blank("\n")];
    var close := if selfClosing then "/>" else ">";
    HeadText(indent, tag, a);
    PairOfTokens(true, Shut(selfClosing), Blank("\n"));
    assert Right(false, Blank("\n"));
    assert TokensText(tail) == close + (['\n'] + []);
    assert Proper(true, tail) && !Ends(true, tail);
    assert a in attrs;
    HeadProper(indent, tag, a);
    MorePairsAre(P, more);
    TokensJoin(head, MorePairs(more));
    TokensJoin(head + MorePairs(more), tail);
    hide NameText, TagName, TokensText, Proper, Ends, MorePairs, TokenText, Right, AttributeText, PairText, Plain;
    ProperJoin(false, head, MorePairs(more));
    ProperJoin(false, head + MorePairs(more), tail);
    assert AttributesText(attrs) == AttributeText(a) + AttributesText(more);
    hide AttributesText;
    assert PairsAre(P, StartLine(indent, tag, attrs, selfClosing));
    StartShape(indent, ['<'] + tag, AttributeText(a), AttributesText(more), close);
  }

  predicate Margin(indent: string) {
    '<' !in indent && Plain(indent)
  }

  lemma HeadText(indent: string, tag: string, a: Attribute)
    ensures TokensText([Blank(indent), Open(tag), Pair(a)]) == indent + (['<'] + tag + AttributeText(a))
  {
    ThreeTokens(false, Blank(indent), Open(tag), Pair(a));
    hide TokensText;
    assert [' '] + PairText(a) == AttributeText(a);
  }

  lemma HeadProper(indent: string, tag: string, a: Attribute)
    requires Margin(indent) && TagName(tag) && Plain(tag) && NameText(a.key) && Plain(a.key)
    ensures var head := [Blank(indent), Open(tag), Pair(a)]; Proper(false, head) && Ends(false, head)
  {
    ThreeTokens(false, Blank(indent), Open(tag), Pair(a));
    hide NameText, TagName, Plain, Proper, Ends;
  }

  lemma StartShape(indent: string, open: string, a: string, more: string, close: string)
    ensures indent + (open + a) + more + (close + (['\n'] + [])) == indent + (open + (a + more) + close) + ['\n']
  {
  }

  function EndLine(indent: string, tag: string): seq<Token> {
    [Blank(indent), Close(tag), Blank("\n")]
  }

  lemma EndLineSpells(P: string -> bool, indent: string, tag: string)
    requires Margin(indent) && NameText(tag) && Plain(tag)
    ensures Spell(P, EndLine(indent, tag), Line(indent, EndTagText(tag)))
  {
    assert Plain("\n");
    hide NameText, Plain, EndTagText;
    ThreeTokens(false, Blank(indent), Close(tag), Blank("\n"));
    hide TokensText, Proper, Ends;
    LineShape(indent, EndTagText(tag));
  }

  lemma LineShape(indent: string, text: string)
    ensures indent + (text + (['\n'] + [])) == indent + text + ['\n']
  {
  }

  // ---------- the tokens of interfaces ----------

  /** The values printed that are no strings of the interface. */
  ghost predicate Fixed(P: string -> bool) {
    P("in") && P("out") && P("read") && P("readwrite")
  }

  lemma KeysPlain()
    ensures Plain("name") && Plain("type") && Plain("direction") && Plain("access") && Plain("arg") && Plain("method")
            && Plain("signal") && Plain("property") && Plain("interface")
    ensures Margin("  ") && Margin("    ") && Margin("      ")
  {
  }

  function ArgsTokens(args: seq<Arg>, direction: Option<string>): seq<Token> {
    if args == [] then []
    else
      ArgsTokens(args[..|args| - 1], direction)
      + StartLine("      ", "arg", ArgAttributes(args[|args| - 1], direction), true)
  }

  lemma SpellNothing(P: string -> bool)
    ensures Spell(P, [], [])
  {
  }

  lemma {:induction false} ArgsSpell(P: string -> bool, args: seq<Arg>, direction: Option<string>)
    requires ArgsAre(P, args) && (direction.Some? ==> P(direction.value))
    ensures Spell(P, ArgsTokens(args, direction), ArgsXml(args, direction))
    decreases |args|
  {
    hide NameText, TagName, Plain, Spell, Line, StartTagText, StartLine;
    if args == [] {
      SpellNothing(P);
    } else {
      var a := args[|args| - 1];
      ArgsSpell(P, args[..|args| - 1], direction);
      KeyNames();
      KeysPlain();
      ArgTag();
      StartLineSpells(P, "      ", "arg", ArgAttributes(a, direction), true);
      SpellJoin(P, ArgsTokens(args[..|args| - 1], direction), ArgsXml(args[..|args| - 1], direction),
                StartLine("      ", "arg", ArgAttributes(a, direction), true),
                Line("      ", StartTagText("arg", ArgAttributes(a, direction), true)));
    }
  }

  function MemberTokens(tag: string, m: Member): seq<Token> {
    StartLine("    ", tag, [Attribute("name", m.name)], false)
    + (if tag == "method" then ArgsTokens(m.ins, Some("in")) + ArgsTokens(m.outs, Some("out"))
        else ArgsTokens(m.outs, None))
    + EndLine("    ", tag)
  }

  lemma MemberSpells(P: string -> bool, tag: string, m: Member)
    requires MemberIs(P, m) && Fixed(P) && (tag == "method" || tag == "signal")
    ensures Spell(P, MemberTokens(tag, m), MemberXml(tag, m))
  {
    KeyNames();
    KeysPlain();
    ArgTag();
    var name := [Attribute("name", m.name)];
    hide NameText, TagName, Plain, Spell, Line, StartTagText, EndTagText, StartLine, EndLine, ArgsTokens, ArgsXml;
    StartLineSpells(P, "    ", tag, name, false);
    EndLineSpells(P, "    ", tag);
    ArgsSpell(P, m.ins, Some("in"));
    ArgsSpell(P, m.outs, Some("out"));
    ArgsSpell(P, m.outs, None);
    SpellJoin(P, ArgsTokens(m.ins, Some("in")), ArgsXml(m.ins, Some("in")), ArgsTokens(m.outs, Some("out")),
              ArgsXml(m.outs, Some("out")));
    var args := if tag == "method" then ArgsTokens(m.ins, Some("in")) + ArgsTokens(m.outs, Some("out"))
        else ArgsTokens(m.outs, None);
    var text := if tag == "method" then ArgsXml(m.ins, Some("in")) + ArgsXml(m.outs, Some("out"))
        else ArgsXml(m.outs, None);
    SpellJoin(P, StartLine("    ", tag, name, false), Line("    ", StartTagText(tag, name, false)), args, text);
    SpellJoin(P, StartLine("    ", tag, name, false) + args, Line("    ", StartTagText(tag, name, false)) + text,
              EndLine("    ", tag), Line("    ", EndTagText(tag)));
  }

  function MembersTokens(tag: string, ms: seq<Member>): seq<Token> {
    if ms == [] then [] else MembersTokens(tag, ms[..|ms| - 1]) + MemberTokens(tag, ms[|ms| - 1])
  }

  lemma {:induction false} MembersSpell(P: string -> bool, tag: string, ms: seq<Member>)
    requires Fixed(P) && (tag == "method" || tag == "signal") && forall m :: m in ms ==> MemberIs(P, m)
    ensures Spell(P, MembersTokens(tag, ms), MembersXml(tag, ms))
    decreases |ms|
  {
    if ms == [] {
      SpellNothing(P);
      hide Spell;
    } else {
      hide MemberIs, Spell, MemberTokens, MemberXml;
      MembersSpell(P, tag, ms[..|ms| - 1]);
      MemberSpells(P, tag, ms[|ms| - 1]);
      SpellJoin(P, MembersTokens(tag, ms[..|ms| - 1]), MembersXml(tag, ms[..|ms| - 1]),
                MemberTokens(tag, ms[|ms| - 1]), MemberXml(tag, ms[|ms| - 1]));
    }
  }

  function PropertiesTokens(ps: seq<Property>): seq<Token> {
    if ps == [] then []
    else PropertiesTokens(ps[..|ps| - 1]) + StartLine("    ", "property", PropertyAttributes(ps[|ps| - 1]), true)
  }

  lemma {:induction false} PropertiesSpell(P: string -> bool, ps: seq<Property>)
    requires Fixed(P) && forall p :: p in ps ==> P(p.name) && P(p.kind)
    ensures Spell(P, PropertiesTokens(ps), PropertiesXml(ps))
    decreases |ps|
  {
    hide NameText, TagName, Plain, Spell, Line, StartTagText, StartLine;
    if ps == [] {
      SpellNothing(P);
    } else {
      var p := ps[|ps| - 1];
      PropertiesSpell(P, ps[..|ps| - 1]);
      KeyNames();
      KeysPlain();
      ArgTag();
      StartLineSpells(P, "    ", "property", PropertyAttributes(p), true);
      SpellJoin(P, PropertiesTokens(ps[..|ps| - 1]), PropertiesXml(ps[..|ps| - 1]),
                StartLine("    ", "property", PropertyAttributes(p), true),
                Line("    ", StartTagText("property", PropertyAttributes(p), true)));
    }
  }

  function InterfaceTokens(i: Interface): seq<Token> {
    StartLine("  ", "interface", [Attribute("name", i.name)], false)
    + (MembersTokens("method", i.methods) + (MembersTokens("signal", i.signals) + (PropertiesTokens(i.properties)
    + EndLine("  ", "interface"))))
  }

  lemma InterfaceSpells(P: string -> bool, i: Interface)
    requires InterfaceIs(P, i) && Fixed(P)
    ensures Spell(P, InterfaceTokens(i), ToXml(i))
  {
    KeyNames();
    KeysPlain();
    ArgTag();
    hide NameText, TagName, Plain, Spell, Line, StartTagText, EndTagText, StartLine, EndLine, MemberIs, MembersTokens,
      MembersXml,
      PropertiesTokens, PropertiesXml;
    var start, end := StartLine("  ", "interface", [Attribute("name", i.name)], false), EndLine("  ", "interface");
    var startText := Line("  ", StartTagText("interface", [Attribute("name", i.name)], false));
    var endText := Line("  ", EndTagText("interface"));
    StartLineSpells(P, "  ", "interface", [Attribute("name", i.name)], false);
    EndLineSpells(P, "  ", "interface");
    MembersSpell(P, "method", i.methods);
    MembersSpell(P, "signal", i.signals);
    PropertiesSpell(P, i.properties);
    SpellJoin(P, PropertiesTokens(i.properties), PropertiesXml(i.properties), end, endText);
    SpellJoin(P, MembersTokens("signal", i.signals), MembersXml("signal", i.signals),
              PropertiesTokens(i.properties) + end, PropertiesXml(i.properties) + endText);
    SpellJoin(P, MembersTokens("method", i.methods), MembersXml("method", i.methods),
              MembersTokens("signal", i.signals) + (PropertiesTokens(i.properties) + end),
              MembersXml("signal", i.signals) + (PropertiesXml(i.properties) + endText));
    SpellJoin(P, start, startText,
              MembersTokens("method", i.methods)
                  + (MembersTokens("signal", i.signals) + (PropertiesTokens(i.properties) + end)),
              MembersXml("method", i.methods)
                  + (MembersXml("signal", i.signals) + (PropertiesXml(i.properties) + endText)));
  }

  function AllTokens(all: seq<Interface>): seq<Token> {
    if all == [] then [] else AllTokens(all[..|all| - 1]) + InterfaceTokens(all[|all| - 1])
  }

  lemma {:induction false} AllSpell(P: string -> bool, all: seq<Interface>)
    requires Fixed(P) && forall i :: i in all ==> InterfaceIs(P, i)
    ensures Spell(P, AllTokens(all), AllXml(all))
    decreases |all|
  {
    if all == [] {
      SpellNothing(P);
      hide Spell;
    } else {
      hide InterfaceIs, Spell, InterfaceTokens, ToXml;
      AllSpell(P, all[..|all| - 1]);
      InterfaceSpells(P, all[|all| - 1]);
      SpellJoin(P, AllTokens(all[..|all| - 1]), AllXml(all[..|all| - 1]), InterfaceTokens(all[|all| - 1]),
                ToXml(all[|all| - 1]));
    }
  }

  // ---------- parsing, token by token ----------

  datatype Spot =
    | Outside(st: State)
    | Within(st: State, tag: string, attrs: map<string, string>)

  /** What parsing gives from here on, inside a start tag or outside of one. */
  function From(p: Spot, text: string): Parsed {
    if !Consistent(p.st) then Parsed(false, p.st.out)
    else
      match p
      case Outside(st) => Parse(text, st)
      case Within(st, tag, attrs) =>
        match Attributes(text, attrs)
        case None => Parsed(false, st.out)
        case Some(a) => Parse(a.rest, Start(st, tag, a.attrs, a.selfClosing))
  }

  /** No string recorded so far, from the nth interface on, has a quote. */
  ghost predicate Clean(n: nat, p: Spot) {
    StateIs(Quotable, n, p.st) && (p.Within? ==> MapIs(Quotable, p.attrs))
  }

  /** Parsing fails, or gets to the rest of the text with nothing bad recorded. */
  ghost predicate Gets(n: nat, r: Parsed, inside: bool, rest: string) {
    !r.ok || exists p: Spot :: Clean(n, p) && p.Within? == inside && r == From(p, rest)
  }

  /** From inside an attribute's value. */
  function Quoted(p: Spot, key: string, text: string): Parsed
    requires p.Within?
  {
    match IndexOf(text, '"')
    case None => Parsed(false, p.st.out)
    case Some(e) => From(Within(p.st, p.tag, p.attrs[key := text[..e]]), text[e + 1..])
  }

  /** Read where a value is expected, the string and the quote after it leave the parser in a start tag. */
  ghost predicate Passes(n: nat, v: string) {
    forall p: Spot, key, rest :: Clean(n, p) && p.Within? ==> Gets(n, Quoted(p, key, v + ['"'] + rest), true, rest)
  }

  lemma CleanSet(n: nat, p: Spot, key: string, v: string)
    requires Clean(n, p) && p.Within? && Quotable(v)
    ensures Clean(n, Within(p.st, p.tag, p.attrs[key := v]))
  {
    hide StateIs, Quotable;
  }

  lemma QuotablePasses(n: nat, v: string)
    requires Quotable(v)
    ensures Passes(n, v)
  {
    forall p: Spot, key, rest | Clean(n, p) && p.Within?
      ensures Gets(n, Quoted(p, key, v + ['"'] + rest), true, rest)
    {
      QuotedValue(n, p, key, v, rest);
      CleanSet(n, p, key, v);
      hide Quoted, Clean, From;
    }
  }

  lemma QuotedValue(n: nat, p: Spot, key: string, v: string, rest: string)
    requires Clean(n, p) && p.Within? && Quotable(v)
    ensures Quoted(p, key, v + ['"'] + rest) == From(Within(p.st, p.tag, p.attrs[key := v]), rest)
  {
    IndexOfQuote(v, rest);
    assert (v + ['"'] + rest)[..|v|] == v && (v + ['"'] + rest)[|v| + 1..] == rest;
    hide IndexOf, From, StateIs;
  }

  lemma PairStep(n: nat, p: Spot, a: Attribute, rest: string)
    requires Clean(n, p) && p.Within? && NameText(a.key)
    ensures From(p, PairText(a) + rest) == Quoted(p, a.key, a.value + ['"'] + rest)
  {
    var value := a.value + ['"'] + rest;
    var quoted := ['"'] + value;
    var text := a.key + (['='] + quoted);
    assert PairText(a) + rest == text;
    ReadKey(a.key, quoted);
    SpaceStep(n, p, text);
    assert quoted[1..] == value;
    hide *;
    ReadOn(p, [' '] + text, a.key, value);
  }

  /** One attribute more, once its name has been read. */
  lemma ReadOn(p: Spot, text: string, key: string, value: string)
    requires p.Within? && NextAttribute(text) == AttributeValue(key, ['"'] + value)
    ensures From(p, text) == Quoted(p, key, value)
  {
    assert (['"'] + value)[1..] == value;
    hide NextAttribute, IndexOf, Parse, Start;
  }

  lemma SpaceStep(n: nat, p: Spot, rest: string)
    requires Clean(n, p) && p.Within?
    ensures From(p, [' '] + rest) == From(p, rest)
  {
    assert ([' '] + rest)[1..] == rest;
    assert SkipSpace([' '] + rest) == SkipSpace(rest);
    hide SkipSpace, NameLength, AttributeValue, StateIs, Parse, Start;
    assert NextAttribute([' '] + rest) == NextAttribute(rest);
  }

  lemma TagSplit(tag: string, rest: string)
    requires tag != []
    ensures var t := tag + ([' '] + rest);
            && ['<'] + tag + [' '] + rest == ['<'] + t && t[0] in tag
            && t[..|tag|] == tag && t[|tag|..] == [' '] + rest
  {
  }

  lemma OpenStep(n: nat, p: Spot, tag: string, rest: string)
    requires Clean(n, p) && p.Outside? && TagName(tag)
    ensures From(p, ['<'] + tag + [' '] + rest) == From(Within(p.st, tag, map[]), rest)
    ensures Clean(n, Within(p.st, tag, map[]))
  {
    hide Parse, Attributes, Start, SkipPast, NameLength;
    var t := tag + ([' '] + rest);
    TagSplit(tag, rest);
    ParseFrom(t, p.st);
    NameLengthOf(tag, [' '] + rest);
    SpaceStep(n, Within(p.st, tag, map[]), rest);
  }

  lemma CloseStep(n: nat, p: Spot, tag: string, rest: string)
    requires Clean(n, p) && p.Outside? && NameText(tag)
    ensures Clean(n, Outside(End(p.st, tag)))
    ensures From(p, EndTagText(tag) + rest) == From(Outside(End(p.st, tag)), rest)
  {
    assert EndTagText(tag) + rest == ['<'] + (['/'] + tag + ['>'] + rest);
    ParseFrom(['/'] + tag + ['>'] + rest, p.st);
    ParseEnd(tag, rest, p.st);
    EndIs(Quotable, n, p.st, tag);
    hide Parse, ParseTag, End, InterfaceIs, NameText;
  }

  lemma ShutStep(n: nat, p: Spot, selfClosing: bool, rest: string)
    requires Clean(n, p) && p.Within?
    ensures Clean(n, Outside(Start(p.st, p.tag, p.attrs, selfClosing)))
    ensures From(p, (if selfClosing then "/>" else ">") + rest)
            == From(Outside(Start(p.st, p.tag, p.attrs, selfClosing)), rest)
  {
    ReadClose(selfClosing, rest);
    StartIs(Quotable, n, p.st, p.tag, p.attrs, selfClosing);
    hide NextAttribute, Parse, Start, InterfaceIs;
  }

  /** A token is parsed as what it is, whatever it says, if its value passes. */
  lemma TokenStep(n: nat, p: Spot, t: Token, rest: string)
    requires Clean(n, p) && Right(p.Within?, t) && (t.Pair? ==> Passes(n, t.a.value))
    ensures Gets(n, From(p, TokenText(t) + rest), InsideAfter(p.Within?, t), rest)
  {
    hide Clean, From, NameText, TagName;
    match t
    case Blank(text) => BlankStep(n, p, text, rest);
    case Open(tag) => OpenStep(n, p, tag, rest);
    case Space => SpaceStep(n, p, rest);
    case Pair(a) => PairStep(n, p, a, rest);
    case Shut(selfClosing) => ShutStep(n, p, selfClosing, rest);
    case Close(tag) => CloseStep(n, p, tag, rest);
  }

  lemma BlankStep(n: nat, p: Spot, text: string, rest: string)
    requires Clean(n, p) && p.Outside? && '<' !in text
    ensures From(p, text + rest) == From(p, rest)
  {
    ParseText(text, rest, p.st);
    hide Parse, StateIs;
  }

  lemma {:induction false} TokensStep(n: nat, p: Spot, ts: seq<Token>, rest: string)
    requires Clean(n, p) && Proper(p.Within?, ts) && forall t :: t in ts && t.Pair? ==> Passes(n, t.a.value)
    ensures Gets(n, From(p, TokensText(ts) + rest), Ends(p.Within?, ts), rest)
    decreases |ts|
  {
    hide Clean, From, Passes, TokenText, Right, InsideAfter;
    if ts == [] {
      assert TokensText(ts) + rest == rest;
    } else {
      var more := TokensText(ts[1..]) + rest;
      assert TokensText(ts) + rest == TokenText(ts[0]) + more;
      TokenStep(n, p, ts[0], more);
      var r := From(p, TokensText(ts) + rest);
      if r.ok {
        var p1: Spot :| Clean(n, p1) && p1.Within? == InsideAfter(p.Within?, ts[0]) && r == From(p1, more);
        TokensStep(n, p1, ts[1..], rest);
      }
    }
  }

  // ---------- strings with a quote in them ----------

  /** Tokens whose text is cut short at a single quote, and goes on with a double one. */
  lemma {:induction false} CutShort(n: nat, p: Spot, ts: seq<Token>, cut: string, post: string, rest: string)
    requires Clean(n, p) && Proper(p.Within?, ts) && cut + ['\''] + post == TokensText(ts) && Plain(cut)
    requires forall t :: t in ts && t.Pair? ==> OneKind(t.a.value)
    requires forall t :: t in ts && t.Pair? && |t.a.value| < |cut| ==> Passes(n, t.a.value)
    ensures Gets(n, From(p, cut + ['"'] + rest), true, rest)
    decreases |ts|
  {
    hide Clean, From, Passes, Right, InsideAfter, Gets, OneKind;
    if ts != [] {
      var text := TokenText(ts[0]);
      if |text| <= |cut| {
        CutLater(n, p, ts, cut, post, rest);
        hide *;
      } else {
        CutHere(n, p, ts, cut, post, rest);
        hide *;
      }
    }
  }

  /** Not both quotes in one string. */
  predicate OneKind(v: string) {
    Plain(v) || Quotable(v)
  }

  lemma {:induction false} CutLater(n: nat, p: Spot, ts: seq<Token>, cut: string, post: string, rest: string)
    requires ts != [] && |TokenText(ts[0])| <= |cut|
    requires Clean(n, p) && Proper(p.Within?, ts) && cut + ['\''] + post == TokensText(ts) && Plain(cut)
    requires forall t :: t in ts && t.Pair? ==> OneKind(t.a.value)
    requires forall t :: t in ts && t.Pair? && |t.a.value| < |cut| ==> Passes(n, t.a.value)
    ensures Gets(n, From(p, cut + ['"'] + rest), true, rest)
    decreases |ts|, 0
  {
    var text := TokenText(ts[0]);
    var cut' := cut[|text|..];
    CutSplit(cut, post, text, TokensText(ts[1..]));
    assert Plain(cut') && |cut'| <= |cut|;
    assert ts[0].Pair? ==> |ts[0].a.value| < |text|;
    assert cut + ['"'] + rest == text + (cut' + ['"'] + rest);
    hide Clean, From, Passes, Right, InsideAfter, OneKind, TokenText, TokensText, Plain, Gets;
    TokenStep(n, p, ts[0], cut' + ['"'] + rest);
    var r := From(p, cut + ['"'] + rest);
    if r.ok {
      var p1 := GetsTo(n, r, InsideAfter(p.Within?, ts[0]), cut' + ['"'] + rest);
      CutShort(n, p1, ts[1..], cut', post, rest);
    } else {
      GetsNowhere(n, r, true, rest);
    }
  }

  lemma GetsTo(n: nat, r: Parsed, inside: bool, rest: string) returns (p: Spot)
    requires Gets(n, r, inside, rest) && r.ok
    ensures Clean(n, p) && p.Within? == inside && r == From(p, rest)
  {
    p :| Clean(n, p) && p.Within? == inside && r == From(p, rest);
  }

  lemma GetsNowhere(n: nat, r: Parsed, inside: bool, rest: string)
    requires !r.ok
    ensures Gets(n, r, inside, rest)
  {
  }

  /** What a text that is all there takes of a cut. */
  lemma CutSplit(cut: string, post: string, text: string, more: string)
    requires cut + ['\''] + post == text + more && |text| <= |cut|
    ensures cut == text + cut[|text|..] && cut[|text|..] + ['\''] + post == more
  {
    var all := cut + ['\''] + post;
    assert all[..|text|] == cut[..|text|];
    assert all[|text|..] == cut[|text|..] + ['\''] + post;
  }

  /** Only a value has a single quote, and then it is cut short before it. */
  lemma CutHere(n: nat, p: Spot, ts: seq<Token>, cut: string, post: string, rest: string)
    requires ts != [] && |TokenText(ts[0])| > |cut|
    requires Clean(n, p) && Proper(p.Within?, ts) && cut + ['\''] + post == TokensText(ts) && Plain(cut)
    requires ts[0].Pair? ==> OneKind(ts[0].a.value)
    ensures Gets(n, From(p, cut + ['"'] + rest), true, rest)
  {
    var text := TokenText(ts[0]);
    assert text[|cut|] == '\'' && text[..|cut|] == cut by {
      var all := cut + ['\''] + post;
      assert all == text + TokensText(ts[1..]);
      assert all[|cut|] == '\'' && all[..|cut|] == cut;
    }
    QuoteInValue(ts[0], p.Within?, |cut|);
    var a := ts[0].a;
    var k := |cut| - |a.key| - 2;
    var v := a.value[..k];
    assert cut == a.key + ['=', '"'] + v by {
      assert cut == PairText(a)[..|cut|];
    }
    assert Quotable(v);
    assert cut + ['"'] + rest == PairText(Attribute(a.key, v)) + rest;
    assert Right(p.Within?, Pair(Attribute(a.key, v)));
    QuotablePasses(n, v);
    hide Clean, From, Passes, Right, OneKind, TokensText, Plain, Proper;
    TokenStep(n, p, Pair(Attribute(a.key, v)), rest);
  }

  lemma {:induction false} QuoteInValue(t: Token, inside: bool, k: nat)
    requires Right(inside, t) && k < |TokenText(t)| && TokenText(t)[k] == '\''
    ensures t.Pair? && |t.a.key| + 2 <= k < |t.a.key| + 2 + |t.a.value| && t.a.value[k - |t.a.key| - 2] == '\''
  {
    hide NameText, TagName;
    assert TokenText(t)[k] in TokenText(t);
    if t.Pair? {
      PairTextAt(t.a, k);
    } else {
      PlainToken(t, inside);
    }
  }

  lemma PairTextAt(a: Attribute, k: nat)
    requires k < |PairText(a)|
    ensures k < |a.key| ==> PairText(a)[k] in a.key
  {
    assert k < |a.key| ==> PairText(a)[k] == a.key[k];
  }

  lemma PlainToken(t: Token, inside: bool)
    requires Right(inside, t) && !t.Pair?
    ensures Plain(TokenText(t))
  {
    hide NameText, TagName;
  }

  lemma FirstText(inside: bool, ts: seq<Token>)
    requires Proper(inside, ts)
    ensures ts == [] ==> TokensText(ts) == []
    ensures ts != [] ==>
              && TokensText(ts) == TokenText(ts[0]) + TokensText(ts[1..])
              && Right(inside, ts[0]) && Proper(InsideAfter(inside, ts[0]), ts[1..])
  {
    hide Right, TokenText;
  }

  /** The single quote a region starts with is in a value, and the region goes on behind the value. */
  lemma {:induction false} FindValue(inside: bool, ts: seq<Token>, pre: string, more: string)
      returns (k: nat, u: string, tail: string)
    requires Proper(inside, ts) && TokensText(ts) == pre + ['\''] + more
    ensures k < |ts| && ts[k].Pair? && ts[k].a.value == u + ['\''] + tail
            && more == tail + ['"'] + TokensText(ts[k + 1..])
    ensures Proper(true, ts[k + 1..])
    decreases |ts|
  {
    hide Right, TokenText, TokensText, Proper;
    FirstText(inside, ts);
    k, u, tail := 0, "", "";
    if ts != [] {
      var text := TokenText(ts[0]);
      if |pre| < |text| {
        u, tail := FindHere(inside, ts[0], TokensText(ts[1..]), pre, more);
      } else {
        CutSplit(pre, more, text, TokensText(ts[1..]));
        var k': nat;
        k', u, tail := FindValue(InsideAfter(inside, ts[0]), ts[1..], pre[|text|..], more);
        k := k' + 1;
        assert ts[1..][k' + 1..] == ts[k + 1..];
      }
    }
  }

  lemma FindHere(inside: bool, t: Token, after: string, pre: string, more: string) returns (u: string, tail: string)
    requires Right(inside, t) && TokenText(t) + after == pre + ['\''] + more && |pre| < |TokenText(t)|
    ensures inside && t.Pair? && t.a.value == u + ['\''] + tail && more == tail + ['"'] + after
  {
    var text, all := TokenText(t), pre + ['\''] + more;
    assert text[|pre|] == all[|pre|] == '\'';
    QuoteInValue(t, inside, |pre|);
    hide NameText, TagName;
    var a := t.a;
    var j := |pre| - |a.key| - 2;
    u, tail := a.value[..j], a.value[j + 1..];
    assert more == all[|pre| + 1..] == text[|pre| + 1..] + after;
    assert text[|pre| + 1..] == tail + ['"'];
  }

  /** A string with `"` that is a quoted part of a text is so in single quotes. */
  lemma SingleQuoted(text: string, v: string) returns (pre: string, post: string)
    requires Region(text, v) && !Quotable(v)
    ensures Plain(v) && text == pre + ['\''] + (v + ['\''] + post)
  {
    var c;
    pre, c, post :| (c == '"' || c == '\'') && c !in v && text == pre + [c] + v + [c] + post;
    assert pre + [c] + v + [c] + post == pre + [c] + (v + [c] + post);
  }

  lemma RegionOneKind(text: string, v: string)
    requires Quotable(v) || Region(text, v)
    ensures OneKind(v)
  {
    if !Quotable(v) {
      var pre, post := SingleQuoted(text, v);
    }
  }

  lemma QuotableShorter(v: string, post: string, tail: string, after: string)
    requires v + ['\''] + post == tail + ['"'] + after && Quotable(tail) && |v| <= |tail|
    ensures Quotable(v)
  {
    var all := v + ['\''] + post;
    assert all[..|v|] == v && all[..|v|] == tail[..|v|];
  }

  /** v is a proper part of the text that ends a value, the quote behind it, and what follows. */
  lemma Divide(v: string, post: string, tail: string, after: string)
    requires v + ['\''] + post == tail + ['"'] + after && !Quotable(v) && Quotable(tail)
    ensures |tail| < |v| && v == tail + ['"'] + v[|tail| + 1..] && v[|tail| + 1..] + ['\''] + post == after
  {
    var all := v + ['\''] + post;
    if |v| <= |tail| {
      QuotableShorter(v, post, tail, after);
    }
    assert all[..|tail|] == tail == v[..|tail|];
    assert all[|tail|] == '"' == v[|tail|];
    assert all[|tail| + 1..] == after == v[|tail| + 1..] + ['\''] + post;
  }

  /** In a text that gives back all its strings, every string passes, even if it has a quote. */
  lemma {:induction false} AllPass(n: nat, ts: seq<Token>, v: string)
    requires Proper(false, ts)
    requires forall t :: t in ts && t.Pair? ==> Quotable(t.a.value) || Region(TokensText(ts), t.a.value)
    requires exists t :: t in ts && t.Pair? && t.a.value == v
    ensures Passes(n, v)
    decreases |v|
  {
    hide Proper, Passes, Region, Right;
    if Quotable(v) {
      QuotablePasses(n, v);
    } else {
      var pre, post := SingleQuoted(TokensText(ts), v);
      var k, u, tail := FindValue(false, ts, pre, v + ['\''] + post);
      var after := ts[k + 1..];
      assert Quotable(tail) by {
        RegionOneKind(TokensText(ts), ts[k].a.value);
        assert '\'' in ts[k].a.value;
      }
      Divide(v, post, tail, TokensText(after));
      var cut := v[|tail| + 1..];
      assert Plain(cut);
      forall t | t in after && t.Pair?
        ensures OneKind(t.a.value) && (|t.a.value| < |cut| ==> Passes(n, t.a.value))
      {
        assert t in ts;
        RegionOneKind(TokensText(ts), t.a.value);
        hide *;
        if |t.a.value| < |cut| {
          AllPass(n, ts, t.a.value);
        }
      }
      hide TokensText, OneKind, Plain;
      PassesCut(n, after, v, tail, cut, post);
    }
  }

  lemma PassesCut(n: nat, after: seq<Token>, v: string, tail: string, cut: string, post: string)
    requires v == tail + ['"'] + cut && Quotable(tail) && Plain(cut)
    requires Proper(true, after) && cut + ['\''] + post == TokensText(after)
    requires forall t :: t in after && t.Pair? ==> OneKind(t.a.value)
    requires forall t :: t in after && t.Pair? && |t.a.value| < |cut| ==> Passes(n, t.a.value)
    ensures Passes(n, v)
  {
    hide TokensText, OneKind, Proper, Plain, Quotable;
    forall p: Spot, key, rest | Clean(n, p) && p.Within?
      ensures Gets(n, Quoted(p, key, v + ['"'] + rest), true, rest)
    {
      assert v + ['"'] + rest == tail + ['"'] + (cut + ['"'] + rest);
      QuotedValue(n, p, key, tail, cut + ['"'] + rest);
      CleanSet(n, p, key, tail);
      hide Quoted, Clean, From, Passes;
      CutShort(n, Within(p.st, p.tag, p.attrs[key := tail]), after, cut, post, rest);
    }
  }

  // ---------- exactly the printable ones ----------

  /** Without quotes, or quoted in the text. */
  ghost function RecordedIn(text: string): string -> bool {
    x => Quotable(x) || Region(text, x)
  }

  lemma RecordedCovers(text: string)
    ensures Covers(RecordedIn(text), text) && Fixed(RecordedIn(text)) && RecordedIn(text)("")
  {
    hide Region;
    assert Quotable("in") && Quotable("out") && Quotable("read") && Quotable("readwrite") && Quotable("");
  }

  lemma NothingYet(P: string -> bool, out: seq<Interface>)
    ensures StateIs(P, |out|, State(out, false, None, false))
  {
  }

  lemma OutHas(P: string -> bool, out: seq<Interface>, all: seq<Interface>)
    requires OutIs(P, |out|, out + all)
    ensures forall i :: i in all ==> InterfaceIs(P, i)
  {
    hide InterfaceIs;
    forall i | i in all
      ensures InterfaceIs(P, i)
    {
      var k :| 0 <= k < |all| && all[k] == i;
      assert (out + all)[|out| + k] == i;
    }
  }

  /** All strings of what is parsed back from its own printed text are printed and quoted there. */
  lemma OwnStrings(all: seq<Interface>, out: seq<Interface>)
    requires Parse(AllXml(all), State(out, false, None, false)) == Parsed(true, out + all)
    ensures Spell(RecordedIn(AllXml(all)), AllTokens(all), AllXml(all))
  {
    var text := AllXml(all);
    var P := RecordedIn(text);
    RecordedCovers(text);
    NothingYet(P, out);
    hide *;
    ParseIs(P, |out|, text, State(out, false, None, false));
    OutHas(P, out, all);
    AllSpell(P, all);
  }

  lemma SpellIs(text: string, ts: seq<Token>)
    requires Spell(RecordedIn(text), ts, text)
    ensures TokensText(ts) == text && Proper(false, ts) && !Ends(false, ts)
    ensures forall t :: t in ts && t.Pair? ==> Quotable(t.a.value) || Region(text, t.a.value)
  {
    hide Region, TokensText, Proper, Ends;
  }

  lemma QuotesLost(all: seq<Interface>, out: seq<Interface>)
    requires Parse(AllXml(all), State(out, false, None, false)) == Parsed(true, out + all)
    ensures forall i :: i in all ==> Printable(i)
  {
    var n, text, ts := |out|, AllXml(all), AllTokens(all);
    var start := Outside(State(out, false, None, false));
    OwnStrings(all, out);
    SpellIs(text, ts);
    NothingYet(Quotable, out);
    assert Clean(n, start);
    assert From(start, text) == Parse(text, start.st);
    hide *;
    forall t | t in ts && t.Pair?
      ensures Passes(n, t.a.value)
    {
      AllPass(n, ts, t.a.value);
    }
    TokensStep(n, start, ts, []);
    assert text + [] == text;
    CleanEnd(n, From(start, text), out, all);
  }

  lemma CleanEnd(n: nat, r: Parsed, out: seq<Interface>, all: seq<Interface>)
    requires Gets(n, r, false, []) && r == Parsed(true, out + all) && n == |out|
    ensures forall i :: i in all ==> Printable(i)
  {
    var p: Spot :| Clean(n, p) && !p.Within? && r == From(p, []);
    assert r.out == p.st.out;
    hide InterfaceIs, Printable;
    forall i | i in all
      ensures Printable(i)
    {
      var k :| 0 <= k < |all| && all[k] == i;
      assert (out + all)[n + k] == i;
      PrintableIs(i);
    }
  }

  /** Printed interfaces are parsed back exactly if no string has a quote and no signal an `in` argument. */
  lemma PrintedExactly(all: seq<Interface>, out: seq<Interface>)
    ensures Parse(AllXml(all), State(out, false, None, false)) == Parsed(true, out + all)
            <==> forall i :: i in all ==> Printable(i)
  {
    hide Parse, AllXml, Printable;
    if Parse(AllXml(all), State(out, false, None, false)) == Parsed(true, out + all) {
      QuotesLost(all, out);
    }
    if forall i :: i in all ==> Printable(i) {
      ParsePrinted(all, out);
    }
  }
}
