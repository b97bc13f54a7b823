/** The parser as it runs: a cursor moving over NUL-terminated text. */
module IntrospectionParser {
  import opened Bytes
  import opened Introspection

  class Parser {
    const text: string
    var p: nat

    constructor (text: string)
      requires '\0' !in text
      ensures this.text == text && p == 0
    {
      this.text := text;
      p := 0;
    }

    /** The cursor may only be read through while it is on the text or its terminator. */
    function At(i: nat): (c: char)
      requires i <= |text|
      ensures '\0' !in text ==> (c == '\0' <==> i == |text|)
    {
      if i == |text| then '\0' else text[i]
    }

    function Rest(): string
      requires p <= |text|
      reads this
    {
      text[p..]
    }

    ghost predicate Valid()
      reads this
    {
      p <= |text| && '\0' !in text
    }

    method StartsWith(prefix: string) returns (b: bool)
      requires Valid() && '\0' !in prefix
      ensures b <==> prefix <= Rest()
    {
      var i := 0;
      while i < |prefix| && At(p + i) == prefix[i]
        invariant 0 <= i <= |prefix| && p + i <= |text|
        invariant forall k :: 0 <= k < i ==> text[p + k] == prefix[k]
      {
        assert prefix[i] in prefix && At(p + i) != '\0';
        i := i + 1;
      }
      b := i == |prefix|;
      if b {
        assert forall k :: 0 <= k < |prefix| ==> Rest()[k] == prefix[k];
        assert prefix == Rest()[..|prefix|];
      } else if i < |Rest()| {
        assert Rest()[i] == At(p + i);
      }
    }

    method SkipPast(end: string) returns (found: bool)
      requires Valid() && '\0' !in end && end != []
      modifies this
      ensures Valid()
      ensures found == Introspection.SkipPast(old(Rest()), end).Some?
      ensures found ==> Rest() == Introspection.SkipPast(old(Rest()), end).value
      ensures !found ==> p == old(p)
      ensures p >= old(p)
    {
      var from := p;
      while true
        invariant Valid() && from <= p
        invariant Introspection.SkipPast(Rest(), end) == Introspection.SkipPast(text[from..], end)
        decreases |text| - p
      {
        var here := StartsWith(end);
        if here {
          p := p + |end|;
          assert text[p..] == text[p - |end|..][|end|..];
          return true;
        }
        if At(p) == '\0' {
          p := from;
          return false;
        }
        assert text[p..][1..] == text[p + 1..];
        p := p + 1;
      }
    }

    method SkipSpace()
      requires Valid()
      modifies this
      ensures Valid() && Rest() == Introspection.SkipSpace(old(Rest())) && p >= old(p)
    {
      while At(p) == ' ' || At(p) == '\t' || At(p) == '\n' || At(p) == '\r'
        invariant Valid() && p >= old(p)
        invariant Introspection.SkipSpace(Rest()) == Introspection.SkipSpace(old(Rest()))
        decreases |text| - p
      {
        assert text[p..][1..] == text[p + 1..];
        p := p + 1;
      }
    }

    method Name() returns (name: string)
      requires Valid()
      modifies this
      ensures Valid() && p >= old(p)
      ensures
        var n := NameLength(old(Rest()));
        name == old(Rest())[..n] && Rest() == old(Rest())[n..] && p == old(p) + n
    {
      var start := p;
      while At(p) != '\0' && !EndsName(At(p))
        invariant Valid() && start <= p
        invariant p - start + NameLength(Rest()) == NameLength(old(Rest()))
        decreases |text| - p
      {
        assert text[p..][1..] == text[p + 1..];
        p := p + 1;
      }
      name := text[start..p];
    }

    /** `strchr`, from the cursor on. */
    method Find(c: char) returns (end: Option<nat>)
      requires Valid() && c != '\0'
      ensures end.Some? == IndexOf(Rest(), c).Some?
      ensures end.Some? ==> end.value == p + IndexOf(Rest(), c).value
    {
      var i := p;
      while At(i) != '\0' && At(i) != c
        invariant p <= i <= |text|
        invariant IndexOf(Rest(), c).Some? == IndexOf(text[i..], c).Some?
        invariant IndexOf(Rest(), c).Some? ==> p + IndexOf(Rest(), c).value == i + IndexOf(text[i..], c).value
        decreases |text| - i
      {
        assert text[i..][1..] == text[i + 1..];
        i := i + 1;
      }
      end := if At(i) == '\0' then None else Some(i);
    }

    /**
     The rest of a start tag. When it fails the cursor may have been moved one
     past the terminator, but it is not read through any more.
     */
    method Attributes() returns (ok: bool, attrs: map<string, string>, selfClosing: bool)
      requires Valid()
      modifies this
      ensures p <= |text| + 1
      ensures ok ==> Valid() && p > old(p)
      ensures Introspection.Attributes(old(Rest()), map[])
           == if ok then Some(StartTag(attrs, selfClosing, Rest())) else None
    {
      hide Introspection.NextAttribute;
      attrs, selfClosing := map[], false;
      while true
        invariant Valid() && p >= old(p)
        invariant Introspection.Attributes(Rest(), attrs) == Introspection.Attributes(old(Rest()), map[])
        decreases |text| - p
      {
        var step := NextAttribute();
        match step
        case Failed => return false, attrs, false;
        case Closed(self, _) => return true, attrs, self;
        case Read(key, value, _) => attrs := attrs[key := value];
      }
    }

    /** One turn of that loop. */
    method NextAttribute() returns (step: Step)
      requires Valid()
      modifies this
      ensures p <= |text| + 1 && p >= old(p)
      ensures step == Introspection.NextAttribute(old(Rest()))
      ensures !step.Failed? ==> Valid() && p > old(p) && step.rest == Rest()
    {
      hide NameLength, IsSpace, EndsName, Introspection.AttributeValue, Introspection.SkipSpace;
      SkipSpace();
      ghost var s1 := Rest();
      if At(p) == '>' {
        p := p + 1;
        assert Rest() == s1[1..];
        return Closed(false, text[p..]);
      }
      if At(p) == '/' && At(p + 1) == '>' {
        p := p + 2;
        assert Rest() == s1[2..];
        return Closed(true, text[p..]);
      }
      var key := Name();
      step := AfterKey(key);
    }

    /** What follows a key: failing that, there is no attribute. */
    method AfterKey(key: string) returns (step: Step)
      requires Valid()
      modifies this
      ensures p <= |text| + 1 && p >= old(p)
      ensures
        var s := Introspection.SkipSpace(old(Rest()));
        step == if key == [] || s == [] || s[0] != '=' then Failed
                else Introspection.AttributeValue(key, Introspection.SkipSpace(s[1..]))
      ensures !step.Failed? ==> Valid() && p > old(p) && step.rest == Rest()
    {
      hide IsSpace, Introspection.AttributeValue, Introspection.SkipSpace;
      SkipSpace();
      ghost var s := Rest();
      if key == [] {
        return Failed;
      }
      var equals := At(p);
      p := p + 1;
      if equals != '=' {
        return Failed;
      }
      assert Rest() == s[1..];
      SkipSpace();
      step := AttributeValue(key);
    }

    method AttributeValue(key: string) returns (step: Step)
      requires Valid()
      modifies this
      ensures p <= |text| + 1 && p >= old(p)
      ensures step == Introspection.AttributeValue(key, old(Rest()))
      ensures !step.Failed? ==> Valid() && p > old(p) && step.rest == Rest()
    {
      ghost var s := Rest();
      var quote := At(p);
      p := p + 1;
      if quote != '"' && quote != '\'' {
        return Failed;
      }
      assert Rest() == s[1..];
      var end := Find(quote);
      if end.None? {
        return Failed;
      }
      ghost var from := p;
      var value := text[p..end.value];
      p := end.value + 1;
      assert value == s[1..][..end.value - from];
      assert Rest() == s[1..][end.value - from + 1..];
      step := Read(key, value, text[p..]);
    }
  }

  /** The document loop. */
  method ParseXml(xml: string, out: seq<Interface>) returns (ok: bool, all: seq<Interface>)
    ensures Parsed(ok, all) == ParseCString(xml, State(out, false, None, false))
  {
    hide Start, End, Introspection.Attributes, NameLength;
    var text := UpToNul(xml);
    var parser := new Parser(text);
    var st := State(out, false, None, false);
    assert parser.Rest() == text;
    while true
      invariant fresh(parser) && parser.Valid() && Consistent(st)
      invariant parser.text == text
      invariant Parse(parser.Rest(), st) == Parse(text, State(out, false, None, false))
      decreases |text| - parser.p
    {
      ghost var before := parser.p;
      SkipPastShrinks(parser.Rest(), "<");
      var more := parser.SkipPast("<");
      if !more {
        return true, st.out;
      }
      var result := ParseOneTag(parser, st);
      match result
      case Stop(all') => return false, all';
      case Go(next) => st := next;
    }
  }

  /** A tag was bad and parsing stops with what there is, or it goes on. */
  datatype TagResult = Stop(out: seq<Interface>) | Go(next: State)

  /** One turn of the loop, from just after the '<'. */
  method ParseOneTag(parser: Parser, st: State) returns (result: TagResult)
    requires parser.Valid() && Consistent(st)
    modifies parser
    ensures result.Stop? ==> ParseTag(old(parser.Rest()), st) == Parsed(false, result.out)
    ensures result.Go? ==>
              && parser.Valid() && Consistent(result.next) && parser.p >= old(parser.p)
              && ParseTag(old(parser.Rest()), st) == Parse(parser.Rest(), result.next)
  {
    hide Start, End, Introspection.Attributes, NameLength, Introspection.SkipPast, Parse;
    var comment := parser.StartsWith("!--");
    if comment {
      var found := parser.SkipPast("-->");
      return if found then Go(st) else Stop(st.out);
    }
    if parser.At(parser.p) == '?' || parser.At(parser.p) == '!' {
      var found := parser.SkipPast(">");
      return if found then Go(st) else Stop(st.out);
    }
    if parser.At(parser.p) == '/' {
      ghost var t := parser.Rest();
      parser.p := parser.p + 1;
      assert parser.Rest() == t[1..];
      var tag := parser.Name();
      assert parser.Rest() == t[1 + |tag|..];
      var ended := End(st, tag);
      var found := parser.SkipPast(">");
      return if found then Go(ended) else Stop(ended.out);
    }
    var tag := parser.Name();
    var ok, attrs, selfClosing := parser.Attributes();
    if !ok {
      return Stop(st.out);
    }
    result := Go(Start(st, tag, attrs, selfClosing));
  }
}
