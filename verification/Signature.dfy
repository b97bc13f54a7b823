/** D-Bus signatures: finding and splitting complete types. */
module Signature {
  import opened Bytes

  // ---------- types and how they are written ----------

  /** The complete types of the D-Bus Specification, section "Type System", without `h`. */
  datatype Ty =
    | Basic(code: char)
    | Variant
    | ArrayOf(elem: Ty)
    | DictOf(key: char, val: Ty)
    | StructOf(members: seq<Ty>)

  predicate IsBasicInt(c: char) {
    c == 'y' || c == 'n' || c == 'q' || c == 'i' || c == 'u' || c == 'x' || c == 't'
  }

  predicate IsStringLike(c: char) {
    c == 's' || c == 'o' || c == 'g'
  }

  /** What a dict can be keyed by, doubles left out. */
  predicate IsKey(c: char) {
    IsBasicInt(c) || IsStringLike(c) || c == 'b'
  }

  predicate WellFormed(t: Ty) {
    match t
    case Basic(c) => IsKey(c) || c == 'd'
    case Variant => true
    case ArrayOf(e) => WellFormed(e)
    case DictOf(k, v) => IsKey(k) && WellFormed(v)
    case StructOf(ms) => forall m :: m in ms ==> WellFormed(m)
  }

  function Sig(t: Ty): string {
    match t
    case Basic(c) => [c]
    case Variant => "v"
    case ArrayOf(e) => ['a'] + Sig(e)
    case DictOf(k, v) => ['a'] + (['{'] + ([k] + (Sig(v) + ['}'])))
    case StructOf(ms) => ['('] + (Sigs(ms) + [')'])
  }

  function Sigs(ts: seq<Ty>): string {
    if ts == [] then [] else Sig(ts[0]) + Sigs(ts[1..])
  }

  // ---------- the length of the first complete type ----------

  function LeadingAs(s: string): (k: nat)
    ensures k <= |s| && (k < |s| ==> s[k] != 'a')
    ensures forall i :: 0 <= i < k ==> s[i] == 'a'
  {
    if s != [] && s[0] == 'a' then 1 + LeadingAs(s[1..]) else 0
  }

  /** 0 if there is none. */
  function TypeLength(s: string): (n: nat)
    ensures n <= |s|
    decreases |s|, 0
  {
    var k := LeadingAs(s);
    if k == |s| then 0
    else if s[k] != '(' && s[k] != '{' then k + 1
    else
      match SkipMembers(s[k + 1..], Closer(s[k]))
      case None => 0
      case Some(m) => k + m + 2
  }

  function Closer(c: char): char {
    if c == '(' then ')' else '}'
  }

  /** The length of the complete types before `close`, if it is ever reached. */
  function SkipMembers(s: string, close: char): (r: Option<nat>)
    ensures r.Some? ==> r.value < |s| && s[r.value] == close
    decreases |s|, 1
  {
    if s == [] then None
    else if s[0] == close then Some(0)
    else
      var n := TypeLength(s);
      if n == 0 then None
      else
        Plus(n, SkipMembers(s[n..], close))
  }

  function Split(s: string): seq<string> {
    var n := TypeLength(s);
    if n == 0 then [] else [s[..n]] + Split(s[n..])
  }

  method CompleteTypeLength(signature: string) returns (n: nat)
    ensures n == TypeLength(signature)
    decreases |signature|, 0
  {
    hide SkipMembers;
    var p := 0;
    while p < |signature| && signature[p] == 'a'
      invariant p <= |signature|
      invariant p + LeadingAs(signature[p..]) == LeadingAs(signature)
    {
      p := p + 1;
    }
    if p == |signature| || (signature[p] != '(' && signature[p] != '{') {
      return if p < |signature| then p + 1 else 0;
    }
    var close := if signature[p] == '(' then ')' else '}';
    p := p + 1;
    var members := MembersLength(signature[p..], close);
    match members
    case None => n := 0;
    case Some(m) => n := p + m + 1;
  }

  /** The inner loop, up to the closing bracket. */
  method MembersLength(s: string, close: char) returns (r: Option<nat>)
    ensures r == SkipMembers(s, close)
    decreases |s|, 1
  {
    hide TypeLength, SkipMembers;
    var p := 0;
    while p < |s| && s[p] != close
      invariant p <= |s|
      invariant SkipMembers(s, close) == Plus(p, SkipMembers(s[p..], close))
    {
      SkipStep(s[p..], close);
      var n := CompleteTypeLength(s[p..]);
      if n == 0 {
        return None;
      }
      assert s[p..][n..] == s[p + n..];
      p := p + n;
    }
    SkipEnd(s[p..], close);
    r := if p < |s| then Some(p) else None;
  }

  lemma SkipStep(s: string, close: char)
    requires s != [] && s[0] != close
    ensures TypeLength(s) == 0 ==> SkipMembers(s, close).None?
    ensures TypeLength(s) > 0 ==>
              SkipMembers(s, close) == Plus(TypeLength(s), SkipMembers(s[TypeLength(s)..], close))
  {
    hide TypeLength;
  }

  lemma SkipEnd(s: string, close: char)
    requires s == [] || s[0] == close
    ensures SkipMembers(s, close) == if s == [] then None else Some(0)
  {
  }

  function Plus(n: nat, r: Option<nat>): Option<nat> {
    if r.None? then None else Some(n + r.value)
  }

  method SplitSignature(signature: string) returns (out: seq<string>)
    ensures out == Split(signature)
  {
    out := [];
    var rest := signature;
    while rest != []
      invariant out + Split(rest) == Split(signature)
      decreases |rest|
    {
      var n := CompleteTypeLength(rest);
      if n == 0 {
        break;
      }
      out := out + [rest[..n]];
      rest := rest[n..];
    }
  }

  // ---------- on printed types ----------

  lemma LeadingAsOfArray(s: string)
    ensures TypeLength(['a'] + s) == if TypeLength(s) == 0 then 0 else TypeLength(s) + 1
  {
    var t := ['a'] + s;
    assert t[1..] == s;
    var k := LeadingAs(s);
    assert LeadingAs(t) == k + 1;
    if k < |s| {
      assert t[k + 2..] == s[k + 1..];
    }
  }

  lemma {:induction false} SigStart(t: Ty)
    requires WellFormed(t)
    ensures |Sig(t)| > 0 && Sig(t)[0] != ')' && Sig(t)[0] != '}'
  {
    if t.StructOf? {
      assert Sig(t)[0] == '(';
    }
  }

  lemma BracketLength(open: char, body: string, rest: string)
    requires open == '(' || open == '{'
    requires SkipMembers(body + [Closer(open)] + rest, Closer(open)) == Some(|body|)
    ensures TypeLength([open] + (body + [Closer(open)]) + rest) == |body| + 2
  {
    hide SkipMembers;
    var s := [open] + (body + [Closer(open)]) + rest;
    assert LeadingAs(s) == 0;
    assert s[1..] == body + [Closer(open)] + rest;
  }

  lemma SingleLength(c: char, rest: string)
    requires c != 'a' && c != '(' && c != '{'
    ensures TypeLength([c] + rest) == 1
  {
    assert LeadingAs([c] + rest) == 0;
  }

  /** The first complete type of a printed type followed by anything is that type. */
  lemma {:induction false} LengthOfSig(t: Ty, rest: string)
    requires WellFormed(t)
    ensures TypeLength(Sig(t) + rest) == |Sig(t)|
    decreases t
  {
    hide TypeLength, SkipMembers;
    match t
    case Basic(c) =>
      SingleLength(c, rest);
    case Variant =>
      SingleLength('v', rest);
    case ArrayOf(e) =>
      LengthOfSig(e, rest);
      SigStart(e);
      LeadingAsOfArray(Sig(e) + rest);
      assert Sig(t) + rest == ['a'] + (Sig(e) + rest);
    case DictOf(k, v) =>
      LengthOfSig(v, ['}'] + rest);
      DictLength(k, v, rest);
    case StructOf(ms) =>
      SkipSigs(ms, ')', rest);
      BracketLength('(', Sigs(ms), rest);
  }

  lemma DictLength(k: char, v: Ty, rest: string)
    requires WellFormed(DictOf(k, v))
    requires TypeLength(Sig(v) + (['}'] + rest)) == |Sig(v)|
    ensures TypeLength(Sig(DictOf(k, v)) + rest) == |Sig(DictOf(k, v))|
  {
    SigStart(v);
    EntryLength(k, Sig(v), rest);
  }

  lemma EntryLength(k: char, value: string, rest: string)
    requires IsKey(k) && value != [] && value[0] != '}'
    requires TypeLength(value + (['}'] + rest)) == |value|
    ensures TypeLength(['a'] + (['{'] + ([k] + (value + ['}']))) + rest) == |value| + 4
  {
    EntryBody(k, value, rest);
    hide TypeLength, SkipMembers;
    BracketLength('{', [k] + value, rest);
    LeadingAsOfArray(['{'] + ([k] + value + ['}']) + rest);
    EntryShape(k, value, rest);
  }

  lemma EntryBody(k: char, value: string, rest: string)
    requires IsKey(k) && value != [] && value[0] != '}'
    requires TypeLength(value + (['}'] + rest)) == |value|
    ensures SkipMembers([k] + value + ['}'] + rest, '}') == Some(|value| + 1)
  {
    SkipNone('}', rest);
    hide TypeLength, SkipMembers, IsKey;
    TwoMembers(k, value, ['}'] + rest);
    EntryShape(k, value, rest);
  }

  lemma TwoMembers(k: char, value: string, tail: string)
    requires IsKey(k) && value != [] && value[0] != '}'
    requires TypeLength(value + tail) == |value|
    ensures SkipMembers([k] + (value + tail), '}') == Plus(1, Plus(|value|, SkipMembers(tail, '}')))
  {
    SingleLength(k, value + tail);
    hide TypeLength, SkipMembers, Plus;
    SkipOne(value, tail, '}');
    SkipOne([k], value + tail, '}');
  }

  lemma EntryShape(k: char, value: string, rest: string)
    ensures [k] + (value + (['}'] + rest)) == [k] + value + ['}'] + rest
    ensures ['a'] + (['{'] + ([k] + (value + ['}']))) + rest == ['a'] + (['{'] + ([k] + value + ['}']) + rest)
  {
    assert [k] + (value + ['}']) == [k] + value + ['}'];
  }

  lemma SkipNone(close: char, rest: string)
    ensures SkipMembers([close] + rest, close) == Some(0)
  {
  }

  /** One member, whose length is known, before more. */
  lemma SkipOne(first: string, more: string, close: char)
    requires first != [] && first[0] != close
    requires TypeLength(first + more) == |first|
    ensures SkipMembers(first + more, close) == Plus(|first|, SkipMembers(more, close))
  {
    hide TypeLength;
    assert (first + more)[|first|..] == more;
  }

  lemma {:induction false} SkipSigs(ts: seq<Ty>, close: char, rest: string)
    requires forall t :: t in ts ==> WellFormed(t)
    requires close == ')' || close == '}'
    ensures SkipMembers(Sigs(ts) + [close] + rest, close) == Some(|Sigs(ts)|)
    decreases ts
  {
    if ts == [] {
      assert Sigs(ts) + [close] + rest == [close] + rest;
    } else {
      SigStart(ts[0]);
      assert Sigs(ts) == Sig(ts[0]) + Sigs(ts[1..]);
      hide TypeLength, SkipMembers, Sigs, Sig;
      SkipSigs(ts[1..], close, rest);
      LengthOfSig(ts[0], Sigs(ts[1..]) + [close] + rest);
      SkipJoined(Sig(ts[0]), Sigs(ts[1..]), close, rest);
    }
  }

  lemma SkipJoined(first: string, others: string, close: char, rest: string)
    requires first != [] && first[0] != close
    requires TypeLength(first + (others + [close] + rest)) == |first|
    requires SkipMembers(others + [close] + rest, close) == Some(|others|)
    ensures SkipMembers(first + others + [close] + rest, close) == Some(|first + others|)
  {
    hide TypeLength, SkipMembers;
    SkipOne(first, others + [close] + rest, close);
    assert first + others + [close] + rest == first + (others + [close] + rest);
  }

  function EachSig(ts: seq<Ty>): (r: seq<string>)
    ensures |r| == |ts|
    ensures forall i :: 0 <= i < |ts| ==> r[i] == Sig(ts[i])
  {
    if ts == [] then [] else [Sig(ts[0])] + EachSig(ts[1..])
  }

  /** Splitting the concatenation of printed types gives them back. */
  lemma {:induction false} SplitSigs(ts: seq<Ty>)
    requires forall t :: t in ts ==> WellFormed(t)
    ensures Split(Sigs(ts)) == EachSig(ts)
    decreases |ts|
  {
    if ts != [] {
      LengthOfSig(ts[0], Sigs(ts[1..]));
      SigStart(ts[0]);
      SplitSigs(ts[1..]);
      assert Sigs(ts)[..|Sig(ts[0])|] == Sig(ts[0]);
      assert Sigs(ts)[|Sig(ts[0])|..] == Sigs(ts[1..]);
    }
  }

  /** A printed type is one complete type, so two of them are never confused. */
  lemma WholeSig(t: Ty)
    requires WellFormed(t)
    ensures TypeLength(Sig(t)) == |Sig(t)| > 0
  {
    LengthOfSig(t, []);
    SigStart(t);
    assert Sig(t) + [] == Sig(t);
  }

  // ---------- on every string at all ----------

  function Joined(parts: seq<string>): string {
    if parts == [] then [] else parts[0] + Joined(parts[1..])
  }

  /** The length found does not depend on what comes after it. */
  lemma {:induction false} LengthIsLocal(s: string, rest: string)
    requires TypeLength(s) > 0
    ensures TypeLength(s[..TypeLength(s)] + rest) == TypeLength(s)
    decreases |s|, 0
  {
    hide SkipMembers;
    var n, k := TypeLength(s), LeadingAs(s);
    var t := s[..n] + rest;
    LeadingAsLocal(s, t);
    if s[k] == '(' || s[k] == '{' {
      var close := Closer(s[k]);
      var m := SkipMembers(s[k + 1..], close).value;
      assert n == k + m + 2;
      SkipIsLocal(s[k + 1..], close, rest);
      assert s[k + 1..][..m + 1] + rest == t[k + 1..];
    }
  }

  lemma {:induction false} LeadingAsLocal(s: string, t: string)
    requires LeadingAs(s) < |s| && LeadingAs(s) < |t| && s[..LeadingAs(s) + 1] == t[..LeadingAs(s) + 1]
    ensures LeadingAs(t) == LeadingAs(s)
  {
    var k := LeadingAs(s);
    assert s[k] == s[..k + 1][k] == t[..k + 1][k] == t[k];
    if k > 0 {
      assert s[0] == s[..k + 1][0] == t[..k + 1][0] == t[0];
      assert s[1..][..k] == s[..k + 1][1..] == t[..k + 1][1..] == t[1..][..k];
      LeadingAsLocal(s[1..], t[1..]);
    }
  }

  lemma {:induction false} SkipIsLocal(s: string, close: char, rest: string)
    requires SkipMembers(s, close).Some?
    ensures
      var m := SkipMembers(s, close).value;
      SkipMembers(s[..m + 1] + rest, close) == Some(m)
    decreases |s|, 1
  {
    hide TypeLength, SkipMembers;
    var m := SkipMembers(s, close).value;
    if s == [] || s[0] == close {
      SkipEnd(s, close);
      SkipNone(close, rest);
      assert s[..m + 1] + rest == [close] + rest;
    } else {
      SkipStep(s, close);
      var n := TypeLength(s);
      var tail := s[n..m + 1] + rest;
      SkipIsLocal(s[n..], close, rest);
      assert s[n..][..m - n + 1] + rest == tail;
      LengthIsLocal(s, tail);
      assert s[..m + 1] + rest == s[..n] + tail;
      SkipOne(s[..n], tail, close);
    }
  }

  /** Splitting takes complete types off the front until there are none left. */
  lemma {:induction false} SplitAnything(s: string)
    ensures Joined(Split(s)) <= s
    ensures TypeLength(s[|Joined(Split(s))|..]) == 0
    ensures forall p :: p in Split(s) ==> TypeLength(p) == |p| > 0
    decreases |s|
  {
    var n := TypeLength(s);
    if n > 0 {
      var parts := Split(s[n..]);
      assert Split(s) == [s[..n]] + parts;
      hide TypeLength, Split;
      SplitAnything(s[n..]);
      LengthIsLocal(s, []);
      assert s[..n] + [] == s[..n];
      JoinedFirst(s[..n], parts);
      hide Joined;
      PrefixAfter(s, n, Joined(parts));
    }
  }

  lemma JoinedFirst(first: string, parts: seq<string>)
    ensures Joined([first] + parts) == first + Joined(parts)
  {
    assert ([first] + parts)[1..] == parts;
  }

  lemma PrefixAfter(s: string, n: nat, rest: string)
    requires n <= |s| && rest <= s[n..]
    ensures s[..n] + rest <= s
    ensures s[|s[..n] + rest|..] == s[n..][|rest|..]
  {
  }
}
