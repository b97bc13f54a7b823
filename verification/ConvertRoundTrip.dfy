/** D-Bus to varlink and back: the same value, up to the order of dict entries. */
module ConvertRoundTrip {
  import opened Bytes
  import opened Signature
  import opened Convert
  import Decimal

  // ---------- what a value means, whatever order its dict entries are in ----------

  datatype Meaning =
    | MBool(b: bool)
    | MInt(code: char, n: int)
    | MDouble(d: Double)
    | MString(code: char, s: string)
    | MVariant(signature: string, inner: Meaning)
    | MStruct(members: seq<Meaning>)
    | MArray(element: string, items: seq<Meaning>)
    | MDict(entry: string, entries: map<Value, Meaning>)

  function MeaningOf(v: Value): Meaning {
    match v
    case VBool(b) => MBool(b)
    case VInt(code, n) => MInt(code, n)
    case VDouble(d) => MDouble(d)
    case VString(code, s) => MString(code, s)
    case VVariant(signature, inner) => MVariant(signature, MeaningOf(inner))
    case VStruct(members) => MStruct(seq(|members|, i requires 0 <= i < |members| => MeaningOf(members[i])))
    case VArray(element, items) => MArray(element, seq(|items|, i requires 0 <= i < |items| => MeaningOf(items[i])))
    case VDict(entry, entries) => MDict(entry, EntriesMeaning(entries, |entries|))
  }

  /** The first n entries, a later one with the same key winning. */
  function EntriesMeaning(entries: seq<Entry>, n: nat): map<Value, Meaning>
    requires n <= |entries|
    decreases entries, n
  {
    if n == 0 then map[]
    else
      var e := entries[n - 1];
      assert e.value < e;
      EntriesMeaning(entries, n - 1)[e.key := MeaningOf(e.value)]
  }

  predicate KeysDiffer(entries: seq<Entry>) {
    forall i, j :: 0 <= i < j < |entries| ==> entries[i].key != entries[j].key
  }

  /** No dict anywhere in a value has a key twice. */
  predicate DistinctKeys(v: Value)
    decreases v
  {
    match v
    case VVariant(_, inner) => DistinctKeys(inner)
    case VStruct(members) => forall i :: 0 <= i < |members| ==> DistinctKeys(members[i])
    case VArray(_, items) => forall i :: 0 <= i < |items| ==> DistinctKeys(items[i])
    case VDict(_, entries) => KeysDiffer(entries) && forall i :: 0 <= i < |entries| ==> DistinctKeys(entries[i].value)
    case _ => true
  }

  /** The value is of the type, has the meaning, and has no key twice. */
  ghost predicate Back(r: Option<Value>, m: Meaning, t: Ty) {
    r.Some? && HasType(r.value, t) && MeaningOf(r.value) == m && DistinctKeys(r.value)
  }

  // ---------- containers, element by element ----------

  lemma {:induction false} ItemAt(items: seq<Value>, n: nat, i: nat)
    requires i < n <= |items|
    ensures FromItems(items, n)[i] == FromDbus(items[i])
    decreases n
  {
    if i < n - 1 {
      ItemAt(items, n - 1, i);
    }
  }

  lemma {:induction false} MemberAt(members: seq<Value>, n: nat, i: nat)
    requires i < n <= |members|
    ensures Decimal.Natural(i) in FromMembers(members, n)
    ensures FromMembers(members, n)[Decimal.Natural(i)] == FromDbus(members[i])
    decreases n
  {
    if i < n - 1 {
      MemberAt(members, n - 1, i);
      if Decimal.Natural(i) == Decimal.Natural(n - 1) {
        Decimal.NaturalInjective(i, n - 1);
      }
    }
  }

  lemma {:induction false} ItemsBack(order: FieldOrder, js: seq<Json>, items: seq<Value>, t: Ty)
    requires |js| == |items|
    requires forall i :: 0 <= i < |items| ==> Back(ToDbus(order, js[i], Sig(t)), MeaningOf(items[i]), t)
    ensures ToItems(order, js, Sig(t)).Some?
    ensures |ToItems(order, js, Sig(t)).value| == |items|
    ensures forall i :: 0 <= i < |items| ==>
              Back(Some(ToItems(order, js, Sig(t)).value[i]), MeaningOf(items[i]), t)
    decreases |items|
  {
    hide ToDbus, Sig, HasType, MeaningOf;
    if items != [] {
      ItemsBack(order, js[1..], items[1..], t);
    }
  }

  ghost predicate MemberFieldBack(order: FieldOrder, j: Json, v: Value, t: Ty, k: nat) {
    && j.JObject? && Decimal.Natural(k) in j.fields
    && Back(ToDbus(order, j.fields[Decimal.Natural(k)], Sig(t)), MeaningOf(v), t)
  }

  ghost predicate AllBack(vs: seq<Value>, members: seq<Value>, ts: seq<Ty>) {
    && |vs| == |members| == |ts|
    && forall k :: 0 <= k < |ts| ==> Back(Some(vs[k]), MeaningOf(members[k]), ts[k])
  }

  lemma AllBackOneMore(v: Value, vs: seq<Value>, members: seq<Value>, ts: seq<Ty>)
    requires |members| > 0 && |ts| > 0
    requires Back(Some(v), MeaningOf(members[0]), ts[0]) && AllBack(vs, members[1..], ts[1..])
    ensures AllBack([v] + vs, members, ts)
  {
    hide Back, MeaningOf;
    forall k | 0 <= k < |ts| ensures Back(Some(([v] + vs)[k]), MeaningOf(members[k]), ts[k]) {
      if k > 0 {
        assert Back(Some(vs[k - 1]), MeaningOf(members[1..][k - 1]), ts[1..][k - 1]);
      }
    }
  }

  lemma {:induction false} MembersBack(order: FieldOrder, j: Json, members: seq<Value>, ts: seq<Ty>, i: nat)
    requires j.JObject? && |members| == |ts| && i <= |ts|
    requires forall k :: 0 <= k < |ts| ==> MemberFieldBack(order, j, members[k], ts[k], k)
    ensures ToMembers(order, j, EachSig(ts), i).Some?
    ensures AllBack(ToMembers(order, j, EachSig(ts), i).value, members[i..], ts[i..])
    decreases |ts| - i
  {
    hide ToDbus, Sig, HasType, MeaningOf, AllBack;
    if i == |ts| {
      assert AllBack([], members[i..], ts[i..]) by { NoneBack(members[i..], ts[i..]); }
    } else {
      MembersBack(order, j, members, ts, i + 1);
      assert MemberFieldBack(order, j, members[i], ts[i], i);
      var v := ToDbus(order, j.fields[Decimal.Natural(i)], EachSig(ts)[i]).value;
      assert members[i..][1..] == members[i + 1..] && ts[i..][1..] == ts[i + 1..];
      AllBackOneMore(v, ToMembers(order, j, EachSig(ts), i + 1).value, members[i..], ts[i..]);
    }
  }

  lemma NoneBack(members: seq<Value>, ts: seq<Ty>)
    requires |members| == |ts| == 0
    ensures AllBack([], members, ts)
  {
  }

  // ---------- dicts ----------

  /** The object's fields are the dict's keys as text, and each converts back to what its key means. */
  ghost predicate FieldsAgree(order: FieldOrder, fields: map<string, Json>, m: map<Value, Meaning>, t: Ty)
    requires t.DictOf?
  {
    && (forall name :: name in fields ==> KeyBack(name, m, t.key))
    && (forall k :: k in m ==> FieldBack(order, fields, m, k, t))
  }

  ghost predicate KeyBack(name: string, m: map<Value, Meaning>, code: char) {
    var k := KeyToDbus(name, code);
    k.Some? && k.value in m && KeyFromDbus(k.value) == name
  }

  ghost predicate FieldBack(order: FieldOrder, fields: map<string, Json>, m: map<Value, Meaning>, k: Value, t: Ty)
    requires t.DictOf? && k in m
  {
    && IsKeyValue(k, t.key)
    && KeyFromDbus(k) in fields
    && Back(ToDbus(order, fields[KeyFromDbus(k)], Sig(t.val)), m[k], t.val)
  }

  lemma FieldsStep(order: FieldOrder, fields: map<string, Json>, m: map<Value, Meaning>, t: Ty, e: Entry)
    requires t.DictOf? && FieldsAgree(order, fields, m, t)
    requires IsKeyValue(e.key, t.key)
    requires Back(ToDbus(order, FromDbus(e.value), Sig(t.val)), MeaningOf(e.value), t.val)
    ensures FieldsAgree(order, fields[KeyFromDbus(e.key) := FromDbus(e.value)], m[e.key := MeaningOf(e.value)], t)
  {
    hide ToDbus, FromDbus, MeaningOf, HasType, Sig, KeyToDbus, KeyFromDbus, IsKeyValue;
    KeyRoundTrip(e.key, t.key);
    var fields', m' := fields[KeyFromDbus(e.key) := FromDbus(e.value)], m[e.key := MeaningOf(e.value)];
    forall name | name in fields' ensures KeyBack(name, m', t.key) {
      if name != KeyFromDbus(e.key) {
        assert KeyBack(name, m, t.key);
      }
    }
    forall k | k in m' ensures FieldBack(order, fields', m', k, t) {
      if k != e.key {
        assert FieldBack(order, fields, m, k, t);
        KeyRoundTrip(k, t.key);
      }
    }
  }

  /** Entry i of the result comes from name i. */
  lemma {:induction false} EntriesFrom(order: FieldOrder, j: Json, names: seq<string>, key: string, value: string)
    requires j.JObject?
    requires forall n :: n in names ==> n in j.fields && KeyToDbus(n, First(key)).Some?
    requires forall n :: n in names ==> ToDbus(order, j.fields[n], value).Some?
    ensures
      var r := ToEntries(order, j, names, key, value);
      && r.Some? && |r.value| == |names|
      && forall i :: 0 <= i < |names| ==>
           r.value[i] == Entry(KeyToDbus(names[i], First(key)).value, ToDbus(order, j.fields[names[i]], value).value)
    decreases |names|
  {
    hide ToDbus, KeyToDbus;
    if names != [] {
      EntriesFrom(order, j, names[1..], key, value);
    }
  }

  lemma {:induction false} MeaningOfDistinct(entries: seq<Entry>, n: nat)
    requires n <= |entries|
    requires forall i, j :: 0 <= i < j < |entries| ==> entries[i].key != entries[j].key
    ensures forall i :: 0 <= i < n ==>
              entries[i].key in EntriesMeaning(entries, n) &&
              EntriesMeaning(entries, n)[entries[i].key] == MeaningOf(entries[i].value)
    ensures forall k :: k in EntriesMeaning(entries, n) ==> exists i :: 0 <= i < n && entries[i].key == k
    decreases n
  {
    hide MeaningOf;
    if n > 0 {
      MeaningOfDistinct(entries, n - 1);
    }
  }

  /** What a field is turned into. */
  lemma EntryBack(order: FieldOrder, fields: map<string, Json>, m: map<Value, Meaning>, t: Ty, name: string)
    requires t.DictOf? && FieldsAgree(order, fields, m, t) && name in fields
    ensures var k := KeyToDbus(name, t.key);
            && k.Some? && k.value in m && IsKeyValue(k.value, t.key) && KeyFromDbus(k.value) == name
            && Back(ToDbus(order, fields[name], Sig(t.val)), m[k.value], t.val)
  {
    hide ToDbus, Sig, KeyToDbus, KeyFromDbus, IsKeyValue, Back;
    assert KeyBack(name, m, t.key);
    assert FieldBack(order, fields, m, KeyToDbus(name, t.key).value, t);
  }

  /** The entries are those of the names, one by one, and mean what they are to. */
  ghost predicate Gives(es: seq<Entry>, names: seq<string>, m: map<Value, Meaning>, t: Ty)
    requires t.DictOf?
  {
    && |es| == |names|
    && forall i :: 0 <= i < |es| ==>
         && es[i].key in m && IsKeyValue(es[i].key, t.key) && KeyFromDbus(es[i].key) == names[i]
         && Back(Some(es[i].value), m[es[i].key], t.val)
  }

  lemma DictEntries(order: FieldOrder, j: Json, names: seq<string>, m: map<Value, Meaning>, t: Ty)
    requires t.DictOf? && j.JObject? && FieldsAgree(order, j.fields, m, t)
    requires forall n :: n in names ==> n in j.fields
    ensures var r := ToEntries(order, j, names, [t.key], Sig(t.val)); r.Some? && Gives(r.value, names, m, t)
  {
    hide ToDbus, Sig, KeyToDbus, KeyFromDbus, IsKeyValue, ToEntries, FieldsAgree, HasType, MeaningOf, DistinctKeys;
    forall n | n in names
      ensures var k := KeyToDbus(n, t.key);
              && k.Some? && k.value in m && IsKeyValue(k.value, t.key) && KeyFromDbus(k.value) == n
              && Back(ToDbus(order, j.fields[n], Sig(t.val)), m[k.value], t.val)
    {
      EntryBack(order, j.fields, m, t, n);
    }
    EntriesFrom(order, j, names, [t.key], Sig(t.val));
  }

  lemma GivesDiffer(es: seq<Entry>, names: seq<string>, m: map<Value, Meaning>, t: Ty)
    requires t.DictOf? && Gives(es, names, m, t)
    requires forall i, k :: 0 <= i < k < |names| ==> names[i] != names[k]
    ensures KeysDiffer(es)
  {
    hide KeyFromDbus, IsKeyValue, Back;
  }

  /** With an entry for each key, all is said. */
  lemma GivesAll(es: seq<Entry>, names: seq<string>, m: map<Value, Meaning>, t: Ty)
    requires t.DictOf? && Gives(es, names, m, t) && KeysDiffer(es)
    requires forall k :: k in m ==> IsKeyValue(k, t.key) && KeyFromDbus(k) in names
    ensures EntriesMeaning(es, |es|) == m
  {
    hide KeyFromDbus, KeyToDbus, IsKeyValue, EntriesMeaning, HasType, MeaningOf, DistinctKeys;
    MeaningOfDistinct(es, |es|);
    var r := EntriesMeaning(es, |es|);
    forall k | k in m ensures k in r && r[k] == m[k] {
      KeyRoundTrip(k, t.key);
      var i :| 0 <= i < |names| && names[i] == KeyFromDbus(k);
      KeyRoundTrip(es[i].key, t.key);
      assert es[i].key == k;
    }
    assert r.Keys == m.Keys;
  }

  /** Whatever order the fields come in, they add up to the dict they came from. */
  lemma DictBack(order: FieldOrder, j: Json, m: map<Value, Meaning>, t: Ty)
    requires Enumerates(order) && t.DictOf? && j.JObject? && FieldsAgree(order, j.fields, m, t)
    ensures
      var r := ToEntries(order, j, order(j.fields.Keys), [t.key], Sig(t.val));
      && r.Some?
      && (forall i :: 0 <= i < |r.value| ==> IsKeyValue(r.value[i].key, t.key) && HasType(r.value[i].value, t.val))
      && KeysDiffer(r.value) && (forall i :: 0 <= i < |r.value| ==> DistinctKeys(r.value[i].value))
      && EntriesMeaning(r.value, |r.value|) == m
  {
    hide ToDbus, MeaningOf, HasType, DistinctKeys, Sig, KeyToDbus, KeyFromDbus, IsKeyValue, ToEntries, KeysDiffer,
      EntriesMeaning;
    var names := order(j.fields.Keys);
    assert forall n :: n in names <==> n in j.fields.Keys;
    DictEntries(order, j, names, m, t);
    var es := ToEntries(order, j, names, [t.key], Sig(t.val)).value;
    GivesDiffer(es, names, m, t);
    assert forall k :: k in m ==> FieldBack(order, j.fields, m, k, t);
    GivesAll(es, names, m, t);
  }

  // ---------- signatures of containers ----------

  lemma InsideStruct(ts: seq<Ty>)
    requires WellFormed(StructOf(ts))
    ensures First(Sig(StructOf(ts))) == '(' && Split(Inside(Sig(StructOf(ts)))) == EachSig(ts)
  {
    assert Inside(['('] + (Sigs(ts) + [')'])) == Sigs(ts);
    SplitSigs(ts);
  }

  lemma PairSigs(k: char, v: Ty)
    ensures Sigs([Basic(k), v]) == [k] + Sig(v) && EachSig([Basic(k), v]) == [[k], Sig(v)]
  {
    var ts := [Basic(k), v];
    assert ts[1..] == [v] && [v][1..] == [];
    assert Sigs([v]) == Sig(v) + [] == Sig(v);
    assert Sig(ts[0]) == [k];
    assert EachSig([v]) == [Sig(v)] + [] == [Sig(v)];
  }

  lemma DictText(k: char, v: Ty)
    ensures var s := Sig(DictOf(k, v));
            First(s) == 'a' && First(s[1..]) == '{' && Inside(s[1..]) == [k] + Sig(v)
  {
    var s := Sig(DictOf(k, v));
    assert s[1..] == ['{'] + ([k] + (Sig(v) + ['}']));
  }

  lemma InsideDict(k: char, v: Ty)
    requires WellFormed(DictOf(k, v))
    ensures
      var s := Sig(DictOf(k, v));
      First(s) == 'a' && First(s[1..]) == '{' && Split(Inside(s[1..])) == [[k], Sig(v)]
  {
    assert WellFormed(Basic(k)) && WellFormed(v);
    hide *;
    PairSigs(k, v);
    DictText(k, v);
    SplitSigs([Basic(k), v]);
  }

  lemma InsideArray(e: Ty)
    requires WellFormed(e)
    ensures First(Sig(ArrayOf(e))) == 'a' && Sig(ArrayOf(e))[1..] == Sig(e) && First(Sig(e)) != '{'
  {
    if e.StructOf? {
      assert Sig(e)[0] == '(';
    }
  }

  lemma VariantBranch(order: FieldOrder, j: Json, contained: string, signature: string)
    requires First(signature) == 'v' && j.JObject? && "signature" in j.fields && "value" in j.fields
    requires j.fields["signature"] == JString(contained) && TypeLength(contained) == |contained| > 0
    requires ToDbus(order, j.fields["value"], contained).Some?
    ensures ToDbus(order, j, signature)
         == Some(VVariant(contained, ToDbus(order, j.fields["value"], contained).value))
  {
    hide TypeLength, First;
  }

  lemma StructBranch(order: FieldOrder, j: Json, signature: string, signatures: seq<string>)
    requires First(signature) == '(' && j.JObject? && Split(Inside(signature)) == signatures
    requires ToMembers(order, j, signatures, 0).Some?
    ensures ToDbus(order, j, signature) == Some(VStruct(ToMembers(order, j, signatures, 0).value))
  {
    hide Split, Inside, First, ToMembers;
  }

  lemma DictBranch(order: FieldOrder, j: Json, signature: string, key: string, value: string)
    requires First(signature) == 'a' && First(signature[1..]) == '{' && j.JObject?
    requires Split(Inside(signature[1..])) == [key, value]
    requires ToEntries(order, j, order(j.fields.Keys), key, value).Some?
    ensures ToDbus(order, j, signature)
         == Some(VDict(signature[1..], ToEntries(order, j, order(j.fields.Keys), key, value).value))
  {
    hide Split, Inside, First, ToEntries;
  }

  // ---------- the round trip ----------

  /**
   Converting any typed value to varlink and back with its signature succeeds,
   keeps its type and, up to the order of dict entries, rebuilds it.
   */
  lemma {:induction false} RoundTrip(order: FieldOrder, v: Value, t: Ty)
    requires Enumerates(order) && WellFormed(t) && HasType(v, t)
    ensures Back(ToDbus(order, FromDbus(v), Sig(t)), MeaningOf(v), t)
    decreases v, 1
  {
    match v
    case VBool(_) =>
    case VInt(code, n) => IntRoundTrip(code, n);
    case VDouble(_) =>
    case VString(_, _) =>
    case VVariant(signature, inner) => VariantRoundTrip(order, v, t);
    case VStruct(members) => StructRoundTrip(order, v, t);
    case VArray(_, items) => ArrayRoundTrip(order, v, t);
    case VDict(_, entries) => DictRoundTrip(order, v, t);
  }

  lemma {:induction false} VariantRoundTrip(order: FieldOrder, v: Value, t: Ty)
    requires Enumerates(order) && WellFormed(t) && HasType(v, t) && v.VVariant?
    ensures Back(ToDbus(order, FromDbus(v), Sig(t)), MeaningOf(v), t)
    decreases v, 0
  {
    var it: Ty :| WellFormed(it) && v.signature == Sig(it) && HasType(v.inner, it);
    RoundTrip(order, v.inner, it);
    WholeSig(it);
    var j := FromDbus(v);
    assert j.fields["signature"] == JString(v.signature) && j.fields["value"] == FromDbus(v.inner);
    var inner := ToDbus(order, FromDbus(v.inner), v.signature).value;
    VariantBack(v, inner, it);
    assert Sig(t) == "v" && First("v") == 'v';
    hide *;
    VariantBranch(order, j, v.signature, "v");
  }

  lemma VariantBack(v: Value, inner: Value, it: Ty)
    requires v.VVariant? && WellFormed(it) && v.signature == Sig(it)
    requires Back(Some(inner), MeaningOf(v.inner), it)
    ensures Back(Some(VVariant(v.signature, inner)), MeaningOf(v), Variant)
  {
  }

  lemma {:induction false} StructRoundTrip(order: FieldOrder, v: Value, t: Ty)
    requires Enumerates(order) && WellFormed(t) && HasType(v, t) && v.VStruct?
    ensures Back(ToDbus(order, FromDbus(v), Sig(t)), MeaningOf(v), t)
    decreases v, 0
  {
    var members, ts, j := v.members, t.members, FromDbus(v);
    forall k | 0 <= k < |ts| ensures MemberFieldBack(order, j, members[k], ts[k], k) {
      MemberAt(members, |members|, k);
      RoundTrip(order, members[k], ts[k]);
    }
    InsideStruct(ts);
    MembersBack(order, j, members, ts, 0);
    assert members[0..] == members && ts[0..] == ts;
    var r := ToMembers(order, j, EachSig(ts), 0).value;
    StructBack(v, r, ts);
    hide *;
    StructBranch(order, j, Sig(t), EachSig(ts));
  }

  lemma StructBack(v: Value, r: seq<Value>, ts: seq<Ty>)
    requires v.VStruct? && AllBack(r, v.members, ts)
    ensures Back(Some(VStruct(r)), MeaningOf(v), StructOf(ts))
  {
  }

  lemma {:induction false} ArrayRoundTrip(order: FieldOrder, v: Value, t: Ty)
    requires Enumerates(order) && WellFormed(t) && HasType(v, t) && v.VArray?
    ensures Back(ToDbus(order, FromDbus(v), Sig(t)), MeaningOf(v), t)
    decreases v, 0
  {
    var items, js := v.items, FromItems(v.items, |v.items|);
    ArrayTyped(v, t);
    forall i | 0 <= i < |items|
      ensures Back(ToDbus(order, js[i], Sig(t.elem)), MeaningOf(items[i]), t.elem)
    {
      ItemAt(items, |items|, i);
      RoundTrip(order, items[i], t.elem);
      hide *;
    }
    ArrayBack(order, v, t, js);
    hide *;
  }

  /** What the type of an array says of its elements, and what it is converted to. */
  lemma ArrayTyped(v: Value, t: Ty)
    requires WellFormed(t) && HasType(v, t) && v.VArray?
    ensures t.ArrayOf? && WellFormed(t.elem) && v.element == Sig(t.elem)
    ensures |FromItems(v.items, |v.items|)| == |v.items| && FromDbus(v) == JArray(FromItems(v.items, |v.items|))
    ensures forall i :: 0 <= i < |v.items| ==> HasType(v.items[i], t.elem)
  {
    hide Sig, FromItems;
  }

  /** Elements that come back make an array that comes back. */
  lemma ArrayBack(order: FieldOrder, v: Value, t: Ty, js: seq<Json>)
    requires v.VArray? && t.ArrayOf? && WellFormed(t.elem) && v.element == Sig(t.elem) && |js| == |v.items|
             && FromDbus(v) == JArray(js)
    requires forall i :: 0 <= i < |js| ==> Back(ToDbus(order, js[i], Sig(t.elem)), MeaningOf(v.items[i]), t.elem)
    ensures Back(ToDbus(order, FromDbus(v), Sig(t)), MeaningOf(v), t)
  {
    InsideArray(t.elem);
    ItemsBack(order, js, v.items, t.elem);
    ArrayBranch(order, js, Sig(t), Sig(t.elem));
    hide ToDbus, FromDbus, Sig, WellFormed;
    SameItems(Sig(t.elem), ToItems(order, js, Sig(t.elem)).value, v.items, t);
  }

  lemma SameItems(element: string, items: seq<Value>, items': seq<Value>, t: Ty)
    requires t.ArrayOf? && element == Sig(t.elem) && |items| == |items'|
    requires forall i :: 0 <= i < |items| ==> Back(Some(items[i]), MeaningOf(items'[i]), t.elem)
    ensures Back(Some(VArray(element, items)), MeaningOf(VArray(element, items')), t)
  {
    hide Sig;
  }

  lemma ArrayBranch(order: FieldOrder, js: seq<Json>, signature: string, elem: string)
    requires First(signature) == 'a' && signature[1..] == elem && First(elem) != '{' && ToItems(order, js, elem).Some?
    ensures ToDbus(order, JArray(js), signature) == Some(VArray(elem, ToItems(order, js, elem).value))
  {
    hide ToItems, First;
  }

  lemma {:induction false} DictRoundTrip(order: FieldOrder, v: Value, t: Ty)
    requires Enumerates(order) && WellFormed(t) && HasType(v, t) && v.VDict?
    ensures Back(ToDbus(order, FromDbus(v), Sig(t)), MeaningOf(v), t)
    decreases v, 0
  {
    var entries, j := v.entries, FromDbus(v);
    EntriesAgree(order, entries, |entries|, t);
    InsideDict(t.key, t.val);
    DictBack(order, j, EntriesMeaning(entries, |entries|), t);
    var es := ToEntries(order, j, order(j.fields.Keys), [t.key], Sig(t.val)).value;
    DictTyped(v, es, t);
    hide *;
    DictBranch(order, j, Sig(t), [t.key], Sig(t.val));
  }

  lemma DictTyped(v: Value, es: seq<Entry>, t: Ty)
    requires v.VDict? && HasType(v, t)
    requires forall i :: 0 <= i < |es| ==> IsKeyValue(es[i].key, t.key) && HasType(es[i].value, t.val)
    requires KeysDiffer(es) && forall i :: 0 <= i < |es| ==> DistinctKeys(es[i].value)
    requires EntriesMeaning(es, |es|) == EntriesMeaning(v.entries, |v.entries|)
    ensures Back(Some(VDict(Sig(t)[1..], es)), MeaningOf(v), t)
  {
    hide EntriesMeaning, Sig;
  }

  lemma NothingAgrees(order: FieldOrder, t: Ty)
    requires t.DictOf?
    ensures FieldsAgree(order, map[], map[], t)
  {
  }

  lemma {:induction false} EntriesAgree(order: FieldOrder, entries: seq<Entry>, n: nat, t: Ty)
    requires Enumerates(order) && t.DictOf? && WellFormed(t) && n <= |entries|
    requires forall i :: 0 <= i < |entries| ==> IsKeyValue(entries[i].key, t.key) && HasType(entries[i].value, t.val)
    ensures FieldsAgree(order, FromEntries(entries, n), EntriesMeaning(entries, n), t)
    decreases entries, n
  {
    hide FieldsAgree, ToDbus, MeaningOf, HasType, Sig, IsKeyValue, Enumerates;
    if n == 0 {
      NothingAgrees(order, t);
    } else {
      EntriesAgree(order, entries, n - 1, t);
      var e := entries[n - 1];
      assert e.value < e;
      RoundTrip(order, e.value, t.val);
      FieldsStep(order, FromEntries(entries, n - 1), EntriesMeaning(entries, n - 1), t, e);
    }
  }

  // ---------- the same value, rearranged ----------

  predicate IsPermutation(f: seq<nat>, n: nat) {
    && |f| == n && (forall i :: 0 <= i < n ==> f[i] < n)
    && forall i, j :: 0 <= i < j < n ==> f[i] != f[j]
  }

  /** w is v, the entries of each dict perhaps in another order. */
  ghost predicate Rearranged(v: Value, w: Value)
    decreases v
  {
    match v
    case VVariant(signature, inner) => w.VVariant? && w.signature == signature && Rearranged(inner, w.inner)
    case VStruct(members) =>
      w.VStruct? && |w.members| == |members| && forall i :: 0 <= i < |members| ==> Rearranged(members[i], w.members[i])
    case VArray(element, items) =>
      && w.VArray? && w.element == element && |w.items| == |items|
      && forall i :: 0 <= i < |items| ==> Rearranged(items[i], w.items[i])
    case VDict(entry, entries) =>
      && w.VDict? && w.entry == entry && |w.entries| == |entries|
      && exists f :: IsPermutation(f, |entries|) && forall i :: 0 <= i < |entries| ==>
           w.entries[f[i]].key == entries[i].key && Rearranged(entries[i].value, w.entries[f[i]].value)
    case _ => w == v
  }

  lemma {:induction false} MeaningSize(entries: seq<Entry>, n: nat)
    requires n <= |entries| && KeysDiffer(entries)
    ensures |EntriesMeaning(entries, n)| == n
    decreases n
  {
    hide MeaningOf;
    if n > 0 {
      MeaningSize(entries, n - 1);
      MeaningOfDistinct(entries, n - 1);
    }
  }

  /** What two dicts with distinct keys and one meaning have in common. */
  lemma EntriesMatch(es: seq<Entry>, ws: seq<Entry>)
    requires KeysDiffer(es) && KeysDiffer(ws) && EntriesMeaning(es, |es|) == EntriesMeaning(ws, |ws|)
    ensures |es| == |ws|
    ensures forall i :: 0 <= i < |es| ==>
              exists j :: 0 <= j < |ws| && ws[j].key == es[i].key && MeaningOf(ws[j].value) == MeaningOf(es[i].value)
  {
    MeaningSize(es, |es|);
    MeaningSize(ws, |ws|);
    MeaningOfDistinct(es, |es|);
    MeaningOfDistinct(ws, |ws|);
    var m := EntriesMeaning(es, |es|);
    hide MeaningOf, EntriesMeaning, KeysDiffer;
    forall i | 0 <= i < |es|
      ensures exists j :: 0 <= j < |ws| && ws[j].key == es[i].key && MeaningOf(ws[j].value) == MeaningOf(es[i].value)
    {
      assert es[i].key in m && m[es[i].key] == MeaningOf(es[i].value);
      var j :| 0 <= j < |ws| && ws[j].key == es[i].key;
      assert m[ws[j].key] == MeaningOf(ws[j].value);
    }
  }

  ghost function At(ws: seq<Entry>, key: Value): (j: nat)
    requires exists j :: 0 <= j < |ws| && ws[j].key == key
    ensures j < |ws| && ws[j].key == key
  {
    var j :| 0 <= j < |ws| && ws[j].key == key;
    j
  }

  lemma Matching(es: seq<Entry>, ws: seq<Entry>) returns (f: seq<nat>)
    requires KeysDiffer(es) && KeysDiffer(ws) && EntriesMeaning(es, |es|) == EntriesMeaning(ws, |ws|)
    ensures |es| == |ws| && IsPermutation(f, |es|)
    ensures forall i :: 0 <= i < |es| ==>
              ws[f[i]].key == es[i].key && MeaningOf(ws[f[i]].value) == MeaningOf(es[i].value)
  {
    EntriesMatch(es, ws);
    hide MeaningOf, EntriesMeaning;
    f := seq(|es|, i requires 0 <= i < |es| => At(ws, es[i].key));
    forall i | 0 <= i < |es|
      ensures ws[f[i]].key == es[i].key && MeaningOf(ws[f[i]].value) == MeaningOf(es[i].value)
    {
      var j :| 0 <= j < |ws| && ws[j].key == es[i].key && MeaningOf(ws[j].value) == MeaningOf(es[i].value);
      assert j == f[i];
    }
  }

  /** Values with distinct keys that mean the same are the same but for the order of dict entries. */
  lemma {:induction false} SameMeaning(v: Value, w: Value)
    requires DistinctKeys(v) && DistinctKeys(w) && MeaningOf(v) == MeaningOf(w)
    ensures Rearranged(v, w)
    decreases v, 1
  {
    match v
    case VVariant(_, inner) => SameMeaning(inner, w.inner);
    case VStruct(members) =>
      hide EntriesMeaning;
      forall i | 0 <= i < |members|
        ensures Rearranged(members[i], w.members[i])
      {
        assert MeaningOf(v).members[i] == MeaningOf(w).members[i];
        SameMeaning(members[i], w.members[i]);
      }
    case VArray(_, items) =>
      hide EntriesMeaning;
      forall i | 0 <= i < |items|
        ensures Rearranged(items[i], w.items[i])
      {
        assert MeaningOf(v).items[i] == MeaningOf(w).items[i];
        SameMeaning(items[i], w.items[i]);
      }
    case VDict(_, entries) => SameMeaningDict(v, w); hide Rearranged;
    case _ =>
  }

  lemma {:induction false} SameMeaningDict(v: Value, w: Value)
    requires DistinctKeys(v) && DistinctKeys(w) && MeaningOf(v) == MeaningOf(w) && v.VDict?
    ensures Rearranged(v, w)
    decreases v, 0
  {
    var entries := v.entries;
    assert w.VDict? && w.entry == v.entry
           && EntriesMeaning(entries, |entries|) == EntriesMeaning(w.entries, |w.entries|);
    assert forall i :: 0 <= i < |entries| ==> DistinctKeys(entries[i].value);
    assert forall i :: 0 <= i < |w.entries| ==> DistinctKeys(w.entries[i].value);
    assert KeysDiffer(entries) && KeysDiffer(w.entries);
    hide MeaningOf, EntriesMeaning, DistinctKeys, KeysDiffer, IsPermutation;
    var f := Matching(entries, w.entries);
    forall i | 0 <= i < |entries|
      ensures Rearranged(entries[i].value, w.entries[f[i]].value)
    {
      assert entries[i].value < entries[i];
      InRangeOf(f, |entries|, i);
      hide Rearranged;
      SameMeaning(entries[i].value, w.entries[f[i]].value);
    }
  }

  lemma InRangeOf(f: seq<nat>, n: nat, i: nat)
    requires IsPermutation(f, n) && i < n
    ensures |f| == n && f[i] < n
  {
  }

  lemma {:induction false} RearrangedDistinct(v: Value, w: Value)
    requires Rearranged(v, w) && DistinctKeys(w)
    ensures DistinctKeys(v)
    decreases v
  {
    match v
    case VVariant(_, inner) => RearrangedDistinct(inner, w.inner);
    case VStruct(members) =>
      forall i | 0 <= i < |members|
        ensures DistinctKeys(members[i])
      {
        RearrangedDistinct(members[i], w.members[i]);
      }
    case VArray(_, items) =>
      forall i | 0 <= i < |items|
        ensures DistinctKeys(items[i])
      {
        RearrangedDistinct(items[i], w.items[i]);
      }
    case VDict(_, entries) =>
      var f :| IsPermutation(f, |entries|) && forall i :: 0 <= i < |entries| ==>
                 w.entries[f[i]].key == entries[i].key && Rearranged(entries[i].value, w.entries[f[i]].value);
      forall i | 0 <= i < |entries|
        ensures DistinctKeys(entries[i].value)
      {
        assert entries[i].value < entries[i];
        RearrangedDistinct(entries[i].value, w.entries[f[i]].value);
      }
      assert forall i, j :: 0 <= i < j < |entries| ==> w.entries[f[i]].key != w.entries[f[j]].key;
    case _ =>
  }

  /**
   What comes back is the value itself, dict entries perhaps in another order,
   exactly if no dict in it had a key twice.
   */
  lemma ComesBackExactly(order: FieldOrder, v: Value, t: Ty)
    requires Enumerates(order) && WellFormed(t) && HasType(v, t)
    ensures var r := ToDbus(order, FromDbus(v), Sig(t));
            r.Some? && HasType(r.value, t) && (Rearranged(v, r.value) <==> DistinctKeys(v))
  {
    RoundTrip(order, v, t);
    var r := ToDbus(order, FromDbus(v), Sig(t));
    hide ToDbus, FromDbus, Sig, HasType, WellFormed, Rearranged, DistinctKeys, MeaningOf;
    if DistinctKeys(v) {
      SameMeaning(v, r.value);
    }
    if Rearranged(v, r.value) {
      RearrangedDistinct(v, r.value);
    }
  }

  // ---------- a key twice ----------

  const KEY: Value := VString('s', "a")
  const TWICE: Value := VDict("{sy}", [Entry(KEY, VInt('y', 1)), Entry(KEY, VInt('y', 2))])

  lemma TwiceTyped()
    ensures var t := DictOf('s', Basic('y'));
            WellFormed(t) && Sig(t) == "a{sy}" && HasType(TWICE, t) && !DistinctKeys(TWICE)
  {
    var t := DictOf('s', Basic('y'));
    assert Sig(t) == "a{sy}" && "a{sy}"[1..] == "{sy}";
    assert TWICE.entries[0].key == TWICE.entries[1].key;
    hide Sig;
  }

  lemma TwiceMeans()
    ensures MeaningOf(TWICE) == MDict("{sy}", map[KEY := MInt('y', 2)])
  {
    var es := TWICE.entries;
    assert EntriesMeaning(es, 0) == map[];
    assert EntriesMeaning(es, 1) == map[KEY := MInt('y', 1)];
    assert EntriesMeaning(es, 2) == map[KEY := MInt('y', 2)];
  }

  /** A dict with a key twice comes back with the last of its entries only. */
  lemma KeyTwiceLost(order: FieldOrder)
    requires Enumerates(order)
    ensures ToDbus(order, FromDbus(TWICE), "a{sy}") == Some(VDict("{sy}", [Entry(KEY, VInt('y', 2))]))
  {
    var t := DictOf('s', Basic('y'));
    TwiceTyped();
    TwiceMeans();
    RoundTrip(order, TWICE, t);
    var r := ToDbus(order, FromDbus(TWICE), "a{sy}");
    hide ToDbus, FromDbus, Sig, WellFormed;
    OnlyEntry(r.value);
  }

  lemma OnlyEntry(v: Value)
    requires DistinctKeys(v) && MeaningOf(v) == MDict("{sy}", map[KEY := MInt('y', 2)])
    ensures v == VDict("{sy}", [Entry(KEY, VInt('y', 2))])
  {
    assert v.VDict?;
    var es := v.entries;
    MeaningSize(es, |es|);
    MeaningOfDistinct(es, |es|);
    assert |es| == 1 && es[0].key == KEY && MeaningOf(es[0].value) == MInt('y', 2);
    hide EntriesMeaning, DistinctKeys;
    assert es == [es[0]];
  }
}
