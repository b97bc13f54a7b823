/** Values between D-Bus and varlink, in both directions. */
module Convert {
  import opened Bytes
  import opened Signature
  import Decimal

  // ---------- both sides ----------

  /** A double, passed along untouched. */
  datatype Double = Double(bits: bv64)

  /** A D-Bus value as it is on the wire; containers know their contents' signature. */
  datatype Value =
    | VBool(b: bool)
    | VInt(code: char, n: int)
    | VDouble(d: Double)
    | VString(code: char, s: string)
    | VVariant(signature: string, inner: Value)
    | VStruct(members: seq<Value>)
    | VArray(element: string, items: seq<Value>)
    | VDict(entry: string, entries: seq<Entry>)

  datatype Entry = Entry(key: Value, value: Value)

  /** A varlink value. */
  datatype Json =
    | JBool(b: bool)
    | JInt(n: int)
    | JFloat(d: Double)
    | JString(s: string)
    | JArray(items: seq<Json>)
    | JObject(fields: map<string, Json>)

  predicate InRange(code: char, n: int) {
    match code
    case 'y' => 0 <= n < 0x100
    case 'n' => -0x8000 <= n < 0x8000
    case 'q' => 0 <= n < 0x10000
    case 'i' => -0x8000_0000 <= n < 0x8000_0000
    case 'u' => 0 <= n < 0x1_0000_0000
    case 'x' => Decimal.INT64_MIN <= n <= Decimal.INT64_MAX
    case 't' => 0 <= n < 0x1_0000_0000_0000_0000
    case _ => false
  }

  predicate IsKeyValue(k: Value, code: char) {
    match k
    case VBool(_) => code == 'b'
    case VInt(c, n) => code == c && InRange(c, n)
    case VString(c, _) => code == c && IsStringLike(c)
    case _ => false
  }

  ghost predicate HasType(v: Value, t: Ty)
    decreases v
  {
    match v
    case VBool(_) => t == Basic('b')
    case VInt(c, n) => t == Basic(c) && InRange(c, n)
    case VDouble(_) => t == Basic('d')
    case VString(c, _) => t == Basic(c) && IsStringLike(c)
    case VVariant(signature, inner) =>
      t == Variant && exists it: Ty :: WellFormed(it) && signature == Sig(it) && HasType(inner, it)
    case VStruct(members) =>
      t.StructOf? && |members| == |t.members| &&
      forall i :: 0 <= i < |members| ==> HasType(members[i], t.members[i])
    case VArray(element, items) =>
      t.ArrayOf? && element == Sig(t.elem) && forall i :: 0 <= i < |items| ==> HasType(items[i], t.elem)
    case VDict(entry, entries) =>
      t.DictOf? && entry == Sig(t)[1..] &&
      forall i :: 0 <= i < |entries| ==> IsKeyValue(entries[i].key, t.key) && HasType(entries[i].value, t.val)
  }

  // ---------- integers and keys ----------

  function Wrap(n: int, modulus: nat, signed: bool): int
    requires modulus > 0
  {
    var m := n % modulus;
    if signed && m >= modulus / 2 then m - modulus else m
  }

  /** `read_int`: everything fits 64 signed bits, but for a `t` past INT64_MAX. */
  function ReadInt(code: char, n: int): int {
    if code == 't' && n > Decimal.INT64_MAX then n - 0x1_0000_0000_0000_0000 else n
  }

  /** `append_int`: cut to the type's width. */
  function AppendInt(code: char, n: int): Value {
    VInt(code,
      match code
      case 'y' => Wrap(n, 0x100, false)
      case 'n' => Wrap(n, 0x10000, true)
      case 'q' => Wrap(n, 0x10000, false)
      case 'i' => Wrap(n, 0x1_0000_0000, true)
      case 'u' => Wrap(n, 0x1_0000_0000, false)
      case 't' => Wrap(n, 0x1_0000_0000_0000_0000, false)
      case _ => n)
  }

  function KeyFromDbus(k: Value): string {
    match k
    case VString(_, s) => s
    case VBool(b) => if b then "true" else "false"
    case VInt(code, n) => Decimal.Print(ReadInt(code, n))
    case _ => ""
  }

  function KeyToDbus(key: string, code: char): Option<Value> {
    if IsStringLike(code) then Some(VString(code, key))
    else if code == 'b' then Some(VBool(key == "true"))
    else if IsBasicInt(code) then Some(AppendInt(code, Decimal.Strtoll(key)))
    else None
  }

  lemma IntRoundTrip(code: char, n: int)
    requires InRange(code, n)
    ensures IsBasicInt(code)
    ensures Decimal.INT64_MIN <= ReadInt(code, n) <= Decimal.INT64_MAX
    ensures AppendInt(code, ReadInt(code, n)) == VInt(code, n)
  {
  }

  lemma KeyRoundTrip(k: Value, code: char)
    requires IsKeyValue(k, code)
    ensures KeyToDbus(KeyFromDbus(k), code) == Some(k)
  {
    if k.VInt? {
      IntRoundTrip(code, k.n);
      Decimal.ReadBack(ReadInt(code, k.n));
    }
  }

  /** However the text came about, the integer that is appended fits its type. */
  lemma AppendedFits(code: char, n: int)
    requires IsBasicInt(code) && Decimal.INT64_MIN <= n <= Decimal.INT64_MAX
    ensures HasType(AppendInt(code, n), Basic(code))
  {
  }

  // ---------- D-Bus to varlink ----------

  function FromDbus(v: Value): Json {
    match v
    case VBool(b) => JBool(b)
    case VInt(code, n) => JInt(ReadInt(code, n))
    case VDouble(d) => JFloat(d)
    case VString(_, s) => JString(s)
    case VVariant(signature, inner) =>
      JObject(map["signature" := JString(signature), "value" := FromDbus(inner)])
    case VStruct(members) => JObject(FromMembers(members, |members|))
    case VArray(_, items) => JArray(FromItems(items, |items|))
    case VDict(_, entries) => JObject(FromEntries(entries, |entries|))
  }

  /** The first n members, as fields "0", "1", ... */
  function FromMembers(members: seq<Value>, n: nat): map<string, Json>
    requires n <= |members|
    decreases members, n
  {
    if n == 0 then map[]
    else FromMembers(members, n - 1)[Decimal.Natural(n - 1) := FromDbus(members[n - 1])]
  }

  function FromItems(items: seq<Value>, n: nat): (r: seq<Json>)
    requires n <= |items|
    ensures |r| == n
    decreases items, n
  {
    if n == 0 then [] else FromItems(items, n - 1) + [FromDbus(items[n - 1])]
  }

  /** The first n entries; a key that comes up again replaces its value. */
  function FromEntries(entries: seq<Entry>, n: nat): map<string, Json>
    requires n <= |entries|
    decreases entries, n
  {
    if n == 0 then map[]
    else
      var e := entries[n - 1];
      assert e.value < e;
      FromEntries(entries, n - 1)[KeyFromDbus(e.key) := FromDbus(e.value)]
  }

  // ---------- varlink to D-Bus ----------

  /** The order an object's fields come in, which is the varlink library's business. */
  type FieldOrder = set<string> -> seq<string>

  ghost predicate Enumerates(order: FieldOrder) {
    forall names: set<string> ::
      && (forall n :: n in order(names) <==> n in names)
      && (forall i, j :: 0 <= i < j < |order(names)| ==> order(names)[i] != order(names)[j])
  }

  /** What is between the brackets of "(...)" or "{...}". */
  function Inside(s: string): string {
    if |s| < 2 then [] else s[1..|s| - 1]
  }

  function First(s: string): char {
    if s == [] then '\0' else s[0]
  }

  function ToDbus(order: FieldOrder, j: Json, signature: string): Option<Value>
    decreases j, 2
  {
    var code := First(signature);
    if code == 'v' then
      if j.JObject? && "signature" in j.fields && j.fields["signature"].JString? then
        var contained := j.fields["signature"].s;
        if contained == [] || TypeLength(contained) != |contained| || "value" !in j.fields then None
        else
          match ToDbus(order, j.fields["value"], contained)
          case None => None
          case Some(v) => Some(VVariant(contained, v))
      else None
    else if code == '(' then
      if j.JObject? then
        match ToMembers(order, j, Split(Inside(signature)), 0)
        case None => None
        case Some(members) => Some(VStruct(members))
      else None
    else if code == 'a' && First(signature[1..]) == '{' then
      var kv := Split(Inside(signature[1..]));
      if j.JObject? && |kv| == 2 then
        match ToEntries(order, j, order(j.fields.Keys), kv[0], kv[1])
        case None => None
        case Some(entries) => Some(VDict(signature[1..], entries))
      else None
    else if code == 'a' then
      if j.JArray? then
        match ToItems(order, j.items, signature[1..])
        case None => None
        case Some(items) => Some(VArray(signature[1..], items))
      else None
    else BasicToDbus(j, code)
  }

  /** Types that are not containers: the varlink value has to be of the matching kind. */
  function BasicToDbus(j: Json, code: char): Option<Value> {
    match j
    case JBool(b) => if code == 'b' then Some(VBool(b)) else None
    case JFloat(d) => if code == 'd' then Some(VDouble(d)) else None
    case JString(s) => if IsStringLike(code) then Some(VString(code, s)) else None
    case JInt(n) => if IsBasicInt(code) then Some(AppendInt(code, n)) else None
    case _ => None
  }

  /** Member i on, each from the field its index names. */
  function ToMembers(order: FieldOrder, j: Json, signatures: seq<string>, i: nat): Option<seq<Value>>
    requires j.JObject? && i <= |signatures|
    decreases j, 1, |signatures| - i
  {
    if i == |signatures| then Some([])
    else if Decimal.Natural(i) !in j.fields then None
    else
      match ToDbus(order, j.fields[Decimal.Natural(i)], signatures[i])
      case None => None
      case Some(v) =>
        match ToMembers(order, j, signatures, i + 1)
        case None => None
        case Some(more) => Some([v] + more)
  }

  function ToItems(order: FieldOrder, items: seq<Json>, element: string): Option<seq<Value>>
    decreases items, 1
  {
    if items == [] then Some([])
    else
      match ToDbus(order, items[0], element)
      case None => None
      case Some(v) =>
        match ToItems(order, items[1..], element)
        case None => None
        case Some(more) => Some([v] + more)
  }

  function ToEntries(order: FieldOrder, j: Json, names: seq<string>, key: string, value: string): Option<seq<Entry>>
    requires j.JObject?
    decreases j, 1, |names|
  {
    if names == [] then Some([])
    else if names[0] !in j.fields then None
    else
      match KeyToDbus(names[0], First(key))
      case None => None
      case Some(k) =>
        match ToDbus(order, j.fields[names[0]], value)
        case None => None
        case Some(v) =>
          match ToEntries(order, j, names[1..], key, value)
          case None => None
          case Some(more) => Some([Entry(k, v)] + more)
  }

  // ---------- the converters, as they walk the containers ----------

  method FromDbusIter(v: Value) returns (j: Json)
    ensures j == FromDbus(v)
    decreases v
  {
    match v
    case VBool(b) => j := JBool(b);
    case VInt(code, n) => j := JInt(ReadInt(code, n));
    case VDouble(d) => j := JFloat(d);
    case VString(_, s) => j := JString(s);
    case VVariant(signature, inner) =>
      var variant: map<string, Json> := map["signature" := JString(signature)];
      var value := FromDbusIter(inner);
      j := JObject(variant["value" := value]);
    case VStruct(members) =>
      var fields: map<string, Json> := map[];
      for i := 0 to |members|
        invariant fields == FromMembers(members, i)
      {
        var member := FromDbusIter(members[i]);
        fields := fields[Decimal.Natural(i) := member];
      }
      j := JObject(fields);
    case VArray(_, items) =>
      var elements: seq<Json> := [];
      for i := 0 to |items|
        invariant elements == FromItems(items, i)
      {
        var item := FromDbusIter(items[i]);
        elements := elements + [item];
      }
      j := JArray(elements);
    case VDict(_, entries) =>
      var fields: map<string, Json> := map[];
      for i := 0 to |entries|
        invariant fields == FromEntries(entries, i)
      {
        var e := entries[i];
        assert e.value < e;
        var value := FromDbusIter(e.value);
        fields := fields[KeyFromDbus(e.key) := value];
      }
      j := JObject(fields);
  }

  /** What a loop that stops at the first failure has so far, and what is still to come. */
  ghost predicate Completes<T>(all: Option<seq<T>>, done: seq<T>, rest: Option<seq<T>>) {
    if rest.None? then all.None? else all.Some? && all.value == done + rest.value
  }

  method ToDbusIter(order: FieldOrder, j: Json, signature: string) returns (r: Option<Value>)
    ensures r == ToDbus(order, j, signature)
    decreases j, 2
  {
    hide BasicToDbus, TypeLength, Split, Inside, KeyToDbus;
    var code := First(signature);
    if code == 'v' {
      r := ToVariantIter(order, j, signature);
    } else if code == '(' {
      if !j.JObject? {
        return None;
      }
      var signatures := SplitSignature(Inside(signature));
      var members := ToMembersIter(order, j, signatures);
      r := if members.None? then None else Some(VStruct(members.value));
    } else if code == 'a' && First(signature[1..]) == '{' {
      var kv := SplitSignature(Inside(signature[1..]));
      if !j.JObject? || |kv| != 2 {
        return None;
      }
      var entries := ToEntriesIter(order, j, order(j.fields.Keys), kv[0], kv[1]);
      r := if entries.None? then None else Some(VDict(signature[1..], entries.value));
    } else if code == 'a' {
      if !j.JArray? {
        return None;
      }
      var items := ToItemsIter(order, j, signature[1..]);
      r := if items.None? then None else Some(VArray(signature[1..], items.value));
    } else {
      r := BasicToDbus(j, code);
    }
  }

  method ToVariantIter(order: FieldOrder, j: Json, signature: string) returns (r: Option<Value>)
    requires First(signature) == 'v'
    ensures r == ToDbus(order, j, signature)
    decreases j, 1
  {
    hide TypeLength;
    if !j.JObject? || "signature" !in j.fields || !j.fields["signature"].JString? {
      return None;
    }
    var contained := j.fields["signature"].s;
    var length := CompleteTypeLength(contained);
    if length != |contained| || contained == [] || "value" !in j.fields {
      return None;
    }
    var value := ToDbusIter(order, j.fields["value"], contained);
    r := if value.None? then None else Some(VVariant(contained, value.value));
  }

  method ToMembersIter(order: FieldOrder, j: Json, signatures: seq<string>) returns (r: Option<seq<Value>>)
    requires j.JObject?
    ensures r == ToMembers(order, j, signatures, 0)
    decreases j, 1
  {
    hide ToDbus;
    var members: seq<Value> := [];
    for i := 0 to |signatures|
      invariant Completes(ToMembers(order, j, signatures, 0), members, ToMembers(order, j, signatures, i))
    {
      if Decimal.Natural(i) !in j.fields {
        return None;
      }
      var member := ToDbusIter(order, j.fields[Decimal.Natural(i)], signatures[i]);
      if member.None? {
        return None;
      }
      members := members + [member.value];
    }
    assert members + [] == members;
    r := Some(members);
  }

  method ToItemsIter(order: FieldOrder, j: Json, element: string) returns (r: Option<seq<Value>>)
    requires j.JArray?
    ensures r == ToItems(order, j.items, element)
    decreases j, 1
  {
    hide ToDbus;
    var items: seq<Value> := [];
    for i := 0 to |j.items|
      invariant Completes(ToItems(order, j.items, element), items, ToItems(order, j.items[i..], element))
    {
      assert j.items[i..][1..] == j.items[i + 1..];
      var item := ToDbusIter(order, j.items[i], element);
      if item.None? {
        return None;
      }
      items := items + [item.value];
    }
    assert items + [] == items;
    r := Some(items);
  }

  method ToEntriesIter(order: FieldOrder, j: Json, names: seq<string>, key: string, value: string)
    returns (r: Option<seq<Entry>>)
    requires j.JObject?
    ensures r == ToEntries(order, j, names, key, value)
    decreases j, 1
  {
    hide ToDbus, KeyToDbus, First;
    var entries: seq<Entry> := [];
    for i := 0 to |names|
      invariant Completes(ToEntries(order, j, names, key, value), entries, ToEntries(order, j, names[i..], key, value))
    {
      assert names[i..][1..] == names[i + 1..];
      if names[i] !in j.fields {
        return None;
      }
      var k := KeyToDbus(names[i], First(key));
      if k.None? {
        return None;
      }
      var v := ToDbusIter(order, j.fields[names[i]], value);
      if v.None? {
        return None;
      }
      entries := entries + [Entry(k.value, v.value)];
    }
    assert entries + [] == entries;
    r := Some(entries);
  }
}
