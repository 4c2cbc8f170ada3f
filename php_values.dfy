/** The PHP values the gateway client handles: json_decode output, PHP's
    empty / truthiness / isset rules, ordered arrays with string keys and the
    array union operator `+`. */
module PhpValues {
  import opened PhpStrings

  datatype Option<+T> = None | Some(value: T)

  /** What PHP throws: `Exception` is a \Exception raised by the library with
      this message; `Fatal` is an engine error. */
  datatype Error = Exception(message: string) | Fatal(message: string)

  datatype Result<+T> = Ok(value: T) | Err(error: Error)

  datatype Outcome = Pass | Fail(error: Error)

  /** A value as json_decode returns it (objects become stdClass instances,
      whose properties keep their order). Numbers are integers here; PHP keeps
      them within a zend_long (InLongRange), larger ones decode as floats. An
      object json_decode returns has distinct property names (a repeated name
      keeps its last value), so Property, which reads the first entry with a
      name, reads that name's only entry. */
  datatype Json =
    | JNull
    | JBool(b: bool)
    | JInt(n: int)
    | JStr(s: string)
    | JArr(items: seq<Json>)
    | JObj(fields: seq<(string, Json)>)

  /** A PHP array: its keys in insertion order, each with its value. */
  type Entries<K, V> = seq<(K, V)>

  /** Request parameters: a PHP array with string keys. */
  type Params = Entries<string, Json>

  /** A string or null as PHP's `.` writes it: null is "". */
  function Text(s: Option<string>): string {
    if s.None? then "" else s.value
  }

  /** PHP `empty` on a string or null: null, "" and "0" are empty. */
  predicate IsEmpty(s: Option<string>) {
    s.None? || s.value == "" || s.value == "0"
  }

  /** PHP's `(bool)` cast of a decoded value. */
  predicate Truthy(v: Json) {
    match v
    case JNull => false
    case JBool(b) => b
    case JInt(n) => n != 0
    case JStr(s) => s != "" && s != "0"
    case JArr(items) => |items| > 0
    case JObj(_) => true
  }

  function Keys<K(==), V>(p: Entries<K, V>): set<K> {
    if p == [] then {} else {p[0].0} + Keys(p[1..])
  }

  predicate UniqueKeys<K(==), V>(p: Entries<K, V>) {
    forall i, j :: 0 <= i < j < |p| ==> p[i].0 != p[j].0
  }

  /** `$p[$k]` when `isset`: the value of the first entry with key k. */
  function Lookup<K(==), V>(p: Entries<K, V>, k: K): (r: Option<V>)
    ensures r.Some? <==> k in Keys(p)
    ensures r.Some? ==> (k, r.value) in p
  {
    if p == [] then None else if p[0].0 == k then Some(p[0].1) else Lookup(p[1..], k)
  }

  /** The entries of r whose keys l does not have, in r's order. */
  function NewEntries<K(==), V>(l: Entries<K, V>, r: Entries<K, V>): (f: Entries<K, V>)
    ensures forall e :: e in f ==> e in r && e.0 !in Keys(l)
  {
    if r == [] then []
    else (if r[0].0 in Keys(l) then [] else [r[0]]) + NewEntries(l, r[1..])
  }

  /** PHP's `l + r`: l unchanged, followed by the entries of r whose keys l lacks. */
  function ArrayUnion<K(==), V>(l: Entries<K, V>, r: Entries<K, V>): Entries<K, V> {
    l + NewEntries(l, r)
  }

  lemma {:induction false} KeysAppend<K, V>(a: Entries<K, V>, b: Entries<K, V>)
    ensures Keys(a + b) == Keys(a) + Keys(b)
  {
    if a != [] {
      assert (a + b)[1..] == a[1..] + b;
      KeysAppend(a[1..], b);
    } else {
      assert a + b == b;
    }
  }

  lemma {:induction false} LookupAppend<K, V>(a: Entries<K, V>, b: Entries<K, V>, k: K)
    ensures Lookup(a + b, k) == if k in Keys(a) then Lookup(a, k) else Lookup(b, k)
  {
    if a != [] {
      assert (a + b)[1..] == a[1..] + b;
      LookupAppend(a[1..], b, k);
    } else {
      assert a + b == b;
    }
  }

  lemma {:induction false} NewEntriesLookup<K, V>(l: Entries<K, V>, r: Entries<K, V>, k: K)
    requires k !in Keys(l)
    ensures Lookup(NewEntries(l, r), k) == Lookup(r, k)
  {
    if r != [] {
      var head := if r[0].0 in Keys(l) then [] else [r[0]];
      NewEntriesLookup(l, r[1..], k);
      LookupAppend(head, NewEntries(l, r[1..]), k);
    }
  }

  lemma {:induction false} NewEntriesKeys<K, V>(l: Entries<K, V>, r: Entries<K, V>)
    ensures Keys(NewEntries(l, r)) == Keys(r) - Keys(l)
  {
    if r != [] {
      var head := if r[0].0 in Keys(l) then [] else [r[0]];
      NewEntriesKeys(l, r[1..]);
      KeysAppend(head, NewEntries(l, r[1..]));
    }
  }

  /** Looking a key up in `l + r` finds l's value when l has the key, and r's otherwise. */
  lemma UnionLookup<K, V>(l: Entries<K, V>, r: Entries<K, V>)
    ensures forall k :: Lookup(ArrayUnion(l, r), k) == if k in Keys(l) then Lookup(l, k) else Lookup(r, k)
  {
    forall k ensures Lookup(ArrayUnion(l, r), k) == if k in Keys(l) then Lookup(l, k) else Lookup(r, k) {
      LookupAppend(l, NewEntries(l, r), k);
      if k !in Keys(l) {
        NewEntriesLookup(l, r, k);
      }
    }
  }

  /** `l + r` has exactly the keys of l and of r. */
  lemma UnionKeys<K, V>(l: Entries<K, V>, r: Entries<K, V>)
    ensures Keys(ArrayUnion(l, r)) == Keys(l) + Keys(r)
  {
    KeysAppend(l, NewEntries(l, r));
    NewEntriesKeys(l, r);
  }

  lemma {:induction false} KeysMember<K, V>(p: Entries<K, V>, i: nat)
    requires i < |p|
    ensures p[i].0 in Keys(p)
  {
    if i > 0 {
      KeysMember(p[1..], i - 1);
    }
  }

  lemma {:induction false} NewEntriesUnique<K, V>(l: Entries<K, V>, r: Entries<K, V>)
    requires UniqueKeys(r)
    ensures UniqueKeys(NewEntries(l, r))
  {
    if r != [] {
      var tail := NewEntries(l, r[1..]);
      NewEntriesUnique(l, r[1..]);
      if r[0].0 !in Keys(l) {
        forall j | 0 <= j < |tail| ensures tail[j].0 != r[0].0 {
          assert tail[j] in tail;
          var m :| 0 <= m < |r[1..]| && r[1..][m] == tail[j];
          assert r[m + 1] == tail[j];
        }
        assert NewEntries(l, r) == [r[0]] + tail;
      }
    }
  }

  /** `l + r` of two arrays is again an array: no key occurs twice. */
  lemma UnionUnique<K, V>(l: Entries<K, V>, r: Entries<K, V>)
    requires UniqueKeys(l) && UniqueKeys(r)
    ensures UniqueKeys(ArrayUnion(l, r))
  {
    var f := NewEntries(l, r);
    NewEntriesUnique(l, r);
    forall i, j | 0 <= i < |l| <= j < |l| + |f| ensures (l + f)[i].0 != (l + f)[j].0 {
      KeysMember(l, i);
      assert f[j - |l|] in f;
    }
  }

  lemma {:induction false} NewEntriesOfSubsumed<K, V>(l: Entries<K, V>, r: Entries<K, V>)
    requires Keys(r) <= Keys(l)
    ensures NewEntries(l, r) == []
  {
    if r != [] {
      NewEntriesOfSubsumed(l, r[1..]);
    }
  }

  /** Adding the same array a second time changes nothing: `(l + r) + r == l + r`. */
  lemma UnionIdempotent<K, V>(l: Entries<K, V>, r: Entries<K, V>)
    ensures ArrayUnion(ArrayUnion(l, r), r) == ArrayUnion(l, r)
  {
    UnionKeys(l, r);
    NewEntriesOfSubsumed(ArrayUnion(l, r), r);
  }

  /** `$v->k`: the property's value, or null when v is not an object or lacks it. */
  function Property(v: Json, k: string): (r: Json)
    ensures r != JNull ==> v.JObj? && Lookup(v.fields, k) == Some(r)
  {
    if v.JObj? then (match Lookup(v.fields, k) case Some(x) => x case None => JNull) else JNull
  }

  /** `isset($v->k)`: the property exists and is not null. */
  predicate IsSet(v: Json, k: string) {
    Property(v, k) != JNull
  }

  predicate IsScalar(v: Json) {
    !v.JArr? && !v.JObj?
  }

  /** A decoded value interpolated into a double-quoted string: an array is
      written "Array" (with a notice); an object without __toString, as every
      stdClass is, cannot be written at all. */
  function Interpolate(v: Json): string
    requires !v.JObj?
  {
    match v
    case JArr(_) => "Array"
    case JNull => ""
    case JBool(b) => if b then "1" else ""
    case JInt(n) => IntToDecimal(n)
    case JStr(s) => s
  }

  /** An array key after PHP's key conversion. */
  datatype Key = IntKey(i: int) | StringKey(s: string)

  /** The key PHP uses when a scalar indexes an array: null is "", booleans
      are 0 and 1, integer strings become ints. */
  function ArrayKey(v: Json): Key
    requires IsScalar(v)
  {
    match v
    case JNull => StringKey("")
    case JBool(b) => IntKey(if b then 1 else 0)
    case JInt(n) => IntKey(n)
    case JStr(s) => if IsIntegerString(s) then IntKey(IntegerValue(s)) else StringKey(s)
  }

  /** A string key converts to the int key n exactly when it is the decimal
      text of n and n fits a zend_long. */
  lemma StringKeyIsInt(s: string, n: int)
    ensures ArrayKey(JStr(s)) == IntKey(n) <==> s == IntToDecimal(n) && InLongRange(n)
  {
    if s == IntToDecimal(n) {
      DecimalIsIntegerString(n);
    }
    if ArrayKey(JStr(s)) == IntKey(n) {
      IntegerStringIsDecimal(s);
    }
  }

  /** A code sent as the decimal string of a PHP int n indexes an array as n
      itself does. */
  lemma DecimalStringKey(n: int)
    requires InLongRange(n)
    ensures ArrayKey(JStr(Interpolate(JInt(n)))) == ArrayKey(JInt(n))
  {
    StringKeyIsInt(IntToDecimal(n), n);
  }
}
