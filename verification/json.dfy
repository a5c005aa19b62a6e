/** JSON values as the Worker handles them after `JSON.parse`: objects keep their
    key order (`Object.entries` order), numbers are integers. */
module Json {
  import opened Wrappers
  import Strings
  import Numbers

  datatype Json =
    | JNull
    | JBool(b: bool)
    | JNum(n: int)
    | JStr(s: string)
    | JArr(items: seq<Json>)
    | JObj(fields: seq<(string, Json)>)

  /** The empty object `{}`. */
  const Empty: Json := JObj([])

  /** JavaScript truthiness: `null`, `false`, `0` and `""` are falsy. */
  predicate Truthy(j: Json) {
    match j
    case JNull => false
    case JBool(b) => b
    case JNum(n) => n != 0
    case JStr(s) => s != ""
    case _ => true
  }

  /** Truthiness of a possibly absent value (`undefined` is falsy). */
  predicate Present(v: Option<Json>) {
    v.Some? && Truthy(v.value)
  }

  /** The value bound to `key` among `fields`, first binding first. */
  function Lookup(fields: seq<(string, Json)>, key: string): (r: Option<Json>)
    ensures r.Some? ==> (key, r.value) in fields
    ensures r.None? <==> forall i :: 0 <= i < |fields| ==> fields[i].0 != key
  {
    if |fields| == 0 then None
    else if fields[0].0 == key then Some(fields[0].1)
    else Lookup(fields[1..], key)
  }

  /** In an object literal, a key not bound earlier finds the value bound at its position. */
  lemma {:induction false} LookupAt(fields: seq<(string, Json)>, i: nat)
    requires i < |fields|
    requires forall j :: 0 <= j < i ==> fields[j].0 != fields[i].0
    ensures Lookup(fields, fields[i].0) == Some(fields[i].1)
    decreases i
  {
    if i > 0 {
      assert fields[1..][i - 1] == fields[i];
      LookupAt(fields[1..], i - 1);
    }
  }

  /** In an object literal whose keys are pairwise different, every key finds the
      value bound to it. */
  lemma {:induction false} LookupDistinct(fields: seq<(string, Json)>)
    requires forall i, j :: 0 <= i < j < |fields| ==> fields[i].0 != fields[j].0
    ensures forall i :: 0 <= i < |fields| ==> Lookup(fields, fields[i].0) == Some(fields[i].1)
  {
    if |fields| > 0 {
      LookupDistinct(fields[1..]);
      forall i | 0 < i < |fields| ensures Lookup(fields, fields[i].0) == Some(fields[i].1) {
        assert fields[1..][i - 1] == fields[i];
      }
    }
  }

  /** In the fields of two objects spread one after the other, a key finds its
      binding in the first when it has one there, else in the second. */
  lemma {:induction false} LookupConcat(a: seq<(string, Json)>, b: seq<(string, Json)>, key: string)
    ensures Lookup(a + b, key) == if Lookup(a, key).Some? then Lookup(a, key) else Lookup(b, key)
  {
    if |a| > 0 {
      assert (a + b)[1..] == a[1..] + b;
      LookupConcat(a[1..], b, key);
    } else {
      assert a + b == b;
    }
  }

  /** Property access `j[key]`: only objects have properties; anything else gives `undefined`. */
  function Get(j: Json, key: string): Option<Json> {
    if j.JObj? then Lookup(j.fields, key) else None
  }

  /** `{...fields, [key]: v}`: an existing key keeps its position and takes the new
      value, a new key is appended. */
  function Put(fields: seq<(string, Json)>, key: string, v: Json): (r: seq<(string, Json)>)
    ensures Lookup(r, key) == Some(v)
    ensures forall k :: k != key ==> Lookup(r, k) == Lookup(fields, k)
  {
    if |fields| == 0 then [(key, v)]
    else if fields[0].0 == key then [(key, v)] + fields[1..]
    else [fields[0]] + Put(fields[1..], key, v)
  }

  /** `Object.entries(j)`, which is also what a spread `{...j}` copies: an object's
      own properties, an array's or a string's indices with their elements, and
      nothing for `null`, booleans and numbers. */
  function Entries(j: Json): (r: seq<(string, Json)>)
    ensures j.JObj? ==> r == j.fields
    ensures j.JArr? ==> |r| == |j.items| && forall i :: 0 <= i < |r| ==> r[i].1 == j.items[i]
    ensures j.JStr? ==> |r| == |j.s| && forall i :: 0 <= i < |r| ==> r[i].1 == JStr([j.s[i]])
    ensures j.JNull? || j.JBool? || j.JNum? ==> r == []
  {
    match j
    case JObj(fields) => fields
    case JArr(items) => seq(|items|, i requires 0 <= i < |items| => (Numbers.NatToString(i), items[i]))
    case JStr(s) => seq(|s|, i requires 0 <= i < |s| => (Numbers.NatToString(i), JStr([s[i]])))
    case _ => []
  }

  /** `v ?? fallback`: absent and `null` both give the fallback. */
  function OrElse(v: Option<Json>, fallback: Json): (r: Json)
    ensures v.Some? && v.value != JNull ==> r == v.value
    ensures (v.None? || v.value == JNull) ==> r == fallback
  {
    if v.Some? && v.value != JNull then v.value else fallback
  }

  /** The text a value leaves in a nullable TEXT column once `?? null` has been
      applied: a string is stored, every other value becomes NULL. */
  function Column(v: Option<Json>): (r: Option<string>)
    ensures r.Some? <==> v.Some? && v.value.JStr?
    ensures r.Some? ==> v == Some(JStr(r.value))
  {
    if v.Some? && v.value.JStr? then Some(v.value.s) else None
  }

  /** A nullable TEXT column read back as JSON. */
  function TextOrNull(t: Option<string>): (j: Json)
    ensures Column(Some(j)) == t
  {
    if t.Some? then JStr(t.value) else JNull
  }

  /** JavaScript `String(v)`, as template literals interpolate it. */
  function ToText(j: Json): (t: string)
    ensures j.JStr? ==> t == j.s
    ensures j.JNum? ==> t == Numbers.IntToString(j.n)
  {
    match j
    case JNull => "null"
    case JBool(b) => if b then "true" else "false"
    case JNum(n) => Numbers.IntToString(n)
    case JStr(s) => s
    case JArr(items) =>
      // `Array.prototype.join(",")`, where null elements print as ""
      Strings.Join(seq(|items|, i requires 0 <= i < |items| => if items[i] == JNull then "" else ToText(items[i])), ",")
    case JObj(_) => "[object Object]"
  }

  /** JavaScript `Number(v)` of a possibly absent value: `undefined` is NaN, `null`
      is 0, booleans are 0 or 1, and everything else goes through its text. */
  function ToNumber(v: Option<Json>): (r: Numbers.Number)
    ensures v.Some? && v.value.JNum? ==> r == Numbers.Num(v.value.n)
    ensures v.Some? && v.value.JStr? ==> r == Numbers.ToNumber(v.value.s)
    ensures v.None? ==> r == Numbers.NaN
  {
    match v
    case None => Numbers.NaN
    case Some(JNull) => Numbers.Num(0)
    case Some(JBool(b)) => Numbers.Num(if b then 1 else 0)
    case Some(JNum(n)) => Numbers.Num(n)
    case Some(j) => Numbers.ToNumber(ToText(j))
  }
}
