/**
 * The JavaScript values and built-in string operations that the deep-link
 * handler of the Home screen relies on: the value `JSON.parse` produces, the
 * value `qs.parse` stores under a query key, the coercion `String(x)` that
 * `JSON.parse` applies to its argument, property reads with and without
 * optional chaining, `String.prototype.slice` with the argument ranges the
 * handler uses, and `String.prototype.indexOf` for a single character.
 */
module JsValues {

  datatype Option<T> = None | Some(value: T)

  /** Outcome of evaluating a JavaScript expression that may throw. */
  datatype Eval<T> = Throws | Returns(value: T)

  /** A value produced by `JSON.parse`. */
  datatype Json =
    | JNull
    | JBool(b: bool)
    | JNumber(n: real)
    | JString(s: string)
    | JArray(items: seq<Json>)
    | JObject(fields: map<string, Json>)

  /**
   * A value that `qs.parse` stores under a key: `null` for a key written
   * without `=`, a string, or an array when the key is repeated (an element
   * is `null` where that occurrence had no `=`).
   */
  datatype QueryValue =
    | QNull
    | QString(s: string)
    | QArray(items: seq<Option<string>>)

  /** The object `qs.parse` returns; a key that is not in the map reads as `undefined`. */
  type Query = map<string, QueryValue>

  /** An array element as `join` writes it: `null` becomes the empty string. */
  function ItemText(item: Option<string>): string
  {
    match item case None => "" case Some(s) => s
  }

  /** `items.join(sep)`: the elements in order, one separator between each two neighbours and none at the ends. */
  function Join(items: seq<Option<string>>, sep: string): (r: string)
    ensures |items| == 0 ==> r == ""
    ensures |items| == 1 ==> r == ItemText(items[0])
    ensures |items| > 1 ==> ItemText(items[0]) + sep <= r
  {
    if |items| == 0 then ""
    else if |items| == 1 then ItemText(items[0])
    else ItemText(items[0]) + sep + Join(items[1..], sep)
  }

  /** Joining, built from the front, equally extends at the back: one more element adds a separator and its text. */
  lemma {:induction false} JoinSnoc(items: seq<Option<string>>, item: Option<string>, sep: string)
    requires |items| > 0
    ensures Join(items + [item], sep) == Join(items, sep) + sep + ItemText(item)
    decreases |items|
  {
    var all := items + [item];
    assert all[1..] == items[1..] + [item];
    if |items| == 1 {
      assert all[1..] == [item];
    } else {
      JoinSnoc(items[1..], item, sep);
    }
  }

  /** Joining two non-empty arrays puts exactly one separator between their joins. */
  lemma {:induction false} JoinConcat(a: seq<Option<string>>, b: seq<Option<string>>, sep: string)
    requires |a| > 0 && |b| > 0
    ensures Join(a + b, sep) == Join(a, sep) + sep + Join(b, sep)
    decreases |b|
  {
    var last := b[|b| - 1];
    if |b| == 1 {
      JoinSnoc(a, last, sep);
      assert b == [last];
    } else {
      var init := b[..|b| - 1];
      assert b == init + [last];
      assert a + b == (a + init) + [last];
      JoinConcat(a, init, sep);
      JoinSnoc(a + init, last, sep);
      JoinSnoc(init, last, sep);
    }
  }

  /**
   * `String(v)` for the value read from a query object (`None` is
   * `undefined`); an array coerces through `join(",")`, so a one-element
   * array becomes its element and a longer one the comma-separated texts.
   */
  function ToJsString(v: Option<QueryValue>): (r: string)
    ensures v.None? ==> r == "undefined"
    ensures v == Some(QNull) ==> r == "null"
    ensures v.Some? && v.value.QString? ==> r == v.value.s
    ensures v.Some? && v.value.QArray? && |v.value.items| == 1 ==> r == ItemText(v.value.items[0])
    ensures v.Some? && v.value.QArray? ==> r == Join(v.value.items, ",")
  {
    match v
    case None => "undefined"
    case Some(QNull) => "null"
    case Some(QString(s)) => s
    case Some(QArray(items)) => Join(items, ",")
  }

  /**
   * A key that no JavaScript value inherits, so that reading it yields an
   * own field or `undefined`. These are the two keys the deep-link handler
   * reads; `length`, `constructor` or `toString` would not qualify.
   */
  predicate NotInherited(key: string)
  {
    key == "payload" || key == "tech"
  }

  /** `v[key]` on a parsed JSON value, for a key no value inherits; `Returns(None)` is `undefined`. */
  function Property(v: Json, key: string): (r: Eval<Option<Json>>)
    requires NotInherited(key)
    ensures r.Throws? <==> v.JNull?
    ensures r == Returns(None) <==> !v.JNull? && !(v.JObject? && key in v.fields)
    ensures v.JObject? && key in v.fields ==> r == Returns(Some(v.fields[key]))
  {
    match v
    case JNull => Throws
    case JObject(fields) => if key in fields then Returns(Some(fields[key])) else Returns(None)
    case _ => Returns(None)
  }

  /**
   * `v?.[key]` for a key no value inherits: a `null` or `undefined`
   * receiver yields `undefined` instead of throwing.
   */
  function OptionalProperty(v: Option<Json>, key: string): (r: Option<Json>)
    requires NotInherited(key)
    ensures r.Some? <==> v.Some? && v.value.JObject? && key in v.value.fields
    ensures r.Some? ==> r.value == v.value.fields[key]
  {
    match v
    case None => None
    case Some(JNull) => None
    case Some(x) => Property(x, key).value
  }

  function Min(a: nat, b: nat): nat { if a <= b then a else b }

  /** `s.slice(0, end)` for a non-negative `end`, which JavaScript clamps to the length. */
  function SliceTo(s: string, end: nat): (r: string)
    ensures r <= s
    ensures |r| == Min(end, |s|)
  {
    s[..Min(end, |s|)]
  }

  /** `s.slice(start)` for a non-negative `start`, which JavaScript clamps to the length. */
  function SliceFrom(s: string, start: nat): (r: string)
    ensures |r| == |s| - Min(start, |s|)
    ensures s[..Min(start, |s|)] + r == s
  {
    s[Min(start, |s|)..]
  }

  /** `s.indexOf(c)` for a one-character needle: the first position of `c`, or -1. */
  function IndexOf(s: string, c: char): (r: int)
    ensures r == -1 <==> c !in s
    ensures r != -1 ==> 0 <= r < |s| && s[r] == c && c !in s[..r]
  {
    if |s| == 0 then -1
    else if s[0] == c then 0
    else
      var k := IndexOf(s[1..], c);
      if k == -1 then -1 else k + 1
  }

  /** Text before which the character does not occur shifts its first position by its length. */
  lemma {:induction false} IndexOfAfter(a: string, b: string, c: char)
    requires c !in a
    ensures IndexOf(a + b, c) == if c in b then |a| + IndexOf(b, c) else -1
  {
    if a == [] {
      assert a + b == b;
    } else {
      assert (a + b)[0] == a[0];
      assert (a + b)[1..] == a[1..] + b;
      IndexOfAfter(a[1..], b, c);
    }
  }
}
