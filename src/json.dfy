/**
 * JSON values as the application sees them after `JSON.parse`, with the bits
 * of JavaScript semantics the code applies to them: truthiness, property
 * access, numeric coercion, `String(v)` and object spread.
 */
module Json {
  import opened Common
  import opened Strings

  /** Numbers are integers here; objects are key-value maps. */
  datatype Json =
    | JNull
    | JBool(b: bool)
    | JNum(n: int)
    | JStr(s: string)
    | JArr(items: seq<Json>)
    | JObj(fields: map<string, Json>)

  /** `!!v`: null, false, 0 and "" are falsy, everything else is truthy. */
  predicate Truthy(v: Json)
  {
    match v
    case JNull => false
    case JBool(b) => b
    case JNum(n) => n != 0
    case JStr(s) => s != ""
    case _ => true
  }

  /** Truthiness of a value that may be `undefined` (`None`). */
  predicate Present(v: Option<Json>) { v.Some? && Truthy(v.value) }

  /** `v.k` on an object; `None` is `undefined`. */
  function Field(v: Json, k: string): Option<Json>
  {
    if v.JObj? && k in v.fields then Some(v.fields[k]) else None
  }

  /** `Number(v)` for the values the code compares; `None` is NaN (strings, arrays and objects). */
  function ToNumber(v: Option<Json>): Option<int>
  {
    match v
    case None => None
    case Some(JNull) => Some(0)
    case Some(JBool(b)) => Some(if b then 1 else 0)
    case Some(JNum(n)) => Some(n)
    case Some(_) => None
  }

  /** `String(v)` for a defined value, which is also what a template literal interpolates. */
  function Show(v: Json): string
  {
    match v
    case JNull => "null"
    case JBool(b) => if b then "true" else "false"
    case JNum(n) => Decimal(n)
    case JStr(s) => s
    case JArr(items) =>
      Join(seq(|items|, i requires 0 <= i < |items| => if items[i] == JNull then "" else Show(items[i])), ",")
    case JObj(_) => "[object Object]"
  }

  /** `String(v)` where `v` may be `undefined`. */
  function Display(v: Option<Json>): string
  {
    match v
    case None => "undefined"
    case Some(x) => Show(x)
  }

  /**
   * The own properties of an array-like value: each index, written in
   * decimal, keyed to its element.
   */
  function IndexKeys(xs: seq<Json>): map<string, Json>
    decreases |xs|
  {
    if xs == [] then map[] else IndexKeys(xs[..|xs| - 1])[Decimal(|xs| - 1) := xs[|xs| - 1]]
  }

  /** A string's elements as one-character strings. */
  function Chars(s: string): seq<Json>
  {
    seq(|s|, i requires 0 <= i < |s| => JStr([s[i]]))
  }

  /**
   * `{...v}`: an object's own properties; an array's elements or a string's
   * characters under their decimal indices; null, booleans and numbers
   * contribute nothing.
   */
  function Spread(v: Json): map<string, Json>
  {
    match v
    case JObj(fields) => fields
    case JArr(items) => IndexKeys(items)
    case JStr(s) => IndexKeys(Chars(s))
    case _ => map[]
  }

  /** Each index of an array-like value is a property holding its element. */
  lemma {:induction false} IndexKeysAt(xs: seq<Json>, i: int)
    requires 0 <= i < |xs|
    ensures Decimal(i) in IndexKeys(xs) && IndexKeys(xs)[Decimal(i)] == xs[i]
    decreases |xs|
  {
    if i < |xs| - 1 {
      IndexKeysAt(xs[..|xs| - 1], i);
      RadixInjective(i, |xs| - 1, 10);
    }
  }

  /** And there are no other properties. */
  lemma {:induction false} IndexKeysOnly(xs: seq<Json>, k: string)
    requires k in IndexKeys(xs)
    ensures exists i :: 0 <= i < |xs| && k == Decimal(i)
    decreases |xs|
  {
    if k != Decimal(|xs| - 1) {
      IndexKeysOnly(xs[..|xs| - 1], k);
    }
  }

  /** `{...[a, b]}` is `{"0": a, "1": b}` and `{..."ab"}` is `{"0": "a", "1": "b"}`. */
  lemma SpreadIndices(v: Json, k: string)
    requires v.JArr? || v.JStr?
    ensures k in Spread(v) <==> exists i :: 0 <= i < (if v.JArr? then |v.items| else |v.s|) && k == Decimal(i)
    ensures forall i :: 0 <= i < (if v.JArr? then |v.items| else |v.s|) ==>
      Decimal(i) in Spread(v) && Spread(v)[Decimal(i)] == (if v.JArr? then v.items[i] else JStr([v.s[i]]))
  {
    var xs := if v.JArr? then v.items else Chars(v.s);
    assert Spread(v) == IndexKeys(xs);
    if k in Spread(v) {
      IndexKeysOnly(xs, k);
    }
    forall i | 0 <= i < |xs| ensures Decimal(i) in IndexKeys(xs) && IndexKeys(xs)[Decimal(i)] == xs[i] {
      IndexKeysAt(xs, i);
    }
  }
}
