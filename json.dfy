/**
 * Parsed JSON values and the bits of JavaScript semantics the scripts apply
 * to them: truthiness, `x || d`, `x ?? null`, property access on whatever
 * `JSON.parse` returned, and conversion to a string.
 */
module Json {
  import opened Wrappers
  import opened Text

  /** A value `JSON.parse` can return. Numbers are modelled as integers. */
  datatype Value =
    | Null
    | Bool(b: bool)
    | Num(n: int)
    | Str(s: string)
    | Arr(elems: seq<Value>)
    | Obj(fields: map<string, Value>)

  /** JavaScript truthiness: `null`, `false`, `0` and `""` are falsy, everything else truthy. */
  predicate Truthy(v: Value) {
    match v
    case Null => false
    case Bool(b) => b
    case Num(n) => n != 0
    case Str(s) => s != ""
    case Arr(_) => true
    case Obj(_) => true
  }

  /** `x || d` where `x` may be `undefined` (None). */
  function Or(x: Option<Value>, d: Value): Value {
    if x.Some? && Truthy(x.value) then x.value else d
  }

  /** A second `|| d` with the same default changes nothing. */
  lemma OrIdempotent(x: Option<Value>, d: Value)
    requires Truthy(d)
    ensures Or(Some(Or(x, d)), d) == Or(x, d)
  {
  }

  /** `x ?? null`: `undefined` and `null` both become `null`, anything else is kept. */
  function OrNull(x: Option<Value>): Value {
    x.GetOr(Null)
  }

  /**
   * The own properties seen by `data.k` once a parse result `doc` has gone
   * through `doc || {}`: an object's fields; nothing for a failed read
   * (None), `null`, a primitive or an array.
   */
  function Fields(doc: Option<Value>): map<string, Value> {
    if doc.Some? && doc.value.Obj? then doc.value.fields else map[]
  }

  /** `data.k`, `undefined` being None. */
  function Get(data: map<string, Value>, k: string): Option<Value> {
    if k in data then Some(data[k]) else None
  }

  // ---------------------------------------------------------------------
  // String conversion
  // ---------------------------------------------------------------------

  function DigitChar(d: nat): char
    requires d < 10
  {
    "0123456789"[d]
  }

  /** The digit character of `d` stands for `d`. */
  lemma DigitCharValue(d: nat)
    requires d < 10
    ensures '0' <= DigitChar(d) <= '9' && DigitChar(d) as int - '0' as int == d
  {
  }

  /** Decimal notation of a natural number, without leading zeros. */
  function NatText(n: nat): (s: string)
    ensures |s| >= 1
    ensures forall i :: 0 <= i < |s| ==> '0' <= s[i] <= '9'
    ensures n > 0 ==> s[0] != '0'
  {
    if n < 10 then [DigitChar(n)] else NatText(n / 10) + [DigitChar(n % 10)]
  }

  /** Reading the digits back. */
  function DigitsValue(s: string): nat
    requires forall i :: 0 <= i < |s| ==> '0' <= s[i] <= '9'
  {
    if s == [] then 0 else 10 * DigitsValue(s[..|s| - 1]) + (s[|s| - 1] as int - '0' as int)
  }

  /** Decimal notation loses nothing: reading it back gives the number. */
  lemma {:induction false} NatTextRoundTrip(n: nat)
    ensures DigitsValue(NatText(n)) == n
  {
    var s := NatText(n);
    if n >= 10 {
      NatTextRoundTrip(n / 10);
      DigitCharValue(n % 10);
      assert s[..|s| - 1] == NatText(n / 10);
      assert DigitsValue(s) == 10 * (n / 10) + n % 10;
    } else {
      DigitCharValue(n);
    }
  }

  /** `String(n)` for an integer. */
  function IntText(n: int): string {
    if n < 0 then "-" + NatText(-n) else NatText(n)
  }

  /**
   * `String(v)` for a non-null value: arrays join their elements with `,`
   * (a `null` element giving the empty string), objects give `[object Object]`.
   */
  function ToText(v: Value): string
    decreases v
  {
    match v
    case Null => "null"
    case Bool(b) => if b then "true" else "false"
    case Num(n) => IntText(n)
    case Str(s) => s
    case Obj(_) => "[object Object]"
    case Arr(es) =>
      Join(seq(|es|, i requires 0 <= i < |es| => if es[i] == Null then "" else ToText(es[i])), ',')
  }
}
