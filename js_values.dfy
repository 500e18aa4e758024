/**
 * The parts of JavaScript's value semantics that the schema designer relies on:
 * loosely typed field values, truthiness (the `||` defaulting idiom),
 * `Array.isArray` checks, `?.length || 0`, template-literal conversion to text,
 * and the index clamping of `Array.prototype.slice`, `splice` and `filter`.
 */
module JsValues {

  datatype Option<T> = None | Some(value: T)

  datatype Result<T, E> = Ok(value: T) | Err(error: E)

  /** A scalar JSON/JavaScript value. A missing property reads as `Undefined`.
      Numbers are modelled as integers. */
  datatype Value = Undefined | Null | Bool(b: bool) | Num(n: int) | Str(s: string)

  /** JavaScript truthiness: `undefined`, `null`, `false`, `0` and `""` are falsy. */
  predicate Truthy(v: Value) {
    match v
    case Undefined => false
    case Null => false
    case Bool(b) => b
    case Num(n) => n != 0
    case Str(s) => s != ""
  }

  /** The expression `v || d`. */
  function Or(v: Value, d: Value): Value {
    if Truthy(v) then v else d
  }

  /** `Boolean(v)`. */
  function ToBool(v: Value): Value {
    Bool(Truthy(v))
  }

  predicate IsDigit(c: char) {
    '0' <= c <= '9'
  }

  /** The number a string of decimal digits denotes, read left to right. */
  function DigitsValue(s: string): nat
    requires forall k :: 0 <= k < |s| ==> IsDigit(s[k])
  {
    if s == [] then 0
    else
      assert IsDigit(s[|s| - 1]);
      DigitsValue(s[..|s| - 1]) * 10 + (s[|s| - 1] as int - '0' as int)
  }

  /** Decimal rendering of a natural number, without leading zeros: the
      digits denote `n`. */
  function NatToString(n: nat): (r: string)
    ensures r != []
    ensures forall k :: 0 <= k < |r| ==> IsDigit(r[k])
    ensures DigitsValue(r) == n
    ensures n < 10 <==> |r| == 1
    ensures |r| > 1 ==> r[0] != '0'
  {
    var d := ['0' + (n % 10) as char];
    if n < 10 then d
    else
      var t := NatToString(n / 10);
      assert (t + d)[..|t + d| - 1] == t;
      t + d
  }

  /** Different numbers render differently. */
  lemma NatToStringInjective(m: nat, n: nat)
    requires m != n
    ensures NatToString(m) != NatToString(n)
  {
  }

  /** Decimal rendering of an integer, as `String(n)` gives it. */
  function IntToString(n: int): string {
    if n < 0 then "-" + NatToString(-n) else NatToString(n)
  }

  /** What a template literal `${v}` renders. */
  function ToStr(v: Value): string {
    match v
    case Undefined => "undefined"
    case Null => "null"
    case Bool(b) => if b then "true" else "false"
    case Num(n) => IntToString(n)
    case Str(s) => s
  }

  /** A property that the code checks with `Array.isArray`: either an array or
      some other value. */
  datatype MaybeArray<T> = Arr(items: seq<T>) | NotArr(other: Value)

  /** `Array.isArray(x) ? x : []`. */
  function ArrayOr<T>(x: MaybeArray<T>): (r: seq<T>)
    ensures x.Arr? ==> r == x.items
    ensures x.NotArr? ==> r == []
  {
    if x.Arr? then x.items else []
  }

  /** `x?.length || 0`: arrays and strings have a length; other values do not. */
  function LengthOr0<T>(x: MaybeArray<T>): nat {
    match x
    case Arr(items) => |items|
    case NotArr(Str(s)) => |s|
    case NotArr(_) => 0
  }

  /** `s.slice(0, end)`: a negative `end` counts from the back, and `end` is
      clamped into `[0, |s|]`. */
  function SliceTo<T>(s: seq<T>, end: int): (r: seq<T>)
    ensures r <= s
    ensures 0 <= end <= |s| ==> r == s[..end]
    ensures end >= |s| ==> r == s
    ensures end < 0 ==> |r| == if |s| + end < 0 then 0 else |s| + end
  {
    var k := if end < 0 then (if |s| + end < 0 then 0 else |s| + end)
             else if end > |s| then |s| else end;
    s[..k]
  }

  /** The start index that `splice(start, ...)` actually uses. */
  function SpliceStart(len: nat, start: int): (k: nat)
    ensures k <= len
    ensures 0 <= start <= len ==> k == start
  {
    if start < 0 then (if len + start < 0 then 0 else len + start)
    else if start > len then len else start
  }

  /** A copy of `s` after `copy.splice(start, 1)`. */
  function SpliceOne<T>(s: seq<T>, start: int): (r: seq<T>)
    ensures 0 <= start < |s| ==> r == s[..start] + s[start + 1..]
    ensures start >= |s| ==> r == s
    ensures -|s| <= start < 0 ==> r == s[..|s| + start] + s[|s| + start + 1..]
    ensures start < -|s| ==> r == if s == [] then s else s[1..]
  {
    var k := SpliceStart(|s|, start);
    if k < |s| then s[..k] + s[k + 1..] else s
  }

  /** `s.filter(p)`. */
  function Filter<T(!new)>(s: seq<T>, p: T -> bool): (r: seq<T>)
    ensures |r| <= |s|
    ensures forall x :: x in r <==> x in s && p(x)
    ensures multiset(r) <= multiset(s)
  {
    if s == [] then []
    else
      assert s == [s[0]] + s[1..];
      if p(s[0]) then [s[0]] + Filter(s[1..], p) else Filter(s[1..], p)
  }

  /** Filtering distributes over concatenation, so survivors keep their
      relative order. */
  lemma {:induction false} FilterConcat<T(!new)>(a: seq<T>, b: seq<T>, p: T -> bool)
    ensures Filter(a + b, p) == Filter(a, p) + Filter(b, p)
  {
    if a == [] {
      assert a + b == b;
    } else {
      assert (a + b)[0] == a[0];
      assert (a + b)[1..] == a[1..] + b;
      FilterConcat(a[1..], b, p);
    }
  }

  /** Filtering with a predicate every element meets changes nothing. */
  lemma {:induction false} FilterKeepsAll<T(!new)>(s: seq<T>, p: T -> bool)
    requires forall k :: 0 <= k < |s| ==> p(s[k])
    ensures Filter(s, p) == s
  {
    if s != [] {
      FilterKeepsAll(s[1..], p);
    }
  }
}
