/** Python value semantics that the ingestion code relies on.

    A decoded JSON document is a `Json` value; Python's None is `JNull`. Objects keep their
    pairs in insertion order, because Python dicts do and that order drives the order of the
    normalised output. The built-ins used by the feed code (str(), int(), float(), bool(),
    dict.get, `in`, subscription and iteration) are modelled on these values, with the
    simplifications listed in README.md. */
module Py {

  datatype Option<+T> = None | Some(value: T) {
    function GetOr(default: T): T {
      match this
      case Some(v) => v
      case None => default
    }
  }

  /** The outcome of Python code that may raise. The type of the exception only reaches
      logs and metrics, which the model leaves out, so it is not recorded. */
  datatype Result<+T> = Ok(value: T) | Raise {
    predicate IsFailure() { Raise? }
    function PropagateFailure<U>(): Result<U> requires Raise? { Raise }
    function Extract(): T requires Ok? { value }
  }

  function Pow10(n: nat): (r: nat)
    ensures r >= 1
  {
    if n == 0 then 1 else 10 * Pow10(n - 1)
  }

  /** A Python float written as a finite decimal: mant / 10^exp. JSON number literals and
      decimal strings are all of this form. */
  datatype Decimal = Decimal(mant: int, exp: nat) {
    /** `x == 0.0` */
    predicate IsZero() { mant == 0 }
  }

  datatype Json =
    | JNull
    | JBool(b: bool)
    | JInt(i: int)
    | JFloat(d: Decimal)
    | JStr(s: string)
    | JArr(items: seq<Json>)
    | JObj(fields: seq<(string, Json)>)

  // ---------------------------------------------------------------------------------------
  // Insertion-ordered dictionaries: seq of (key, value) pairs. Lookup reads the first pair
  // with the key; assignment replaces the value in place or appends a new pair.

  function KeysOf<V>(d: seq<(string, V)>): (ks: seq<string>)
    ensures |ks| == |d|
  {
    if d == [] then [] else [d[0].0] + KeysOf(d[1..])
  }

  function Find<V>(d: seq<(string, V)>, k: string): (r: Option<V>)
    ensures r.None? <==> k !in KeysOf(d)
  {
    if d == [] then None
    else if d[0].0 == k then Some(d[0].1)
    else Find(d[1..], k)
  }

  /** Python's `d[k] = v` */
  function Put<V>(d: seq<(string, V)>, k: string, v: V): seq<(string, V)>
  {
    if d == [] then [(k, v)]
    else if d[0].0 == k then [(k, v)] + d[1..]
    else [d[0]] + Put(d[1..], k, v)
  }

  /** Assignment stores the value under its key and leaves every other key alone; the key
      order changes only by appending a new key at the end. */
  lemma {:induction false} PutSpec<V>(d: seq<(string, V)>, k: string, v: V)
    ensures Find(Put(d, k, v), k) == Some(v)
    ensures forall k' :: k' != k ==> Find(Put(d, k, v), k') == Find(d, k')
    ensures KeysOf(Put(d, k, v)) == if k in KeysOf(d) then KeysOf(d) else KeysOf(d) + [k]
  {
    if d == [] {
    } else if d[0].0 == k {
      assert Put(d, k, v)[1..] == d[1..];
    } else {
      PutSpec(d[1..], k, v);
      assert Put(d, k, v)[1..] == Put(d[1..], k, v);
    }
  }

  /** `{k: f(v) for k, v in d.items()}` */
  function MapValues<V, W>(d: seq<(string, V)>, f: V -> W): (r: seq<(string, W)>)
    ensures |r| == |d| && forall k :: 0 <= k < |d| ==> r[k] == (d[k].0, f(d[k].1))
  {
    seq(|d|, k requires 0 <= k < |d| => (d[k].0, f(d[k].1)))
  }

  /** `[f(x) for x in xs]` */
  function MapSeq<T, U>(f: T -> U, xs: seq<T>): (r: seq<U>)
    ensures |r| == |xs| && forall k :: 0 <= k < |xs| ==> r[k] == f(xs[k])
    decreases |xs|
  {
    if xs == [] then [] else MapSeq(f, xs[..|xs| - 1]) + [f(xs[|xs| - 1])]
  }

  /** Assignment adds only the assigned pair and never moves the first key. */
  lemma {:induction false} PutMembers<V>(d: seq<(string, V)>, k: string, v: V)
    ensures forall p :: p in Put(d, k, v) ==> p == (k, v) || p in d
    ensures d != [] ==> Put(d, k, v)[0].0 == d[0].0
  {
    if d != [] && d[0].0 != k {
      PutMembers(d[1..], k, v);
      assert forall p :: p in d[1..] ==> p in d;
    }
  }

  // ---------------------------------------------------------------------------------------
  // Strings

  /** Python's str.isspace() for one character */
  predicate IsSpace(c: char) {
    var n := c as int;
    (9 <= n <= 13) || (28 <= n <= 32) || n == 0x85 || n == 0xA0 || n == 0x1680
    || (0x2000 <= n <= 0x200A) || n == 0x2028 || n == 0x2029 || n == 0x202F
    || n == 0x205F || n == 0x3000
  }

  predicate AllSpace(s: string) {
    forall i :: 0 <= i < |s| ==> IsSpace(s[i])
  }

  /** The number of whitespace characters that start s */
  function LeadingSpace(s: string): (n: nat)
    ensures n <= |s| && (forall k :: 0 <= k < n ==> IsSpace(s[k])) && (n < |s| ==> !IsSpace(s[n]))
  {
    if s != [] && IsSpace(s[0]) then 1 + LeadingSpace(s[1..]) else 0
  }

  /** The number of whitespace characters that end s */
  function TrailingSpace(s: string): (n: nat)
    ensures n <= |s| && (forall k :: |s| - n <= k < |s| ==> IsSpace(s[k]))
    ensures n < |s| ==> !IsSpace(s[|s| - n - 1])
  {
    if s != [] && IsSpace(s[|s| - 1]) then 1 + TrailingSpace(s[..|s| - 1]) else 0
  }

  /** Python's str.strip(): s without the whitespace at either end */
  function Strip(s: string): (r: string)
    ensures r != [] ==> !IsSpace(r[0]) && !IsSpace(r[|r| - 1])
  {
    var t := s[LeadingSpace(s)..];
    t[..|t| - TrailingSpace(t)]
  }

  /** A string strips to nothing exactly when it is all whitespace, and a string with no
      whitespace at either end strips to itself. */
  lemma StripEmpty(s: string)
    ensures Strip(s) == "" <==> AllSpace(s)
    ensures s != [] && !IsSpace(s[0]) && !IsSpace(s[|s| - 1]) ==> Strip(s) == s
  {
    if AllSpace(s) {
      StripAllSpace(s);
    } else {
      StripSomeText(s);
    }
    if s != [] && !IsSpace(s[0]) && !IsSpace(s[|s| - 1]) {
      StripTrimmed(s);
    }
  }

  lemma StripAllSpace(s: string)
    requires AllSpace(s)
    ensures Strip(s) == ""
  {
    assert LeadingSpace(s) == |s|;
  }

  lemma StripSomeText(s: string)
    requires !AllSpace(s)
    ensures Strip(s) != ""
  {
    var i := LeadingSpace(s);
    var t := s[i..];
    var k :| 0 <= k < |s| && !IsSpace(s[k]);
    assert k >= i;
    assert t[k - i] == s[k];
    assert TrailingSpace(t) <= |t| - 1 - (k - i);
  }

  lemma StripTrimmed(s: string)
    requires s != [] && !IsSpace(s[0]) && !IsSpace(s[|s| - 1])
    ensures Strip(s) == s
  {
    assert LeadingSpace(s) == 0;
    assert s[0..] == s;
    assert TrailingSpace(s) == 0;
  }

  predicate StartsWith(s: string, prefix: string) {
    |prefix| <= |s| && s[..|prefix|] == prefix
  }

  /** Python's `sub in s` for strings */
  predicate IsInfix(sub: string, s: string) {
    StartsWith(s, sub) || (s != [] && IsInfix(sub, s[1..]))
  }

  /** Any string sits inside whatever is written around it. */
  lemma {:induction false} InfixWithin(a: string, sub: string, b: string)
    ensures IsInfix(sub, a + sub + b)
    decreases |a|
  {
    if a == [] {
      assert a + sub + b == sub + b;
      assert (sub + b)[..|sub|] == sub;
    } else {
      assert (a + sub + b)[1..] == a[1..] + sub + b;
      InfixWithin(a[1..], sub, b);
    }
  }

  function Join(sep: string, parts: seq<string>): string {
    if parts == [] then ""
    else if |parts| == 1 then parts[0]
    else parts[0] + sep + Join(sep, parts[1..])
  }

  // ---------------------------------------------------------------------------------------
  // Decimal digits

  predicate IsDigit(c: char) { '0' <= c <= '9' }

  predicate AllDigits(s: string) {
    forall i :: 0 <= i < |s| ==> IsDigit(s[i])
  }

  function DigitValue(c: char): nat
    requires IsDigit(c)
  {
    (c as int) - ('0' as int)
  }

  function DigitChar(d: nat): (c: char)
    requires d < 10
    ensures IsDigit(c) && DigitValue(c) == d
  {
    (('0' as int) + d) as char
  }

  /** The value of a string of decimal digits, most significant first */
  function DigitsValue(s: string): nat
    requires AllDigits(s)
  {
    if s == [] then 0 else 10 * DigitsValue(s[..|s| - 1]) + DigitValue(s[|s| - 1])
  }

  function NatToString(n: nat): (s: string)
    ensures s != [] && AllDigits(s)
  {
    if n < 10 then [DigitChar(n)] else NatToString(n / 10) + [DigitChar(n % 10)]
  }

  /** Python's str() of an int */
  function IntToString(i: int): (s: string)
    ensures s != [] && !IsSpace(s[0]) && !IsSpace(s[|s| - 1])
    ensures s[0] == '-' <==> i < 0
    ensures s[0] == '-' || IsDigit(s[0])
  {
    var d := NatToString(if i < 0 then -i else i);
    assert IsDigit(d[0]) && IsDigit(d[|d| - 1]);
    if i < 0 then "-" + d else d
  }

  lemma {:induction false} NatToStringValue(n: nat)
    ensures DigitsValue(NatToString(n)) == n
  {
    if n >= 10 {
      NatToStringValue(n / 10);
      var s := NatToString(n);
      assert s[..|s| - 1] == NatToString(n / 10);
    }
  }

  /** Python's int() of a str: surrounding whitespace, one optional sign, then one or more
      ASCII digits. None stands for the ValueError. */
  function ParseInt(s: string): Option<int> {
    var t := Strip(s);
    if t == [] then None
    else if t[0] == '-' || t[0] == '+' then
      if |t| > 1 && AllDigits(t[1..]) then
        Some(if t[0] == '-' then -(DigitsValue(t[1..]) as int) else DigitsValue(t[1..]))
      else None
    else if AllDigits(t) then Some(DigitsValue(t))
    else None
  }

  /** int(str(i)) == i for every int */
  lemma IntRoundTrip(i: int)
    ensures ParseInt(IntToString(i)) == Some(i)
  {
    var s := IntToString(i);
    StripEmpty(s);
    var d := NatToString(if i < 0 then -i else i);
    NatToStringValue(if i < 0 then -i else i);
    if i < 0 {
      assert s[1..] == d;
    } else {
      assert IsDigit(s[0]);
    }
  }

  // ---------------------------------------------------------------------------------------
  // Floats

  function IndexOfChar(s: string, c: char): (r: Option<nat>)
    ensures r.Some? ==> r.value < |s| && s[r.value] == c && c !in s[..r.value]
    ensures r.None? ==> c !in s
  {
    if s == [] then None
    else if s[0] == c then Some(0)
    else match IndexOfChar(s[1..], c)
      case None => None
      case Some(k) =>
        assert s[..k + 1] == [s[0]] + s[1..][..k];
        Some(k + 1)
  }

  /** Python's float() of a str, for decimal notation with an optional sign and an optional
      fractional part (at least one digit in all). */
  function ParseDecimal(s: string): Option<Decimal> {
    var t := Strip(s);
    var neg := t != [] && t[0] == '-';
    var body := if t != [] && (t[0] == '-' || t[0] == '+') then t[1..] else t;
    match IndexOfChar(body, '.')
    case None =>
      if body != [] && AllDigits(body) then
        Some(Decimal(if neg then -(DigitsValue(body) as int) else DigitsValue(body), 0))
      else None
    case Some(k) =>
      var whole, frac := body[..k], body[k + 1..];
      if |whole| + |frac| > 0 && AllDigits(whole) && AllDigits(frac) then
        var m := DigitsValue(whole) * Pow10(|frac|) + DigitsValue(frac);
        Some(Decimal(if neg then -m else m, |frac|))
      else None
  }

  /** The same number with no trailing zero in its fractional digits */
  function Normalize(d: Decimal): (r: Decimal)
    ensures r.exp > 0 ==> r.mant % 10 != 0
    ensures r.IsZero() <==> d.IsZero()
    decreases d.exp
  {
    if d.exp > 0 && d.mant % 10 == 0 then Normalize(Decimal(d.mant / 10, d.exp - 1)) else d
  }

  function PadLeft(s: string, width: nat): (r: string)
    ensures |r| == if |s| >= width then |s| else width
    decreases width - |s|
  {
    if |s| >= width then s else PadLeft("0" + s, width)
  }

  /** The digits before the point of a / 10^e, dropping one digit at a time */
  function WholeDigits(a: nat, e: nat): (s: string)
    ensures s != [] && IsDigit(s[0])
  {
    if e == 0 then NatToString(a) else WholeDigits(a / 10, e - 1)
  }

  /** The fractional digits of a / 10^e as repr() writes them: "0" when there are none */
  function FractionDigits(a: nat, e: nat): string {
    if e == 0 then "0" else PadLeft(NatToString(a % Pow10(e)), e)
  }

  /** Python's repr() of a float, in positional notation */
  function FloatRepr(d: Decimal): (s: string)
    ensures s != [] && (s[0] == '-' || IsDigit(s[0]))
  {
    var n := Normalize(d);
    var a: nat := if n.mant < 0 then -n.mant else n.mant;
    var whole := WholeDigits(a, n.exp);
    var r := whole + "." + FractionDigits(a, n.exp);
    assert r[0] == whole[0];
    if n.mant < 0 then "-" + r else r
  }

  // ---------------------------------------------------------------------------------------
  // Built-ins on values

  /** Python's bool() */
  predicate Truthy(v: Json) {
    match v
    case JNull => false
    case JBool(b) => b
    case JInt(i) => i != 0
    case JFloat(d) => d.mant != 0
    case JStr(s) => s != ""
    case JArr(items) => items != []
    case JObj(fields) => fields != []
  }

  /** Python's repr(); strings are quoted without escaping. */
  function Repr(v: Json): (s: string)
    ensures s != [] && !IsSpace(s[0])
    decreases v
  {
    match v
    case JNull => "None"
    case JBool(b) => if b then "True" else "False"
    case JInt(i) => IntToString(i)
    case JFloat(d) => FloatRepr(d)
    case JStr(s) => "'" + s + "'"
    case JArr(items) =>
      "[" + Join(", ", seq(|items|, k requires 0 <= k < |items| => Repr(items[k]))) + "]"
    case JObj(fields) =>
      "{" + Join(", ", seq(|fields|, k requires 0 <= k < |fields| =>
                              "'" + fields[k].0 + "': " + Repr(fields[k].1))) + "}"
  }

  /** Python's str(): a string is itself, everything else its repr() */
  function Str(v: Json): string {
    match v
    case JStr(s) => s
    case _ => Repr(v)
  }

  /** `str(x).strip()` is empty exactly for a string made only of whitespace: a missing id
      defaulted to "" is blank, while None, numbers and containers never are. */
  lemma BlankId(v: Json)
    ensures Strip(Str(v)) == "" <==> v.JStr? && AllSpace(v.s)
  {
    StripEmpty(Str(v));
  }

  /** Python's int() */
  function ToInt(v: Json): Result<int> {
    match v
    case JBool(b) => Ok(if b then 1 else 0)
    case JInt(i) => Ok(i)
    case JFloat(d) =>
      // truncation toward zero
      Ok(if d.mant >= 0 then d.mant / Pow10(d.exp) else -((-d.mant) / Pow10(d.exp)))
    case JStr(s) => if ParseInt(s).Some? then Ok(ParseInt(s).value) else Raise
    case _ => Raise
  }

  /** Python's float() */
  function ToFloat(v: Json): Result<Decimal> {
    match v
    case JBool(b) => Ok(Decimal(if b then 1 else 0, 0))
    case JInt(i) => Ok(Decimal(i, 0))
    case JFloat(d) => Ok(d)
    case JStr(s) => if ParseDecimal(s).Some? then Ok(ParseDecimal(s).value) else Raise
    case _ => Raise
  }

  /** Python's `v.get(key, default)`: only dicts have .get */
  function Get(v: Json, key: string, default: Json): (r: Result<Json>)
    ensures r.Ok? <==> v.JObj?
  {
    match v
    case JObj(fields) => Ok(Find(fields, key).GetOr(default))
    case _ => Raise
  }

  /** Python's `v[key]` with a str key */
  function Index(v: Json, key: string): (r: Result<Json>)
    ensures r.Ok? <==> v.JObj? && key in KeysOf(v.fields)
  {
    match v
    case JObj(fields) => if Find(fields, key).Some? then Ok(Find(fields, key).value) else Raise
    case _ => Raise
  }

  /** Python's `key in v` with a str key */
  function Contains(v: Json, key: string): (r: Result<bool>)
    ensures v.JObj? ==> r == Ok(key in KeysOf(v.fields))
  {
    match v
    case JObj(fields) => Ok(key in KeysOf(fields))
    case JArr(items) => Ok(JStr(key) in items)
    case JStr(s) => Ok(IsInfix(key, s))
    case _ => Raise
  }

  /** Python's `for x in v`: list items, dict keys, or the one-character strings of a str */
  function Iterate(v: Json): Result<seq<Json>> {
    match v
    case JArr(items) => Ok(items)
    case JObj(fields) => Ok(KeyStrings(KeysOf(fields)))
    case JStr(s) => Ok(CharStrings(s))
    case _ => Raise
  }

  /** The keys of a dict, as the str values a for-loop over it yields */
  function KeyStrings(ks: seq<string>): (r: seq<Json>)
    ensures |r| == |ks| && forall k :: 0 <= k < |ks| ==> r[k] == JStr(ks[k])
  {
    if ks == [] then [] else [JStr(ks[0])] + KeyStrings(ks[1..])
  }

  /** The one-character strings a for-loop over a str yields */
  function CharStrings(s: string): (r: seq<Json>)
    ensures |r| == |s| && forall k :: 0 <= k < |s| ==> r[k] == JStr([s[k]])
  {
    if s == [] then [] else [JStr([s[0]])] + CharStrings(s[1..])
  }
}
