/**
 * The few Python built-ins the backend relies on, stated on values:
 * dynamically typed JSON-like values, truthiness, `float(...)`, `str(...)`,
 * `str.lower`, `str.replace`, `str.join`, list slicing and `int(...)` of a
 * rational (truncation toward zero).
 */
module Python {
  import opened Wrappers

  /** A value as it appears in an event dictionary or a JSON payload. */
  datatype Value =
    | Null
    | Bool(b: bool)
    | Int(i: int)
    | Float(r: real)
    | Str(s: string)
    | List(items: seq<Value>)
    | Dict(entries: map<string, Value>)

  /** Python's truth value of a value (`if x:` / `x or y`). */
  predicate Truthy(v: Value) {
    match v
    case Null => false
    case Bool(b) => b
    case Int(i) => i != 0
    case Float(r) => r != 0.0
    case Str(s) => s != ""
    case List(xs) => xs != []
    case Dict(m) => m != map[]
  }

  /** `d.get(key, default)` */
  function Get(d: map<string, Value>, key: string, default: Value): (r: Value)
    ensures key in d ==> r == d[key]
    ensures key !in d ==> r == default
  {
    if key in d then d[key] else default
  }

  // ---------------------------------------------------------------------
  // Decimal digits

  predicate IsDigit(c: char) { '0' <= c <= '9' }

  predicate AllDigits(s: string) { forall i :: 0 <= i < |s| ==> IsDigit(s[i]) }

  function DigitValue(c: char): nat
    requires IsDigit(c)
  {
    (c as int - '0' as int) as nat
  }

  function DigitChar(d: nat): (c: char)
    requires d < 10
    ensures IsDigit(c) && DigitValue(c) == d
  {
    ('0' as int + d) as char
  }

  /** The number a string of decimal digits denotes (most significant first). */
  function DigitsValue(s: string): nat
    requires AllDigits(s)
  {
    if s == [] then 0 else DigitsValue(s[..|s| - 1]) * 10 + DigitValue(s[|s| - 1])
  }

  function Pow10(n: nat): (r: nat)
    ensures r >= 1
  {
    if n == 0 then 1 else 10 * Pow10(n - 1)
  }

  /** Decimal text of a natural number, without leading zeros. */
  function NatText(n: nat): (s: string)
    ensures |s| >= 1 && AllDigits(s)
  {
    if n < 10 then [DigitChar(n)] else NatText(n / 10) + [DigitChar(n % 10)]
  }

  /** `str(i)` for an integer. */
  function IntText(i: int): string {
    if i < 0 then "-" + NatText(-i) else NatText(i)
  }

  lemma {:induction false} NatTextValue(n: nat)
    ensures DigitsValue(NatText(n)) == n
  {
    if n >= 10 {
      NatTextValue(n / 10);
      var s := NatText(n);
      assert s[..|s| - 1] == NatText(n / 10);
    }
  }

  /** Position of the first `c` in `s`, or `|s|` when there is none. */
  function IndexOf(s: string, c: char): (k: nat)
    ensures k <= |s|
    ensures k < |s| ==> s[k] == c
    ensures forall i :: 0 <= i < k ==> s[i] != c
  {
    if s == [] then 0 else if s[0] == c then 0 else 1 + IndexOf(s[1..], c)
  }

  /** Digits with at most one decimal point and at least one digit. */
  function ParseUnsigned(s: string): Option<real> {
    var k := IndexOf(s, '.');
    var whole := s[..k];
    var frac := if k < |s| then s[k + 1..] else "";
    if |whole| + |frac| > 0 && AllDigits(whole) && AllDigits(frac) then
      Some(DigitsValue(whole) as real + DigitsValue(frac) as real / Pow10(|frac|) as real)
    else
      None
  }

  /** `float(s)` for a string: an optional sign followed by a decimal numeral. */
  function ParseDecimal(s: string): Option<real> {
    if |s| > 0 && (s[0] == '-' || s[0] == '+') then
      match ParseUnsigned(s[1..])
      case Some(r) => Some(if s[0] == '-' then -r else r)
      case None => None
    else
      ParseUnsigned(s)
  }

  /** `float(str(i)) == i`: the text of an integer parses back to it. */
  lemma IntTextParses(i: int)
    ensures ParseDecimal(IntText(i)) == Some(i as real)
  {
    var n: nat := if i < 0 then -i else i;
    var t := NatText(n);
    NatTextParses(n);
    if i < 0 {
      assert IntText(i)[1..] == t;
    } else {
      assert IsDigit(t[0]);
    }
  }

  /** The digits of a natural number parse back to it. */
  lemma NatTextParses(n: nat)
    ensures ParseUnsigned(NatText(n)) == Some(n as real)
  {
    var t := NatText(n);
    NatTextValue(n);
    assert IndexOf(t, '.') == |t| by {
      forall j | 0 <= j < |t| ensures t[j] != '.' { assert IsDigit(t[j]); }
      IndexOfAbsent(t, '.');
    }
    assert t[..|t|] == t;
  }

  lemma {:induction false} IndexOfAbsent(s: string, c: char)
    requires forall j :: 0 <= j < |s| ==> s[j] != c
    ensures IndexOf(s, c) == |s|
  {
    if s != [] {
      IndexOfAbsent(s[1..], c);
    }
  }

  /** `float(v)`: None when Python raises TypeError or ValueError. */
  function ToFloat(v: Value): (r: Option<real>)
    ensures v.Float? ==> r == Some(v.r)
    ensures v.Int? ==> r == Some(v.i as real)
    ensures (v.Null? || v.List? || v.Dict?) ==> r == None
  {
    match v
    case Null => None
    case Bool(b) => Some(if b then 1.0 else 0.0)
    case Int(i) => Some(i as real)
    case Float(r) => Some(r)
    case Str(s) => ParseDecimal(s)
    case List(_) => None
    case Dict(_) => None
  }

  /**
   * `str(v)`. A float is rendered exactly when it is integral ("25.0"); other
   * floats and containers get a fixed placeholder (Python's shortest-repr
   * algorithm and container repr are not part of this model).
   */
  function Render(v: Value): string {
    match v
    case Null => "None"
    case Bool(b) => if b then "True" else "False"
    case Int(i) => IntText(i)
    case Float(r) => if r == r.Floor as real then IntText(r.Floor) + ".0" else "<float>"
    case Str(s) => s
    case List(_) => "<list>"
    case Dict(_) => "<dict>"
  }

  // ---------------------------------------------------------------------
  // Strings

  function LowerChar(c: char): char {
    if 'A' <= c <= 'Z' then (c as int + 32) as char else c
  }

  /** `s.lower()` on ASCII letters. */
  function Lower(s: string): (r: string)
    ensures |r| == |s|
    ensures forall i :: 0 <= i < |s| ==> r[i] == LowerChar(s[i])
  {
    if s == [] then [] else [LowerChar(s[0])] + Lower(s[1..])
  }

  /** Lower-casing twice changes nothing more than lower-casing once. */
  lemma {:induction false} LowerIdempotent(s: string)
    ensures Lower(Lower(s)) == Lower(s)
  {
    if s != [] {
      LowerIdempotent(s[1..]);
    }
  }

  /** `s.replace(c, rep)` for a one-character pattern. */
  function ReplaceChar(s: string, c: char, rep: string): string {
    if s == [] then []
    else (if s[0] == c then rep else [s[0]]) + ReplaceChar(s[1..], c, rep)
  }

  /** `sep.join(parts)` */
  function Join(sep: string, parts: seq<string>): string {
    if parts == [] then ""
    else if |parts| == 1 then parts[0]
    else parts[0] + sep + Join(sep, parts[1..])
  }

  /** The space-join of a sequence followed by one more part. */
  lemma {:induction false} JoinSnoc(sep: string, parts: seq<string>, p: string)
    requires parts != []
    ensures Join(sep, parts + [p]) == Join(sep, parts) + sep + p
  {
    if |parts| > 1 {
      assert (parts + [p])[1..] == parts[1..] + [p];
      JoinSnoc(sep, parts[1..], p);
    } else {
      assert (parts + [p])[1..] == [p];
    }
  }

  // ---------------------------------------------------------------------
  // Slices and numbers

  /** `s[:k]` with Python's reading of a negative bound. */
  function Prefix<T>(s: seq<T>, k: int): (r: seq<T>)
    ensures k >= 0 ==> |r| == if k < |s| then k else |s|
    ensures r <= s
  {
    if k >= |s| then s
    else if k >= 0 then s[..k]
    else if |s| + k > 0 then s[..|s| + k]
    else []
  }

  /** `s[-n:]` for a positive constant `n`: the newest `n` items. */
  function LastN<T>(s: seq<T>, n: nat): (r: seq<T>)
    ensures |r| == if |s| < n then |s| else n
    ensures forall i :: 0 <= i < |r| ==> r[i] == s[|s| - |r| + i]
  {
    if |s| <= n then s else s[|s| - n..]
  }

  /**
   * Keeping the newest `n` after every append is the same as keeping the
   * newest `n` of everything ever appended.
   */
  lemma LastNSnoc<T>(s: seq<T>, x: T, n: nat)
    ensures LastN(LastN(s, n) + [x], n) == LastN(s + [x], n)
  {
    if n == 0 {
      assert LastN(s + [x], n) == [];
    } else if |s| < n {
      assert LastN(s, n) == s;
    } else {
      var w := s[|s| - n..];
      assert LastN(s, n) == w;
      assert |w + [x]| == n + 1;
      assert LastN(w + [x], n) == (w + [x])[1..];
      assert LastN(s + [x], n) == (s + [x])[|s| + 1 - n..];
      assert (w + [x])[1..] == s[|s| - n + 1..] + [x];
      assert (s + [x])[|s| + 1 - n..] == s[|s| + 1 - n..] + [x];
    }
  }

  /** `int(n / d)`: division truncated toward zero. */
  function TruncDiv(n: int, d: int): (q: int)
    requires d > 0
    ensures n >= 0 ==> q * d <= n < q * d + d
    ensures n < 0 ==> q * d - d < n <= q * d
  {
    if n >= 0 then n / d else -((-n) / d)
  }

  /** Truncating division by a positive divisor is monotone. */
  lemma TruncDivMonotone(a: int, b: int, d: int)
    requires d > 0 && a <= b
    ensures TruncDiv(a, d) <= TruncDiv(b, d)
  {
    if a >= 0 {
      assert TruncDiv(a, d) == a / d && TruncDiv(b, d) == b / d;
      DivMonotone(a, b, d);
    } else if b < 0 {
      assert TruncDiv(a, d) == -((-a) / d) && TruncDiv(b, d) == -((-b) / d);
      DivMonotone(-b, -a, d);
    } else {
      assert TruncDiv(a, d) == -((-a) / d) && TruncDiv(b, d) == b / d;
      NatDivNonNegative(-a, d);
      NatDivNonNegative(b, d);
    }
  }

  lemma NatDivNonNegative(a: nat, d: int)
    requires d > 0
    ensures a / d >= 0
  {
  }

  lemma DivMonotone(a: nat, b: nat, d: int)
    requires d > 0 && a <= b
    ensures a / d <= b / d
  {
    var qa, qb := a / d, b / d;
    if qa > qb {
      MulMonotone(qb + 1, qa, d);
    }
  }

  lemma MulMonotone(x: int, y: int, d: int)
    requires x <= y && d >= 0
    ensures x * d <= y * d
  {
    assert y * d - x * d == (y - x) * d;
  }

  /** `max(lo, min(hi, x))` */
  function Clamp(lo: int, hi: int, x: int): (r: int)
    requires lo <= hi
    ensures lo <= r <= hi
    ensures lo <= x <= hi ==> r == x
    ensures x < lo ==> r == lo
    ensures x > hi ==> r == hi
  {
    if x < lo then lo else if x > hi then hi else x
  }
}
