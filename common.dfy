/** Values and string operations of JavaScript that the handlers and components rely on. */
module Common {

  datatype Option<+T> = None | Some(value: T)

  /** The outcome of an operation that may throw: its value, or the message of the error. */
  datatype Result<+T> = Success(value: T) | Failure(error: string)

  /** A scalar field of a JSON request body: missing (or null), a string, or a number. */
  datatype Scalar = Absent | Text(s: string) | Number(n: real)

  /** JavaScript truthiness of a scalar: `undefined`, `null`, `""` and `0` are falsy. */
  predicate Truthy(v: Scalar) {
    match v
    case Absent => false
    case Text(s) => s != ""
    case Number(n) => n != 0.0
  }

  /** JavaScript truthiness of an optional string field. */
  predicate TruthyText(v: Option<string>) {
    v.Some? && v.value != ""
  }

  /** `parseFloat(v)`: a number is kept, a string goes through the given parser of decimal text. */
  function ParseFloat(v: Scalar, parseText: string -> real): (r: real)
    ensures v.Number? ==> r == v.n
    ensures v.Text? ==> r == parseText(v.s)
  {
    match v
    case Absent => parseText("undefined")
    case Text(s) => parseText(s)
    case Number(n) => n
  }

  /** `s.startsWith(p)`: a raw character prefix test. */
  predicate StartsWith(s: string, p: string) {
    |p| <= |s| && s[..|p|] == p
  }

  /** `s.endsWith(p)` */
  predicate EndsWith(s: string, p: string) {
    |p| <= |s| && s[|s| - |p|..] == p
  }

  /** `t` occurs in `s` starting at index `i`. */
  ghost predicate OccursAt(t: string, s: string, i: int) {
    0 <= i && i + |t| <= |s| && s[i..i + |t|] == t
  }

  ghost predicate IsSubstring(t: string, s: string) {
    exists i :: OccursAt(t, s, i)
  }

  lemma SubstringOfConcat(a: string, t: string, b: string)
    ensures IsSubstring(t, a + t + b)
  {
    assert OccursAt(t, a + t + b, |a|);
  }

  lemma SubstringTransitive(t: string, u: string, s: string)
    requires IsSubstring(t, u) && IsSubstring(u, s)
    ensures IsSubstring(t, s)
  {
    var i :| OccursAt(t, u, i);
    var j :| OccursAt(u, s, j);
    assert forall k :: 0 <= k < |t| ==> s[j + i..j + i + |t|][k] == u[i + k] == t[k];
    assert OccursAt(t, s, j + i);
  }

  /** The concatenation of the pieces of a template literal. */
  function Concat(parts: seq<string>): (r: string)
    ensures |parts| == 0 ==> r == ""
  {
    if |parts| == 0 then "" else parts[0] + Concat(parts[1..])
  }

  /** Concatenating two runs of pieces is concatenating their concatenations. */
  lemma {:induction false} ConcatAppend(a: seq<string>, b: seq<string>)
    ensures Concat(a + b) == Concat(a) + Concat(b)
  {
    if |a| == 0 {
      assert a + b == b;
    } else {
      assert (a + b)[1..] == a[1..] + b;
      ConcatAppend(a[1..], b);
    }
  }

  lemma ConcatCons(a: string, rest: seq<string>)
    ensures Concat([a] + rest) == a + Concat(rest)
  {
    assert ([a] + rest)[1..] == rest;
  }

  /** A template's concatenation starts with the concatenation of its first pieces. */
  lemma ConcatPrefix(parts: seq<string>, k: nat)
    requires k <= |parts|
    ensures StartsWith(Concat(parts), Concat(parts[..k]))
  {
    var a, b := Concat(parts[..k]), Concat(parts[k..]);
    ConcatAppend(parts[..k], parts[k..]);
    assert parts[..k] + parts[k..] == parts;
    assert (a + b)[..|a|] == a;
  }

  /** A non-empty template's concatenation ends with its last piece. */
  lemma ConcatLast(parts: seq<string>)
    requires |parts| > 0
    ensures EndsWith(Concat(parts), parts[|parts| - 1])
  {
    var n := |parts| - 1;
    ConcatAppend(parts[..n], [parts[n]]);
    assert parts[..n] + [parts[n]] == parts;
    ConcatCons(parts[n], []);
    assert [parts[n]] + [] == [parts[n]];
    var a, b := Concat(parts[..n]), parts[n];
    assert (a + b)[|a + b| - |b|..] == b;
  }

  /** Every piece of a template occurs, whole, in its concatenation. */
  lemma {:induction false} ConcatContains(parts: seq<string>, k: nat)
    requires k < |parts|
    ensures IsSubstring(parts[k], Concat(parts))
  {
    if k == 0 {
      SubstringOfConcat("", parts[0], Concat(parts[1..]));
      assert "" + parts[0] + Concat(parts[1..]) == Concat(parts);
    } else {
      ConcatContains(parts[1..], k - 1);
      SubstringOfConcat(parts[0], Concat(parts[1..]), "");
      assert parts[0] + Concat(parts[1..]) + "" == Concat(parts);
      SubstringTransitive(parts[k], Concat(parts[1..]), Concat(parts));
    }
  }

  // ---------------------------------------------------------------------------
  // Array.prototype.join

  /** `xs.join(sep)` */
  function Join(xs: seq<string>, sep: string): (r: string)
    ensures |xs| == 0 ==> r == ""
    ensures |xs| == 1 ==> r == xs[0]
  {
    if |xs| == 0 then "" else if |xs| == 1 then xs[0] else xs[0] + sep + Join(xs[1..], sep)
  }

  /** Joining keeps the given order: appending an element appends it after one separator. */
  lemma {:induction false} JoinAppend(xs: seq<string>, y: string, sep: string)
    requires |xs| > 0
    ensures Join(xs + [y], sep) == Join(xs, sep) + sep + y
  {
    if |xs| == 1 {
      assert xs + [y] == [xs[0], y];
      assert (xs + [y])[1..] == [y];
    } else {
      assert (xs + [y])[1..] == xs[1..] + [y];
      JoinAppend(xs[1..], y, sep);
    }
  }

  /** Every element occurs, whole, in the joined string. */
  lemma {:induction false} JoinContains(xs: seq<string>, sep: string, k: nat)
    requires k < |xs|
    ensures IsSubstring(xs[k], Join(xs, sep))
  {
    if |xs| == 1 {
      SubstringOfConcat("", xs[0], "");
      assert "" + xs[0] + "" == xs[0];
    } else if k == 0 {
      SubstringOfConcat("", xs[0], sep + Join(xs[1..], sep));
      assert "" + xs[0] + (sep + Join(xs[1..], sep)) == Join(xs, sep);
    } else {
      JoinContains(xs[1..], sep, k - 1);
      SubstringOfConcat(xs[0] + sep, Join(xs[1..], sep), "");
      assert xs[0] + sep + Join(xs[1..], sep) + "" == Join(xs, sep);
      SubstringTransitive(xs[k], Join(xs[1..], sep), Join(xs, sep));
    }
  }

  // ---------------------------------------------------------------------------
  // String.prototype.toUpperCase, restricted to ASCII letters

  predicate IsLower(c: char) {
    'a' <= c <= 'z'
  }

  function UpperChar(c: char): (u: char)
    ensures !IsLower(u)
    ensures !IsLower(c) ==> u == c
    ensures IsLower(c) ==> u as int == c as int - 32
  {
    if IsLower(c) then (c as int - 32) as char else c
  }

  /** `s.toUpperCase()` on ASCII: every lower-case letter becomes its capital, the rest is kept. */
  function ToUpper(s: string): (r: string)
    ensures |r| == |s|
    ensures forall i :: 0 <= i < |s| ==> r[i] == UpperChar(s[i])
  {
    if |s| == 0 then "" else [UpperChar(s[0])] + ToUpper(s[1..])
  }

  predicate NoLower(s: string) {
    forall i :: 0 <= i < |s| ==> !IsLower(s[i])
  }

  /** Upper-casing leaves no lower-case letter, and a string with none is its own upper case. */
  lemma UpperHasNoLower(s: string)
    ensures NoLower(ToUpper(s))
    ensures NoLower(s) <==> ToUpper(s) == s
  {
    if NoLower(s) {
      assert forall i :: 0 <= i < |s| ==> ToUpper(s)[i] == s[i];
    }
    if ToUpper(s) == s {
      assert forall i :: 0 <= i < |s| ==> !IsLower(ToUpper(s)[i]);
    }
  }

  lemma ToUpperIdempotent(s: string)
    ensures ToUpper(ToUpper(s)) == ToUpper(s)
  {
    UpperHasNoLower(s);
    UpperHasNoLower(ToUpper(s));
  }

  // ---------------------------------------------------------------------------
  // Rendering an integer in a template literal

  predicate IsDigit(c: char) {
    '0' <= c <= '9'
  }

  function DigitChar(d: nat): (c: char)
    requires d < 10
    ensures IsDigit(c) && c as int - '0' as int == d
  {
    ('0' as int + d) as char
  }

  /** The decimal rendering of a natural number, as `${n}` gives it. */
  function NatToString(n: nat): (r: string)
    ensures |r| >= 1
    ensures forall i :: 0 <= i < |r| ==> IsDigit(r[i])
    ensures |r| > 1 ==> r[0] != '0'
  {
    if n < 10 then [DigitChar(n)] else NatToString(n / 10) + [DigitChar(n % 10)]
  }

  /** `${i}` for an integer: a minus sign before the digits of a negative number. */
  function IntToString(i: int): (r: string)
    ensures |r| >= 1
    ensures i >= 0 ==> r == NatToString(i)
    ensures i < 0 ==> r == "-" + NatToString(-i)
  {
    if i < 0 then "-" + NatToString(-i) else NatToString(i)
  }

  /** The value of a string of decimal digits. */
  function DigitsValue(s: string): int
    requires forall i :: 0 <= i < |s| ==> IsDigit(s[i])
  {
    if |s| == 0 then 0 else DigitsValue(s[..|s| - 1]) * 10 + (s[|s| - 1] as int - '0' as int)
  }

  /** Reading back the digits gives the number: the rendering loses nothing. */
  lemma {:induction false} NatToStringRoundTrip(n: nat)
    ensures DigitsValue(NatToString(n)) == n
  {
    if n >= 10 {
      var r := NatToString(n);
      assert r[..|r| - 1] == NatToString(n / 10);
      NatToStringRoundTrip(n / 10);
    }
  }

  /** Distinct numbers render differently. */
  lemma IntToStringInjective(a: int, b: int)
    requires IntToString(a) == IntToString(b)
    ensures a == b
  {
    var ra, rb := IntToString(a), IntToString(b);
    if a >= 0 && b >= 0 {
      NatToStringRoundTrip(a);
      NatToStringRoundTrip(b);
    } else if a < 0 && b < 0 {
      assert ra[1..] == NatToString(-a) && rb[1..] == NatToString(-b);
      NatToStringRoundTrip(-a);
      NatToStringRoundTrip(-b);
    }
  }
}
