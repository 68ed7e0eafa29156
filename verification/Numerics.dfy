/** Printing and parsing of `Numeric`, a decimal kept as an integer and a number of places. */
module Numerics {

  datatype Option<T> = None | Some(value: T)

  datatype Numeric = Numeric(value: int, len: nat, precision: nat)

  function Pow10(n: nat): (p: nat)
    ensures p > 0
  {
    if n == 0 then 1 else 10 * Pow10(n - 1)
  }

  predicate IsDigit(c: char) {
    '0' <= c <= '9'
  }

  function DigitOf(c: char): (d: nat)
    requires IsDigit(c)
    ensures d < 10
  {
    (c - '0') as nat
  }

  /** The number that a string of digits stands for. */
  function ValueOf(s: string): (v: nat)
    requires forall c :: c in s ==> IsDigit(c)
  {
    if s == [] then 0 else 10 * ValueOf(s[..|s| - 1]) + DigitOf(s[|s| - 1])
  }

  // ----- printing -----

  function DigitChar(d: nat): (c: char)
    requires d < 10
    ensures IsDigit(c) && DigitOf(c) == d
  {
    '0' + d as char
  }

  function Show(n: nat): (s: string)
    ensures s != [] && forall c :: c in s ==> IsDigit(c)
  {
    if n < 10 then [DigitChar(n)] else Show(n / 10) + [DigitChar(n % 10)]
  }

  /** Division as the source has it, towards zero. */
  function Truncated(value: int, unit: nat): (q: int)
    requires unit > 0
    ensures if value >= 0 then q * unit <= value < (q + 1) * unit else (q - 1) * unit < value <= q * unit
  {
    if value >= 0 then value / unit else -(-value / unit)
  }

  /** `as_string`: the whole units. */
  function AsString(n: Numeric): (s: string) {
    var whole := Truncated(n.value, Pow10(n.precision));
    if whole < 0 then "-" + Show(-whole) else Show(whole)
  }

  lemma {:induction false} ShowIsRead(n: nat)
    ensures ValueOf(Show(n)) == n
  {
    if n >= 10 {
      ShowIsRead(n / 10);
      assert Show(n)[..|Show(n)| - 1] == Show(n / 10);
    }
  }

  /** A number prints in `k` digits if and only if it is below 10^k. */
  lemma {:induction false} ShowLength(n: nat, k: nat)
    ensures |Show(n)| <= k <==> k > 0 && n < Pow10(k)
  {
    if n < 10 {
      if k > 0 {
        Pow10AtLeast(k);
      }
    } else if k > 0 {
      ShowLength(n / 10, k - 1);
    }
  }

  lemma Pow10AtLeast(k: nat)
    requires k > 0
    ensures Pow10(k) >= 10
  {
  }

  // ----- parsing -----

  /** An integer with that many more zeros. */
  function Scaled(value: int, zeros: nat): (v: int) {
    value * Pow10(zeros)
  }

  /** `s` without the zeros at its end. */
  function NoZeros(s: string): (r: string)
    ensures |r| <= |s| && r == s[..|r|] && (r != [] ==> r[|r| - 1] != '0')
    ensures forall i :: |r| <= i < |s| ==> s[i] == '0'
  {
    if s != [] && s[|s| - 1] == '0' then NoZeros(s[..|s| - 1]) else s
  }

  predicate AllDigits(s: string) {
    forall c :: c in s ==> IsDigit(c)
  }

  /** What `whole.frac` stands for at `precision` places, if all are digits and not too many. */
  function Fixed(whole: string, frac: string, len: nat, precision: nat): (v: Option<int>)
    requires precision <= len
  {
    if AllDigits(whole) && AllDigits(frac) && |whole| <= len - precision && |frac| <= precision
    then Some(Scaled(ValueOf(whole + frac), precision - |frac|)) else None
  }

  /** What an unsigned decimal stands for: `whole` or `whole.frac`, where zeros at the end do not
      count as places. */
  function Unsigned(s: string, len: nat, precision: nat): (v: Option<int>)
    requires precision <= len
  {
    if '.' in s then Fixed(s[..FirstDot(s)], NoZeros(s)[FirstDot(s) + 1..], len, precision)
    else Fixed(s, "", len, precision)
  }

  ghost predicate IsFirstPoint(s: string, i: int) {
    0 <= i < |s| && s[i] == '.' && forall k :: 0 <= k < i ==> s[k] != '.'
  }

  function FirstDot(s: string): (i: nat)
    requires '.' in s
    ensures i < |NoZeros(s)| <= |s| && IsFirstPoint(s, i)
  {
    DotStays(s);
    if s[0] == '.' then 0 else
      assert s[1..][FirstDot(s[1..])] == '.';
      1 + FirstDot(s[1..])
  }

  lemma {:induction false} DotStays(s: string)
    requires '.' in s
    ensures '.' in NoZeros(s)
  {
    if s[|s| - 1] == '0' {
      assert s == s[..|s| - 1] + [s[|s| - 1]];
      DotStays(s[..|s| - 1]);
    }
  }

  /** What a trimmed string stands for. */
  function Parsed(s: string, len: nat, precision: nat): (n: Option<Numeric>)
    requires s != [] && precision <= len
  {
    var v := Unsigned(if s[0] == '-' then s[1..] else s, len, precision);
    if v.None? then None else Some(Numeric(if s[0] == '-' then -v.value else v.value, len, precision))
  }

  function Abs(i: int): (n: nat) {
    if i < 0 then -i else i
  }

  lemma NoPoint(s: string)
    requires AllDigits(s)
    ensures '.' !in s && (s != [] ==> s[0] != '-')
  {
    assert s != [] ==> IsDigit(s[0]);
  }

  lemma UnsignedOfShow(n: nat, len: nat, precision: nat)
    requires precision <= len
    ensures Unsigned(Show(n), len, precision)
         == if len > precision && n < Pow10(len - precision) then Some(n * Pow10(precision)) else None
  {
    NoPoint(Show(n));
    ShowIsRead(n);
    ShowLength(n, len - precision);
    assert Show(n) + "" == Show(n);
    FixedIs(Show(n), "", len, precision);
  }

  /** Printing and then parsing a decimal truncates it towards zero to whole units, if its whole
      part fits, and fails otherwise. */
  lemma PrintThenParse(n: Numeric)
    requires n.precision <= n.len
    ensures var whole := Truncated(n.value, Pow10(n.precision));
            Parsed(AsString(n), n.len, n.precision)
              == if n.len > n.precision && Abs(whole) < Pow10(n.len - n.precision)
                 then Some(Numeric(whole * Pow10(n.precision), n.len, n.precision)) else None
  {
    var whole := Truncated(n.value, Pow10(n.precision));
    var s := Show(Abs(whole));
    UnsignedOfShow(Abs(whole), n.len, n.precision);
    NoPoint(s);
    if whole < 0 {
      assert AsString(n) == "-" + s && ("-" + s)[1..] == s;
      Negated(whole, Pow10(n.precision));
    } else {
      assert AsString(n) == s;
    }
  }

  // ----- what the functions above mean -----

  const DIGITS: string := "0123456789"

  /** The digits, in their order. */
  lemma DigitsAre(c: char, n: nat)
    ensures IsDigit(c) <==> c in DIGITS
    ensures n < 10 ==> IsDigit(DIGITS[n]) && DigitOf(DIGITS[n]) == n && Show(n) == [DIGITS[n]] && ValueOf([DIGITS[n]]) == n
  {
    if IsDigit(c) {
      assert c == DIGITS[DigitOf(c)];
    }
    if n < 10 {
      assert [DIGITS[n]][..0] == [];
    }
  }

  lemma {:induction false} Pow10Adds(m: nat, n: nat)
    ensures Pow10(m + n) == Pow10(m) * Pow10(n) && Pow10(0) == 1 && Pow10(1) == 10
  {
    assert Pow10(1) == 10 * Pow10(0);
    if m > 0 {
      Pow10Adds(m - 1, n);
    }
  }

  /** Ten times as much for each place. */
  lemma {:induction false} ValueAppend(a: string, b: string)
    requires AllDigits(a + b)
    ensures AllDigits(a) && AllDigits(b) && ValueOf(a + b) == ValueOf(a) * Pow10(|b|) + ValueOf(b)
  {
    DigitsOfBoth(a, b);
    if b == [] {
      assert a + b == a;
    } else {
      var c, d := b[..|b| - 1], b[|b| - 1];
      assert (a + b)[..|a + b| - 1] == a + c && (a + b)[|a + b| - 1] == d;
      DigitsOfBoth(a, c);
      ValueAppend(a, c);
      Regroup(ValueOf(a), Pow10(|c|), 10, ValueOf(c));
    }
  }

  lemma NoZerosIs(t: string, zeros: string)
    requires t != [] && t[|t| - 1] != '0' && forall c :: c in zeros ==> c == '0'
    ensures NoZeros(t + zeros) == t
  {
    var u := t + zeros;
    assert u[|t| - 1] == t[|t| - 1];
    assert forall i :: |t| <= i < |u| ==> u[i] in zeros;
    assert u[..|t|] == t;
  }

  /** `zeros` are zeros, and `frac` are digits with none at the end. */
  predicate IsTail(frac: string, zeros: string) {
    AllDigits(frac) && (frac != [] ==> frac[|frac| - 1] != '0') && forall c :: c in zeros ==> c == '0'
  }

  /** What `whole.frac` stands for, in units of 10^-precision. */
  function DecimalOf(whole: string, frac: string, len: nat, precision: nat): (v: Option<int>)
    requires AllDigits(whole) && AllDigits(frac) && precision <= len
  {
    if |whole| <= len - precision && |frac| <= precision
    then Some(ValueOf(whole) * Pow10(precision) + ValueOf(frac) * Pow10(precision - |frac|)) else None
  }

  /** The unsigned decimal `whole.frac`, with any zeros after it. */
  lemma UnsignedIs(whole: string, frac: string, zeros: string, len: nat, precision: nat)
    requires AllDigits(whole) && IsTail(frac, zeros) && precision <= len
    ensures Unsigned(whole + "." + frac + zeros, len, precision) == DecimalOf(whole, frac, len, precision)
  {
    var t := whole + "." + frac;
    var u := t + zeros;
    NoZerosIs(t, zeros);
    NoPoint(whole);
    assert u[|whole|] == '.' && forall k :: 0 <= k < |whole| ==> u[k] == whole[k] && whole[k] in whole;
    OnePoint(u, FirstDot(u), |whole|);
    assert u[..|whole|] == whole && t[|whole| + 1..] == frac;
    FixedIsDecimal(whole, frac, len, precision);
  }

  lemma Regroup(a: int, b: int, c: int, f: int)
    ensures (a * b + f) * c == a * (b * c) + f * c
  {
  }

  lemma FixedIsDecimal(whole: string, frac: string, len: nat, precision: nat)
    requires AllDigits(whole) && AllDigits(frac) && precision <= len
    ensures Fixed(whole, frac, len, precision) == DecimalOf(whole, frac, len, precision)
  {
    if |frac| <= precision {
      DigitsOfBoth(whole, frac);
      ValueAppend(whole, frac);
      Pow10Adds(|frac|, precision - |frac|);
      hide Pow10, ValueOf, AllDigits;
      Regroup(ValueOf(whole), Pow10(|frac|), Pow10(precision - |frac|), ValueOf(frac));
    }
  }

  function Signed(minus: bool, s: string): (t: string) {
    if minus then "-" + s else s
  }

  function Signs(minus: bool, v: Option<int>, len: nat, precision: nat): (n: Option<Numeric>) {
    if v.None? then None else Some(Numeric(if minus then -v.value else v.value, len, precision))
  }

  lemma ParsedSigned(minus: bool, u: string, len: nat, precision: nat)
    requires precision <= len && (minus || (u != [] && u[0] != '-'))
    ensures Parsed(Signed(minus, u), len, precision) == Signs(minus, Unsigned(u, len, precision), len, precision)
  {
    hide Unsigned;
    assert ("-" + u)[1..] == u && ("-" + u)[0] == '-';
  }

  /** Parsing reads every decimal for what it is: `whole.frac` with a sign and zeros at the end,
      or `whole` with a sign. */
  lemma DecimalIsRead(minus: bool, whole: string, frac: string, zeros: string, len: nat, precision: nat)
    requires AllDigits(whole) && IsTail(frac, zeros) && precision <= len
    ensures Parsed(Signed(minus, whole + "." + frac + zeros), len, precision)
         == Signs(minus, DecimalOf(whole, frac, len, precision), len, precision)
    ensures minus || whole != [] ==>
              Parsed(Signed(minus, whole), len, precision) == Signs(minus, DecimalOf(whole, "", len, precision), len, precision)
  {
    UnsignedIs(whole, frac, zeros, len, precision);
    PlainIs(whole, len, precision);
    NoPoint(whole);
    var u := whole + "." + frac + zeros;
    assert u[0] == if whole == [] then '.' else whole[0];
    hide *;
    ParsedSigned(minus, u, len, precision);
    if minus || whole != [] {
      ParsedSigned(minus, whole, len, precision);
    }
  }

  lemma PlainIs(whole: string, len: nat, precision: nat)
    requires AllDigits(whole) && precision <= len
    ensures Unsigned(whole, len, precision) == DecimalOf(whole, "", len, precision)
  {
    NoPoint(whole);
    FixedIsDecimal(whole, "", len, precision);
  }

  /** And nothing else. */
  lemma OnlyDecimalsAreRead(s: string, len: nat, precision: nat) returns (minus: bool, whole: string, frac: string, zeros: string)
    requires s != [] && precision <= len && Parsed(s, len, precision).Some?
    ensures AllDigits(whole) && IsTail(frac, zeros)
    ensures s == Signed(minus, whole + "." + frac + zeros) || (s == Signed(minus, whole) && frac == zeros == "")
  {
    minus := s[0] == '-';
    var u := if minus then s[1..] else s;
    assert s == Signed(minus, u);
    if '.' in u {
      whole, frac, zeros := PointedParts(u, len, precision);
    } else {
      whole, frac, zeros := u, "", "";
    }
  }

  lemma PointedParts(u: string, len: nat, precision: nat) returns (whole: string, frac: string, zeros: string)
    requires '.' in u && precision <= len && Unsigned(u, len, precision).Some?
    ensures AllDigits(whole) && IsTail(frac, zeros) && u == whole + "." + frac + zeros
  {
    var t, f := NoZeros(u), FirstDot(u);
    hide FirstDot, NoZeros;
    whole, frac, zeros := u[..f], t[f + 1..], u[|t|..];
    hide AllDigits;
    TailOf(u, t);
    SplitAt(u, f, |t|);
  }

  lemma SplitAt(u: string, f: int, n: int)
    requires 0 <= f < n <= |u| && u[f] == '.'
    ensures u == u[..f] + "." + u[..n][f + 1..] + u[n..]
    ensures u[..n][f + 1..] != [] ==> u[..n][f + 1..][|u[..n][f + 1..]| - 1] == u[n - 1]
  {
    assert u == u[..f] + [u[f]] + u[f + 1..n] + u[n..];
    assert u[..n][f + 1..] == u[f + 1..n];
  }

  lemma TailOf(u: string, t: string)
    requires |t| <= |u| && t == u[..|t|] && forall i :: |t| <= i < |u| ==> u[i] == '0'
    ensures forall c :: c in u[|t|..] ==> c == '0'
  {
    forall c | c in u[|t|..] ensures c == '0' {
      var i :| 0 <= i < |u| - |t| && u[|t|..][i] == c;
      assert u[|t| + i] == c;
    }
  }

  lemma Negated(a: int, b: int)
    ensures -((-a) * b) == a * b
  {
  }

  lemma ValueSnoc(s: string, c: char)
    requires AllDigits(s) && IsDigit(c)
    ensures AllDigits(s + [c]) && ValueOf(s + [c]) == 10 * ValueOf(s) + DigitOf(c)
  {
    assert (s + [c])[..|s|] == s;
  }

  /** The digits of `s` before and after place `dot`; all of them when there is no such place. */
  function Digits(s: string, dot: int): (r: string) {
    if 0 <= dot < |s| then s[..dot] + s[dot + 1..] else s
  }

  /** The loop of `from_str` has read `s` up to here, with its first point at `dot`, or -1. */
  ghost predicate Scanned(s: string, dot: int, value: int, whole: nat, frac: nat) {
    && -1 <= dot < |s| && (if dot < 0 then '.' !in s else IsFirstPoint(s, dot))
    && AllDigits(Digits(s, dot)) && value == ValueOf(Digits(s, dot))
    && (if dot < 0 then whole == |s| && frac == 0 else whole == dot && frac == |s| - dot - 1)
  }

  lemma PointStays(s: string, dot: int, c: char)
    requires -1 <= dot < |s| && IsDigit(c) && (if dot < 0 then '.' !in s else IsFirstPoint(s, dot))
    ensures if dot < 0 then '.' !in s + [c] else IsFirstPoint(s + [c], dot)
    ensures Digits(s + [c], dot) == Digits(s, dot) + [c]
  {
    if dot >= 0 {
      assert (s + [c])[..dot] == s[..dot] && (s + [c])[dot + 1..] == s[dot + 1..] + [c];
    }
  }

  lemma ScannedDigit(s: string, dot: int, value: int, whole: nat, frac: nat, c: char)
    requires Scanned(s, dot, value, whole, frac) && IsDigit(c)
    ensures Scanned(s + [c], dot, value * 10 + DigitOf(c), if dot < 0 then whole + 1 else whole, if dot < 0 then frac else frac + 1)
  {
    ValueSnoc(Digits(s, dot), c);
    PointStays(s, dot, c);
    hide Digits, ValueOf, AllDigits, IsFirstPoint, IsDigit, DigitOf;
  }

  lemma ScannedPoint(s: string, value: int, whole: nat, frac: nat)
    requires Scanned(s, -1, value, whole, frac)
    ensures Scanned(s + ['.'], |s|, value, whole, frac)
  {
    assert Digits(s + ['.'], |s|) == s;
    assert (s + ['.'])[..|s|] == s;
  }

  lemma ReadDigit(t: string, i: nat, dot: int, value: int, whole: nat, frac: nat)
    requires i < |t| && Scanned(t[..i], dot, value, whole, frac) && IsDigit(t[i])
    ensures Scanned(t[..i + 1], dot, value * 10 + DigitOf(t[i]), if dot < 0 then whole + 1 else whole, if dot < 0 then frac else frac + 1)
  {
    assert t[..i + 1] == t[..i] + [t[i]];
    ScannedDigit(t[..i], dot, value, whole, frac, t[i]);
  }

  lemma ReadPoint(t: string, i: nat, value: int, whole: nat, frac: nat)
    requires i < |t| && Scanned(t[..i], -1, value, whole, frac) && t[i] == '.'
    ensures Scanned(t[..i + 1], i, value, whole, frac)
  {
    assert t[..i + 1] == t[..i] + ['.'];
    ScannedPoint(t[..i], value, whole, frac);
  }

  lemma ReadBad(t: string, i: nat, dot: int, value: int, whole: nat, frac: nat)
    requires i < |t| && Scanned(t[..i], dot, value, whole, frac) && !IsDigit(t[i]) && !(t[i] == '.' && dot < 0)
    ensures BadAt(t, i, dot)
  {
    assert forall k :: 0 <= k < i ==> t[..i][k] == t[k];
  }

  lemma ScanStarts(t: string)
    ensures Scanned(t[..0], -1, 0, 0, 0)
  {
  }

  /** The loop of `from_str` over the characters. */
  method Scan(t: string) returns (ok: bool, value: int, whole: nat, frac: nat, ghost dot: int)
    ensures ok ==> Scanned(t, dot, value, whole, frac)
    ensures !ok ==> exists i :: 0 <= i < |t| && BadAt(t, i, dot)
  {
    hide Scanned, BadAt;
    var fraction := false;
    value, whole, frac, dot := 0, 0, 0, -1;
    ScanStarts(t);
    for i := 0 to |t|
      invariant Scanned(t[..i], dot, value, whole, frac) && fraction == (dot >= 0) && -1 <= dot
    {
      if IsDigit(t[i]) {
        ReadDigit(t, i, dot, value, whole, frac);
        value := value * 10 + DigitOf(t[i]);
        if fraction { frac := frac + 1; } else { whole := whole + 1; }
      } else if t[i] == '.' && !fraction {
        ReadPoint(t, i, value, whole, frac);
        fraction, dot := true, i;
      } else {
        ReadBad(t, i, dot, value, whole, frac);
        return false, value, whole, frac, dot;
      }
    }
    assert t[..|t|] == t;
    ok := true;
  }

  /** A character that is neither a digit nor the first point. */
  ghost predicate BadAt(t: string, i: nat, dot: int)
    requires i < |t|
  {
    && !IsDigit(t[i]) && -1 <= dot < i
    && if dot < 0 then '.' !in t[..i] && t[i] != '.' else IsFirstPoint(t, dot)
  }

  /** Zeros at the end of a string with a point are dropped first. */
  method Strip(u: string) returns (t: string)
    ensures t == if '.' in u then NoZeros(u) else u
  {
    t := u;
    if '.' in u {
      while t != [] && t[|t| - 1] == '0'
        invariant NoZeros(t) == NoZeros(u)
      {
        t := t[..|t| - 1];
      }
    }
  }

  /** The unsigned part of `from_str`. */
  method ReadUnsigned(u: string, len: nat, precision: nat) returns (v: Option<int>)
    requires precision <= len
    ensures v == Unsigned(u, len, precision)
  {
    var t := Strip(u);
    var ok, value, whole, frac, dot := Scan(t);
    if ok {
      WholeScan(u, t, dot, value, whole, frac, len, precision);
      v := if whole > len - precision || frac > precision then None else Some(Scaled(value, precision - frac));
    } else {
      ghost var i :| 0 <= i < |t| && BadAt(t, i, dot);
      BadChar(u, t, i, dot, len, precision);
      v := None;
    }
  }

  /** `from_str`, from the trimmed string on. */
  method FromStr(s: string, len: nat, precision: nat) returns (r: Option<Numeric>)
    requires s != [] && precision <= len
    ensures r == Parsed(s, len, precision)
  {
    var negative := s[0] == '-';
    var v := ReadUnsigned(if negative then s[1..] else s, len, precision);
    if v.None? {
      return None;
    }
    r := Some(Numeric(if negative then -v.value else v.value, len, precision));
  }

  lemma BadChar(u: string, t: string, i: nat, dot: int, len: nat, precision: nat)
    requires precision <= len && t == (if '.' in u then NoZeros(u) else u) && i < |t| && BadAt(t, i, dot)
    ensures Unsigned(u, len, precision) == None
  {
    if '.' in u {
      PointedBadChar(u, t, i, dot, FirstDot(u));
    } else {
      assert u[i] in u;
    }
  }

  lemma PointedBadChar(u: string, t: string, i: nat, dot: int, f: int)
    requires |t| <= |u| && t == u[..|t|] && i < |t| && BadAt(t, i, dot) && IsFirstPoint(u, f) && f < |t|
    ensures !AllDigits(u[..f]) || !AllDigits(t[f + 1..])
  {
    assert t[i] == u[i] && t[f] == u[f];
    if dot >= 0 {
      assert IsFirstPoint(u, dot);
      OnePoint(u, f, dot);
    }
    if i < f {
      assert u[..f][i] == t[i];
    } else {
      assert i > f;
      assert t[f + 1..][i - f - 1] == t[i];
    }
  }

  lemma DigitsOfBoth(a: string, b: string)
    ensures AllDigits(a + b) <==> AllDigits(a) && AllDigits(b)
  {
    if AllDigits(a + b) {
      assert forall c :: c in a || c in b ==> c in a + b;
    }
  }

  lemma OnePoint(s: string, i: int, j: int)
    requires IsFirstPoint(s, i) && IsFirstPoint(s, j)
    ensures i == j
  {
  }

  lemma SamePoint(u: string, t: string, dot: int)
    requires '.' in u && t == NoZeros(u) && IsFirstPoint(t, dot)
    ensures FirstDot(u) == dot && u[..dot] == t[..dot]
  {
    assert t == u[..|t|];
    hide NoZeros, FirstDot;
    assert IsFirstPoint(u, dot);
    hide IsFirstPoint;
    OnePoint(u, FirstDot(u), dot);
  }

  lemma FixedIs(whole: string, frac: string, len: nat, precision: nat)
    requires precision <= len && AllDigits(whole + frac)
    ensures Fixed(whole, frac, len, precision)
         == if |whole| > len - precision || |frac| > precision then None
            else Some(Scaled(ValueOf(whole + frac), precision - |frac|))
  {
    DigitsOfBoth(whole, frac);
  }

  lemma PointedUnsigned(u: string, t: string, dot: int, len: nat, precision: nat)
    requires precision <= len && '.' in u && t == NoZeros(u) && IsFirstPoint(t, dot)
    ensures Unsigned(u, len, precision) == Fixed(t[..dot], t[dot + 1..], len, precision)
  {
    SamePoint(u, t, dot);
  }

  lemma ScannedParts(t: string, dot: int, value: int, whole: nat, frac: nat)
    requires dot >= 0 && Scanned(t, dot, value, whole, frac)
    ensures AllDigits(t[..dot] + t[dot + 1..]) && value == ValueOf(t[..dot] + t[dot + 1..])
    ensures |t[..dot]| == whole && |t[dot + 1..]| == frac && IsFirstPoint(t, dot)
  {
    assert Digits(t, dot) == t[..dot] + t[dot + 1..];
  }

  lemma PointedScan(u: string, t: string, dot: int, value: int, whole: nat, frac: nat, len: nat, precision: nat)
    requires precision <= len && '.' in u && t == NoZeros(u) && dot >= 0 && Scanned(t, dot, value, whole, frac)
    ensures Unsigned(u, len, precision)
         == if whole > len - precision || frac > precision then None else Some(Scaled(value, precision - frac))
  {
    hide *;
    ScannedParts(t, dot, value, whole, frac);
    ScannedFixed(u, t, dot, t[..dot], t[dot + 1..], len, precision);
  }

  lemma ScannedFixed(u: string, t: string, dot: int, whole: string, frac: string, len: nat, precision: nat)
    requires precision <= len && '.' in u && t == NoZeros(u) && IsFirstPoint(t, dot)
    requires whole == t[..dot] && frac == t[dot + 1..] && AllDigits(whole + frac)
    ensures Unsigned(u, len, precision)
         == if |whole| > len - precision || |frac| > precision then None
            else Some(Scaled(ValueOf(whole + frac), precision - |frac|))
  {
    PointedUnsigned(u, t, dot, len, precision);
    FixedIs(whole, frac, len, precision);
  }

  lemma PlainScan(u: string, value: int, whole: nat, frac: nat, len: nat, precision: nat)
    requires precision <= len && '.' !in u && Scanned(u, -1, value, whole, frac)
    ensures Unsigned(u, len, precision)
         == if whole > len - precision || frac > precision then None else Some(Scaled(value, precision - frac))
  {
    assert u + "" == u;
    FixedIs(u, "", len, precision);
  }

  lemma PointFound(t: string, dot: int, value: int, whole: nat, frac: nat)
    requires Scanned(t, dot, value, whole, frac)
    ensures dot < 0 <==> '.' !in t
    ensures dot < 0 ==> dot == -1
  {
  }

  lemma WholeScan(u: string, t: string, dot: int, value: int, whole: nat, frac: nat, len: nat, precision: nat)
    requires precision <= len && t == (if '.' in u then NoZeros(u) else u) && Scanned(t, dot, value, whole, frac)
    ensures Unsigned(u, len, precision)
         == if whole > len - precision || frac > precision then None else Some(Scaled(value, precision - frac))
  {
    PointFound(t, dot, value, whole, frac);
    if '.' in u {
      DotStays(u);
      PointedScan(u, t, dot, value, whole, frac, len, precision);
    } else {
      PlainScan(u, value, whole, frac, len, precision);
    }
  }
}
