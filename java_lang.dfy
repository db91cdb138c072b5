// The few pieces of java.lang / java.util behaviour the home-automation
// client relies on, stated once: exceptions as values, Integer.parseInt,
// Integer.toString, and the String.compareTo order that TreeMap iterates in.

module Wrappers {
  /** A Java reference that may be null. */
  datatype Option<T> = None | Some(value: T)
}

module JavaLang {
  import opened Wrappers

  /** The exceptions the modelled code throws or lets escape. */
  datatype Exception =
    | RuntimeException(message: string)
    | IllegalArgumentException(message: string)
    | IOException(message: string)
    | NullPointerException
    | NumberFormatException
    | XmlPullParserException

  /** The value of a Java call: a normal return, or the exception it throws. */
  datatype Outcome<T> = Ok(value: T) | Throws(ex: Exception)

  /** The exception a call throws, or none when it returns normally. */
  function ExceptionOf<T>(r: Outcome<T>): (e: Option<Exception>)
    ensures e.None? <==> r.Ok?
    ensures r.Throws? ==> e == Some(r.ex)
  {
    if r.Throws? then Some(r.ex) else None
  }

  const IntMin: int := -0x8000_0000
  const IntMax: int := 0x7FFF_FFFF

  predicate IsInt32(n: int) { IntMin <= n <= IntMax }

  // ---------------------------------------------------------------------
  // Iterable.forEach with an action that may throw

  /**
   * Where a forEach over xs stops: the position of the first element whose
   * action throws, or the length when none does.
   */
  function FirstWhere<T>(xs: seq<T>, throws: T -> bool): (n: nat)
    ensures n <= |xs|
    ensures forall j :: 0 <= j < n ==> !throws(xs[j])
    ensures n < |xs| ==> throws(xs[n])
  {
    if xs == [] then 0
    else if throws(xs[0]) then 0
    else 1 + FirstWhere(xs[1..], throws)
  }

  /** Scanning up to where the forEach stops: the element at k either stops it or lies before. */
  lemma FirstWhereAt<T>(xs: seq<T>, throws: T -> bool, k: nat)
    requires k <= FirstWhere(xs, throws) && k < |xs|
    ensures throws(xs[k]) ==> k == FirstWhere(xs, throws)
    ensures !throws(xs[k]) ==> k < FirstWhere(xs, throws)
  {
  }

  // ---------------------------------------------------------------------
  // Integer.parseInt(String, int radix)

  /** Character.digit restricted to ASCII letters and digits. */
  function DigitValue(c: char): (r: Option<nat>)
    ensures r.Some? ==> r.value < 36
  {
    if '0' <= c <= '9' then Some(c as int - '0' as int)
    else if 'a' <= c <= 'z' then Some(c as int - 'a' as int + 10)
    else if 'A' <= c <= 'Z' then Some(c as int - 'A' as int + 10)
    else None
  }

  predicate IsDigitIn(c: char, radix: nat) {
    DigitValue(c).Some? && DigitValue(c).value < radix
  }

  /** Every character of s is a digit in radix. */
  predicate AllDigits(s: string, radix: nat)
    decreases |s|
  {
    s == [] || (AllDigits(s[..|s| - 1], radix) && IsDigitIn(s[|s| - 1], radix))
  }

  lemma {:induction false} AllDigitsAt(s: string, radix: nat, i: nat)
    requires AllDigits(s, radix) && i < |s|
    ensures IsDigitIn(s[i], radix)
    decreases |s|
  {
    if i < |s| - 1 {
      AllDigitsAt(s[..|s| - 1], radix, i);
    }
  }

  /** The value of a digit string, most significant digit first. */
  function DigitsValue(s: string, radix: nat): nat
    requires AllDigits(s, radix)
  {
    if s == [] then 0
    else DigitsValue(s[..|s| - 1], radix) * radix + DigitValue(s[|s| - 1]).value
  }

  /**
   * Integer.parseInt(s, radix): an optional '-' or '+' followed by at least
   * one digit of the radix, whose value fits in 32 bits; anything else is a
   * NumberFormatException.
   */
  function ParseInt(s: string, radix: nat): (r: Outcome<int>)
    requires 2 <= radix <= 36
    ensures r.Ok? ==> IsInt32(r.value)
    ensures s == [] ==> r == Throws(NumberFormatException)
    ensures r.Ok? && AllDigits(s, radix) ==> r.value == DigitsValue(s, radix)
    ensures s != [] && AllDigits(s, radix) ==>
      r == if DigitsValue(s, radix) <= IntMax then Ok(DigitsValue(s, radix)) else Throws(NumberFormatException)
    ensures |s| >= 2 && s[0] == '+' && AllDigits(s[1..], radix) ==>
      r == if DigitsValue(s[1..], radix) <= IntMax then Ok(DigitsValue(s[1..], radix)) else Throws(NumberFormatException)
    ensures |s| >= 2 && s[0] == '-' && AllDigits(s[1..], radix) ==>
      r == if DigitsValue(s[1..], radix) <= -IntMin then Ok(-(DigitsValue(s[1..], radix) as int)) else Throws(NumberFormatException)
    ensures r.Ok? ==>
      AllDigits(s, radix) || (|s| >= 2 && (s[0] == '-' || s[0] == '+') && AllDigits(s[1..], radix))
  {
    if s == [] then Throws(NumberFormatException)
    else
      AllDigitsFirst(s, radix);
      var negative := s[0] == '-';
      var digits := if s[0] == '-' || s[0] == '+' then s[1..] else s;
      if digits == [] || !AllDigits(digits, radix) then Throws(NumberFormatException)
      else
        var magnitude := DigitsValue(digits, radix);
        var n: int := if negative then -(magnitude as int) else magnitude;
        if IsInt32(n) then Ok(n) else Throws(NumberFormatException)
  }

  /** A digit string starts with a digit, so not with a sign. */
  lemma AllDigitsFirst(s: string, radix: nat)
    requires s != [] && 2 <= radix <= 36
    ensures AllDigits(s, radix) ==> s[0] != '-' && s[0] != '+'
  {
    if AllDigits(s, radix) {
      AllDigitsAt(s, radix, 0);
    }
  }

  /** Integer.parseInt applied to a possibly-null string: null is a NumberFormatException. */
  function ParseNullable(s: Option<string>, radix: nat): (r: Outcome<int>)
    requires 2 <= radix <= 36
    ensures s.None? ==> r == Throws(NumberFormatException)
    ensures s.Some? ==> r == ParseInt(s.value, radix)
  {
    match s
    case None => Throws(NumberFormatException)
    case Some(t) => ParseInt(t, radix)
  }

  // ---------------------------------------------------------------------
  // Integer.toString(int)

  function DecimalDigit(d: nat): char
    requires d < 10
  {
    ('0' as int + d) as char
  }

  /** The decimal digits of n, without leading zeros. */
  function NatToString(n: nat): (s: string)
    ensures |s| > 0 && AllDigits(s, 10)
    decreases n
  {
    if n < 10 then [DecimalDigit(n)]
    else
      var s := NatToString(n / 10) + [DecimalDigit(n % 10)];
      assert s[..|s| - 1] == NatToString(n / 10);
      s
  }

  /** Integer.toString(n): decimal, with a leading '-' for negative numbers. */
  function IntToString(n: int): string {
    if n < 0 then "-" + NatToString(-n) else NatToString(n)
  }

  lemma {:induction false} NatToStringValue(n: nat)
    ensures DigitsValue(NatToString(n), 10) == n
    decreases n
  {
    var s := NatToString(n);
    if n >= 10 {
      NatToStringValue(n / 10);
      assert s[..|s| - 1] == NatToString(n / 10);
    }
  }

  /** Integer.parseInt(Integer.toString(n)) == n for every 32-bit n. */
  lemma ParseIntToString(n: int)
    requires IsInt32(n)
    ensures ParseInt(IntToString(n), 10) == Ok(n)
  {
    var m: nat := if n < 0 then -n else n;
    var digits := NatToString(m);
    NatToStringValue(m);
    AllDigitsFirst(digits, 10);
    if n < 0 {
      var s := "-" + digits;
      assert s[0] == '-' && s[1..] == digits;
    }
  }

  // ---------------------------------------------------------------------
  // String.compareTo, the order of TreeMap<String, _>

  /** a.compareTo(b) < 0: lexicographic on characters, a proper prefix first. */
  predicate StringLess(a: string, b: string) {
    if a == [] then b != []
    else if b == [] then false
    else if a[0] != b[0] then a[0] < b[0]
    else StringLess(a[1..], b[1..])
  }

  lemma {:induction false} StringLessIrreflexive(a: string)
    ensures !StringLess(a, a)
  {
    if a != [] { StringLessIrreflexive(a[1..]); }
  }

  lemma {:induction false} StringLessTransitive(a: string, b: string, c: string)
    requires StringLess(a, b) && StringLess(b, c)
    ensures StringLess(a, c)
  {
    if a != [] && a[0] == b[0] && b[0] == c[0] {
      StringLessTransitive(a[1..], b[1..], c[1..]);
    }
  }

  lemma {:induction false} StringLessTotal(a: string, b: string)
    requires a != b
    ensures StringLess(a, b) || StringLess(b, a)
  {
    if a != [] && b != [] && a[0] == b[0] {
      assert a == [a[0]] + a[1..] && b == [b[0]] + b[1..];
      StringLessTotal(a[1..], b[1..]);
    }
  }

  predicate SortedStrictly(keys: seq<string>) {
    forall i, j :: 0 <= i < j < |keys| ==> StringLess(keys[i], keys[j])
  }

  /** The least key of a non-empty set of strings. */
  ghost function MinKey(s: set<string>): (m: string)
    requires s != {}
    ensures m in s && forall k :: k in s && k != m ==> StringLess(m, k)
  {
    var x :| x in s;
    if s == {x} then x
    else
      var rest := MinKey(s - {x});
      if StringLess(x, rest) then
        MinLemma(s, x, rest);
        x
      else
        StringLessTotal(x, rest);
        rest
  }

  lemma MinLemma(s: set<string>, x: string, rest: string)
    requires x in s && rest in s - {x}
    requires forall k :: k in s - {x} && k != rest ==> StringLess(rest, k)
    requires StringLess(x, rest)
    ensures forall k :: k in s && k != x ==> StringLess(x, k)
  {
    forall k | k in s && k != x ensures StringLess(x, k) {
      if k != rest { StringLessTransitive(x, rest, k); }
    }
  }

  /** The keys of a TreeMap<String, _> in iteration order. */
  ghost function SortedKeys(s: set<string>): (keys: seq<string>)
    ensures |keys| == |s| && SortedStrictly(keys)
    ensures forall k :: k in keys <==> k in s
    decreases |s|
  {
    if s == {} then []
    else
      var m := MinKey(s);
      var rest := SortedKeys(s - {m});
      forall j | 0 <= j < |rest| ensures StringLess(m, rest[j]) {
        assert rest[j] in rest;
      }
      [m] + rest
  }
}
