/**
 * The pieces of JavaScript string and number handling that the dashboard
 * relies on: `String.prototype.split` on one separator character, `Number(s)`,
 * `parseInt(s)`, decimal printing of integers (template literals) and
 * `padStart(n, '0')`.
 */
module JsText {
  import opened Wrappers

  predicate IsDigit(c: char) { '0' <= c <= '9' }

  predicate AllDigits(s: string) { forall i :: 0 <= i < |s| ==> IsDigit(s[i]) }

  function DigitValue(c: char): nat
    requires IsDigit(c)
  {
    (c as int) - ('0' as int)
  }

  function DigitChar(d: nat): (c: char)
    requires d < 10
    ensures IsDigit(c) && DigitValue(c) == d
  {
    (('0' as int) + d) as char
  }

  /** The value of a string of decimal digits, most significant digit first. */
  function DigitsValue(s: string): nat
    requires AllDigits(s)
  {
    if s == [] then 0 else 10 * DigitsValue(s[..|s| - 1]) + DigitValue(s[|s| - 1])
  }

  function Pow10(k: nat): (p: nat)
    ensures p >= 1
  {
    if k == 0 then 1 else 10 * Pow10(k - 1)
  }

  /** Decimal text of a natural number, as a template literal prints it. */
  function NatToString(n: nat): (s: string)
    ensures |s| >= 1 && AllDigits(s)
    ensures DigitsValue(s) == n
    ensures |s| == 1 || s[0] != '0'
  {
    if n < 10 then [DigitChar(n)]
    else
      var init := NatToString(n / 10);
      var s := init + [DigitChar(n % 10)];
      assert s[..|s| - 1] == init;
      s
  }

  /** Decimal text of an integer, with a leading '-' when negative. */
  function IntToString(i: int): (s: string)
    ensures |s| >= 1
    ensures i >= 0 ==> s == NatToString(i)
    ensures i < 0 ==> s == "-" + NatToString(-i)
  {
    if i < 0 then "-" + NatToString(-i) else NatToString(i)
  }

  /** `s.padStart(width, c)`: prefixes copies of `c` up to `width` characters. */
  function PadStart(s: string, width: nat, c: char): (r: string)
    ensures |r| == if |s| >= width then |s| else width
    ensures r[|r| - |s|..] == s
    ensures forall i :: 0 <= i < |r| - |s| ==> r[i] == c
  {
    if |s| >= width then s else seq(width - |s|, _ => c) + s
  }

  /** `String(n).padStart(2, '0')` for a natural number. */
  function Pad2(n: nat): string
  {
    PadStart(NatToString(n), 2, '0')
  }

  /** `s.split(sep)`: the parts between occurrences of `sep`; "" splits to [""]. */
  function Split(s: string, sep: char): (parts: seq<string>)
    ensures |parts| >= 1
    ensures forall i, j :: 0 <= i < |parts| && 0 <= j < |parts[i]| ==> parts[i][j] != sep
  {
    if s == [] then [""]
    else
      var rest := Split(s[1..], sep);
      if s[0] == sep then [""] + rest
      else [[s[0]] + rest[0]] + rest[1..]
  }

  /** `parts.join(sep)`. */
  function Join(parts: seq<string>, sep: char): string
    requires |parts| >= 1
  {
    if |parts| == 1 then parts[0] else parts[0] + [sep] + Join(parts[1..], sep)
  }

  /** Joining the parts of a split with the same separator gives the string back. */
  lemma {:induction false} JoinSplit(s: string, sep: char)
    ensures Join(Split(s, sep), sep) == s
  {
    if s != [] {
      var rest := Split(s[1..], sep);
      JoinSplit(s[1..], sep);
      if s[0] == sep {
        assert ([""] + rest)[1..] == rest;
      } else {
        var p := [[s[0]] + rest[0]] + rest[1..];
        assert p[1..] == rest[1..];
        assert [s[0]] + s[1..] == s;
      }
    }
  }

  function CountChar(s: string, c: char): nat
  {
    if s == [] then 0 else (if s[0] == c then 1 else 0) + CountChar(s[1..], c)
  }

  /** A string splits into one more part than it has separators. */
  lemma {:induction false} SplitLength(s: string, sep: char)
    ensures |Split(s, sep)| == CountChar(s, sep) + 1
  {
    if s != [] {
      SplitLength(s[1..], sep);
    }
  }

  /** A string without the separator splits to itself alone. */
  lemma {:induction false} SplitNoSeparator(s: string, sep: char)
    requires sep !in s
    ensures Split(s, sep) == [s]
  {
    if s != [] {
      SplitNoSeparator(s[1..], sep);
      assert [s[0]] + s[1..] == s;
    }
  }

  /** Splitting `a + sep + b` where `a` has no separator yields `a` then the parts of `b`. */
  lemma {:induction false} SplitCons(a: string, sep: char, b: string)
    requires sep !in a
    ensures Split(a + [sep] + b, sep) == [a] + Split(b, sep)
  {
    if a == [] {
      assert a + [sep] + b == [sep] + b;
      assert ([sep] + b)[1..] == b;
    } else {
      assert (a + [sep] + b)[1..] == a[1..] + [sep] + b;
      SplitCons(a[1..], sep, b);
      assert [a[0]] + a[1..] == a;
    }
  }

  /** Splitting `a + sep + b`, neither holding the separator, gives the two of them. */
  lemma SplitPair(a: string, sep: char, b: string)
    requires sep !in a && sep !in b
    ensures Split(a + ([sep] + b), sep) == [a, b]
  {
    assert a + ([sep] + b) == a + [sep] + b;
    SplitCons(a, sep, b);
    SplitNoSeparator(b, sep);
  }

  /** `Number(s)` for the strings the model admits: "" reads as 0, a digit string as its value, anything else as NaN (None). */
  function ToNumber(s: string): (n: Option<nat>)
    ensures s == "" ==> n == Some(0)
    ensures AllDigits(s) ==> n.Some?
    ensures n.Some? ==> AllDigits(s)
  {
    if AllDigits(s) then Some(DigitsValue(s)) else None
  }

  /** The longest prefix of `s` made of decimal digits. */
  function LeadingDigits(s: string): (d: string)
    ensures AllDigits(d) && d <= s
    ensures |d| < |s| ==> !IsDigit(s[|d|])
  {
    if s == [] || !IsDigit(s[0]) then "" else [s[0]] + LeadingDigits(s[1..])
  }

  /** The unsigned part of `parseInt(s)`: the value of the leading digits, NaN (None) when there are none. */
  function ParseInt(s: string): (n: Option<nat>)
    ensures n.Some? <==> |s| > 0 && IsDigit(s[0])
    ensures n.Some? ==> n.value == DigitsValue(LeadingDigits(s))
  {
    var d := LeadingDigits(s);
    if d == "" then None else Some(DigitsValue(d))
  }

  /** `parseInt(s)` with its optional sign: a leading '-' negates, a leading '+' is dropped. */
  function ParseSigned(s: string): (n: Option<int>)
    ensures |s| > 0 && IsDigit(s[0]) ==> n == ParseInt(s)
    ensures |s| > 0 && s[0] == '-' ==>
      n == (if ParseInt(s[1..]).Some? then Some(-(ParseInt(s[1..]).value as int)) else None)
    ensures |s| > 0 && s[0] == '+' ==>
      n == (if ParseInt(s[1..]).Some? then Some(ParseInt(s[1..]).value as int) else None)
    ensures n.Some? <==> ParseInt(if |s| > 0 && s[0] in "+-" then s[1..] else s).Some?
  {
    if |s| > 0 && s[0] == '-' then
      match ParseInt(s[1..])
      case None => None
      case Some(v) => Some(-(v as int))
    else if |s| > 0 && s[0] == '+' then
      match ParseInt(s[1..])
      case None => None
      case Some(v) => Some(v)
    else
      match ParseInt(s)
      case None => None
      case Some(v) => Some(v)
  }

  /** `s.indexOf(c)`: the first position of `c`, -1 when absent. */
  function IndexOf(s: string, c: char): (i: int)
    ensures -1 <= i < |s|
    ensures i == -1 <==> c !in s
    ensures i >= 0 ==> s[i] == c && c !in s[..i]
  {
    if s == [] then -1
    else if s[0] == c then 0
    else
      var j := IndexOf(s[1..], c);
      assert forall k :: 0 <= k < |s[1..]| ==> s[1..][k] == s[k + 1];
      if j == -1 then -1 else j + 1
  }

  /** `indexOf` finds the first occurrence. */
  lemma IndexOfFirst(s: string, c: char, k: nat)
    requires k < |s| && s[k] == c && c !in s[..k]
    ensures IndexOf(s, c) == k
  {
    assert c in s;
  }

  /** `s.substring(a, b)`: both ends clamped to [0, |s|], swapped when `a > b`. */
  function Substring(s: string, a: int, b: int): (r: string)
    ensures |r| <= |s|
    ensures 0 <= a <= b <= |s| ==> r == s[a..b]
    ensures 0 <= b <= a <= |s| ==> r == s[b..a]
    ensures a >= |s| && b >= |s| ==> r == ""
  {
    var x := if a < 0 then 0 else if a > |s| then |s| else a;
    var y := if b < 0 then 0 else if b > |s| then |s| else b;
    if x <= y then s[x..y] else s[y..x]
  }

  /** The part at `i` of a split, as `Number` sees it after destructuring (`undefined` is NaN). */
  function PartNumber(parts: seq<string>, i: nat): Option<nat>
  {
    if i < |parts| then ToNumber(parts[i]) else None
  }

  /** The part at `i` of a split, as `parseInt` sees it (`undefined` is NaN). */
  function PartInt(parts: seq<string>, i: nat): Option<nat>
  {
    if i < |parts| then ParseInt(parts[i]) else None
  }

  // ---------------------------------------------------------------------
  // Facts about digit strings
  // ---------------------------------------------------------------------

  lemma {:induction false} DigitsValueBound(s: string)
    requires AllDigits(s)
    ensures DigitsValue(s) < Pow10(|s|)
  {
    if s != [] {
      DigitsValueBound(s[..|s| - 1]);
    }
  }

  lemma {:induction false} DigitsValueAppend(a: string, b: string)
    requires AllDigits(a) && AllDigits(b)
    ensures AllDigits(a + b)
    ensures DigitsValue(a + b) == DigitsValue(a) * Pow10(|b|) + DigitsValue(b)
  {
    if b != [] {
      var b' := b[..|b| - 1];
      assert (a + b)[..|a + b| - 1] == a + b';
      DigitsValueAppend(a, b');
      var va, vb', p, d := DigitsValue(a), DigitsValue(b'), Pow10(|b'|), DigitValue(b[|b| - 1]);
      assert (a + b)[|a + b| - 1] == b[|b| - 1];
      assert DigitsValue(a + b) == 10 * DigitsValue(a + b') + d;
      assert DigitsValue(b) == 10 * vb' + d;
      assert Pow10(|b|) == 10 * p;
      ShiftDigit(va, vb', p, d);
    } else {
      assert a + b == a;
    }
  }

  /** Appending a digit to `va * p + vb` in base 10. */
  lemma ShiftDigit(va: int, vb: int, p: int, d: int)
    ensures 10 * (va * p + vb) + d == va * (10 * p) + (10 * vb + d)
  {
    assert 10 * (va * p) == va * (10 * p);
  }

  /** Leading zeros do not change the value of a digit string. */
  lemma {:induction false} DigitsValueZeros(k: nat, s: string)
    requires AllDigits(s)
    ensures AllDigits(seq(k, _ => '0') + s)
    ensures DigitsValue(seq(k, _ => '0') + s) == DigitsValue(s)
  {
    var z: string := seq(k, _ => '0');
    ZerosValue(k);
    DigitsValueAppend(z, s);
  }

  lemma {:induction false} ZerosValue(k: nat)
    ensures AllDigits(seq(k, _ => '0'))
    ensures DigitsValue(seq(k, _ => '0')) == 0
  {
    if k > 0 {
      var z: string := seq(k, _ => '0');
      assert z[..k - 1] == seq(k - 1, _ => '0');
      ZerosValue(k - 1);
    }
  }

  /** Two digit strings of the same length and value are the same string. */
  lemma {:induction false} DigitsInjective(a: string, b: string)
    requires AllDigits(a) && AllDigits(b) && |a| == |b|
    requires DigitsValue(a) == DigitsValue(b)
    ensures a == b
  {
    if a != [] {
      var n := |a| - 1;
      assert DigitValue(a[n]) == DigitsValue(a) % 10;
      assert DigitValue(b[n]) == DigitsValue(b) % 10;
      assert DigitsValue(a[..n]) == DigitsValue(a) / 10;
      DigitsInjective(a[..n], b[..n]);
      assert a[n] == b[n];
      assert a == a[..n] + [a[n]];
      assert b == b[..n] + [b[n]];
    }
  }

  /** A value below 10^k prints in at most k digits. */
  lemma {:induction false} NatToStringLength(n: nat, k: nat)
    requires k >= 1 && n < Pow10(k)
    ensures |NatToString(n)| <= k
  {
    if n >= 10 {
      NatToStringLength(n / 10, k - 1);
    }
  }

  /**
   * Printing the value of a digit string and padding it back to its length
   * gives the string itself: `String(Number(s)).padStart(|s|, '0') == s`.
   */
  lemma PadValueRoundTrip(s: string)
    requires AllDigits(s) && |s| >= 1
    ensures PadStart(NatToString(DigitsValue(s)), |s|, '0') == s
  {
    var v := DigitsValue(s);
    DigitsValueBound(s);
    NatToStringLength(v, |s|);
    var t := NatToString(v);
    var z: string := seq(|s| - |t|, _ => '0');
    var r := PadStart(t, |s|, '0');
    assert r == z + t;
    DigitsValueZeros(|s| - |t|, t);
    assert |r| == |s|;
    assert AllDigits(r) && DigitsValue(r) == v;
    DigitsInjective(r, s);
  }

  /** The leading digits of a digit string followed by a non-digit are that digit string. */
  lemma {:induction false} LeadingDigitsOf(d: string, rest: string)
    requires AllDigits(d)
    requires rest == [] || !IsDigit(rest[0])
    ensures LeadingDigits(d + rest) == d
  {
    if d != [] {
      assert (d + rest)[1..] == d[1..] + rest;
      LeadingDigitsOf(d[1..], rest);
      assert [d[0]] + d[1..] == d;
    } else {
      assert d + rest == rest;
    }
  }

  /** `parseInt` reads back a printed natural number. */
  lemma ParseIntNat(n: nat)
    ensures ParseInt(NatToString(n)) == Some(n)
  {
    LeadingDigitsOf(NatToString(n), "");
    assert NatToString(n) + "" == NatToString(n);
  }

  /** `Number` reads back a printed natural number. */
  lemma ToNumberNat(n: nat)
    ensures ToNumber(NatToString(n)) == Some(n)
  {
  }

  /** `parseInt` and `Number` read a zero-padded two-digit field back to its value. */
  lemma ParsePad2(n: nat)
    requires n < 100
    ensures AllDigits(Pad2(n)) && |Pad2(n)| == 2
    ensures ParseInt(Pad2(n)) == Some(n) && ToNumber(Pad2(n)) == Some(n)
  {
    Pad2Digits(n);
    ParseDigits(Pad2(n));
  }

  /** A number below 100, padded to two characters, is two digits worth the number. */
  lemma Pad2Digits(n: nat)
    requires n < 100
    ensures AllDigits(Pad2(n)) && |Pad2(n)| == 2 && DigitsValue(Pad2(n)) == n
  {
    var t := NatToString(n);
    NatToStringLength(n, 2);
    DigitsValueZeros(2 - |t|, t);
    assert Pad2(n) == seq(2 - |t|, _ => '0') + t;
  }

  /** `parseInt` and `Number` read a non-empty digit string as its value. */
  lemma ParseDigits(s: string)
    requires AllDigits(s) && s != ""
    ensures ParseInt(s) == Some(DigitsValue(s)) && ToNumber(s) == Some(DigitsValue(s))
  {
    LeadingDigitsOf(s, "");
    assert s + "" == s;
  }

  /** `parseInt` reads back any printed integer, sign included. */
  lemma ParseSignedInt(i: int)
    ensures ParseSigned(IntToString(i)) == Some(i)
  {
    if i < 0 {
      ParseSignedNegative(-i);
    } else {
      ParseSignedNat(i);
    }
  }

  lemma ParseSignedNat(n: nat)
    ensures ParseSigned(NatToString(n)) == Some(n)
  {
    ParseIntNat(n);
  }

  lemma ParseSignedNegative(n: nat)
    ensures ParseSigned("-" + NatToString(n)) == Some(-(n as int))
  {
    var t := NatToString(n);
    assert ("-" + t)[1..] == t;
    ParseIntNat(n);
  }

  /** Printed integers hold only digits and the minus sign, never a '/' or a 'W'. */
  lemma IntToStringChars(i: int)
    ensures forall c <- IntToString(i) :: IsDigit(c) || c == '-'
    ensures '/' !in IntToString(i) && 'W' !in IntToString(i)
  {
    var t := if i < 0 then NatToString(-i) else NatToString(i);
    assert forall c <- t :: IsDigit(c);
    assert i < 0 ==> forall c <- IntToString(i) :: c == '-' || c in t;
  }

  /** A number from 1000 on prints in at least four digits. */
  lemma NatToStringFourDigits(n: nat)
    requires n >= 1000
    ensures |NatToString(n)| >= 4
  {
    var t := NatToString(n);
    DigitsValueBound(t);
    assert Pow10(1) == 10 && Pow10(2) == 100 && Pow10(3) == 1000;
  }
}
