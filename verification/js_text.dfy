/**
 * The few pieces of the JavaScript string and number library the dashboard relies on:
 * `String.prototype.lastIndexOf`, `String.prototype.substring` (with its clamping of
 * out-of-range indices), `parseInt(s, 10)` and the decimal rendering of an integer.
 */
module JsText {
  import opened Wrappers

  predicate IsDigit(c: char) {
    '0' <= c <= '9'
  }

  predicate AllDigits(s: string) {
    forall i :: 0 <= i < |s| ==> IsDigit(s[i])
  }

  /** The white space that `parseInt` skips before the number (StrWhiteSpaceChar of ECMAScript). */
  predicate IsJsSpace(c: char) {
    var n := c as int;
    n == 0x09 || n == 0x0A || n == 0x0B || n == 0x0C || n == 0x0D || n == 0x20 ||
    n == 0xA0 || n == 0x1680 || (0x2000 <= n <= 0x200A) || n == 0x2028 || n == 0x2029 ||
    n == 0x202F || n == 0x205F || n == 0x3000 || n == 0xFEFF
  }

  /** `s.lastIndexOf(c)`: the position of the last occurrence of `c`, or -1 when there is none. */
  function LastIndexOf(s: string, c: char): (r: int)
    ensures -1 <= r < |s|
    ensures r == -1 <==> c !in s
    ensures 0 <= r ==> s[r] == c && c !in s[r + 1..]
  {
    if s == [] then -1
    else if s[|s| - 1] == c then |s| - 1
    else
      var r := LastIndexOf(s[..|s| - 1], c);
      assert s[r + 1..] == s[..|s| - 1][r + 1..] + [s[|s| - 1]];
      assert s == s[..|s| - 1] + [s[|s| - 1]];
      r
  }

  function Clamp(i: int, len: nat): (r: nat)
    ensures r <= len
  {
    if i < 0 then 0 else if i > len then len else i
  }

  /**
   * `s.substring(start, end)`: both indices are clamped to [0, |s|] and swapped when the
   * first exceeds the second.
   */
  function JsSubstring(s: string, start: int, end: int): (r: string)
    ensures 0 <= start <= end <= |s| ==> r == s[start..end]
    ensures start <= 0 && end <= 0 ==> r == []
  {
    var a := Clamp(start, |s|);
    var b := Clamp(end, |s|);
    if a <= b then s[a..b] else s[b..a]
  }

  function DigitValue(c: char): (d: nat)
    requires IsDigit(c)
    ensures d < 10
  {
    c as int - '0' as int
  }

  function DigitChar(d: nat): (c: char)
    requires d < 10
    ensures IsDigit(c) && DigitValue(c) == d
  {
    (d + '0' as int) as char
  }

  /** The number a string of decimal digits denotes (the empty string denotes 0). */
  function Value(ds: string): nat
    requires AllDigits(ds)
  {
    if ds == [] then 0 else Value(ds[..|ds| - 1]) * 10 + DigitValue(ds[|ds| - 1])
  }

  /** The decimal rendering of a natural number, without leading zeros. */
  function NatDigits(n: nat): (ds: string)
    ensures ds != [] && AllDigits(ds)
  {
    if n < 10 then [DigitChar(n)] else NatDigits(n / 10) + [DigitChar(n % 10)]
  }

  /** `String(n)` for an integer `n`. */
  function IntText(n: int): (s: string)
    ensures s != []
  {
    if n < 0 then "-" + NatDigits(-n) else NatDigits(n)
  }

  /** The longest prefix of `s` made of decimal digits. */
  function DigitPrefix(s: string): (r: string)
    ensures |r| <= |s| && r == s[..|r|] && AllDigits(r)
    ensures |r| < |s| ==> !IsDigit(s[|r|])
  {
    if s == [] || !IsDigit(s[0]) then [] else [s[0]] + DigitPrefix(s[1..])
  }

  /** `s` without its leading white space. */
  function TrimStart(s: string): (r: string)
    ensures |r| <= |s| && r == s[|s| - |r|..]
    ensures r == [] || !IsJsSpace(r[0])
  {
    if s != [] && IsJsSpace(s[0]) then TrimStart(s[1..]) else s
  }

  /**
   * `parseInt(s, 10)`: skip leading white space, read an optional sign and then the longest
   * run of decimal digits; with no digit at all the result is NaN, modelled as None.
   */
  function ParseInt(s: string): (r: Option<int>)
    ensures AllDigits(s) && s != [] ==> r == Some(Value(s))
    ensures (forall i :: 0 <= i < |s| ==> !IsDigit(s[i])) ==> r == None
  {
    var t := TrimStart(s);
    var negative := t != [] && t[0] == '-';
    var unsigned := if t != [] && (t[0] == '-' || t[0] == '+') then t[1..] else t;
    var ds := DigitPrefix(unsigned);
    assert AllDigits(s) && s != [] ==> t == s && unsigned == s && ds == s by {
      if AllDigits(s) && s != [] {
        assert !IsJsSpace(s[0]);
        AllDigitsPrefix(s);
      }
    }
    assert (forall i :: 0 <= i < |s| ==> !IsDigit(s[i])) ==> ds == [] by {
      if ds != [] {
        assert IsDigit(unsigned[0]);
        assert unsigned[0] in s by {
          var k := |s| - |t|;
          if unsigned == t { assert s[k] == unsigned[0]; } else { assert s[k + 1] == unsigned[0]; }
        }
      }
    }
    var magnitude: int := if ds == [] then 0 else Value(ds);
    if ds == [] then None else Some(if negative then -magnitude else magnitude)
  }

  lemma {:induction false} AllDigitsPrefix(s: string)
    requires AllDigits(s)
    ensures DigitPrefix(s) == s
  {
    if s != [] {
      AllDigitsPrefix(s[1..]);
    }
  }

  lemma {:induction false} ValueOfNatDigits(n: nat)
    ensures Value(NatDigits(n)) == n
  {
    if n >= 10 {
      var ds := NatDigits(n / 10) + [DigitChar(n % 10)];
      assert ds[..|ds| - 1] == NatDigits(n / 10);
      ValueOfNatDigits(n / 10);
    }
  }

  /** Reading back the decimal rendering of any integer gives the integer. */
  lemma ParseIntText(n: int)
    ensures ParseInt(IntText(n)) == Some(n)
  {
    if n < 0 {
      ValueOfNatDigits(-n);
      ParseIntNegative(NatDigits(-n));
      assert IntText(n) == "-" + NatDigits(-n);
    } else {
      ValueOfNatDigits(n);
      assert IntText(n) == NatDigits(n);
      assert ParseInt(NatDigits(n)) == Some(n);
    }
  }

  /** A minus sign followed by digits reads as the negated value of the digits. */
  lemma {:induction false} ParseIntNegative(ds: string)
    requires AllDigits(ds) && ds != []
    ensures ParseInt("-" + ds) == Some(-(Value(ds) as int))
  {
    var s := "-" + ds;
    assert !IsJsSpace(s[0]);
    assert TrimStart(s) == s;
    assert s[1..] == ds;
    AllDigitsPrefix(ds);
    assert DigitPrefix(s[1..]) == ds;
  }

  /** "NaN", the rendering of the page number NaN, reads back as NaN. */
  lemma ParseIntNaN()
    ensures ParseInt("NaN") == None
  {
  }
}
