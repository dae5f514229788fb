/** Text helpers that reproduce the Python string operations the readers use:
    str(int), str.zfill, negative slices, str.replace, str.partition,
    re.search(r'\d+') and ASCII case folding. Only the ASCII digits '0'..'9'
    count as digits: the other Unicode decimal digits that Python's \d and
    int() also accept are treated as ordinary characters. */
module Text {

  import opened Common

  predicate IsDigit(c: char) { '0' <= c <= '9' }

  predicate AllDigits(s: string) { forall k :: 0 <= k < |s| ==> IsDigit(s[k]) }

  predicate NoDigits(s: string) { forall k :: 0 <= k < |s| ==> !IsDigit(s[k]) }

  function DigitChar(d: nat): (c: char)
    requires d < 10
    ensures IsDigit(c) && c as int - '0' as int == d
  {
    ('0' as int + d) as char
  }

  /** Value of a decimal digit string, read most significant digit first
      (what int() does with an ASCII digit run). */
  function DigitsValue(s: string): nat
    requires AllDigits(s)
  {
    if s == [] then 0
    else DigitsValue(s[..|s| - 1]) * 10 + (s[|s| - 1] as int - '0' as int)
  }

  /** str(n) for a natural number. */
  function NatToString(n: nat): (s: string)
    ensures |s| >= 1 && AllDigits(s)
    ensures n > 0 ==> s[0] != '0'
    decreases n
  {
    if n < 10 then [DigitChar(n)] else NatToString(n / 10) + [DigitChar(n % 10)]
  }

  /** str(i) for any integer: a minus sign, then the digits of |i|. */
  function IntToString(i: int): (s: string)
    ensures i >= 0 ==> s == NatToString(i)
    ensures i < 0 ==> s == "-" + NatToString(-i)
  {
    if i < 0 then "-" + NatToString(-i) else NatToString(i)
  }

  /** Reading the digits of str(n) back gives n: str is injective on naturals. */
  lemma {:induction false} NatToStringRoundTrip(n: nat)
    ensures DigitsValue(NatToString(n)) == n
    decreases n
  {
    var s := NatToString(n);
    if n >= 10 {
      NatToStringRoundTrip(n / 10);
      assert s[..|s| - 1] == NatToString(n / 10);
    }
  }

  lemma NatToStringInjective(m: nat, n: nat)
    requires NatToString(m) == NatToString(n)
    ensures m == n
  {
    NatToStringRoundTrip(m);
    NatToStringRoundTrip(n);
  }

  function Zeros(k: nat): (z: string)
    ensures |z| == k && AllDigits(z)
    ensures forall i :: 0 <= i < k ==> z[i] == '0'
  {
    if k == 0 then [] else Zeros(k - 1) + ['0']
  }

  /** str.zfill(w): left-pad with '0' up to width w, keeping a leading sign
      in front of the padding. */
  function ZFill(s: string, w: nat): (r: string)
    ensures |s| >= w ==> r == s
    ensures |s| < w ==> |r| == w
  {
    if |s| >= w then s
    else if |s| > 0 && (s[0] == '+' || s[0] == '-') then [s[0]] + Zeros(w - |s|) + s[1..]
    else Zeros(w - |s|) + s
  }

  lemma {:induction false} LeadingZerosValue(k: nat, s: string)
    requires AllDigits(s)
    ensures AllDigits(Zeros(k) + s)
    ensures DigitsValue(Zeros(k) + s) == DigitsValue(s)
    decreases |s|
  {
    var t := Zeros(k) + s;
    if s == [] {
      assert t == Zeros(k);
      ZerosValue(k);
    } else {
      LeadingZerosValue(k, s[..|s| - 1]);
      assert t[..|t| - 1] == Zeros(k) + s[..|s| - 1];
    }
  }

  lemma {:induction false} ZerosValue(k: nat)
    ensures DigitsValue(Zeros(k)) == 0
  {
    if k > 0 {
      ZerosValue(k - 1);
      assert Zeros(k)[..k - 1] == Zeros(k - 1);
    }
  }

  /** A zero-padded decimal reads back as the number: the padded names of
      two different indices differ, whatever the width. */
  lemma ZFillNatRoundTrip(n: nat, w: nat)
    ensures AllDigits(ZFill(NatToString(n), w))
    ensures DigitsValue(ZFill(NatToString(n), w)) == n
    ensures |ZFill(NatToString(n), w)| == if |NatToString(n)| >= w then |NatToString(n)| else w
  {
    var s := NatToString(n);
    NatToStringRoundTrip(n);
    if |s| < w {
      assert s[0] != '+' && s[0] != '-';
      LeadingZerosValue(w - |s|, s);
    }
  }

  lemma ZFillNatInjective(m: nat, n: nat, w: nat)
    requires ZFill(NatToString(m), w) == ZFill(NatToString(n), w)
    ensures m == n
  {
    ZFillNatRoundTrip(m, w);
    ZFillNatRoundTrip(n, w);
  }

  /** Python s[:-k] for k >= 1: all but the last k characters, empty when s
      is shorter. */
  function DropLast<T>(s: seq<T>, k: nat): (r: seq<T>)
    requires k >= 1
    ensures |r| == if |s| >= k then |s| - k else 0
    ensures r <= s
  {
    if |s| >= k then s[..|s| - k] else []
  }

  /** Python s[a:b] for non-negative bounds: both ends clamped to |s|. */
  function Slice<T>(s: seq<T>, a: nat, b: nat): (r: seq<T>)
    ensures |s| >= b >= a ==> r == s[a..b]
    ensures |r| <= b - a || b < a
  {
    var hi := if b <= |s| then b else |s|;
    var lo := if a <= hi then a else hi;
    s[lo..hi]
  }

  /** str.replace(a, b) for single characters. */
  function ReplaceChar(s: string, a: char, b: char): (r: string)
    ensures |r| == |s|
    ensures forall k :: 0 <= k < |s| ==> r[k] == if s[k] == a then b else s[k]
  {
    if s == [] then [] else [if s[0] == a then b else s[0]] + ReplaceChar(s[1..], a, b)
  }

  lemma {:induction false} ReplaceCharConcat(s: string, t: string, a: char, b: char)
    ensures ReplaceChar(s + t, a, b) == ReplaceChar(s, a, b) + ReplaceChar(t, a, b)
  {
    var l, r := ReplaceChar(s + t, a, b), ReplaceChar(s, a, b) + ReplaceChar(t, a, b);
    assert |l| == |r|;
    forall k | 0 <= k < |l| ensures l[k] == r[k] {
      if k < |s| { assert (s + t)[k] == s[k]; } else { assert (s + t)[k] == t[k - |s|]; }
    }
  }

  /** Index of the first occurrence of c in s, or |s| when there is none. */
  function IndexOf(s: string, c: char): (i: nat)
    ensures i <= |s|
    ensures i < |s| ==> s[i] == c
    ensures forall k :: 0 <= k < i ==> s[k] != c
  {
    if s == [] then 0 else if s[0] == c then 0 else 1 + IndexOf(s[1..], c)
  }

  /** ''.join(s.partition(c)[0:2]): the text up to and including the first c,
      or the whole text when c does not occur. */
  function ThroughFirst(s: string, c: char): string
  {
    var i := IndexOf(s, c);
    if i < |s| then s[..i + 1] else s
  }

  lemma ThroughFirstSpec(s: string, c: char)
    ensures ThroughFirst(s, c) <= s
    ensures forall k :: 0 <= k < |ThroughFirst(s, c)| - 1 ==> ThroughFirst(s, c)[k] != c
    ensures (c in s) <==> (|ThroughFirst(s, c)| > 0 && ThroughFirst(s, c)[|ThroughFirst(s, c)| - 1] == c)
    ensures c !in s ==> ThroughFirst(s, c) == s
  {
    var i := IndexOf(s, c);
    if c in s {
      var j :| 0 <= j < |s| && s[j] == c;
      assert i <= j;
    } else if |s| > 0 {
      assert s[|s| - 1] != c;
    }
  }

  /** ASCII lower-casing, used for the case-insensitive stream lookup. */
  function LowerChar(c: char): char
  {
    if 'A' <= c <= 'Z' then (c as int - 'A' as int + 'a' as int) as char else c
  }

  function Lower(s: string): (r: string)
    ensures |r| == |s|
    ensures forall k :: 0 <= k < |s| ==> r[k] == LowerChar(s[k])
  {
    seq(|s|, k requires 0 <= k < |s| => LowerChar(s[k]))
  }

  /** Length of the leading run of characters of s that are not digits. */
  function NonDigitPrefix(s: string): (i: nat)
    ensures i <= |s| && NoDigits(s[..i])
    ensures i < |s| ==> IsDigit(s[i])
  {
    if s == [] then 0 else if IsDigit(s[0]) then 0
    else
      var j := NonDigitPrefix(s[1..]);
      assert s[1..][..j] == s[1..j + 1];
      1 + j
  }

  /** Length of the leading run of digits of s. */
  function DigitPrefix(s: string): (j: nat)
    ensures j <= |s| && AllDigits(s[..j])
    ensures j < |s| ==> !IsDigit(s[j])
  {
    if s == [] then 0 else if !IsDigit(s[0]) then 0
    else
      var j := DigitPrefix(s[1..]);
      assert s[1..][..j] == s[1..j + 1];
      1 + j
  }

  /** re.search(r'\d+', s): the first maximal run of decimal digits, if any. */
  function FirstDigitRun(s: string): (r: Option<string>)
    ensures r.Some? ==> |r.value| > 0 && AllDigits(r.value)
  {
    var i := NonDigitPrefix(s);
    if i == |s| then None
    else
      var j := DigitPrefix(s[i..]);
      Some(s[i..][..j])
  }

  /** The first digit run is found exactly when s has a digit; it is then
      preceded only by non-digits and is not followed by a digit. */
  lemma FirstDigitRunSpec(s: string)
    ensures FirstDigitRun(s).None? <==> NoDigits(s)
    ensures FirstDigitRun(s).Some? ==>
      exists i, j :: 0 <= i < j <= |s| && NoDigits(s[..i]) && s[i..j] == FirstDigitRun(s).value
        && (j == |s| || !IsDigit(s[j]))
  {
    var i := NonDigitPrefix(s);
    if i < |s| {
      var j := DigitPrefix(s[i..]);
      assert s[i..][..j] == s[i..i + j];
      assert j > 0;
      assert i + j < |s| ==> s[i + j] == s[i..][j];
      assert NoDigits(s[..i]) && s[i..i + j] == FirstDigitRun(s).value;
    } else {
      assert s[..i] == s;
    }
  }
}
