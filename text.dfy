// Character-level helpers the configuration format needs: substring search as
// `strstr` performs it, `strchr`, and the `atoi`/decimal-printing pair.
module Text {
  import opened Types

  /** `k` occurs in `s` starting at position `i`. */
  predicate OccursAt(s: string, k: string, i: int)
  {
    0 <= i <= |s| - |k| && s[i..i + |k|] == k
  }

  /** `strstr(s, k) != nullptr`. */
  predicate Contains(s: string, k: string)
  {
    exists i | 0 <= i <= |s| - |k| :: OccursAt(s, k, i)
  }

  /** Some position of `s` holds `a` immediately followed by `b`. */
  predicate HasPair(s: string, a: char, b: char)
  {
    exists i | 0 <= i < |s| - 1 :: s[i] == a && s[i + 1] == b
  }

  lemma ContainsItself(s: string)
    ensures Contains(s, s)
  {
    assert OccursAt(s, s, 0);
  }

  /** A string with a character `k` needs, but lacks, does not contain `k`. */
  lemma MissingChar(s: string, k: string, c: char)
    requires c in k && c !in s
    ensures !Contains(s, k)
  {
    var p :| 0 <= p < |k| && k[p] == c;
    forall i | 0 <= i <= |s| - |k|
      ensures !OccursAt(s, k, i)
    {
      assert s[i..i + |k|][p] == s[i + p];
    }
  }

  /** A string that lacks the character at position `p` of `k` does not contain `k`. */
  lemma MissingCharAt(s: string, k: string, p: nat)
    requires p < |k| && k[p] !in s
    ensures !Contains(s, k)
  {
    MissingChar(s, k, k[p]);
  }

  /** A string lacking one adjacent pair of `k`'s characters does not contain `k`. */
  lemma MissingPair(s: string, k: string, p: nat)
    requires p + 1 < |k| && !HasPair(s, k[p], k[p + 1])
    ensures !Contains(s, k)
  {
    forall i | 0 <= i <= |s| - |k|
      ensures !OccursAt(s, k, i)
    {
      assert s[i..i + |k|][p] == s[i + p] && s[i..i + |k|][p + 1] == s[i + p + 1];
    }
  }

  /** `k` occurring at `i` in `s` occurs at `i + d` once `d` characters are put in front. */
  lemma OccursShift(pre: string, s: string, post: string, k: string, i: int)
    requires OccursAt(s, k, i)
    ensures OccursAt(pre + s + post, k, |pre| + i)
  {
    assert (pre + s + post)[|pre| + i..|pre| + i + |k|] == s[i..i + |k|];
  }

  /** An occurrence of `k` that covers the separator position contains the separator. */
  lemma SeparatorInside(a: string, c: char, b: string, k: string, j: int)
    requires OccursAt(a + [c] + b, k, j)
    ensures j <= |a| < j + |k| ==> c in k
  {
    if j <= |a| < j + |k| {
      assert (a + [c] + b)[j..j + |k|][|a| - j] == c;
    }
  }

  /**
   * A separator character that `k` does not contain splits every search for
   * `k`: it is found in `a + [c] + b` exactly when it is found in `a` or in `b`.
   */
  lemma {:induction false} ContainsAcross(a: string, c: char, b: string, k: string)
    requires c !in k
    ensures Contains(a + [c] + b, k) <==> Contains(a, k) || Contains(b, k)
  {
    var s := a + [c] + b;
    if Contains(a, k) {
      var j :| OccursAt(a, k, j);
      assert OccursAt(a, k, j);
      OccursShift([], a, [c] + b, k, j);
      assert [] + a + ([c] + b) == s;
    }
    if Contains(b, k) {
      var j :| OccursAt(b, k, j);
      assert OccursAt(b, k, j);
      OccursShift(a + [c], b, [], k, j);
      assert a + [c] + b + [] == s;
    }
    forall j | OccursAt(s, k, j)
      ensures Contains(a, k) || Contains(b, k)
    {
      SeparatorInside(a, c, b, k, j);
      if j + |k| <= |a| {
        assert s[j..j + |k|] == a[j..j + |k|];
        assert OccursAt(a, k, j);
      } else if j > |a| {
        assert s[j..j + |k|] == b[j - |a| - 1..j - |a| - 1 + |k|];
        assert OccursAt(b, k, j - |a| - 1);
      }
    }
  }

  /** The first position holding `c`, as `strchr` finds it. */
  function FirstIndex(s: string, c: char): (r: Option<nat>)
    ensures r.Some? ==> r.value < |s|
  {
    if |s| == 0 then None
    else if s[0] == c then Some(0)
    else match FirstIndex(s[1..], c)
      case None => None
      case Some(i) => Some(i + 1)
  }

  /** `FirstIndex` finds `c` exactly when `s` holds it, and then at its first position. */
  lemma {:induction false} FirstIndexFinds(s: string, c: char)
    ensures FirstIndex(s, c).None? <==> c !in s
    ensures FirstIndex(s, c).Some? ==> FirstIndex(s, c).value < |s| && s[FirstIndex(s, c).value] == c
    ensures FirstIndex(s, c).Some? ==> forall j :: 0 <= j < FirstIndex(s, c).value ==> s[j] != c
  {
    if |s| > 0 && s[0] != c {
      FirstIndexFinds(s[1..], c);
      assert c in s <==> c in s[1..];
    }
  }

  /** `strchr` passes over a prefix that lacks the character. */
  lemma {:induction false} FirstIndexAfter(a: string, b: string, c: char)
    requires c !in a
    ensures FirstIndex(a + b, c) == match FirstIndex(b, c) case None => None case Some(j) => Some(|a| + j)
  {
    if |a| > 0 {
      assert (a + b)[1..] == a[1..] + b;
      FirstIndexAfter(a[1..], b, c);
    } else {
      assert a + b == b;
    }
  }

  predicate IsBlank(c: char)
  {
    c == ' ' || c == '\t'
  }

  /** `s` without its leading spaces and tabs. */
  function SkipBlanks(s: string): string
  {
    if |s| > 0 && IsBlank(s[0]) then SkipBlanks(s[1..]) else s
  }

  /** `SkipBlanks` drops exactly the run of blanks at the front of `s`. */
  lemma {:induction false} SkipBlanksDrops(s: string)
    ensures |SkipBlanks(s)| <= |s| && SkipBlanks(s) == s[|s| - |SkipBlanks(s)|..]
    ensures |SkipBlanks(s)| > 0 ==> !IsBlank(SkipBlanks(s)[0])
    ensures forall i :: 0 <= i < |s| - |SkipBlanks(s)| ==> IsBlank(s[i])
  {
    if |s| > 0 && IsBlank(s[0]) {
      SkipBlanksDrops(s[1..]);
    }
  }

  /** One step of skipping blanks from position `q`. */
  lemma SkipBlanksFrom(s: string, q: nat)
    requires q <= |s|
    ensures SkipBlanks(s[q..]) == if q < |s| && IsBlank(s[q]) then SkipBlanks(s[q + 1..]) else s[q..]
  {
    if q < |s| {
      assert s[q..][1..] == s[q + 1..];
    }
  }

  predicate IsDigit(c: char)
  {
    '0' <= c <= '9'
  }

  function DigitOf(c: char): (d: nat)
    requires IsDigit(c)
    ensures d < 10
  {
    (c as int) - ('0' as int)
  }

  function DigitChar(d: int): (c: char)
    requires 0 <= d < 10
    ensures IsDigit(c) && DigitOf(c) == d
  {
    ['0', '1', '2', '3', '4', '5', '6', '7', '8', '9'][d]
  }

  /** Length of the longest prefix of `s` made of decimal digits. */
  function DigitRun(s: string): (n: nat)
    ensures n <= |s|
    ensures forall i :: 0 <= i < n ==> IsDigit(s[i])
    ensures n < |s| ==> !IsDigit(s[n])
  {
    if |s| > 0 && IsDigit(s[0]) then 1 + DigitRun(s[1..]) else 0
  }

  /** The value of a string of decimal digits, most significant first. */
  function DigitsValue(s: string): nat
    requires forall i :: 0 <= i < |s| ==> IsDigit(s[i])
  {
    if |s| == 0 then 0
    else 10 * DigitsValue(s[..|s| - 1]) + DigitOf(s[|s| - 1])
  }

  /** C's `isspace` in the default locale: blank, tab, newline, vertical tab, form feed and carriage return. */
  predicate IsSpace(c: char)
  {
    c == ' ' || c == '\t' || c == '\n' || c == '\U{0B}' || c == '\U{0C}' || c == '\r'
  }

  /** `s` without its leading white space, as `atoi` skips it. */
  function SkipSpaces(s: string): string
  {
    if |s| > 0 && IsSpace(s[0]) then SkipSpaces(s[1..]) else s
  }

  /** C's `atoi`: leading white space, an optional sign, then the longest run of digits. */
  function Atoi(s: string): int
  {
    var t := SkipSpaces(s);
    if |t| > 0 && (t[0] == '-' || t[0] == '+') then
      var v: int := DigitsValue(t[1..][..DigitRun(t[1..])]);
      if t[0] == '-' then -v else v
    else
      DigitsValue(t[..DigitRun(t)])
  }

  /** Decimal digits of `n` without leading zeros, as an output stream prints a non-negative integer. */
  function Decimal(n: nat): (s: string)
    ensures |s| > 0
    ensures forall i :: 0 <= i < |s| ==> IsDigit(s[i])
  {
    if n < 10 then [DigitChar(n)] else Decimal(n / 10) + [DigitChar(n % 10)]
  }

  /** An integer as an output stream prints it. */
  function IntText(n: int): string
  {
    if n < 0 then "-" + Decimal(-n) else Decimal(n)
  }

  /** A boolean as an output stream prints it. */
  function BoolText(b: bool): string
  {
    if b then "1" else "0"
  }

  lemma {:induction false} DecimalValue(n: nat)
    ensures DigitsValue(Decimal(n)) == n
  {
    if n >= 10 {
      var s := Decimal(n);
      assert s[..|s| - 1] == Decimal(n / 10);
      DecimalValue(n / 10);
    }
  }

  /** Reading back a printed integer with `atoi` gives the integer. */
  lemma AtoiIntText(n: int)
    ensures Atoi(IntText(n)) == n
  {
    var s := IntText(n);
    var d := if n < 0 then Decimal(-n) else Decimal(n);
    assert !IsSpace(s[0]) by {
      if n >= 0 {
        assert IsDigit(s[0]);
      }
    }
    assert SkipSpaces(s) == s;
    DecimalValue(if n < 0 then -n else n);
    if n < 0 {
      assert s[1..] == d;
    }
    assert d[..DigitRun(d)] == d;
  }

  /** Reading back a printed flag with `atoi` gives a non-zero value exactly for `true`. */
  lemma AtoiBoolText(b: bool)
    ensures (Atoi(BoolText(b)) != 0) == b
  {
    var n := if b then 1 else 0;
    assert Decimal(n) == [DigitChar(n)];
    assert BoolText(b) == IntText(n);
    AtoiIntText(n);
  }
}
