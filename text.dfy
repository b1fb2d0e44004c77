/** String helpers for the little text formatting the source does with
    template literals, `Array.join`, `String.toLowerCase` and
    `String.includes`. */
module Text {

  /** The decimal digit character for 0..9. */
  function DigitChar(d: nat): (c: char)
    requires d < 10
    ensures '0' <= c <= '9'
    ensures (c as int) - ('0' as int) == d
  {
    ((d + '0' as int) as char)
  }

  predicate IsDigit(c: char) {
    '0' <= c <= '9'
  }

  function DigitValue(c: char): nat
    requires IsDigit(c)
  {
    (c as int) - ('0' as int)
  }

  /** A non-negative number as `${n}` prints it: decimal, no leading zeros. */
  function NatToString(n: nat): (s: string)
    ensures |s| >= 1
    ensures forall i :: 0 <= i < |s| ==> IsDigit(s[i])
    ensures n > 0 ==> s[0] != '0'
  {
    if n < 10 then [DigitChar(n)] else NatToString(n / 10) + [DigitChar(n % 10)]
  }

  /** An integer as `${n}` prints it: a minus sign for negative values. */
  function IntToString(n: int): (s: string)
    ensures |s| >= 1
    ensures (s[0] == '-') <==> n < 0
  {
    if n < 0 then "-" + NatToString(-n) else NatToString(n)
  }

  /** Reads a string of decimal digits back as a number. */
  function ParseDecimal(s: string): nat
    requires forall i :: 0 <= i < |s| ==> IsDigit(s[i])
  {
    if s == [] then 0
    else ParseDecimal(s[..|s| - 1]) * 10 + DigitValue(s[|s| - 1])
  }

  /** Printing a number and reading it back gives the number: the decimal
      text is a faithful rendering of the value. */
  lemma {:induction false} ParseNatToString(n: nat)
    ensures ParseDecimal(NatToString(n)) == n
  {
    if n >= 10 {
      var p := NatToString(n / 10);
      var s := p + [DigitChar(n % 10)];
      assert s[..|s| - 1] == p;
      ParseNatToString(n / 10);
    }
  }

  /** Distinct numbers print differently. */
  lemma NatToStringInjective(m: nat, n: nat)
    requires NatToString(m) == NatToString(n)
    ensures m == n
  {
    ParseNatToString(m);
    ParseNatToString(n);
  }

  /** `parts.join(sep)`. */
  function Join(parts: seq<string>, sep: string): string
  {
    if parts == [] then ""
    else if |parts| == 1 then parts[0]
    else parts[0] + sep + Join(parts[1..], sep)
  }

  /** Lower-casing of one character, for the ASCII letters. */
  function LowerChar(c: char): char {
    if 'A' <= c <= 'Z' then ((c as int) + 32) as char else c
  }

  /** `String.toLowerCase` restricted to ASCII letters. */
  function ToLower(s: string): (r: string)
    ensures |r| == |s|
    ensures forall i :: 0 <= i < |s| ==> r[i] == LowerChar(s[i])
  {
    seq(|s|, i requires 0 <= i < |s| => LowerChar(s[i]))
  }

  /** The specification of `s.includes(w)`: `w` occurs at some position of `s`. */
  ghost predicate HasSubstring(s: string, w: string) {
    exists i :: OccursAt(s, w, i)
  }

  /** `w` occurs in `s` starting at index `i`. */
  ghost predicate OccursAt(s: string, w: string, i: int) {
    0 <= i && i + |w| <= |s| && s[i..i + |w|] == w
  }

  /** `s.includes(w)`, computed by trying each start position in turn. */
  function Contains(s: string, w: string): bool
    decreases |s|
  {
    if |w| > |s| then false
    else if s[..|w|] == w then true
    else if s == [] then false
    else Contains(s[1..], w)
  }

  /** The scanning search finds `w` exactly when it occurs in `s`. */
  lemma ContainsIsSubstring(s: string, w: string)
    ensures Contains(s, w) <==> HasSubstring(s, w)
  {
    if Contains(s, w) {
      ContainsFindsOccurrence(s, w);
    }
    if HasSubstring(s, w) {
      var i :| OccursAt(s, w, i);
      OccurrenceIsFound(s, w, i);
    }
  }

  /** A successful scan has found an occurrence. */
  lemma {:induction false} ContainsFindsOccurrence(s: string, w: string)
    requires Contains(s, w)
    ensures HasSubstring(s, w)
    decreases |s|
  {
    if s[..|w|] == w {
      assert OccursAt(s, w, 0);
    } else {
      ContainsFindsOccurrence(s[1..], w);
      var i :| OccursAt(s[1..], w, i);
      TailSlice(s, i, i + |w|);
      assert OccursAt(s, w, i + 1);
    }
  }

  /** An occurrence at any position is found by the scan. */
  lemma {:induction false} OccurrenceIsFound(s: string, w: string, i: int)
    requires OccursAt(s, w, i)
    ensures Contains(s, w)
    decreases i
  {
    if s[..|w|] != w {
      assert i != 0;
      TailSlice(s, i - 1, i - 1 + |w|);
      assert OccursAt(s[1..], w, i - 1);
      OccurrenceIsFound(s[1..], w, i - 1);
    }
  }

  /** A slice of the tail is the slice one position further on. */
  lemma TailSlice(s: string, i: nat, j: nat)
    requires 1 <= |s| && i <= j <= |s| - 1
    ensures s[1..][i..j] == s[i + 1..j + 1]
  {
    assert forall k :: 0 <= k < j - i ==> s[1..][i..j][k] == s[i + 1..j + 1][k];
  }
}
