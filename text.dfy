/**
 * String helpers the generator's templates rely on: the decimal rendering of
 * a non-negative integer (what a template literal `${n}` produces for such a
 * number), its inverse, ASCII lower-casing and splitting at the first space.
 */
module Text {

  predicate IsDigit(c: char) { '0' <= c <= '9' }

  predicate AllDigits(s: string) { forall k :: 0 <= k < |s| ==> IsDigit(s[k]) }

  function DigitChar(d: nat): (c: char)
    requires d < 10
    ensures IsDigit(c)
  {
    ('0' as int + d) as char
  }

  function DigitValue(c: char): (d: nat)
    requires IsDigit(c)
    ensures d < 10
  {
    c as int - '0' as int
  }

  /** Decimal rendering: at least one digit, and a leading zero only for 0 itself. */
  function NatToString(n: nat): (s: string)
    ensures 1 <= |s|
    ensures AllDigits(s)
    ensures s[0] == '0' <==> n == 0
    ensures s[0] == '0' ==> |s| == 1
    decreases n
  {
    if n < 10 then [DigitChar(n)] else NatToString(n / 10) + [DigitChar(n % 10)]
  }

  /** Reads a string of decimal digits back as a number (the empty string reads as 0). */
  function StringToNat(s: string): nat
    requires AllDigits(s)
  {
    if s == [] then 0 else 10 * StringToNat(s[..|s| - 1]) + DigitValue(s[|s| - 1])
  }

  /** Reading back a rendered number gives that number. */
  lemma {:induction false} StringToNatInverse(n: nat)
    ensures StringToNat(NatToString(n)) == n
  {
    var s := NatToString(n);
    if n < 10 {
      assert s[..|s| - 1] == [];
    } else {
      assert s[..|s| - 1] == NatToString(n / 10);
      StringToNatInverse(n / 10);
    }
  }

  /** Distinct numbers render to distinct strings. */
  lemma NatToStringInjective(m: nat, n: nat)
    requires NatToString(m) == NatToString(n)
    ensures m == n
  {
    StringToNatInverse(m);
    StringToNatInverse(n);
  }

  /** A template with one number between a fixed prefix and a fixed suffix determines the number. */
  lemma TemplateInjective(prefix: string, suffix: string, m: nat, n: nat)
    requires prefix + NatToString(m) + suffix == prefix + NatToString(n) + suffix
    ensures m == n
  {
    var a, b := NatToString(m), NatToString(n);
    var s := prefix + a + suffix;
    assert |a| == |b|;
    assert a == s[|prefix|..|prefix| + |a|];
    assert b == (prefix + b + suffix)[|prefix|..|prefix| + |b|];
    NatToStringInjective(m, n);
  }

  predicate IsUpper(c: char) { 'A' <= c <= 'Z' }

  /** ASCII lower-casing of one character; every other character is kept. */
  function LowerChar(c: char): char
  {
    if IsUpper(c) then (c as int + 32) as char else c
  }

  /**
   * ASCII lower-casing of a string: same length, each position lower-cased,
   * and no upper-case letter left.
   */
  function ToLower(s: string): (r: string)
    ensures |r| == |s|
    ensures forall k :: 0 <= k < |s| ==> r[k] == LowerChar(s[k])
    ensures forall k :: 0 <= k < |r| ==> !IsUpper(r[k])
  {
    if s == [] then [] else [LowerChar(s[0])] + ToLower(s[1..])
  }

  predicate SpaceFree(s: string) { forall k :: 0 <= k < |s| ==> s[k] != ' ' }

  /** The position of the first space in `s`, or `|s|` when there is none. */
  function FirstSpace(s: string): (r: nat)
    ensures r <= |s|
    ensures SpaceFree(s[..r])
    ensures r < |s| ==> s[r] == ' '
  {
    if s == [] then 0 else if s[0] == ' ' then 0 else 1 + FirstSpace(s[1..])
  }

  lemma FirstSpaceOfJoin(a: string, b: string)
    requires SpaceFree(a)
    ensures FirstSpace(a + " " + b) == |a|
  {
    var s := a + " " + b;
    var r := FirstSpace(s);
    assert s[|a|] == ' ';
    assert forall k :: 0 <= k < |a| ==> s[k] == a[k];
  }

  /** A space-free word followed by a space splits off uniquely. */
  lemma SplitAtSpace(a: string, b: string, c: string, d: string)
    requires SpaceFree(a) && SpaceFree(c)
    requires a + " " + b == c + " " + d
    ensures a == c && b == d
  {
    FirstSpaceOfJoin(a, b);
    FirstSpaceOfJoin(c, d);
    var s := a + " " + b;
    assert a == s[..|a|];
    assert c == (c + " " + d)[..|c|];
    assert b == s[|a| + 1..];
    assert d == (c + " " + d)[|c| + 1..];
  }
}
