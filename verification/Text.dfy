/** The string operations of the Python runtime that several components share. */
module Text {

  /** The characters for which str.isspace() holds; str.strip() and the regular-expression class \s use the same set. */
  predicate IsSpace(c: char) {
    var n := c as int;
    9 <= n <= 13 || 28 <= n <= 32 || n == 0x85 || n == 0xA0 || n == 0x1680 || 0x2000 <= n <= 0x200A
    || n == 0x2028 || n == 0x2029 || n == 0x202F || n == 0x205F || n == 0x3000
  }

  /** The zero-width space the builders use as filler text. It is not whitespace. */
  const ZERO_WIDTH_SPACE: string := "\U{200B}"

  function LStripBy(s: string, drop: char -> bool): (r: string)
    ensures r == [] || !drop(r[0])
    ensures |r| <= |s| && r == s[|s| - |r|..]
    ensures forall i :: 0 <= i < |s| - |r| ==> drop(s[i])
  {
    if s == [] || !drop(s[0]) then s else LStripBy(s[1..], drop)
  }

  function RStripBy(s: string, drop: char -> bool): (r: string)
    ensures r == [] || !drop(r[|r| - 1])
    ensures |r| <= |s| && r == s[..|r|]
    ensures forall i :: |r| <= i < |s| ==> drop(s[i])
  {
    if s == [] || !drop(s[|s| - 1]) then s else RStripBy(s[..|s| - 1], drop)
  }

  function Strip(s: string): string {
    RStripBy(LStripBy(s, IsSpace), IsSpace)
  }

  /** True of the strings that str.strip() leaves alone. */
  predicate Stripped(s: string) {
    s == [] || (!IsSpace(s[0]) && !IsSpace(s[|s| - 1]))
  }

  lemma StripStripped(s: string)
    ensures Stripped(Strip(s))
    ensures Stripped(s) ==> Strip(s) == s
  {
    var l := LStripBy(s, IsSpace);
    assert l != [] ==> !IsSpace(l[0]);
  }

  /** s with every whitespace character deleted. */
  function Squeeze(s: string): (r: string)
  {
    if s == [] then [] else Squeeze(s[..|s| - 1]) + if IsSpace(s[|s| - 1]) then [] else [s[|s| - 1]]
  }

  lemma {:induction false} SqueezeConcat(a: string, b: string)
    ensures Squeeze(a + b) == Squeeze(a) + Squeeze(b)
  {
    if b == [] {
      assert a + b == a;
    } else {
      var n := |b| - 1;
      assert (a + b)[..|a + b| - 1] == a + b[..n];
      SqueezeConcat(a, b[..n]);
    }
  }

  ghost predicate Blank(s: string) {
    forall i :: 0 <= i < |s| ==> IsSpace(s[i])
  }

  lemma {:induction false} SqueezeBlank(s: string)
    ensures Squeeze(s) == [] <==> Blank(s)
  {
    if s != [] {
      SqueezeBlank(s[..|s| - 1]);
    }
  }

  lemma SqueezeDrop(s: string, k: nat)
    requires k <= |s| && Blank(s[..k])
    ensures Squeeze(s[k..]) == Squeeze(s)
  {
    assert s == s[..k] + s[k..];
    SqueezeConcat(s[..k], s[k..]);
    SqueezeBlank(s[..k]);
  }

  lemma SqueezeTake(s: string, k: nat)
    requires k <= |s| && Blank(s[k..])
    ensures Squeeze(s[..k]) == Squeeze(s)
  {
    assert s == s[..k] + s[k..];
    SqueezeConcat(s[..k], s[k..]);
    SqueezeBlank(s[k..]);
  }

  lemma SqueezeStrip(s: string)
    ensures Squeeze(Strip(s)) == Squeeze(s)
  {
    var l := LStripBy(s, IsSpace);
    SqueezeDrop(s, |s| - |l|);
    SqueezeTake(l, |Strip(s)|);
  }

  const DIGITS: string := "0123456789"

  /** str(n) for a non-negative integer. */
  function Decimal(n: nat): (r: string)
    ensures r != [] && forall i :: 0 <= i < |r| ==> r[i] in DIGITS
  {
    if n < 10 then [DIGITS[n]] else Decimal(n / 10) + [DIGITS[n % 10]]
  }

  lemma {:induction false} DecimalInjective(a: nat, b: nat)
    requires Decimal(a) == Decimal(b)
    ensures a == b
  {
    var x, y := Decimal(a), Decimal(b);
    assert DigitAt(x[|x| - 1]) == a % 10 && DigitAt(y[|y| - 1]) == b % 10 by {
      LastDigit(a);
      LastDigit(b);
    }
    if a >= 10 && b >= 10 {
      assert Decimal(a / 10) == x[..|x| - 1] && Decimal(b / 10) == y[..|y| - 1];
      DecimalInjective(a / 10, b / 10);
    }
  }

  function DigitAt(c: char): int {
    c as int - '0' as int
  }

  lemma LastDigit(n: nat)
    ensures DigitAt(Decimal(n)[|Decimal(n)| - 1]) == n % 10
  {
    assert forall d :: 0 <= d < 10 ==> DigitAt(DIGITS[d]) == d;
  }
}
