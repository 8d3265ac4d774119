/**
 * The pieces of Go's strings, strconv and fmt packages the core relies on,
 * stated on Dafny strings.
 */
module GoStrings {

  /** strings.HasPrefix */
  predicate HasPrefix(s: string, p: string) {
    |p| <= |s| && s[..|p|] == p
  }

  /** strings.Contains */
  predicate Contains(s: string, sub: string)
    decreases |s|
  {
    HasPrefix(s, sub) || (|s| > 0 && Contains(s[1..], sub))
  }

  lemma {:induction false} ContainsAt(s: string, sub: string, i: nat)
    requires i + |sub| <= |s| && s[i..i + |sub|] == sub
    ensures Contains(s, sub)
  {
    if i > 0 {
      assert s[1..][i - 1..i - 1 + |sub|] == s[i..i + |sub|];
      ContainsAt(s[1..], sub, i - 1);
    }
  }

  /** Every string contains the strings it is built around. */
  lemma ContainsInfix(a: string, sub: string, b: string)
    ensures Contains(a + sub + b, sub)
  {
    var s := a + sub + b;
    assert s[|a|..|a| + |sub|] == sub;
    ContainsAt(s, sub, |a|);
  }

  /** strings.Join */
  function Join(parts: seq<string>, sep: string): (r: string)
    ensures parts == [] ==> r == ""
  {
    if parts == [] then ""
    else if |parts| == 1 then parts[0]
    else parts[0] + sep + Join(parts[1..], sep)
  }

  lemma JoinCons(p: string, rest: seq<string>, sep: string)
    requires rest != []
    ensures Join([p] + rest, sep) == p + sep + Join(rest, sep)
  {
    assert ([p] + rest)[1..] == rest;
  }

  /** strings.Split(s, [sep]) for a one-character separator. */
  function Split(s: string, sep: char): (r: seq<string>)
    ensures |r| >= 1
    ensures forall i :: 0 <= i < |r| ==> sep !in r[i]
    decreases |s|
  {
    if sep !in s then [s]
    else
      var i := FirstIndex(s, sep);
      [s[..i]] + Split(s[i + 1..], sep)
  }

  function FirstIndex(s: string, c: char): (i: nat)
    requires c in s
    ensures i < |s| && s[i] == c && c !in s[..i]
  {
    if s[0] == c then 0 else 1 + FirstIndex(s[1..], c)
  }

  /** Joining the pieces of a split with the separator gives the text back. */
  lemma {:induction false} SplitJoin(s: string, sep: char)
    ensures Join(Split(s, sep), [sep]) == s
    decreases |s|
  {
    if sep in s {
      var i := FirstIndex(s, sep);
      var rest := Split(s[i + 1..], sep);
      var parts := [s[..i]] + rest;
      assert Split(s, sep) == parts;
      assert |parts| > 1 && parts[0] == s[..i] && parts[1..] == rest;
      assert Join(parts, [sep]) == s[..i] + [sep] + Join(rest, [sep]);
      SplitJoin(s[i + 1..], sep);
      assert s == s[..i] + [sep] + s[i + 1..];
    }
  }

  // ----------------------------------------------------------- strconv

  function DecimalDigit(n: nat): char
    requires n < 10
  {
    "0123456789"[n]
  }

  predicate AllDigits(s: string) {
    forall i :: 0 <= i < |s| ==> '0' <= s[i] <= '9'
  }

  function DecimalNat(n: nat): (s: string)
    ensures |s| >= 1 && AllDigits(s)
  {
    if n < 10 then [DecimalDigit(n)] else DecimalNat(n / 10) + [DecimalDigit(n % 10)]
  }

  /** strconv.FormatInt(x, 10): a minus sign, then the digits of |x|. */
  function FormatInt(x: int): (s: string)
    ensures |s| >= 1
    ensures x < 0 <==> s[0] == '-'
  {
    if x < 0 then "-" + DecimalNat(-x) else DecimalNat(x)
  }

  function DigitsValue(s: string): nat
    requires AllDigits(s)
  {
    if s == [] then 0 else 10 * DigitsValue(s[..|s| - 1]) + (s[|s| - 1] as int - '0' as int)
  }

  /** The inverse of FormatInt, used to show decimal formatting loses nothing. */
  function ParseInt(s: string): int
    requires |s| > 0
    requires if s[0] == '-' then AllDigits(s[1..]) else AllDigits(s)
  {
    if s[0] == '-' then 0 - DigitsValue(s[1..]) else DigitsValue(s)
  }

  lemma {:induction false} DecimalNatValue(n: nat)
    ensures DigitsValue(DecimalNat(n)) == n
  {
    var d := "0123456789";
    if n < 10 {
      assert DecimalNat(n)[..0] == "";
      assert d[n] as int - '0' as int == n;
    } else {
      var s := DecimalNat(n);
      assert s[..|s| - 1] == DecimalNat(n / 10);
      DecimalNatValue(n / 10);
      assert d[n % 10] as int - '0' as int == n % 10;
    }
  }

  lemma ParseNegative(t: string)
    requires |t| > 0 && AllDigits(t)
    ensures var s := "-" + t; s[0] == '-' && s[1..] == t && ParseInt(s) == 0 - DigitsValue(t)
  {
    assert ("-" + t)[1..] == t;
  }

  lemma ParseDigits(t: string)
    requires |t| > 0 && AllDigits(t)
    ensures t[0] != '-' && ParseInt(t) == DigitsValue(t)
  {
    assert '0' <= t[0] <= '9';
  }

  /** Decimal formatting is injective: the text gives the number back. */
  lemma FormatIntRoundTrip(x: int)
    ensures var s := FormatInt(x); (if s[0] == '-' then AllDigits(s[1..]) else AllDigits(s)) && ParseInt(s) == x
  {
    if x < 0 {
      var n: nat := -x;
      var t := DecimalNat(n);
      assert FormatInt(x) == "-" + t;
      ParseNegative(t);
      DecimalNatValue(n);
    } else {
      var t := DecimalNat(x);
      assert FormatInt(x) == t;
      ParseDigits(t);
      DecimalNatValue(x);
    }
  }

  // ---------------------------------------------------------- integers

  /** Go's integer division, which truncates toward zero. */
  function TruncDiv(a: int, b: int): (q: int)
    requires b > 0
    ensures a >= 0 ==> 0 <= a - q * b < b
    ensures a < 0 ==> -b < a - q * b <= 0
  {
    if a >= 0 then a / b else -((-a) / b)
  }

  // --------------------------------------------------------------- fmt

  /**
   * What this model needs of fmt for format strings that contain verbs:
   * the rendering of such a format with one string operand and with none.
   * Formats without a '%' are rendered concretely by Sprintf1 and Sprintf0.
   */
  datatype Formatter = Formatter(withArg: (string, string) -> string, noArg: string -> string)

  /**
   * fmt.Sprintf(format, arg) for a string arg.  A format without verbs is
   * copied and the unused operand is reported as "%!(EXTRA string=arg)".
   */
  function Sprintf1(f: Formatter, format: string, arg: string): (r: string)
    ensures '%' !in format ==> HasPrefix(r, format) && |r| > |format| && Contains(r, arg)
  {
    if '%' !in format then
      ContainsInfix(format + "%!(EXTRA string=", arg, ")");
      format + "%!(EXTRA string=" + arg + ")"
    else f.withArg(format, arg)
  }

  /** fmt.Errorf(format) with no operands: a verb-free format is its own text. */
  function Sprintf0(f: Formatter, format: string): (r: string)
    ensures '%' !in format ==> r == format
  {
    if '%' !in format then format else f.noArg(format)
  }
}
