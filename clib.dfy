/**
 * The few C library and GLib primitives the plugin's logic depends on,
 * stated over unbounded integers and `seq<char>` strings:
 * `atoi(3)`, `printf("%d")`, `g_str_has_prefix`, and the widths of
 * `gint` and `guint64`.
 */
module CLib {

  /** A nullable pointer or string: `None` is C's NULL. */
  datatype Option<+T> = None | Some(value: T)

  /** G_MAXINT, the largest `gint`. */
  const GINT_MAX: int := 0x7fff_ffff

  /** 2^64: `guint64` arithmetic wraps modulo this. */
  const U64: int := 0x1_0000_0000_0000_0000

  /** isspace() in the C locale: space, and \t \n \v \f \r (codes 9 to 13). */
  predicate IsSpace(c: char) {
    c == ' ' || (9 <= c as int <= 13)
  }

  predicate IsDigit(c: char) {
    '0' <= c <= '9'
  }

  predicate AllDigits(s: string) {
    forall i :: 0 <= i < |s| ==> IsDigit(s[i])
  }

  function DigitValue(c: char): (d: nat)
    requires IsDigit(c)
    ensures d < 10
  {
    c as int - '0' as int
  }

  function DigitChar(d: nat): (c: char)
    requires d < 10
    ensures IsDigit(c) && DigitValue(c) == d
  {
    ('0' as int + d) as char
  }

  /**
   * The digit loop of atoi(3): fold the leading decimal digits of `s`
   * into `acc`, most significant first, and stop at the first non-digit.
   */
  function DigitLoop(s: string, acc: nat): nat
  {
    if s != [] && IsDigit(s[0]) then DigitLoop(s[1..], 10 * acc + DigitValue(s[0])) else acc
  }

  /** What remains of `s` once the leading white space is skipped. */
  function SkipSpace(s: string): string
  {
    if s != [] && IsSpace(s[0]) then SkipSpace(s[1..]) else s
  }

  /**
   * atoi(3): skip leading white space, read an optional sign, then the
   * longest run of decimal digits; anything after the run is ignored and
   * a string without digits reads as 0.
   */
  function Atoi(s: string): int {
    var t := SkipSpace(s);
    if t != [] && t[0] == '-' then -(DigitLoop(t[1..], 0) as int)
    else if t != [] && t[0] == '+' then DigitLoop(t[1..], 0)
    else DigitLoop(t, 0)
  }

  /** The decimal digits of `n` without leading zeros. */
  function Decimal(n: nat): (s: string)
    ensures |s| >= 1 && AllDigits(s)
  {
    if n < 10 then [DigitChar(n)] else Decimal(n / 10) + [DigitChar(n % 10)]
  }

  /** printf("%d", n). */
  function FormatInt(n: int): (s: string)
    ensures s != []
    ensures n >= 0 <==> IsDigit(s[0])
  {
    if n < 0 then "-" + Decimal(-n) else Decimal(n)
  }

  /** g_str_has_prefix. */
  predicate HasPrefix(s: string, prefix: string) {
    |prefix| <= |s| && s[..|prefix|] == prefix
  }

  /** Feeding one more digit to the loop multiplies what it had by ten and adds the digit. */
  lemma {:induction false} DigitLoopSnoc(d: string, c: char, acc: nat)
    requires AllDigits(d) && IsDigit(c)
    ensures DigitLoop(d + [c], acc) == 10 * DigitLoop(d, acc) + DigitValue(c)
  {
    if d != [] {
      assert (d + [c])[1..] == d[1..] + [c];
      DigitLoopSnoc(d[1..], c, 10 * acc + DigitValue(d[0]));
    }
  }

  /** The digit loop reads back the numeral `Decimal` writes. */
  lemma {:induction false} DigitLoopDecimal(n: nat)
    ensures DigitLoop(Decimal(n), 0) == n
  {
    if n >= 10 {
      DigitLoopDecimal(n / 10);
      DigitLoopSnoc(Decimal(n / 10), DigitChar(n % 10), 0);
    }
  }

  /** `Atoi` reads a non-negative decimal numeral back in full. */
  lemma AtoiDecimal(n: nat)
    ensures Atoi(Decimal(n)) == n
  {
    DigitLoopDecimal(n);
    assert SkipSpace(Decimal(n)) == Decimal(n);
  }

  /** `atoi` inverts `printf("%d")`: the round trip of every integer. */
  lemma AtoiFormatInt(n: int)
    ensures Atoi(FormatInt(n)) == n
  {
    if n < 0 {
      var s := FormatInt(n);
      DigitLoopDecimal(-n);
      assert SkipSpace(s) == s;
      assert s[1..] == Decimal(-n);
    } else {
      AtoiDecimal(n);
    }
  }
}
