/**
 * Bytes, decimal numerals, padding and whitespace trimming: the small pieces of
 * Rust's string machinery that the line emitter relies on.
 */
module Text {

  /** One byte of a line; `str::len` in Rust counts these. */
  newtype byte = x: int | 0 <= x < 256

  /** A line of input without its terminating newline, as UTF-8 bytes. */
  type Line = seq<byte>

  const Space: byte := 32
  const Dot: byte := 46
  const Zero: byte := 48

  predicate IsDigit(b: byte) {
    Zero <= b <= Zero + 9
  }

  function DigitValue(b: byte): nat
    requires IsDigit(b)
  {
    (b - Zero) as nat
  }

  predicate AllDigits(ds: Line) {
    forall k :: 0 <= k < |ds| ==> IsDigit(ds[k])
  }

  /** The decimal numeral of `n`, as `{}` formats an unsigned integer. */
  function Decimal(n: nat): (ds: Line)
    ensures 1 <= |ds|
    ensures AllDigits(ds)
    ensures ds[0] == Zero ==> n == 0
    decreases n
  {
    if n < 10 then [Zero + (n as byte)]
    else Decimal(n / 10) + [Zero + ((n % 10) as byte)]
  }

  /** The number a string of decimal digits denotes. */
  function ValueOf(ds: Line): nat
    requires AllDigits(ds)
  {
    if |ds| == 0 then 0
    else ValueOf(ds[..|ds| - 1]) * 10 + DigitValue(ds[|ds| - 1])
  }

  lemma {:induction false} DecimalRoundTrip(n: nat)
    ensures ValueOf(Decimal(n)) == n
    decreases n
  {
    var ds := Decimal(n);
    if n >= 10 {
      assert ds[..|ds| - 1] == Decimal(n / 10);
      DecimalRoundTrip(n / 10);
    } else {
      assert ds[..|ds| - 1] == [];
    }
  }

  function Spaces(k: nat): (r: Line)
    ensures |r| == k
    ensures forall j :: 0 <= j < k ==> r[j] == Space
  {
    seq(k, _ => Space)
  }

  /** `s` right-aligned in a field of `width` bytes, as `{:>width}` does; never cut. */
  function PadLeft(s: Line, width: nat): (r: Line)
    ensures |r| == if |s| < width then width else |s|
    ensures r == Spaces(|r| - |s|) + s
  {
    if |s| < width then Spaces(width - |s|) + s else s
  }

  /** Characters with the Unicode White_Space property, which `str::trim` removes. */
  predicate IsWhiteSpace(c: char) {
    var n := c as int;
    (0x9 <= n <= 0xD) || n == 0x20 || n == 0x85 || n == 0xA0 || n == 0x1680
    || (0x2000 <= n <= 0x200A) || n == 0x2028 || n == 0x2029 || n == 0x202F
    || n == 0x205F || n == 0x3000
  }

  /** `s` without its longest whitespace prefix. */
  function TrimStart(s: string): string
  {
    if |s| > 0 && IsWhiteSpace(s[0]) then TrimStart(s[1..]) else s
  }

  /** `s` without its longest whitespace suffix. */
  function TrimEnd(s: string): string
  {
    if |s| > 0 && IsWhiteSpace(s[|s| - 1]) then TrimEnd(s[..|s| - 1]) else s
  }

  /**
   * `TrimStart` keeps a suffix: what it removes is all whitespace, and it
   * stops at the first other character.
   */
  lemma {:induction false} TrimStartIsMaximal(s: string)
    ensures |TrimStart(s)| <= |s| && TrimStart(s) == s[|s| - |TrimStart(s)|..]
    ensures forall k :: 0 <= k < |s| - |TrimStart(s)| ==> IsWhiteSpace(s[k])
    ensures |TrimStart(s)| > 0 ==> !IsWhiteSpace(TrimStart(s)[0])
  {
    if |s| > 0 && IsWhiteSpace(s[0]) {
      TrimStartIsMaximal(s[1..]);
      forall k | 0 < k < |s| - |TrimStart(s)|
        ensures IsWhiteSpace(s[k])
      {
        assert s[1..][k - 1] == s[k];
      }
    }
  }

  /**
   * `TrimEnd` keeps a prefix: what it removes is all whitespace, and it
   * stops at the last other character.
   */
  lemma {:induction false} TrimEndIsMaximal(s: string)
    ensures |TrimEnd(s)| <= |s| && TrimEnd(s) == s[..|TrimEnd(s)|]
    ensures forall k :: |TrimEnd(s)| <= k < |s| ==> IsWhiteSpace(s[k])
    ensures |TrimEnd(s)| > 0 ==> !IsWhiteSpace(TrimEnd(s)[|TrimEnd(s)| - 1])
  {
    if |s| > 0 && IsWhiteSpace(s[|s| - 1]) {
      TrimEndIsMaximal(s[..|s| - 1]);
    }
  }

  function Trim(s: string): string {
    TrimEnd(TrimStart(s))
  }

  /**
   * Whether a pagination answer means "quit": trimmed and lower-cased it is
   * exactly "q". Lower-casing maps every character to at least one character,
   * and only 'q' and 'Q' lower-case to "q", so the trimmed answer must be one
   * of those two single characters.
   */
  predicate IsQuit(answer: string) {
    var t := Trim(answer);
    |t| == 1 && (t[0] == 'q' || t[0] == 'Q')
  }

  /** A quit answer is one 'q' or 'Q' surrounded by whitespace only, and nothing else is. */
  lemma {:induction false} QuitCharacterization(s: string)
    ensures IsQuit(s) <==>
      exists i :: 0 <= i < |s| && (s[i] == 'q' || s[i] == 'Q') &&
        forall k :: 0 <= k < |s| && k != i ==> IsWhiteSpace(s[k])
  {
    var a := TrimStart(s);
    var t := TrimEnd(a);
    TrimStartIsMaximal(s);
    TrimEndIsMaximal(a);
    var m := |s| - |a|;
    if IsQuit(s) {
      assert t[0] == s[m];
      forall k | 0 <= k < |s| && k != m
        ensures IsWhiteSpace(s[k])
      {
        if k > m {
          assert a[k - m] == s[k];
        }
      }
    }
    if exists i :: 0 <= i < |s| && (s[i] == 'q' || s[i] == 'Q') &&
        forall k :: 0 <= k < |s| && k != i ==> IsWhiteSpace(s[k]) {
      var i :| 0 <= i < |s| && (s[i] == 'q' || s[i] == 'Q') &&
        forall k :: 0 <= k < |s| && k != i ==> IsWhiteSpace(s[k]);
      assert !IsWhiteSpace(s[i]);
      assert m == i;
      assert a[0] == s[i];
      assert |t| >= 1;
    }
  }

  function Ascii(s: string): (r: Line)
    requires forall k :: 0 <= k < |s| ==> s[k] as int < 128
    ensures |r| == |s|
  {
    seq(|s|, k requires 0 <= k < |s| => (s[k] as int) as byte)
  }
}
