/**
 * Reading a numbered output line back: the `{:>6} {}` layout keeps the
 * number and the text apart, so both can be recovered from the output.
 */
module Numbering {
  import opened Wrappers
  import opened Text
  import opened Emitter

  function DropSpaces(s: Line): Line {
    if |s| > 0 && s[0] == Space then DropSpaces(s[1..]) else s
  }

  lemma {:induction false} DropPadding(k: nat, t: Line)
    requires |t| > 0 && t[0] != Space
    ensures DropSpaces(Spaces(k) + t) == t
  {
    if k > 0 {
      assert (Spaces(k) + t)[1..] == Spaces(k - 1) + t;
      DropPadding(k - 1, t);
    } else {
      assert Spaces(0) + t == t;
    }
  }

  /** The length of the run of digits `s` starts with. */
  function DigitRun(s: Line): (n: nat)
    ensures n <= |s|
    ensures forall k :: 0 <= k < n ==> IsDigit(s[k])
    ensures n < |s| ==> !IsDigit(s[n])
  {
    if |s| > 0 && IsDigit(s[0]) then 1 + DigitRun(s[1..]) else 0
  }

  datatype Numbered = Numbered(number: nat, body: Line)

  /** Padding, a decimal number, one space, then the text; `None` for any other shape. */
  function ParseNumbered(s: Line): Option<Numbered> {
    var t := DropSpaces(s);
    var n := DigitRun(t);
    if 0 < n < |t| && t[n] == Space then Some(Numbered(ValueOf(t[..n]), t[n + 1..])) else None
  }

  /** The digit run of a numeral followed by a space is the numeral. */
  lemma DigitRunOfNumeral(d: Line, rest: Line)
    requires AllDigits(d)
    ensures DigitRun(d + [Space] + rest) == |d|
  {
    var t := d + [Space] + rest;
    assert t[|d|] == Space;
  }

  /** The spaces `{:>6}` puts in front of a numeral. */
  function Padding(d: Line): nat {
    if |d| < NumberWidth then NumberWidth - |d| else 0
  }

  /**
   * A numbered output line is the numeral right-aligned in six columns, a
   * space and the text.
   */
  lemma NumberedLayout(line: Line, index: nat, o: Options)
    requires o.lineNumbers
    ensures var d := Decimal(index + 1);
      Render(line, index, o) == Spaces(Padding(d)) + (d + [Space] + Body(line, o))
  {
    var d := Decimal(index + 1);
    var pad := PadLeft(d, NumberWidth);
    assert Render(line, index, o) == Spaces(|pad| - |d|) + (d + [Space] + Body(line, o));
  }

  /** Padding, a numeral, a space and any text parse back to the numeral's value and the text. */
  lemma ParseLayout(k: nat, d: Line, b: Line)
    requires 0 < |d| && AllDigits(d)
    ensures ParseNumbered(Spaces(k) + (d + [Space] + b)) == Some(Numbered(ValueOf(d), b))
  {
    var t := d + [Space] + b;
    DropPadding(k, t);
    DigitRunOfNumeral(d, b);
    assert t[..|d|] == d;
    assert t[|d| + 1..] == b;
  }

  /** A numbered output line gives back the 1-based position and the printed text. */
  lemma NumberPrefixRoundTrip(line: Line, index: nat, o: Options)
    requires o.lineNumbers
    ensures ParseNumbered(Render(line, index, o)) == Some(Numbered(index + 1, Body(line, o)))
  {
    var d := Decimal(index + 1);
    var t := d + [Space] + Body(line, o);
    NumberedLayout(line, index, o);
    ParseLayout(Padding(d), d, Body(line, o));
    DecimalRoundTrip(index + 1);
  }
}
