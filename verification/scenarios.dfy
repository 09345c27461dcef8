/** Concrete runs: the repository's test, the documented examples, and the edge cases of the loop. */
module Scenarios {
  import opened Wrappers
  import opened Text
  import opened Emitter
  import opened EmitterProperties
  import opened Cli

  function Digit(n: nat): Line
    requires n < 10
  {
    [Zero + n as byte]
  }

  /**
   * The lines "1" to "10". The test's data file is not part of this model;
   * this content is assumed from the test's expected output.
   */
  function Sample(): (s: seq<Line>)
    ensures |s| == 10
  {
    seq(9, k requires 0 <= k < 9 => Digit(k + 1)) + [[Zero + 1, Zero]]
  }

  function Defaults(path: Option<Path>, stdin: bool): Args {
    Args(path, DefaultNumLines, stdin, false, None, None, false, false, false)
  }

  /** `head sample.txt -n 3` prints "1" to "4": the limit admits positions 0 to 3, so the output starts with "1\n2\n3\n". */
  lemma TestHeadCommand()
    ensures var p := Head(Defaults(Some("sample.txt"), false).(numLines := 3), [], map["sample.txt" := Sample()], []);
      p.exit == Success && p.stdout == [Digit(1), Digit(2), Digit(3), Digit(4)] && p.stdout[..3] == [Digit(1), Digit(2), Digit(3)]
  {
    var a := Defaults(Some("sample.txt"), false).(numLines := 3);
    PlainRunIsPrefix(Sample(), ToOptions(a), []);
    assert Sample()[..4] == [Digit(1), Digit(2), Digit(3), Digit(4)];
  }

  /** `head -n 2 -s` on "hello", "world", "foo", "bar" prints three lines. */
  lemma StdinRun()
    ensures var input := [Ascii("hello"), Ascii("world"), Ascii("foo"), Ascii("bar")];
      Head(Defaults(None, true).(numLines := 2), input, map[], []).stdout == input[..3]
  {
    var input := [Ascii("hello"), Ascii("world"), Ascii("foo"), Ascii("bar")];
    PlainRunIsPrefix(input, ToOptions(Defaults(None, true).(numLines := 2)), []);
  }

  /** With neither a path nor the stdin flag, the notice is written and the exit status is success. */
  lemma NoSourceRun(stdin: seq<Line>, files: map<Path, seq<Line>>, replies: seq<Reply>)
    ensures Head(Defaults(None, false), stdin, files, replies) == Process([], Some(NoSourceMessage), Success)
  {
  }

  /** Below ten, the number prefix is five spaces, the digit and one space. */
  lemma SmallNumberPrefix(index: nat)
    requires index < 9
    ensures NumberPrefix(index) == Spaces(5) + Digit(index + 1) + [Space]
  {
    assert Decimal(index + 1) == Digit(index + 1);
  }

  /** `head -n 3 -l` on "1", "2", "3" prints "     1 1", "     2 2", "     3 3". */
  lemma NumberedLines()
    ensures var o := Options(3, true, None, None, false, false, false);
      ReadLines([Digit(1), Digit(2), Digit(3)], o, []).printed ==
        [Spaces(5) + Digit(1) + [Space] + Digit(1),
         Spaces(5) + Digit(2) + [Space] + Digit(2),
         Spaces(5) + Digit(3) + [Space] + Digit(3)]
  {
    var o := Options(3, true, None, None, false, false, false);
    NumberedRun([Digit(1), Digit(2), Digit(3)], o, []);
    SmallNumberPrefix(0);
    SmallNumberPrefix(1);
    SmallNumberPrefix(2);
  }

  /** The byte budget is checked before a line is printed, so one line can overshoot it. */
  lemma ByteBudgetOvershoot()
    ensures ReadLines([Ascii("hello"), Ascii("world")], Options(10, false, Some(1), None, false, false, false), []).printed
         == [Ascii("hello")]
  {
  }

  /** Skipped lines still take positions: after skipping "ab" the next line is numbered 2. */
  lemma OffsetRun()
    ensures ReadLines([Ascii("ab"), Ascii("cd"), Ascii("ef")], Options(10, true, None, Some(3), false, false, false), []).printed
         == [NumberPrefix(1) + Ascii("cd"), NumberPrefix(2) + Ascii("ef")]
  {
  }

  /** A quit answer, whatever its case and surrounding whitespace, ends the run after the line it answers. */
  lemma QuitAnswer()
    ensures ReadLines([Ascii("a"), Ascii("b"), Ascii("c")], Options(10, false, None, None, true, false, false),
                      [Answer("\n"), Answer(" Q\n")])
         == Run([Ascii("a"), Ascii("b")], Finished, 2)
  {
    assert !IsQuit("\n");
    assert IsQuit(" Q\n");
  }

  /** A line cut at byte 77 inside a two-byte character panics. */
  lemma SplitCharacterPanics()
    ensures var line := seq(76, _ => 97 as byte) + [0xC3, 0xA9] + seq(10, _ => 97 as byte);
      ReadLines([line], Options(10, false, None, None, false, true, false), []) == Run([], SlicePanic, 0)
  {
    var line := seq(76, _ => 97 as byte) + [0xC3, 0xA9] + seq(10, _ => 97 as byte);
    assert line[77] == 0xA9;
  }
}
