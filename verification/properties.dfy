/** What `read_lines` promises, stated over whole runs. */
module EmitterProperties {
  import opened Text
  import opened Emitter
  import opened Selection
  import opened EmitterProofs

  /** The positions the pass may print, in the order it visits the input. */
  function Candidates(input: seq<Line>, o: Options): (s: seq<nat>)
    ensures ValidPositions(Arrange(input, o.reverse), s)
  {
    SelectedFrom(Arrange(input, o.reverse), o, 0)
  }

  /** `read_lines` is the reference run over the selected positions of the arranged input. */
  lemma {:induction false} ReadLinesMatchesReference(input: seq<Line>, o: Options, replies: seq<Reply>)
    ensures ReadLines(input, o, replies) == Emit(Arrange(input, o.reverse), o, Candidates(input, o), replies)
  {
    ScanMatchesReference(Arrange(input, o.reverse), o, 0, replies);
  }

  lemma {:induction false} RenderedAt(lines: seq<Line>, o: Options, s: seq<nat>)
    requires ValidPositions(lines, s)
    ensures forall k :: 0 <= k < |s| ==> Rendered(lines, o, s)[k] == Render(lines[s[k]], s[k], o)
  {
    if |s| > 0 {
      RenderedAt(lines, o, s[1..]);
      forall k | 0 < k < |s|
        ensures Rendered(lines, o, s)[k] == Render(lines[s[k]], s[k], o)
      {
        assert s[1..][k - 1] == s[k];
      }
    }
  }

  lemma CutIsPrefix(out: seq<Line>, p: nat, paginate: bool, replies: seq<Reply>)
    requires p <= |out|
    ensures var r := Cut(out, p, paginate, replies);
      |r.printed| <= |out| && r.printed == out[..|r.printed|]
  {
  }

  /**
   * Every printed line is the rendering of a selected line, in visiting
   * order: within the line limit (0-based position at most `numLines`), in
   * front of it fewer bytes than the byte limit, and at least the byte offset.
   */
  lemma {:induction false} PrintedLinesAreSelected(input: seq<Line>, o: Options, replies: seq<Reply>)
    ensures var r := ReadLines(input, o, replies);
      var lines := Arrange(input, o.reverse);
      var s := Candidates(input, o);
      && |r.printed| <= |s|
      && (forall k :: 0 <= k < |r.printed| ==> r.printed[k] == Render(lines[s[k]], s[k], o))
      && (forall k :: 0 <= k < |r.printed| ==> s[k] <= o.numLines)
      && (forall k, m :: 0 <= k < m < |r.printed| ==> s[k] < s[m])
      && (o.numBytes.Some? ==>
            forall k :: 0 <= k < |r.printed| ==> PrefixBytes(lines, s[k]) < o.numBytes.value)
      && (o.byteOffset.Some? ==>
            forall k :: 0 <= k < |r.printed| ==> PrefixBytes(lines, s[k]) >= o.byteOffset.value)
  {
    PrintedLinesRender(input, o, replies);
    CandidatesWithinLimits(input, o);
  }

  lemma PrintedLinesRender(input: seq<Line>, o: Options, replies: seq<Reply>)
    ensures var r := ReadLines(input, o, replies);
      var lines := Arrange(input, o.reverse);
      var s := Candidates(input, o);
      && |r.printed| <= |s|
      && (forall k :: 0 <= k < |r.printed| ==> r.printed[k] == Render(lines[s[k]], s[k], o))
  {
    var lines := Arrange(input, o.reverse);
    var s := Candidates(input, o);
    ReadLinesMatchesReference(input, o, replies);
    CutIsPrefix(Rendered(lines, o, s), FirstPanic(lines, o, s), o.paginate, replies);
    RenderedAt(lines, o, s);
  }

  /** Every candidate is within the line limit and the byte budget and past the offset, in increasing order. */
  lemma CandidatesWithinLimits(input: seq<Line>, o: Options)
    ensures var lines := Arrange(input, o.reverse);
      var s := Candidates(input, o);
      && (forall k :: 0 <= k < |s| ==> s[k] <= o.numLines)
      && (forall k, m :: 0 <= k < m < |s| ==> s[k] < s[m])
      && (o.numBytes.Some? ==> forall k :: 0 <= k < |s| ==> PrefixBytes(lines, s[k]) < o.numBytes.value)
      && (o.byteOffset.Some? ==> forall k :: 0 <= k < |s| ==> PrefixBytes(lines, s[k]) >= o.byteOffset.value)
  {
    var lines := Arrange(input, o.reverse);
    var s := Candidates(input, o);
    assert forall k :: 0 <= k < |s| ==> Selected(lines, o, s[k]);
  }

  /** How the reference cut ends, for any list of lines and panic point. */
  lemma CutEnding(out: seq<Line>, p: nat, paginate: bool, replies: seq<Reply>)
    requires p <= |out|
    ensures var r := Cut(out, p, paginate, replies);
      && |r.printed| <= p
      && (r.status == SlicePanic ==> |r.printed| == p < |out|)
      && (r.status != SlicePanic && |r.printed| < |out| ==>
            paginate && 0 < |r.printed| && StopsPaging(ReplyAt(replies, |r.printed| - 1)))
      && (paginate ==> forall k :: 0 <= k < |r.printed| - 1 ==> !StopsPaging(ReplyAt(replies, k)))
      && (r.status == ReplyError <==> paginate && 0 < |r.printed| && ReplyAt(replies, |r.printed| - 1).ReadFailed?)
      && (r.status == Finished && |r.printed| < |out| ==>
            paginate && 0 < |r.printed| && ReplyAt(replies, |r.printed| - 1).Answer?
            && IsQuit(ReplyAt(replies, |r.printed| - 1).text))
      && (!paginate ==> r.status != ReplyError && (r.status == Finished ==> |r.printed| == |out|))
  {
    var q := if paginate then FirstStop(replies, |out|) else |out|;
    var r := Cut(out, p, paginate, replies);
    if p < |out| && p <= q {
      assert r == Run(out[..p], SlicePanic, if paginate then p else 0);
      if paginate && 0 < p {
        assert !StopsPaging(ReplyAt(replies, p - 1));
      }
    } else if q < |out| {
      assert r == Run(out[..q + 1], StopStatus(ReplyAt(replies, q)), q + 1);
      assert StopsPaging(ReplyAt(replies, q));
    } else {
      assert r == Run(out, Finished, if paginate then |out| else 0);
      if paginate && 0 < |out| {
        assert !StopsPaging(ReplyAt(replies, |out| - 1));
      }
    }
  }

  /**
   * How a run ends. A panic happens on the first selected line whose cut
   * splits a character, and nothing of it is printed; with pagination every
   * reply but the last lets the run go on, and a run that stops before the
   * selected lines run out, without a panic, ends on a quit answer or a
   * failed read.
   */
  lemma {:induction false} RunEnding(input: seq<Line>, o: Options, replies: seq<Reply>)
    ensures var r := ReadLines(input, o, replies);
      var lines := Arrange(input, o.reverse);
      var s := Candidates(input, o);
      && |r.printed| <= |s|
      && (forall k :: 0 <= k < |r.printed| ==> !SlicePanics(lines[s[k]], o))
      && (r.status == SlicePanic ==> |r.printed| < |s| && SlicePanics(lines[s[|r.printed|]], o))
      && (r.status != SlicePanic && |r.printed| < |s| ==>
            o.paginate && 0 < |r.printed| && StopsPaging(ReplyAt(replies, |r.printed| - 1)))
      && (o.paginate ==> forall k :: 0 <= k < |r.printed| - 1 ==> !StopsPaging(ReplyAt(replies, k)))
      && (r.status == ReplyError <==> o.paginate && 0 < |r.printed| && ReplyAt(replies, |r.printed| - 1).ReadFailed?)
      && (r.status == Finished && |r.printed| < |s| ==>
            o.paginate && 0 < |r.printed| && ReplyAt(replies, |r.printed| - 1).Answer?
            && IsQuit(ReplyAt(replies, |r.printed| - 1).text))
      && (!o.paginate ==> r.status != ReplyError && (r.status == Finished ==> |r.printed| == |s|))
  {
    var lines := Arrange(input, o.reverse);
    var s := Candidates(input, o);
    ReadLinesMatchesReference(input, o, replies);
    CutEnding(Rendered(lines, o, s), FirstPanic(lines, o, s), o.paginate, replies);
  }

  /** Once the counter has reached the offset, no later line is skipped. */
  lemma {:induction false} SkippedLinesComeFirst(lines: seq<Line>, o: Options, i: nat, j: nat)
    requires i <= j <= |lines|
    ensures Skipped(lines, o, j) ==> Skipped(lines, o, i)
  {
    PrefixBytesGrows(lines, i, j);
  }

  /** Once the line limit or the byte budget stops the pass, no later line is within limits. */
  lemma {:induction false} LimitsStayExceeded(lines: seq<Line>, o: Options, i: nat, j: nat)
    requires i <= j <= |lines|
    ensures !WithinLimits(lines, o, i) ==> !WithinLimits(lines, o, j)
  {
    PrefixBytesGrows(lines, i, j);
  }

  function Min(a: nat, b: nat): nat {
    if a < b then a else b
  }

  /** No byte limit, no byte offset, no truncation and no pagination. */
  predicate NoFilters(o: Options) {
    o.numBytes.None? && o.byteOffset.None? && !o.truncate && !o.paginate
  }

  /** Without filters the pass runs to the end and prints every line up to position `numLines`. */
  lemma {:induction false} UnfilteredLength(lines: seq<Line>, o: Options, i: nat, count: nat, replies: seq<Reply>)
    requires NoFilters(o) && i <= Min(|lines|, o.numLines + 1)
    ensures var r := Scan(lines, o, i, count, replies);
      r.status == Finished && |r.printed| == Min(|lines|, o.numLines + 1) - i
    decreases |lines| - i
  {
    if i < Min(|lines|, o.numLines + 1) {
      UnfilteredLength(lines, o, i + 1, count + |lines[i]| + 1, replies);
      UnfilteredStep(lines, o, i, count, replies);
    }
  }

  /** The lines at positions `i` to `i + n - 1`, each rendered at its own position. */
  function RenderRange(lines: seq<Line>, o: Options, i: nat, n: nat): (r: seq<Line>)
    requires i + n <= |lines|
    ensures |r| == n
    decreases n
  {
    if n == 0 then [] else [Render(lines[i], i, o)] + RenderRange(lines, o, i + 1, n - 1)
  }

  lemma {:induction false} RenderRangeAt(lines: seq<Line>, o: Options, i: nat, n: nat, k: nat)
    requires i + n <= |lines| && k < n
    ensures RenderRange(lines, o, i, n)[k] == Render(lines[i + k], i + k, o)
    decreases n
  {
    if k > 0 {
      RenderRangeAt(lines, o, i + 1, n - 1, k - 1);
    }
  }

  /** Without filters the output from position `i` is the rendered range up to position `numLines`. */
  lemma {:induction false} UnfilteredContent(lines: seq<Line>, o: Options, i: nat, count: nat, replies: seq<Reply>)
    requires NoFilters(o) && i <= Min(|lines|, o.numLines + 1)
    ensures Scan(lines, o, i, count, replies).printed == RenderRange(lines, o, i, Min(|lines|, o.numLines + 1) - i)
    decreases |lines| - i
  {
    if i < Min(|lines|, o.numLines + 1) {
      UnfilteredContent(lines, o, i + 1, count + |lines[i]| + 1, replies);
      UnfilteredStep(lines, o, i, count, replies);
    }
  }

  /** Without filters the pass prints exactly the rendered lines up to position `numLines` and reads no reply. */
  lemma UnfilteredScan(lines: seq<Line>, o: Options, i: nat, count: nat, replies: seq<Reply>)
    requires NoFilters(o) && i <= Min(|lines|, o.numLines + 1)
    ensures var r := Scan(lines, o, i, count, replies);
      && r.status == Finished && r.repliesRead == 0
      && |r.printed| == Min(|lines|, o.numLines + 1) - i
      && forall k :: 0 <= k < |r.printed| ==> r.printed[k] == Render(lines[i + k], i + k, o)
  {
    UnfilteredLength(lines, o, i, count, replies);
    UnfilteredContent(lines, o, i, count, replies);
    var n := Min(|lines|, o.numLines + 1) - i;
    forall k | 0 <= k < n
      ensures RenderRange(lines, o, i, n)[k] == Render(lines[i + k], i + k, o)
    {
      RenderRangeAt(lines, o, i, n, k);
    }
  }

  /** One step of the unfiltered pass: the line at `i` is printed and the pass moves on. */
  lemma UnfilteredStep(lines: seq<Line>, o: Options, i: nat, count: nat, replies: seq<Reply>)
    requires NoFilters(o) && i < |lines| && i <= o.numLines
    ensures var rest := Scan(lines, o, i + 1, count + |lines[i]| + 1, replies);
      Scan(lines, o, i, count, replies) == Run([Render(lines[i], i, o)] + rest.printed, rest.status, 0)
  {
  }

  /**
   * With every option off the output is the first `numLines + 1` lines of the
   * input, unchanged; with only reversal on, the last ones, last line first.
   */
  lemma {:induction false} PlainRunIsPrefix(input: seq<Line>, o: Options, replies: seq<Reply>)
    requires NoFilters(o) && !o.lineNumbers
    ensures var r := ReadLines(input, o, replies);
      && r.status == Finished
      && |r.printed| == Min(|input|, o.numLines + 1)
      && (!o.reverse ==> r.printed == input[..|r.printed|])
      && (o.reverse ==> forall k :: 0 <= k < |r.printed| ==> r.printed[k] == input[|input| - 1 - k])
  {
    var lines := Arrange(input, o.reverse);
    UnfilteredScan(lines, o, 0, 0, replies);
    var r := ReadLines(input, o, replies);
    if !o.reverse {
      assert r.printed == input[..|r.printed|];
    }
  }

  /** With line numbers and no filters, line `k` of the output is numbered `k + 1`. */
  lemma {:induction false} NumberedRun(input: seq<Line>, o: Options, replies: seq<Reply>)
    requires NoFilters(o) && o.lineNumbers
    ensures var r := ReadLines(input, o, replies);
      && |r.printed| == Min(|input|, o.numLines + 1)
      && forall k :: 0 <= k < |r.printed| ==>
           r.printed[k] == NumberPrefix(k) + Arrange(input, o.reverse)[k]
  {
    UnfilteredScan(Arrange(input, o.reverse), o, 0, 0, replies);
  }

  /** Reversing is its own inverse. */
  lemma ReverseTwice<T>(s: seq<T>)
    ensures Reverse(Reverse(s)) == s
  {
    var r := Reverse(Reverse(s));
    assert forall k :: 0 <= k < |s| ==> r[k] == s[k];
  }
}
