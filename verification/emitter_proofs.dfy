/** The emitter agrees with the independent description, and what follows from that. */
module EmitterProofs {
  import opened Text
  import opened Emitter
  import opened Selection

  /** Past the line limit, or once the byte budget is spent, no later position is selected. */
  lemma {:induction false} NothingSelectedBeyond(lines: seq<Line>, o: Options, i: nat)
    requires i <= |lines|
    requires i == |lines| || i > o.numLines || (o.numBytes.Some? && PrefixBytes(lines, i) >= o.numBytes.value)
    ensures SelectedFrom(lines, o, i) == []
  {
    var s := SelectedFrom(lines, o, i);
    if |s| > 0 {
      PrefixBytesGrows(lines, i, s[0]);
      assert false;
    }
  }

  lemma PrefixesOfCons<T>(x: T, tail: seq<T>)
    ensures forall n :: 0 <= n <= |tail| ==> ([x] + tail)[..n + 1] == [x] + tail[..n]
  {
  }

  /** Without pagination, a line in front that does not panic is printed, then the rest. */
  lemma CutConsQuiet(x: Line, out: seq<Line>, p: nat, replies: seq<Reply>)
    requires p <= |out|
    ensures var rest := Cut(out, p, false, replies);
      Cut([x] + out, p + 1, false, replies) == Run([x] + rest.printed, rest.status, 0)
  {
    PrefixesOfCons(x, out);
  }

  /** With pagination and a reply that lets it go on, a line in front is printed, then the rest on the later replies. */
  lemma CutConsPaged(x: Line, out: seq<Line>, p: nat, replies: seq<Reply>)
    requires p <= |out|
    requires !StopsPaging(NextReply(replies).0)
    ensures var rest := Cut(out, p, true, NextReply(replies).1);
      Cut([x] + out, p + 1, true, replies) == Run([x] + rest.printed, rest.status, rest.repliesRead + 1)
  {
    PrefixesOfCons(x, out);
    ReplyAtNext(replies);
    assert FirstStop(replies, |out| + 1) == 1 + FirstStop(NextReply(replies).1, |out|);
  }

  /** With pagination and a reply that stops it, only the line in front is printed. */
  lemma CutConsStop(x: Line, out: seq<Line>, p: nat, replies: seq<Reply>)
    requires p <= |out|
    requires StopsPaging(NextReply(replies).0)
    ensures Cut([x] + out, p + 1, true, replies) == Run([x], StopStatus(NextReply(replies).0), 1)
  {
    ReplyAtNext(replies);
    assert FirstStop(replies, |out| + 1) == 0;
    assert ([x] + out)[..1] == [x];
  }

  /** Putting a non-panicking position in front shifts the panic point and the rendered lines by one. */
  lemma ConsFacts(lines: seq<Line>, o: Options, i: nat, t: seq<nat>)
    requires i < |lines| && ValidPositions(lines, t)
    requires !SlicePanics(lines[i], o)
    ensures ValidPositions(lines, [i] + t)
    ensures FirstPanic(lines, o, [i] + t) == 1 + FirstPanic(lines, o, t)
    ensures Rendered(lines, o, [i] + t) == [Render(lines[i], i, o)] + Rendered(lines, o, t)
  {
    assert ([i] + t)[1..] == t;
  }

  /** Without pagination, the reference run prints a non-panicking first position, then the rest. */
  lemma EmitConsQuiet(lines: seq<Line>, o: Options, i: nat, t: seq<nat>, replies: seq<Reply>)
    requires i < |lines| && ValidPositions(lines, t)
    requires !SlicePanics(lines[i], o) && !o.paginate
    ensures ValidPositions(lines, [i] + t)
    ensures var rest := Emit(lines, o, t, replies);
      Emit(lines, o, [i] + t, replies) == Run([Render(lines[i], i, o)] + rest.printed, rest.status, 0)
  {
    ConsFacts(lines, o, i, t);
    CutConsQuiet(Render(lines[i], i, o), Rendered(lines, o, t), FirstPanic(lines, o, t), replies);
  }

  /** With pagination and a reply that lets it go on, the reference run prints the first position, then the rest on the later replies. */
  lemma EmitConsPaged(lines: seq<Line>, o: Options, i: nat, t: seq<nat>, replies: seq<Reply>)
    requires i < |lines| && ValidPositions(lines, t)
    requires !SlicePanics(lines[i], o) && o.paginate && !StopsPaging(NextReply(replies).0)
    ensures ValidPositions(lines, [i] + t)
    ensures var rest := Emit(lines, o, t, NextReply(replies).1);
      Emit(lines, o, [i] + t, replies) == Run([Render(lines[i], i, o)] + rest.printed, rest.status, rest.repliesRead + 1)
  {
    ConsFacts(lines, o, i, t);
    CutConsPaged(Render(lines[i], i, o), Rendered(lines, o, t), FirstPanic(lines, o, t), replies);
  }

  /** With pagination and a reply that stops it, the reference run prints the first position only. */
  lemma EmitConsStop(lines: seq<Line>, o: Options, i: nat, t: seq<nat>, replies: seq<Reply>)
    requires i < |lines| && ValidPositions(lines, t)
    requires !SlicePanics(lines[i], o) && o.paginate && StopsPaging(NextReply(replies).0)
    ensures ValidPositions(lines, [i] + t)
    ensures Emit(lines, o, [i] + t, replies) == Run([Render(lines[i], i, o)], StopStatus(NextReply(replies).0), 1)
  {
    ConsFacts(lines, o, i, t);
    CutConsStop(Render(lines[i], i, o), Rendered(lines, o, t), FirstPanic(lines, o, t), replies);
  }

  /** The pass neither stops nor skips at position `i` when it enters it with counter `count`. */
  predicate Reaches(lines: seq<Line>, o: Options, i: nat, count: nat) {
    && i < |lines| && i <= o.numLines
    && (o.numBytes.None? || count < o.numBytes.value)
    && (o.byteOffset.None? || count >= o.byteOffset.value)
  }

  lemma ScanPanicStep(lines: seq<Line>, o: Options, i: nat, count: nat, replies: seq<Reply>)
    requires Reaches(lines, o, i, count) && SlicePanics(lines[i], o)
    ensures Scan(lines, o, i, count, replies) == Run([], SlicePanic, 0)
  {
  }

  lemma ScanQuietStep(lines: seq<Line>, o: Options, i: nat, count: nat, next: nat, replies: seq<Reply>)
    requires Reaches(lines, o, i, count) && !SlicePanics(lines[i], o) && !o.paginate
    requires next == count + |lines[i]| + 1
    ensures var rest := Scan(lines, o, i + 1, next, replies);
      Scan(lines, o, i, count, replies) == Run([Render(lines[i], i, o)] + rest.printed, rest.status, 0)
  {
  }

  lemma ScanPagedStep(lines: seq<Line>, o: Options, i: nat, count: nat, next: nat, replies: seq<Reply>)
    requires Reaches(lines, o, i, count) && !SlicePanics(lines[i], o) && o.paginate
    requires !StopsPaging(NextReply(replies).0)
    requires next == count + |lines[i]| + 1
    ensures var rest := Scan(lines, o, i + 1, next, NextReply(replies).1);
      Scan(lines, o, i, count, replies) == Run([Render(lines[i], i, o)] + rest.printed, rest.status, rest.repliesRead + 1)
  {
  }

  lemma ScanStopStep(lines: seq<Line>, o: Options, i: nat, count: nat, replies: seq<Reply>)
    requires Reaches(lines, o, i, count) && !SlicePanics(lines[i], o) && o.paginate
    requires StopsPaging(NextReply(replies).0)
    ensures Scan(lines, o, i, count, replies) == Run([Render(lines[i], i, o)], StopStatus(NextReply(replies).0), 1)
  {
  }

  /** A panicking first position ends the reference run with nothing printed. */
  lemma EmitPanicFirst(lines: seq<Line>, o: Options, i: nat, t: seq<nat>, replies: seq<Reply>)
    requires i < |lines| && ValidPositions(lines, t)
    requires SlicePanics(lines[i], o)
    ensures ValidPositions(lines, [i] + t)
    ensures Emit(lines, o, [i] + t, replies) == Run([], SlicePanic, 0)
  {
    assert FirstPanic(lines, o, [i] + t) == 0;
  }

  /** Where the pass stops outright, the reference run prints nothing either. */
  lemma StopMatches(lines: seq<Line>, o: Options, i: nat, replies: seq<Reply>)
    requires i <= |lines|
    requires i == |lines| || i > o.numLines || (o.numBytes.Some? && PrefixBytes(lines, i) >= o.numBytes.value)
    ensures Scan(lines, o, i, PrefixBytes(lines, i), replies) == Run([], Finished, 0)
    ensures Emit(lines, o, SelectedFrom(lines, o, i), replies) == Run([], Finished, 0)
  {
    NothingSelectedBeyond(lines, o, i);
    assert Rendered(lines, o, []) == [];
  }

  /**
   * The pass from any position, entered with the byte counter the lines before
   * it account for, prints what the reference run over the selected positions prints.
   */
  lemma {:induction false} ScanMatchesReference(lines: seq<Line>, o: Options, i: nat, replies: seq<Reply>)
    requires i <= |lines|
    ensures Scan(lines, o, i, PrefixBytes(lines, i), replies)
         == Emit(lines, o, SelectedFrom(lines, o, i), replies)
    decreases |lines| - i, 2
  {
    var count := PrefixBytes(lines, i);
    if i == |lines| || i > o.numLines || (o.numBytes.Some? && count >= o.numBytes.value) {
      StopMatches(lines, o, i, replies);
    } else if o.byteOffset.Some? && count < o.byteOffset.value {
      SkipMatches(lines, o, i, replies);
    } else {
      SelectedMatches(lines, o, i, replies);
    }
  }

  lemma {:induction false} SkipMatches(lines: seq<Line>, o: Options, i: nat, replies: seq<Reply>)
    requires i < |lines| && i <= o.numLines
    requires o.numBytes.None? || PrefixBytes(lines, i) < o.numBytes.value
    requires o.byteOffset.Some? && PrefixBytes(lines, i) < o.byteOffset.value
    ensures Scan(lines, o, i, PrefixBytes(lines, i), replies)
         == Emit(lines, o, SelectedFrom(lines, o, i), replies)
    decreases |lines| - i, 0
  {
    SkipStep(lines, o, i, replies);
    ScanMatchesReference(lines, o, i + 1, replies);
  }

  /** A skipped position is not selected, and the pass moves on with the counter advanced past it. */
  lemma SkipStep(lines: seq<Line>, o: Options, i: nat, replies: seq<Reply>)
    requires i < |lines| && i <= o.numLines
    requires o.numBytes.None? || PrefixBytes(lines, i) < o.numBytes.value
    requires o.byteOffset.Some? && PrefixBytes(lines, i) < o.byteOffset.value
    ensures SelectedFrom(lines, o, i) == SelectedFrom(lines, o, i + 1)
    ensures Scan(lines, o, i, PrefixBytes(lines, i), replies)
         == Scan(lines, o, i + 1, PrefixBytes(lines, i + 1), replies)
  {
    assert !Selected(lines, o, i);
    SkipScan(lines, o, i, PrefixBytes(lines, i), replies);
  }

  lemma SkipScan(lines: seq<Line>, o: Options, i: nat, count: nat, replies: seq<Reply>)
    requires i < |lines| && i <= o.numLines
    requires o.numBytes.None? || count < o.numBytes.value
    requires o.byteOffset.Some? && count < o.byteOffset.value
    ensures Scan(lines, o, i, count, replies) == Scan(lines, o, i + 1, count + |lines[i]| + 1, replies)
  {
  }

  /** A selected position heads the selection from it, and the pass moves on with the counter advanced past it. */
  lemma SelectedStep(lines: seq<Line>, o: Options, i: nat)
    requires i < |lines| && Reaches(lines, o, i, PrefixBytes(lines, i))
    ensures SelectedFrom(lines, o, i) == [i] + SelectedFrom(lines, o, i + 1)
    ensures PrefixBytes(lines, i + 1) == PrefixBytes(lines, i) + |lines[i]| + 1
  {
    assert Selected(lines, o, i);
  }

  lemma {:induction false} SelectedMatches(lines: seq<Line>, o: Options, i: nat, replies: seq<Reply>)
    requires i < |lines| && Reaches(lines, o, i, PrefixBytes(lines, i))
    ensures Scan(lines, o, i, PrefixBytes(lines, i), replies)
         == Emit(lines, o, SelectedFrom(lines, o, i), replies)
    decreases |lines| - i, 1
  {
    if SlicePanics(lines[i], o) {
      PanicMatches(lines, o, i, replies);
    } else if !o.paginate {
      QuietMatches(lines, o, i, replies);
    } else if !StopsPaging(NextReply(replies).0) {
      PagedMatches(lines, o, i, replies);
    } else {
      QuitMatches(lines, o, i, replies);
    }
  }

  lemma PanicMatches(lines: seq<Line>, o: Options, i: nat, replies: seq<Reply>)
    requires i < |lines| && Reaches(lines, o, i, PrefixBytes(lines, i)) && SlicePanics(lines[i], o)
    ensures Scan(lines, o, i, PrefixBytes(lines, i), replies)
         == Emit(lines, o, SelectedFrom(lines, o, i), replies)
  {
    SelectedStep(lines, o, i);
    ScanPanicStep(lines, o, i, PrefixBytes(lines, i), replies);
    EmitPanicFirst(lines, o, i, SelectedFrom(lines, o, i + 1), replies);
  }

  lemma QuitMatches(lines: seq<Line>, o: Options, i: nat, replies: seq<Reply>)
    requires i < |lines| && Reaches(lines, o, i, PrefixBytes(lines, i)) && !SlicePanics(lines[i], o)
    requires o.paginate && StopsPaging(NextReply(replies).0)
    ensures Scan(lines, o, i, PrefixBytes(lines, i), replies)
         == Emit(lines, o, SelectedFrom(lines, o, i), replies)
  {
    SelectedStep(lines, o, i);
    ScanStopStep(lines, o, i, PrefixBytes(lines, i), replies);
    EmitConsStop(lines, o, i, SelectedFrom(lines, o, i + 1), replies);
  }

  /** Without pagination both runs print the current line and continue as the rest of the pass. */
  lemma {:induction false} QuietMatches(lines: seq<Line>, o: Options, i: nat, replies: seq<Reply>)
    requires i < |lines| && Reaches(lines, o, i, PrefixBytes(lines, i)) && !SlicePanics(lines[i], o) && !o.paginate
    ensures Scan(lines, o, i, PrefixBytes(lines, i), replies)
         == Emit(lines, o, SelectedFrom(lines, o, i), replies)
    decreases |lines| - i, 0
  {
    ScanMatchesReference(lines, o, i + 1, replies);
    SelectedStep(lines, o, i);
    ScanQuietStep(lines, o, i, PrefixBytes(lines, i), PrefixBytes(lines, i + 1), replies);
    EmitConsQuiet(lines, o, i, SelectedFrom(lines, o, i + 1), replies);
  }

  /** On a reply that does not stop paging both runs print the current line, read it, and continue as the rest of the pass. */
  lemma {:induction false} PagedMatches(lines: seq<Line>, o: Options, i: nat, replies: seq<Reply>)
    requires i < |lines| && Reaches(lines, o, i, PrefixBytes(lines, i)) && !SlicePanics(lines[i], o)
    requires o.paginate && !StopsPaging(NextReply(replies).0)
    ensures Scan(lines, o, i, PrefixBytes(lines, i), replies)
         == Emit(lines, o, SelectedFrom(lines, o, i), replies)
    decreases |lines| - i, 0
  {
    ScanMatchesReference(lines, o, i + 1, NextReply(replies).1);
    SelectedStep(lines, o, i);
    ScanPagedStep(lines, o, i, PrefixBytes(lines, i), PrefixBytes(lines, i + 1), replies);
    EmitConsPaged(lines, o, i, SelectedFrom(lines, o, i + 1), replies);
  }
}
