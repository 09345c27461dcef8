/**
 * An independent description of what the emitter prints. Because every line
 * the pass visits, skipped or printed, adds its length plus one separator to
 * the byte counter, the counter in front of position `i` is the sum over the
 * lines before it; which lines are printed then follows from the limits
 * alone, and pagination and the truncation panic only cut that list short.
 */
module Selection {
  import opened Text
  import opened Emitter

  /** Bytes of the lines before position `i`, one separator each. */
  function PrefixBytes(lines: seq<Line>, i: nat): nat
    requires i <= |lines|
  {
    if i == 0 then 0 else PrefixBytes(lines, i - 1) + |lines[i - 1]| + 1
  }

  lemma {:induction false} PrefixBytesGrows(lines: seq<Line>, i: nat, j: nat)
    requires i <= j <= |lines|
    ensures PrefixBytes(lines, i) + (j - i) <= PrefixBytes(lines, j)
    decreases j - i
  {
    if i < j {
      PrefixBytesGrows(lines, i, j - 1);
    }
  }

  /** Position `i` is inside the line limit and the byte budget is not yet spent. */
  predicate WithinLimits(lines: seq<Line>, o: Options, i: nat)
    requires i <= |lines|
  {
    i <= o.numLines && (o.numBytes.None? || PrefixBytes(lines, i) < o.numBytes.value)
  }

  /** The byte offset has not been reached in front of position `i`. */
  predicate Skipped(lines: seq<Line>, o: Options, i: nat)
    requires i <= |lines|
  {
    o.byteOffset.Some? && PrefixBytes(lines, i) < o.byteOffset.value
  }

  predicate Selected(lines: seq<Line>, o: Options, i: nat) {
    i < |lines| && WithinLimits(lines, o, i) && !Skipped(lines, o, i)
  }

  predicate ValidPositions(lines: seq<Line>, s: seq<nat>) {
    forall k :: 0 <= k < |s| ==> s[k] < |lines|
  }

  /** The selected positions from `i` on, in increasing order. */
  function SelectedFrom(lines: seq<Line>, o: Options, i: nat): (s: seq<nat>)
    requires i <= |lines|
    ensures forall k :: 0 <= k < |s| ==> i <= s[k] && Selected(lines, o, s[k])
    ensures forall j :: i <= j < |lines| && Selected(lines, o, j) ==> j in s
    ensures forall k, m :: 0 <= k < m < |s| ==> s[k] < s[m]
    decreases |lines| - i
  {
    if i == |lines| then []
    else (if Selected(lines, o, i) then [i] else []) + SelectedFrom(lines, o, i + 1)
  }

  /** The output lines of positions `s`, as the emitter would render them. */
  function Rendered(lines: seq<Line>, o: Options, s: seq<nat>): (r: seq<Line>)
    requires ValidPositions(lines, s)
    ensures |r| == |s|
  {
    if |s| == 0 then [] else [Render(lines[s[0]], s[0], o)] + Rendered(lines, o, s[1..])
  }

  /** How many of positions `s` come before the first whose truncation panics. */
  function FirstPanic(lines: seq<Line>, o: Options, s: seq<nat>): (p: nat)
    requires ValidPositions(lines, s)
    ensures p <= |s|
    ensures forall k :: 0 <= k < p ==> !SlicePanics(lines[s[k]], o)
    ensures p < |s| ==> SlicePanics(lines[s[p]], o)
  {
    if |s| == 0 then 0
    else if SlicePanics(lines[s[0]], o) then 0
    else 1 + FirstPanic(lines, o, s[1..])
  }

  /** The `q`-th reply read, 0-based. */
  function ReplyAt(replies: seq<Reply>, q: nat): Reply {
    if q < |replies| then replies[q] else EndOfInput
  }

  lemma ReplyAtNext(replies: seq<Reply>)
    ensures ReplyAt(replies, 0) == NextReply(replies).0
    ensures forall q: nat :: ReplyAt(NextReply(replies).1, q) == ReplyAt(replies, q + 1)
    ensures forall q: nat :: 0 < q ==> ReplyAt(replies, q) == ReplyAt(NextReply(replies).1, q - 1)
  {
  }

  /** How many of the first `n` replies come before the first that stops paging. */
  function FirstStop(replies: seq<Reply>, n: nat): (q: nat)
    ensures q <= n
    ensures forall k :: 0 <= k < q ==> !StopsPaging(ReplyAt(replies, k))
    ensures q < n ==> StopsPaging(ReplyAt(replies, q))
    decreases n
  {
    if n == 0 then 0
    else
      var (reply, later) := NextReply(replies);
      ReplyAtNext(replies);
      if StopsPaging(reply) then 0 else 1 + FirstStop(later, n - 1)
  }

  /** How a run ends on a reply that stops paging. */
  function StopStatus(reply: Reply): Status {
    if reply.ReadFailed? then ReplyError else Finished
  }

  /**
   * The run that prints `out` in order, except that the line at `p` (when
   * there is one) panics instead and ends the run; with pagination, the
   * first stopping reply ends it after the line it answers.
   */
  function Cut(out: seq<Line>, p: nat, paginate: bool, replies: seq<Reply>): Run
    requires p <= |out|
  {
    var q := if paginate then FirstStop(replies, |out|) else |out|;
    if p < |out| && p <= q then Run(out[..p], SlicePanic, if paginate then p else 0)
    else if q < |out| then Run(out[..q + 1], StopStatus(ReplyAt(replies, q)), q + 1)
    else Run(out, Finished, if paginate then |out| else 0)
  }

  /** The run that prints the lines at positions `s`, in order. */
  function Emit(lines: seq<Line>, o: Options, s: seq<nat>, replies: seq<Reply>): Run
    requires ValidPositions(lines, s)
  {
    Cut(Rendered(lines, o, s), FirstPanic(lines, o, s), o.paginate, replies)
  }
}
