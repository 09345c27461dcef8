/**
 * The program entry: the parsed command line, the choice of input source
 * and what the process leaves behind.
 */
module Cli {
  import opened Wrappers
  import opened Text
  import opened Emitter

  type Path = string

  /** The parsed command line (argument parsing itself is not modelled). */
  datatype Args = Args(
    filePath: Option<Path>,
    numLines: nat,
    useStdin: bool,
    lineNumbers: bool,
    numBytes: Option<nat>,
    byteOffset: Option<nat>,
    paginate: bool,
    truncate: bool,
    reverse: bool)

  /** `-n` when it is not given. */
  const DefaultNumLines: nat := 10

  const NoSourceMessage: string := "No file or stdin specified."

  function ToOptions(a: Args): Options {
    Options(a.numLines, a.lineNumbers, a.numBytes, a.byteOffset, a.paginate, a.truncate, a.reverse)
  }

  datatype Source = Stdin | File(path: Path) | Unspecified

  /** The stdin flag wins over a path; with neither there is no source. */
  function ChooseSource(useStdin: bool, filePath: Option<Path>): (s: Source)
    ensures s.Stdin? <==> useStdin
    ensures s.File? <==> !useStdin && filePath.Some?
    ensures s.File? ==> filePath == Some(s.path)
    ensures s.Unspecified? <==> !useStdin && filePath.None?
  {
    if useStdin then Stdin
    else match filePath
      case Some(p) => File(p)
      case None => Unspecified
  }

  /** How the process ends: exit status 0, an error returned from `main`, or a panic. */
  datatype Exit = Success | IoError | Panicked

  /** Standard output, the message `main` itself writes to standard error, and the ending. */
  datatype Process = Process(stdout: seq<Line>, notice: Option<string>, exit: Exit)

  /** The process `main` leaves when `read_lines` runs to `r`: its lines on standard output and its ending as the exit. */
  predicate EndsAs(p: Process, r: Run) {
    && p.stdout == r.printed && p.notice.None?
    && (p.exit == Success <==> r.status == Finished)
    && (p.exit == IoError <==> r.status == ReplyError)
    && (p.exit == Panicked <==> r.status == SlicePanic)
  }

  function Conclude(r: Run): Process {
    Process(r.printed, None,
      match r.status
      case Finished => Success
      case ReplyError => IoError
      case SlicePanic => Panicked)
  }

  /**
   * `main` after argument parsing. `stdin` is standard input decoded into
   * lines, `files` the files that open and decode, `replies` the pagination answers.
   */
  function Head(a: Args, stdin: seq<Line>, files: map<Path, seq<Line>>, replies: seq<Reply>): (p: Process)
    ensures a.useStdin ==> EndsAs(p, ReadLines(stdin, ToOptions(a), replies))
    ensures !a.useStdin && a.filePath.Some? && a.filePath.value in files ==>
      EndsAs(p, ReadLines(files[a.filePath.value], ToOptions(a), replies))
    ensures !a.useStdin && a.filePath.Some? && a.filePath.value !in files ==> p == Process([], None, IoError)
    ensures p.notice.Some? <==> !a.useStdin && a.filePath.None?
    ensures p.notice.Some? ==> p == Process([], Some(NoSourceMessage), Success)
    ensures |p.stdout| <= a.numLines + 1
    ensures p.exit == IoError ==> a.paginate || (!a.useStdin && a.filePath.Some? && a.filePath.value !in files)
    ensures p.exit == Panicked ==> a.truncate
  {
    match ChooseSource(a.useStdin, a.filePath)
    case Stdin => Conclude(ReadLines(stdin, ToOptions(a), replies))
    case File(path) =>
      if path in files then Conclude(ReadLines(files[path], ToOptions(a), replies))
      else Process([], None, IoError)
    case Unspecified => Process([], Some(NoSourceMessage), Success)
  }

  /** With the stdin flag set, the path given (or not) changes nothing. */
  lemma StdinWinsOverPath(a: Args, other: Option<Path>, stdin: seq<Line>, files: map<Path, seq<Line>>, replies: seq<Reply>)
    requires a.useStdin
    ensures Head(a, stdin, files, replies) == Head(a.(filePath := other), stdin, files, replies)
  {
  }
}
