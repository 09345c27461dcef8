# head_rs in Dafny

`head_rs` is a small `head` clone. It takes its input from a file or from
standard input and prints the first lines. Several switches shape the output:

- `-n N`: the line limit;
- `-l`: right-aligned line numbers;
- `-b B`: a byte budget;
- `-o O`: a byte offset before which lines are skipped;
- `-t`: truncation of long lines to 77 bytes plus `...`;
- `-p`: pagination, with one answer read after every printed line, where `q` quits;
- `-r`: the input is reversed first.

This project models that program. The core is the `read_lines` pass, which
selects, skips, truncates, numbers and paginates lines. Around it is the
three-way choice in `main` between standard input, a file path and neither.
The project then proves what the pass prints.

## Structure

- `wrappers.dfy`: `Option`.
- `text.dfy` (module `Text`): bytes and lines, decimal numerals and their
  value, left padding, and the Unicode `White_Space` set. It also holds
  `trim` and the quit test on pagination answers.
- `emitter.dfy` (module `Emitter`): the options, the pagination replies, and
  how a line is cut and numbered. `Scan` mirrors the loop at
  `src/main.rs:60-101` branch by branch, and `ReadLines` is `read_lines` on
  decoded input.
- `selection.dfy` (module `Selection`): an independent reference description
  of the output. It rests on one fact: every visited line adds its length
  plus one to the byte counter, whether it is skipped or printed. So the
  counter in front of position `i` is a plain prefix sum. The printed lines
  are then the positions inside the limits and past the offset, rendered. A
  truncation panic or a stopping reply only cuts that list short.
- `emitter_proofs.dfy` (module `EmitterProofs`): the proof that `Scan`
  equals the reference, step by step.
- `properties.dfy` (module `EmitterProperties`): the consequences for the
  user. They cover which lines appear and in what order, how a run ends, the
  no-option case, and reversal.
- `numbering.dfy` (module `Numbering`): a numbered output line parses back
  into its number and its text.
- `cli.dfy` (module `Cli`): the parsed arguments, the source choice, and
  what the process leaves behind. That is standard output, the "No file or
  stdin specified." notice, and the exit kind (success, returned I/O error,
  panic).
- `scenarios.dfy` (module `Scenarios`): the repository's test and concrete
  runs of the edge cases.

### How the environment is represented

- **Input.** The input is already decoded into lines of UTF-8 bytes.
- **Files.** Files are a map from path to lines. A path that is not in the
  map fails to open, and `main` returns the error.
- **Pagination answers.** The answers that `read_line` returns are a
  sequence of `Reply` values. Each is a text or a failed read. Once the
  sequence is exhausted, every further read returns end of input, which is
  an empty answer and does not quit.
- **Slice panic.** Slicing a line at byte 77 inside a multi-byte character
  panics in Rust. The model gives it a status of its own, `SlicePanic`, and
  uses `str::is_char_boundary` to decide when it happens.

### Behaviour kept as the code has it

- **The limit test is `line_count <= num_lines`.** So `-n N` admits
  positions `0..N` and prints up to N + 1 lines. `head -n 3` on "1".."10"
  prints "1" to "4" (`Scenarios.TestHeadCommand`). The repository's test
  only checks that the output starts with "1\n2\n3\n". The program's help
  text, "Print the first N lines of a file." (`src/main.rs:7`), promises N
  lines. The model follows the code.
- **The byte budget is checked before a line is printed.** So the last
  printed line can overshoot it (`Scenarios.ByteBudgetOvershoot`).
- **Skipped lines still use up positions.** They count against the line
  limit and move the line numbers on (`Scenarios.OffsetRun`).
- **Pagination reads one answer after every printed line, including the
  last.** A quit answer stops the run after the line it answers.

## Model

| member | source | states |
|---|---|---|
| Emitter.Scan | src/main.rs:60-101 | From position `i`, the pass prints at most one line per remaining input line, and at most `numLines + 1 - i` lines because of the `<=` guard. With pagination it reads exactly one reply per printed line, and none without it. A failed read can only end a paginated run that printed something, and a panic needs truncation. |
| Emitter.ReadLines | src/main.rs:37-104 | `read_lines` prints at most `numLines + 1` lines and never more than the input has. The reply count and the possible endings are as for `Scan`. |
| Emitter.Reverse | src/main.rs:56-58 | Reversal keeps the length, and element `k` is the input's element `|s|-1-k`. |
| Emitter.Body | src/main.rs:75-86 | With `-t`, a line longer than 80 bytes becomes its first 77 bytes plus "...", exactly 80 bytes. Any other line is printed unchanged, and the text equals the line exactly when it is not truncated. |
| Emitter.Render | src/main.rs:76-85 | Without `-l` the output is the body. With `-l` it is the number prefix of its position followed by the body, and nothing else. |
| Emitter.NumberPrefix | src/main.rs:83 | `{:>6} ` gives a field of six columns, or the numeral's width when it is longer. The numeral of `index + 1` is right-aligned in it, only spaces come before it, and one space follows. |
| Numbering.NumberedLayout | src/main.rs:83 | A numbered output line is exactly `6 - width` spaces (none for a wider numeral), the numeral, one space and the text. |
| Text.Decimal | src/main.rs:83 | A numeral is non-empty and all digits, and it has a leading zero only for 0. |
| Text.DecimalRoundTrip | src/main.rs:83 | The printed numeral denotes the number formatted. |
| Text.PadLeft | src/main.rs:83 | `{:>6}` pads on the left with spaces up to the width and never cuts a longer numeral. |
| Text.TrimStartIsMaximal | src/main.rs:94 | Trimming the start keeps a suffix. Everything removed is whitespace, and the kept text does not start with whitespace. |
| Text.TrimEndIsMaximal | src/main.rs:94 | Trimming the end keeps a prefix. Everything removed is whitespace, and the kept text does not end with whitespace. |
| Text.QuitCharacterization | src/main.rs:94 | An answer quits if and only if it is a single `q` or `Q` with only whitespace around it. |
| Selection.PrefixBytesGrows | src/main.rs:70 | The byte counter grows by at least one per visited line, so it never decreases along the input. |
| Selection.SelectedFrom | src/main.rs:61-73 | The reference selection lists, in strictly increasing order, exactly the positions that pass three tests: within the line limit, before the byte budget is spent, and not skipped by the offset. |
| Selection.FirstPanic | src/main.rs:75-79 | This is the first selected line whose cut at byte 77 splits a character. No earlier one does. |
| Selection.FirstStop | src/main.rs:91-97 | This is the first reply that fails or quits. No earlier reply does. |
| EmitterProofs.ScanMatchesReference | src/main.rs:60-101 | Entered at position `i` with the counter equal to the bytes of the lines before `i`, the loop gives the same run as the reference. That run is the selected positions, rendered, cut at the first panic or the first stopping reply. |
| EmitterProofs.NothingSelectedBeyond | src/main.rs:61-66 | Once the input ends, the limit is passed or the budget is spent, no later position is selected. |
| EmitterProperties.ReadLinesMatchesReference | src/main.rs:37-104 | `read_lines` is the reference run over the selection of the arranged input. |
| EmitterProperties.PrintedLinesAreSelected | src/main.rs:60-89 | Output line `k` renders the `k`-th selected position. The positions come in increasing order, each at most `numLines`. With a budget, the bytes before each position are under the budget; with an offset, they are at least the offset. |
| EmitterProperties.CandidatesWithinLimits | src/main.rs:61-73 | Every selected position is within the line limit and the budget and past the offset. They come in increasing order. |
| EmitterProperties.RunEnding | src/main.rs:75-97 | No printed line was one whose cut panics, and a panic comes from the next selected line. In a paginated run, no earlier reply was a stop. An early stop without a panic needs a stopping reply to the last printed line. The run ends in error exactly when that reply was a failed read. A normal early ending is a quit answer. Without pagination the run never fails and, when it finishes, prints every selected line. |
| EmitterProperties.SkippedLinesComeFirst | src/main.rs:68-73 | Once a line is not skipped, no later line is. Skipping only happens at the front. |
| EmitterProperties.LimitsStayExceeded | src/main.rs:61-66 | Once the line limit or the budget stops the pass, no later line is within limits. |
| EmitterProperties.UnfilteredScan | src/main.rs:60-89 | With no budget, offset, truncation or pagination, the pass finishes and prints every position up to `numLines`, each rendered at its own position. |
| EmitterProperties.PlainRunIsPrefix | src/main.rs:56-101 | With every switch off, the output is the first `min(|input|, numLines + 1)` lines unchanged. With only `-r`, it is the last ones, last line first. |
| EmitterProperties.NumberedRun | src/main.rs:82-83 | With only `-l`, output line `k` is number `k + 1`'s prefix followed by the `k`-th line. |
| EmitterProperties.ReverseTwice | src/main.rs:56-58 | Reversing twice gives back the input. |
| Numbering.NumberPrefixRoundTrip | src/main.rs:76-85 | A numbered output line parses back to the 1-based position and the printed text. |
| Cli.ChooseSource | src/main.rs:109-136 | The stdin flag wins. Otherwise a path gives that file. With neither there is no source, and each case holds if and only if its condition does. |
| Cli.Head | src/main.rs:106-139 | With `-s` the output is `read_lines` on standard input. With a path that opens, it is `read_lines` on that file. In both cases the exit is success exactly when the pass finished, an I/O error exactly when a pagination read failed (the `?` at lines 93, 121 and 133), and a panic exactly when a cut split a character. A path that does not open ends with an I/O error and no output. With no source, the notice is printed and the exit is success. There are never more than `numLines + 1` lines. An I/O error needs pagination or an unopenable file, and a panic needs `-t`. |
| Cli.StdinWinsOverPath | src/main.rs:109-122 | With `-s`, the path argument makes no difference. |
| Scenarios.TestHeadCommand | tests/cli.rs:11-22 | `head sample.txt -n 3` succeeds, and its output starts with "1", "2", "3" (it is "1" to "4"). |
| Scenarios.StdinRun | src/main.rs:109-121 | `-s -n 2` on four lines prints the first three. |
| Scenarios.NoSourceRun | src/main.rs:134-138 | Without a source, only the notice is printed, and the exit is success. |
| Scenarios.NumberedLines | src/main.rs:82-83 | `-l` prints five spaces, the number, a space and the line, for numbers below ten. |
| Scenarios.ByteBudgetOvershoot | src/main.rs:62-66 | With `-b 1`, the five-byte first line is still printed, and nothing after it. |
| Scenarios.OffsetRun | src/main.rs:68-73 | With `-o 3`, the first line is skipped and the next ones are numbered 2 and 3. |
| Scenarios.QuitAnswer | src/main.rs:91-97 | An empty answer continues, and " Q\n" quits after the second line. |
| Scenarios.SplitCharacterPanics | src/main.rs:75-79 | A long line with a two-byte character across byte 77 panics before anything is printed. |

## Left out

- **Decoding the input** (`src/main.rs:47-54`): the input arrives already
  split into lines. `BufRead::lines` strips `\n` and `\r\n`. The error
  returned on invalid UTF-8 or a failed read during decoding is not
  modelled, so those inputs are outside the model.
- **Argument parsing** (`src/main.rs:6-35`): `structopt` is not modelled.
  `Cli.Args` is the parsed record, and usage errors and `--help` are
  outside the model.
- **Real I/O**:
  - `println!`, `eprintln!` and `File::open` are represented by the output
    sequence, the notice and the file map.
  - Every reason a file fails to open is one case: the path is absent from
    the map.
  - The text Rust writes for a returned error or a panic is not modelled;
    only the exit kind is.
  - Write errors on standard output are not modelled.
- **Shared standard input**: with `-s -p` the source and the answers come
  from the same stream. The model takes them as two independent parameters.
- **Integer width**: `usize` counters are unbounded naturals. Overflow of
  `byte_count += line.len() + 1` or of `line_count + 1` needs inputs of
  about 2^64 bytes and is not modelled.
- Text.IsQuit: reads `trim().to_lowercase() == "q"` as "the trimmed
  answer is `q` or `Q`". This relies on the fact that only those two
  characters lower-case to `q` and every character lower-cases to at least
  one character. The full lower-casing tables are not modelled.
