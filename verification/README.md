# CommentCount in Dafny

A model of the comment counter in `CommentCount.py`. The tool reads one
source file line by line and keeps six counters:

- LINES;
- COMMENTS;
- SINGLE_LINE_COMMENTS;
- COMMENT_LINES_IN_BLOCK;
- BLOCK_COMMENTS;
- TODOS.

Each line is checked, in this order:

1. for the four TODO spellings;
2. for a block opener (`/*`, `/**` or `#`), which starts a scan that reads
   further lines until the block ends;
3. for the single-line markers `//` and `#`.

A path is accepted on the command line only if it names an existing file,
contains a dot and does not start with one.

The project has these modules:

- `Text` (text.dfy): Python's substring test `p in s`, `str.strip()` and
  `str.split(sep)`, on `seq<char>`.
- `Patterns` (patterns.dfy): the four constant tables, kept in their source
  order, and the per-line TODO and single-line counts.
- `ScanSpec` (scan_spec.dfy): what one run computes, as pure functions over
  the file's lines. `Pass` is one iteration of the block-scan loop.
  `ScanFrom` is the whole scan, and `BlockCheck` is the block check.
  `Step` and `Run` are the parse loop, and `Parse` is a whole run from
  fresh counters.
- `StepProperties` (step_properties.dfy): what each small step of the
  scanner does to the counters and the cursor, one lemma per `ScanSpec`
  function.
- `ScanProperties` (scan_properties.dfy): how each kind of block scan ends
  and what it adds, and the invariants the counters keep.
- `ParseProperties` (parse_properties.dfy): whole-file results:
  - every line is counted once;
  - TODOs are counted on the lines the outer loop reads;
  - the counters stay balanced;
  - there are never more blocks than lines;
  - a file with no block opener gives the plain per-line tally.
- `ScanExamples` (scan_samples.dfy): the behaviours that are easiest to
  misjudge, proved for every line or file of the shape in question.
- `CommentCounting` (comment_count.dfy): the scanner as the object it is.
  - `class CommentCount` has the six counters and `currentLine` (the
    source's `CURRENT_LINE`).
  - `class LineReader` is the open file with its `readline` cursor.
  - Each method changes these fields in place. Each is proved to leave the
    state that the matching `ScanSpec` function describes.
- `ArgCheck` (validate_arg.dfy): `validate_arg`.

A file is a `seq<string>` of the lines `readline` returns. Every line but
the last keeps its newline, and the last one may lack it. No line is
empty, because `readline` returns the empty string only at the end of the
file (`FileLines`).

The model follows the code and does not smooth out its quirks:

- A one-line `/* x */` is counted as a whole block. It adds one block, one
  line in a block and one comment. It is not counted as a single-line
  comment (`OneLineBlockComment`).
- A three-line `/* … */` block whose lines all hold `*` adds three lines in
  a block, not one (`ThreeLineBlockComment`).
- The line that ends a scan stays in `CURRENT_LINE`. It goes through the
  single-line check of the same pass but never through the TODO check
  (`ClosingLineSingleChecked`).
- Each TODO spelling and each single-line marker is tested on its own, so
  one line can add several (`TodoCountIsFourTests`, `TwoTodoSpellings`).
- The `/**` key is tried after `/*`, and every line holding `/**` also
  holds `/*`. So the `/**` scan never starts. `CheckForBlockComment`
  loops over all three keys and is proved equal to `BlockCheck`, which
  tries only `/*` and `#`.

The first two points are what the code does, even though the counter
names suggest otherwise; the model keeps the code's behaviour.

## Model

| member | source | states |
|---|---|---|
| Text.Contains | CommentCount.py:56 | The empty pattern occurs in every string, and no pattern occurs in a shorter string. |
| Text.Strip | CommentCount.py:72 | The stripped line is the slice of the line left after removing its leading and trailing whitespace only. It neither starts nor ends with whitespace. |
| Text.StripUnique | CommentCount.py:72 | Any slice with only whitespace outside it and no whitespace at its two ends is the stripped line. So `Strip` is the one result `str.strip()` can give. |
| Text.StripKeepsContains | CommentCount.py:67-85 | Stripping a line does not change whether a whitespace-free marker occurs in it. So the opener test on the raw line (67) and the marker tests on the stripped line (75, 85, 91) see the same markers. |
| Text.Split | CommentCount.py:118 | `split('.')` gives one more piece than the path has dots, and no piece holds a dot. |
| Text.SplitJoin | CommentCount.py:118 | Joining the pieces of a split with the separator gives back the original string. |
| Patterns.CountMatches | CommentCount.py:55-57 | At most one per pattern is counted. The count is zero exactly when no pattern occurs, and full exactly when every pattern occurs. |
| Patterns.MultilineKeysAreTheKeys | CommentCount.py:5-13 | The key order lists exactly the keys of MULTILINE_COMMENT_CHARS, each once. Every key of BLOCK_LINE_CHARS is one of them. |
| Patterns.BlockKeyShape | CommentCount.py:5-13 | The keys with a line marker are `/*` and `#`. Each has a one-character line marker and a closer, and none of these holds whitespace. |
| Patterns.JavadocOpenerContainsBlockOpener | CommentCount.py:66-67 | Every line holding `/**` holds `/*`, which is tried first. |
| Patterns.OpenerHoldsLineMarker | CommentCount.py:10-13 | Every line holding an opener holds that block's line marker. |
| Patterns.CloserHoldsStar | CommentCount.py:6-11 | Every line holding `*/` holds `*`. |
| Patterns.TodoCount | CommentCount.py:54-57 | A line adds at most four TODOS. It adds none exactly when none of the four spellings occurs. |
| Patterns.TodoCountIsFourTests | CommentCount.py:54-57 | A line adds one TODO for each of the four spellings it holds, each tested on its own. |
| Patterns.SingleCount | CommentCount.py:59-63 | A line adds at most two single-line comments. It adds none exactly when it holds neither `//` nor `#`. |
| Patterns.SingleCountIsTwoTests | CommentCount.py:59-63 | A line adds one single-line comment for `//` and one for `#`, each tested on its own. |
| ScanSpec.ClosesBlock | CommentCount.py:85 | The closer test holds exactly for a `/*` block on a line holding `*/`. |
| ScanSpec.EndsRun | CommentCount.py:91 | The end-of-run test holds exactly for a `#` run on a line without `#`. |
| ScanSpec.Pass | CommentCount.py:70-101 | One pass of the scan loop moves the cursor only forward. If it does not return, it reads a line or reaches the end of the file. No counter decreases, TODOS is untouched, and a block is added only by a pass that returns. |
| ScanSpec.ScanFrom | CommentCount.py:68-101 | A scan that does not return ends with CURRENT_LINE empty. No counter decreases, TODOS is untouched, and at most one block is added. |
| ScanSpec.BlockCheck | CommentCount.py:65-101 | The block check moves the cursor only forward. No counter decreases, TODOS is untouched, and at most one block is added. |
| ScanSpec.Step | CommentCount.py:41-48 | Each pass of the parse loop consumes at least one line and decreases no counter. |
| ScanSpec.Run | CommentCount.py:41-48 | The parse loop stops with CURRENT_LINE empty and decreases no counter. |
| ScanSpec.Start | CommentCount.py:40 | The first `readline` leaves the counters alone. CURRENT_LINE is the first line with the cursor after it, or empty for an empty file. |
| ScanSpec.Parse | CommentCount.py:37-48 | An empty file counts nothing, and a non-empty file at least one line. |
| StepProperties.ReadNextReads | CommentCount.py:40-48 | `readline` leaves the counters alone and moves the cursor at most one line. A non-empty result is the line under the cursor. On a file of non-empty lines the result is empty exactly at end of file. |
| StepProperties.CountedMarksLine | CommentCount.py:75-76 | The line test adds one COMMENTS exactly when the stripped line holds the block's line marker (`*` or `#`), and changes nothing else. |
| StepProperties.NextInlineCounts | CommentCount.py:80-82 | inline_count grows by at most one per line. In a `/*` block it grows exactly when the line holds `*`; in a `#` run exactly when the stripped line starts with `#`. |
| StepProperties.ScanEndTests | CommentCount.py:85-91 | The closer test and the end-of-run test never both hold: the first only fires for `/*`, the second only for `#`. |
| StepProperties.ClassifyOnce | CommentCount.py:85-97 | A scan that returns records exactly one comment: a block (one BLOCK_COMMENTS, inline_count COMMENT_LINES_IN_BLOCK) exactly when the closer was seen or inline_count > 1, a single-line comment otherwise. LINES, COMMENTS and TODOS do not change. |
| StepProperties.AdvanceCounts | CommentCount.py:98-101 | The scan's `readline` adds one LINES for the line it returns and nothing at end of file. |
| StepProperties.CountLineCounts | CommentCount.py:42-45 | The top of the parse loop adds one LINES and up to four TODOS, none exactly when no TODO spelling occurs. Nothing else changes. |
| StepProperties.SingleCheckAdds | CommentCount.py:59-63 | The single-line check adds the same amount, at most two, to COMMENTS and SINGLE_LINE_COMMENTS. It adds nothing exactly when the line holds neither marker, and keeps the counters balanced. |
| StepProperties.CheckSingleAdds | CommentCount.py:47 | The single-line check runs on CURRENT_LINE as it then stands, does not move the cursor and keeps the counters balanced. |
| ScanProperties.ScanShift | CommentCount.py:68-101 | A block scan adds the same amounts whatever the counters held before. |
| ScanProperties.RunShift | CommentCount.py:37-48 | parse_file adds the same amounts whatever the counters held before. |
| ScanProperties.ParseShift | CommentCount.py:37-48 | parse_file on counters that already hold some amounts ends with those amounts plus what a fresh parse counts. |
| ScanProperties.PassKeepsSlack | CommentCount.py:70-101 | One scan pass either returns with COMMENTS ≥ SINGLE_LINE_COMMENTS + COMMENT_LINES_IN_BLOCK or hands the slack the rest of the scan needs on to the next pass. |
| ScanProperties.ScanKeepsBalance | CommentCount.py:68-101 | A scan starting on an opener line ends with COMMENTS ≥ SINGLE_LINE_COMMENTS + COMMENT_LINES_IN_BLOCK. |
| ScanProperties.BlockCheckKeepsBalance | CommentCount.py:65-101 | The block check keeps COMMENTS ≥ SINGLE_LINE_COMMENTS + COMMENT_LINES_IN_BLOCK. |
| ScanProperties.HashLedIsFirstNonSpace | CommentCount.py:72-82 | A line counts in a `#` run's inline_count exactly when its first character that is not whitespace is `#`. |
| ScanProperties.PassMoves | CommentCount.py:70-101 | A pass that returns keeps the cursor and leaves the stripped line in CURRENT_LINE. Otherwise it reads the next line, or empties CURRENT_LINE at end of file. |
| ScanProperties.SlashStarStops | CommentCount.py:85-88 | A `/*` pass returns exactly when the raw line holds `*/`. |
| ScanProperties.HashStops | CommentCount.py:91-97 | A `#` pass returns exactly when the raw line lacks `#`. |
| ScanProperties.SlashStarPassCounts | CommentCount.py:70-101 | One `/*` pass adds one COMMENTS and one to inline_count for a line holding `*`. On closing it makes one block of inline_count lines; otherwise it adds one LINES for a line read. |
| ScanProperties.HashPassCounts | CommentCount.py:70-101 | One `#` pass adds to inline_count only for a `#`-led line. On stopping it makes a block when inline_count > 1 and a single-line comment otherwise; otherwise it adds one COMMENTS and one LINES for a line read. |
| ScanProperties.HashLineTest | CommentCount.py:75-82 | For `#`, the marker test together with the first-character test means "the line starts with `#`". |
| ScanProperties.SlashStarPass | CommentCount.py:70-101 | One `/*` pass adds one to inline_count when the raw line holds `*`, and returns exactly when it holds `*/`. It also gives the exact state after the pass in each of three cases: the block closes, a line is read, or the end of the file is reached. |
| ScanProperties.SlashStarScanEnds | CommentCount.py:70-88 | A `/*` scan stops at the first line holding `*/`; no earlier scanned line holds it. |
| ScanProperties.SlashStarScanLeaves | CommentCount.py:72-98 | A scan that does not return ends at end of file with CURRENT_LINE empty. A scan that returns leaves its last line, stripped, in CURRENT_LINE. |
| ScanProperties.SlashStarScanCounts | CommentCount.py:70-101 | LINES grows by the lines read, and COMMENTS by the scanned lines holding `*`. On closing, COMMENT_LINES_IN_BLOCK grows by that many too and BLOCK_COMMENTS by one. At end of file neither changes. |
| ScanProperties.HashPass | CommentCount.py:70-101 | One `#` pass adds to inline_count only when the line starts with `#`, and returns exactly when the raw line lacks `#`. On return it makes a block when inline_count > 1 and a single-line comment otherwise. |
| ScanProperties.HashScanEnds | CommentCount.py:70-97 | A `#` scan goes on while lines hold `#` and stops at the first line without it. |
| ScanProperties.HashScanLeaves | CommentCount.py:72-98 | A scan that does not return ends at end of file with CURRENT_LINE empty. A scan that returns leaves its last line, stripped, in CURRENT_LINE. |
| ScanProperties.HashScanCounts | CommentCount.py:70-101 | COMMENTS grows by the lines holding `#`. On stopping, more than one `#`-led line makes one block of that many lines; otherwise one single-line comment is added. A scan that reaches end of file classifies nothing. |
| ParseProperties.BlockCheckLines | CommentCount.py:98-101 | The block check adds one LINES per line its scan read. |
| ParseProperties.StepLines | CommentCount.py:41-48 | One pass of the parse loop adds to LINES exactly the number of lines it consumed. |
| ParseProperties.RunLines | CommentCount.py:41-48 | The parse loop adds to LINES exactly the number of lines left to read. |
| ParseProperties.ParseCountsEveryLine | CommentCount.py:37-48 | After parse_file, LINES is the number of lines in the file. |
| ParseProperties.RunTodos | CommentCount.py:41-57 | The parse loop adds the TODO count of each line that starts one of its passes. |
| ParseProperties.ParseTodos | CommentCount.py:37-57 | TODOS is the sum of the TODO counts of the lines that start a pass of the parse loop. Lines read by a block scan are never checked for TODOs. |
| ParseProperties.RunKeepsBalance | CommentCount.py:41-63 | The parse loop keeps COMMENTS ≥ SINGLE_LINE_COMMENTS + COMMENT_LINES_IN_BLOCK. |
| ParseProperties.ParseBalanced | CommentCount.py:37-63 | After parse_file, COMMENTS ≥ SINGLE_LINE_COMMENTS + COMMENT_LINES_IN_BLOCK. |
| ParseProperties.RunBlocksBelowLines | CommentCount.py:41-101 | The parse loop adds no more BLOCK_COMMENTS than LINES. |
| ParseProperties.ParseBlocksBelowLines | CommentCount.py:37-101 | After parse_file, BLOCK_COMMENTS ≤ LINES. |
| ParseProperties.PlainRun | CommentCount.py:41-63 | When no line holds `/*` or `#`, the loop adds for each remaining line: one LINES, its TODOs and its single-line markers. |
| ParseProperties.PlainStep | CommentCount.py:42-48 | A line without a block opener adds its own tally and the next line is read. |
| ParseProperties.PlainFile | CommentCount.py:37-63 | A file with no `/*` or `#` gives exactly the per-line tally, with no blocks. |
| ScanExamples.OneLineBlockComment | CommentCount.py:65-88 | A line holding `/*` and `*/` adds one COMMENTS, one COMMENT_LINES_IN_BLOCK and one BLOCK_COMMENTS, and reads no further line. |
| ScanExamples.OneLineSample | CommentCount.py:67-85 | The line `/* x */` holds both `/*` and `*/`. |
| ScanExamples.ThreeLineBlockComment | CommentCount.py:65-101 | An opener line, a body line with `*` and a closing line add two LINES, three COMMENTS, three COMMENT_LINES_IN_BLOCK and one BLOCK_COMMENTS. |
| ScanExamples.ThreeLineSample | CommentCount.py:67-85 | The lines `/*`, ` * body` and ` */` have the shape ThreeLineBlockComment asks for. |
| ScanExamples.HashRunToEnd | CommentCount.py:91-101 | A `#` scan in which every line holds `#` runs to end of file and adds only LINES and COMMENTS. |
| ScanExamples.TrailingHashLines | CommentCount.py:91-101 | A run of `#` lines reaching end of file is never classified. It adds only LINES and COMMENTS, and leaves the cursor at the end. |
| ScanExamples.OneHashLineScan | CommentCount.py:65-101 | A `#` line followed by a line without `#` is one single-line comment. The scan reads the next line, stops there and leaves it, stripped, in CURRENT_LINE. |
| ScanExamples.ClosingLineSingleChecked | CommentCount.py:41-98 | After a one-line `#` comment, the next line is consumed by the scan. Its `//` is counted as a single-line comment, its TODOs are not counted, and the loop goes on with the line after it. |
| ScanExamples.SlashOnlyCount | CommentCount.py:59-63 | A stripped line without `#` adds one single-line comment exactly when it holds `//`. |
| ScanExamples.TwoTodoSpellings | CommentCount.py:54-57 | `//TODO # TODO` adds two TODOS. |
| CommentCounting.LineReader.constructor | CommentCount.py:39 | A newly opened file has its cursor before the first line. |
| CommentCounting.LineReader.ReadLine | CommentCount.py:40-48 | `readline` returns the next line and moves past it. At end of file it returns "" and the cursor stays put. |
| CommentCounting.CommentCount.constructor | CommentCount.py:26-35 | A new counter starts with all six counters at zero and CURRENT_LINE empty. |
| CommentCounting.CommentCount.ParseFile | CommentCount.py:37-49 | parse_file adds `Parse(file)` to the counters, keeps them balanced and ends with CURRENT_LINE empty. |
| CommentCounting.CommentCount.ParseLine | CommentCount.py:42-48 | One pass of the parse loop changes the state exactly as `Step` says. |
| CommentCounting.CommentCount.CheckForTodos | CommentCount.py:54-57 | TODOS grows by the number of TODO spellings in CURRENT_LINE. |
| CommentCounting.CommentCount.CheckForSingleComment | CommentCount.py:59-63 | COMMENTS and SINGLE_LINE_COMMENTS each grow by the number of single-line markers in CURRENT_LINE. |
| CommentCounting.CommentCount.CheckForBlockComment | CommentCount.py:65-101 | Trying the three keys in order changes the state exactly as `BlockCheck` says. |
| CommentCounting.CommentCount.ScanBlock | CommentCount.py:68-101 | The scan loop for one key changes the state as `ScanFrom` says and reports whether it returned. |
| CommentCounting.CommentCount.MarkBlockLine | CommentCount.py:72-82 | CURRENT_LINE is stripped. A block line adds one COMMENTS, and inline_count moves as `NextInline` says. |
| CommentCounting.CommentCount.EndBlock | CommentCount.py:84-97 | The scan returns exactly when the closer test or the end-of-run test holds, and then classifies as `Classify` says. Otherwise nothing changes. |
| CommentCounting.CommentCount.ReadBlockLine | CommentCount.py:98-101 | The next line is read and, unless at end of file, counted. |
| ArgCheck.SplitFindsDot | CommentCount.py:118 | `len(path.split('.')) < 2` holds exactly when the path has no dot. |
| ArgCheck.ValidateArg | CommentCount.py:114-124 | A path is accepted exactly when the file exists, the path has a dot and it does not start with a dot. Each reason is given exactly when the earlier checks passed and its own check failed. |
| ArgCheck.DotSlashRefused | CommentCount.py:121-123 | A path written `./name` (such as `./a.py`) is refused as starting with a dot, even when the file exists. |
| ArgCheck.DottedDirectoryAccepted | CommentCount.py:118-124 | A dot in a directory name counts as an extension, so `dir.d/Makefile` is accepted. |

## Left out

- `main` and argparse (CommentCount.py:127-140) are not modelled. The path
  reaches `ValidateArg` as a string.
- Opening the file and the `OSError` handler (CommentCount.py:38-39, 51-52)
  are left out. The file comes in as its list of lines, and a file that
  cannot be opened is not modelled.
- `os.path.isfile` is the `isFile` parameter of `ValidateArg`.
- The messages validate_arg prints on rejection are not modelled. Each
  one becomes the `Reason` of the verdict.
- `print_comment_info` (CommentCount.py:103-111) is not modelled. Its
  output is the six counters, which `Counters()` exposes.
- Stripping: only ASCII whitespace is stripped. Python's `str.strip()` also
  removes non-ASCII Unicode whitespace.
- Text decoding and newline translation by `open` are not modelled. Lines
  are taken as already decoded, as non-empty strings.
- The class-level attributes of `CommentCount` (27-35) become instance
  fields set by the constructor. `CURRENT_LINE = None` is modelled as "",
  which the loops treat the same way.
- `ParseFile` reads a list of lines rather than a path, and opens its
  `LineReader` itself.
- The loop bodies of `check_for_block_comment` and `parse_file` are split
  into the methods `MarkBlockLine`, `EndBlock`, `ReadBlockLine` and
  `ParseLine`. Together they run the same statements in the same order.
