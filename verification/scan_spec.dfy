/**
 * What one run of the comment counter computes, as pure functions over the
 * lines of the file. Each function follows one loop or one method of the
 * scanner in CommentCount.py; the class in comment_count.dfy is proved to
 * change its fields exactly as these functions say.
 */
module ScanSpec {
  import opened Text
  import opened Patterns

  /** The six counters of a CommentCount object (CommentCount.py:27-32). */
  datatype Counts = Counts(
    lines: nat,
    comments: nat,
    singleLineComments: nat,
    commentLinesInBlock: nat,
    blockComments: nat,
    todos: nat)

  const Zero := Counts(0, 0, 0, 0, 0, 0)

  function Add(a: Counts, b: Counts): Counts {
    Counts(a.lines + b.lines, a.comments + b.comments,
           a.singleLineComments + b.singleLineComments,
           a.commentLinesInBlock + b.commentLinesInBlock,
           a.blockComments + b.blockComments, a.todos + b.todos)
  }

  /** Every single-line comment and every line inside a block was also counted as a comment. */
  predicate Balanced(c: Counts) {
    c.comments >= c.singleLineComments + c.commentLinesInBlock
  }

  /** No counter of `a` is above the same counter of `b`. */
  predicate Below(a: Counts, b: Counts) {
    a.lines <= b.lines && a.comments <= b.comments &&
    a.singleLineComments <= b.singleLineComments &&
    a.commentLinesInBlock <= b.commentLinesInBlock &&
    a.blockComments <= b.blockComments && a.todos <= b.todos
  }

  /**
   * The scanner's whole state: the counters, the position of the file
   * cursor (the number of `readline` calls that returned a line) and
   * CURRENT_LINE.
   */
  datatype Machine = Machine(counts: Counts, pos: nat, current: string)

  /**
   * The lines of a text file as `readline` returns them: each keeps its
   * newline, so none is empty; the empty string only signals end of file.
   */
  predicate FileLines(file: seq<string>) {
    forall i :: 0 <= i < |file| ==> file[i] != ""
  }

  /** CURRENT_LINE is the raw line the cursor has just read. */
  predicate AtLine(file: seq<string>, m: Machine) {
    1 <= m.pos <= |file| && m.current == file[m.pos - 1]
  }

  /** `self.CURRENT_LINE = file.readline()`: the next line, or "" at end of file. */
  function ReadNext(file: seq<string>, m: Machine): Machine
    requires m.pos <= |file|
  {
    if m.pos < |file| then m.(pos := m.pos + 1, current := file[m.pos]) else m.(current := "")
  }

  /** The line marker of the block opened by `key` occurs in the stripped line (CommentCount.py:75). */
  predicate IsBlockLine(key: string, line: string)
    requires key in BlockLineChars
  {
    Contains(line, BlockLineChars[key])
  }

  /** The counters after the line test of CommentCount.py:75-76. */
  function Counted(key: string, c: Counts, line: string): Counts
    requires key in BlockLineChars
  {
    if IsBlockLine(key, line) then c.(comments := c.comments + 1) else c
  }

  /**
   * inline_count after CommentCount.py:80-82: every block line counts,
   * except that for an opener that is its own closer ("#") only a line
   * whose first character is the marker does.
   */
  function NextInline(key: string, line: string, inline: nat): nat
    requires key in BlockLineChars
  {
    BlockKeyShape(key);
    if IsBlockLine(key, line) &&
       (MultilineCommentChars[key] != key || line[..1] == BlockLineChars[key])
    then inline + 1 else inline
  }

  /** The test of CommentCount.py:85: the closer ends a block whose opener is not "#". */
  predicate ClosesBlock(key: string, line: string)
    requires key in BlockLineChars
    ensures ClosesBlock(key, line) <==> key == "/*" && Contains(line, "*/")
  {
    BlockKeyShape(key);
    Contains(line, MultilineCommentChars[key]) && key != "#"
  }

  /** The test of CommentCount.py:91: a self-closing ("#") run ends at the first line without the opener. */
  predicate EndsRun(key: string, line: string)
    requires key in BlockLineChars
    ensures EndsRun(key, line) <==> key == "#" && !Contains(line, "#")
  {
    BlockKeyShape(key);
    key == MultilineCommentChars[key] && !Contains(line, key)
  }

  /** How a scan that returns classifies what it saw (CommentCount.py:85-97). */
  function Classify(key: string, c: Counts, line: string, n: nat): Counts
    requires key in BlockLineChars
  {
    if ClosesBlock(key, line) || n > 1 then
      c.(blockComments := c.blockComments + 1, commentLinesInBlock := c.commentLinesInBlock + n)
    else
      c.(singleLineComments := c.singleLineComments + 1)
  }

  /** `readline` inside the scan, counting the line it returns (CommentCount.py:98-101). */
  function Advance(file: seq<string>, m: Machine): Machine
    requires m.pos <= |file|
  {
    var r := ReadNext(file, m);
    if r.current != "" then r.(counts := r.counts.(lines := r.counts.lines + 1)) else r
  }

  /**
   * One pass of the `while` loop of check_for_block_comment
   * (CommentCount.py:71-101) from a loop head where the state is `m` and
   * `inline` is inline_count: the state and inline_count after the pass, and
   * whether the pass left the method by `return`.
   */
  function Pass(file: seq<string>, key: string, m: Machine, inline: nat): (r: (Machine, nat, bool))
    requires key in BlockLineChars && m.pos <= |file| && m.current != ""
    ensures m.pos <= r.0.pos <= |file|
    ensures !r.2 ==> r.0.pos > m.pos || r.0.current == ""
    ensures Below(m.counts, r.0.counts)
    ensures r.0.counts.todos == m.counts.todos
    ensures r.0.counts.blockComments <= m.counts.blockComments + (if r.2 then 1 else 0)
  {
    var line := Strip(m.current);
    var c := Counted(key, m.counts, line);
    var n := NextInline(key, line, inline);
    if ClosesBlock(key, line) || EndsRun(key, line) then
      (Machine(Classify(key, c, line, n), m.pos, line), n, true)
    else
      (Advance(file, Machine(c, m.pos, line)), n, false)
  }

  /**
   * The `while` loop of check_for_block_comment (CommentCount.py:68-101)
   * for the block opener `key`, from a loop head where the state is `m` and
   * `inline` is inline_count. The boolean is true when the loop left by
   * `return` (the block was classified) and false when `readline` reached
   * end of file.
   */
  function ScanFrom(file: seq<string>, key: string, m: Machine, inline: nat): (r: (Machine, bool))
    requires key in BlockLineChars && m.pos <= |file|
    ensures m.pos <= r.0.pos <= |file|
    ensures !r.1 ==> r.0.current == ""
    ensures Below(m.counts, r.0.counts)
    ensures r.0.counts.todos == m.counts.todos
    ensures r.0.counts.blockComments <= m.counts.blockComments + (if r.1 then 1 else 0)
    decreases |file| - m.pos, if m.current == "" then 0 else 1
  {
    if m.current == "" then (m, false)
    else
      var p := Pass(file, key, m, inline);
      if p.2 then (p.0, true) else ScanFrom(file, key, p.0, p.1)
  }

  // check_for_block_comment (CommentCount.py:65-101) as its effect: the
  // first opener of the line ("/*" before "#") starts a scan. The Javadoc
  // key "/**" never starts one; comment_count.dfy proves that the method,
  // which tries all three keys in order, agrees with this.
  function BlockCheck(file: seq<string>, m: Machine): (r: Machine)
    requires m.pos <= |file|
    ensures m.pos <= r.pos <= |file|
    ensures Below(m.counts, r.counts)
    ensures r.counts.todos == m.counts.todos
    ensures r.counts.blockComments <= m.counts.blockComments + 1
  {
    if Contains(m.current, "/*") then ScanFrom(file, "/*", m, 0).0
    else if Contains(m.current, "#") then ScanFrom(file, "#", m, 0).0
    else m
  }

  /** check_for_single_comment (CommentCount.py:59-63). */
  function SingleCheck(c: Counts, line: string): Counts
  {
    var k := SingleCount(line);
    c.(comments := c.comments + k, singleLineComments := c.singleLineComments + k)
  }

  /** What is left to read: the lines after the cursor, and CURRENT_LINE if it is not yet done. */
  function Measure(file: seq<string>, m: Machine): nat
    requires m.pos <= |file|
  {
    |file| - m.pos + (if m.current == "" then 0 else 1)
  }

  /** Lines 42 and 45 of parse_file: the line is counted and checked for TODOs. */
  function CountLine(m: Machine): Machine
  {
    m.(counts := m.counts.(lines := m.counts.lines + 1,
                           todos := m.counts.todos + TodoCount(m.current)))
  }

  /** Line 47 of parse_file: the single-line check on whatever CURRENT_LINE now holds. */
  function CheckSingle(m: Machine): Machine
  {
    m.(counts := SingleCheck(m.counts, m.current))
  }

  /** One pass of the `while` loop of parse_file (CommentCount.py:42-48). */
  function Step(file: seq<string>, m: Machine): (r: Machine)
    requires m.pos <= |file| && m.current != ""
    ensures r.pos <= |file| && Measure(file, r) < Measure(file, m)
    ensures Below(m.counts, r.counts)
  {
    ReadNext(file, CheckSingle(BlockCheck(file, CountLine(m))))
  }

  /** The `while` loop of parse_file (CommentCount.py:41-48): it runs until CURRENT_LINE is empty. */
  function Run(file: seq<string>, m: Machine): (r: Machine)
    requires m.pos <= |file|
    ensures r.pos <= |file| && r.current == ""
    ensures Below(m.counts, r.counts)
    decreases Measure(file, m)
  {
    if m.current == "" then m else Run(file, Step(file, m))
  }

  /** The state after the first `readline` of parse_file (CommentCount.py:40). */
  function Start(file: seq<string>, c: Counts): (r: Machine)
    ensures r.counts == c
    ensures file == [] ==> r == Machine(c, 0, "")
    ensures file != [] ==> r == Machine(c, 1, file[0])
  {
    ReadNext(file, Machine(c, 0, ""))
  }

  /** The counters parse_file adds up over a whole file, from fresh counters. */
  function Parse(file: seq<string>): (r: Counts)
    ensures file == [] ==> r == Zero
    ensures FileLines(file) && file != [] ==> r.lines >= 1
  {
    Run(file, Start(file, Zero)).counts
  }
}
