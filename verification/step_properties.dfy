/**
 * What each small step of the scanner of CommentCount.py does to the
 * counters and the cursor, one lemma per function of ScanSpec. The
 * functions themselves carry no contract, so that these facts are only in
 * play where a proof asks for them.
 */
module StepProperties {
  import opened Text
  import opened Patterns
  import opened ScanSpec

  /**
   * `readline` (CommentCount.py:40, 48 and 98) leaves the counters alone and
   * moves the cursor at most one line; a non-empty result is the line under
   * the cursor, and on a file of non-empty lines the result is empty exactly
   * at end of file.
   */
  lemma ReadNextReads(file: seq<string>, m: Machine)
    requires m.pos <= |file|
    ensures var r := ReadNext(file, m);
            && r.counts == m.counts && m.pos <= r.pos <= m.pos + 1 && r.pos <= |file|
            && (r.current != "" ==> AtLine(file, r))
            && (FileLines(file) ==> (r.current == "" <==> m.pos == |file|))
  {
  }

  // The line test of CommentCount.py:75-76 adds one COMMENTS exactly when the
  // stripped line holds the block's line marker ("*" in a "/*" block, "#" in
  // a "#" run), and changes no other counter.
  lemma CountedMarksLine(key: string, c: Counts, line: string)
    requires key in BlockLineChars
    ensures var r := Counted(key, c, line);
            && r == c.(comments := r.comments)
            && (r.comments == c.comments + 1 <==> Contains(line, if key == "/*" then "*" else "#"))
            && (r.comments == c.comments || r.comments == c.comments + 1)
  {
  }

  // inline_count (CommentCount.py:80-82) grows by at most one per line: in a
  // "/*" block whenever the line holds "*", in a "#" run only when the
  // stripped line starts with '#'.
  lemma NextInlineCounts(key: string, line: string, inline: nat)
    requires key in BlockLineChars
    ensures var n := NextInline(key, line, inline);
            && inline <= n <= inline + 1
            && (key == "/*" ==> (n == inline + 1 <==> Contains(line, "*")))
            && (key == "#" ==> (n == inline + 1 <==> line != [] && line[0] == '#'))
  {
    if line != [] && line[0] == '#' {
      assert OccursAt(line, "#", 0);
      assert line[..1] == "#";
    }
  }

  // The two ways a scan ends (CommentCount.py:85 and 91): a "/*" block closes
  // on a line holding "*/", a "#" run ends on the first line without "#";
  // neither test ever fires for the other key.
  lemma ScanEndTests(key: string, line: string)
    requires key in BlockLineChars
    ensures ClosesBlock(key, line) ==> !EndsRun(key, line)
    ensures key == "/*" ==> !EndsRun(key, line)
    ensures key == "#" ==> !ClosesBlock(key, line)
  {
  }

  /**
   * A scan that returns (CommentCount.py:85-97) records exactly one comment:
   * a block (one BLOCK_COMMENTS and n COMMENT_LINES_IN_BLOCK) when the closer
   * was seen or more than one line counted, a single-line comment otherwise.
   * LINES, COMMENTS and TODOS stay as they are.
   */
  lemma ClassifyOnce(key: string, c: Counts, line: string, n: nat)
    requires key in BlockLineChars
    ensures var r := Classify(key, c, line, n);
            && Below(c, r)
            && r.lines == c.lines && r.comments == c.comments && r.todos == c.todos
            && r.blockComments + r.singleLineComments == c.blockComments + c.singleLineComments + 1
            && (r.blockComments == c.blockComments + 1 <==> ClosesBlock(key, line) || n > 1)
            && r.commentLinesInBlock == c.commentLinesInBlock + (if r.blockComments > c.blockComments then n else 0)
  {
  }

  /**
   * The `readline` at the bottom of the scan (CommentCount.py:98-101) adds
   * one LINES for the line it returns and nothing at end of file.
   */
  lemma AdvanceCounts(file: seq<string>, m: Machine)
    requires m.pos <= |file|
    ensures var r := Advance(file, m);
            && m.pos <= r.pos <= |file|
            && (r.current != "" ==> AtLine(file, r) && r.counts == m.counts.(lines := m.counts.lines + 1))
            && (r.current == "" ==> r.counts == m.counts)
            && (FileLines(file) ==> (r.current == "" <==> m.pos == |file|))
  {
    ReadNextReads(file, m);
  }

  /**
   * Lines 42 and 45 of parse_file: one more LINES and up to four more TODOS;
   * the cursor and CURRENT_LINE do not move.
   */
  lemma CountLineCounts(m: Machine)
    ensures var r := CountLine(m);
            && r.pos == m.pos && r.current == m.current
            && r.counts == m.counts.(lines := m.counts.lines + 1, todos := r.counts.todos)
            && m.counts.todos <= r.counts.todos <= m.counts.todos + 4
            && (r.counts.todos == m.counts.todos <==> !Contains(m.current, "//TODO") && !Contains(m.current, "// TODO")
                                                      && !Contains(m.current, "# TODO") && !Contains(m.current, "#TODO"))
  {
  }

  /**
   * check_for_single_comment (CommentCount.py:59-63) adds the same amount,
   * at most two, to COMMENTS and SINGLE_LINE_COMMENTS, nothing when the line
   * holds neither "//" nor "#", and so keeps COMMENTS at least
   * SINGLE_LINE_COMMENTS + COMMENT_LINES_IN_BLOCK.
   */
  lemma SingleCheckAdds(c: Counts, line: string)
    ensures var r := SingleCheck(c, line);
            && Below(c, r) && r.comments <= c.comments + 2
            && r.comments - c.comments == r.singleLineComments - c.singleLineComments
            && r == c.(comments := r.comments, singleLineComments := r.singleLineComments)
            && (r == c <==> !Contains(line, "//") && !Contains(line, "#"))
            && (Balanced(c) ==> Balanced(r))
  {
  }

  /**
   * Line 47 of parse_file runs the single-line check on CURRENT_LINE as it
   * then stands, without moving the cursor.
   */
  lemma CheckSingleAdds(m: Machine)
    ensures var r := CheckSingle(m);
            && r.pos == m.pos && r.current == m.current
            && r.counts == SingleCheck(m.counts, m.current)
            && (Balanced(m.counts) ==> Balanced(r.counts))
  {
    SingleCheckAdds(m.counts, m.current);
  }
}
