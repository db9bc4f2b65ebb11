// The behaviours of CommentCount.py that readers are most likely to
// misjudge, each proved for every line or file of the given shape and
// checked against a sample line.
module ScanExamples {
  import opened Text
  import opened Patterns
  import opened ScanSpec
  import opened ScanProperties

  // A line that opens and closes a "/*" comment, such as "/* x */", is
  // counted as a whole block: one COMMENTS, one COMMENT_LINES_IN_BLOCK and
  // one BLOCK_COMMENTS, and no SINGLE_LINE_COMMENTS from the scan.
  lemma OneLineBlockComment(file: seq<string>, m: Machine)
    requires FileLines(file) && m.pos <= |file|
    requires Contains(m.current, "/*") && Contains(m.current, "*/")
    ensures BlockCheck(file, m)
            == Machine(m.counts.(comments := m.counts.comments + 1,
                                 commentLinesInBlock := m.counts.commentLinesInBlock + 1,
                                 blockComments := m.counts.blockComments + 1),
                       m.pos, Strip(m.current))
  {
    SlashStarPass(file, m, 0);
    CloserHoldsStar(m.current);
  }

  lemma OneLineSample()
    ensures Contains("/* x */\n", "/*") && Contains("/* x */\n", "*/")
  {
    assert OccursAt("/* x */\n", "/*", 0);
    assert OccursAt("/* x */\n", "*/", 5);
  }

  // An opener line, one body line holding "*" and a closing line make one
  // block of three lines, not of one.
  lemma ThreeLineBlockComment(file: seq<string>, m: Machine)
    requires FileLines(file) && m.pos + 2 <= |file|
    requires Contains(m.current, "/*") && !Contains(m.current, "*/")
    requires Contains(file[m.pos], "*") && !Contains(file[m.pos], "*/")
    requires Contains(file[m.pos + 1], "*/")
    ensures BlockCheck(file, m).pos == m.pos + 2
    ensures BlockCheck(file, m).counts
            == m.counts.(lines := m.counts.lines + 2,
                         comments := m.counts.comments + 3,
                         commentLinesInBlock := m.counts.commentLinesInBlock + 3,
                         blockComments := m.counts.blockComments + 1)
  {
    ContainsPiece(m.current, "/*", 1, "*");
    CloserHoldsStar(file[m.pos + 1]);
    SlashStarPass(file, m, 0);
    var p1 := Pass(file, "/*", m, 0);
    assert ScanFrom(file, "/*", m, 0) == ScanFrom(file, "/*", p1.0, 1);
    SlashStarPass(file, p1.0, 1);
    var p2 := Pass(file, "/*", p1.0, 1);
    assert ScanFrom(file, "/*", p1.0, 1) == ScanFrom(file, "/*", p2.0, 2);
    SlashStarPass(file, p2.0, 2);
    var p3 := Pass(file, "/*", p2.0, 2);
    assert ScanFrom(file, "/*", p2.0, 2) == (p3.0, true);
  }

  lemma ThreeLineSample()
    ensures Contains("/*\n", "/*") && !Contains("/*\n", "*/")
    ensures Contains(" * body\n", "*") && !Contains(" * body\n", "*/")
    ensures Contains(" */\n", "*/")
  {
    assert OccursAt("/*\n", "/*", 0);
    assert OccursAt(" * body\n", "*", 1);
    AbsentChar(" * body\n", "*/", 1);
    assert OccursAt(" */\n", "*/", 1);
  }

  /** Every line of `ls` holding `p` makes CountWith the length of `ls`. */
  lemma {:induction false} CountWithAll(ls: seq<string>, p: string)
    requires AllHold(ls, p)
    ensures CountWith(ls, p) == |ls|
  {
    if ls != [] {
      CountWithAll(ls[1..], p);
    }
  }

  // A "#" scan whose every line holds "#" runs to the end of the file and
  // classifies nothing: it adds only LINES and COMMENTS.
  lemma HashRunToEnd(file: seq<string>, m: Machine, r: (Machine, bool), ls: seq<string>)
    requires FileLines(file) && m.pos <= |file| && m.current != ""
    requires r == ScanFrom(file, "#", m, 0) && ls == ScannedLines(file, m, r.0.pos)
    requires AllHold(ls, "#")
    ensures r.0 == Machine(m.counts.(lines := m.counts.lines + (|file| - m.pos),
                                     comments := m.counts.comments + (|file| - m.pos + 1)),
                           |file|, "")
  {
    HashScanEnds(file, m, 0, r, ls);
    HashScanLeaves(file, m, 0, r, ls);
    CountWithAll(ls, "#");
    HashScanCounts(file, m, 0, r, ls);
  }

  /** The lines a scan started on line m.pos - 1 reads are a slice of the file. */
  lemma TailAllHold(file: seq<string>, m: Machine, k: nat)
    requires 1 <= m.pos <= k <= |file| && m.current == file[m.pos - 1]
    requires forall i :: m.pos - 1 <= i < |file| ==> Contains(file[i], "#")
    ensures AllHold(ScannedLines(file, m, k), "#")
  {
    assert ScannedLines(file, m, k) == file[m.pos - 1..k];
  }

  // A run of "#" lines that goes on to the end of the file is never
  // classified: each of its lines adds to LINES (except the first, already
  // counted) and COMMENTS, and nothing else changes.
  lemma TrailingHashLines(file: seq<string>, m: Machine)
    requires FileLines(file) && 1 <= m.pos <= |file| && m.current == file[m.pos - 1]
    requires !Contains(m.current, "/*")
    requires forall i :: m.pos - 1 <= i < |file| ==> Contains(file[i], "#")
    ensures BlockCheck(file, m)
            == Machine(m.counts.(lines := m.counts.lines + (|file| - m.pos),
                                 comments := m.counts.comments + (|file| - m.pos + 1)),
                       |file|, "")
  {
    var r := ScanFrom(file, "#", m, 0);
    var ls := ScannedLines(file, m, r.0.pos);
    TailAllHold(file, m, r.0.pos);
    assert BlockCheck(file, m) == r.0 by {
      assert Contains(file[m.pos - 1], "#");
    }
    HashRunToEnd(file, m, r, ls);
  }

  // A "#" line followed by a line without "#" is a one-line "#" comment:
  // the scan reads the next line, stops there and counts one single-line
  // comment, leaving the next line, stripped, in CURRENT_LINE.
  lemma OneHashLineScan(file: seq<string>, m: Machine)
    requires FileLines(file) && m.pos < |file|
    requires Contains(m.current, "#") && !Contains(m.current, "/*")
    requires !Contains(file[m.pos], "#")
    ensures BlockCheck(file, m)
            == Machine(m.counts.(lines := m.counts.lines + 1,
                                 comments := m.counts.comments + 1,
                                 singleLineComments := m.counts.singleLineComments + 1),
                       m.pos + 1, Strip(file[m.pos]))
  {
    HashPass(file, m, 0);
    var p1 := Pass(file, "#", m, 0);
    HashPass(file, p1.0, p1.1);
    var p2 := Pass(file, "#", p1.0, p1.1);
    assert ScanFrom(file, "#", p1.0, p1.1) == (p2.0, true);
  }

  // The line that ends a scan is left in CURRENT_LINE and goes through the
  // single-line check of the same pass of parse_file, but never through the
  // TODO check. A "#" comment line followed by a code line makes the "#"
  // scan read that code line: the pass counts two LINES, one COMMENTS and
  // one SINGLE_LINE_COMMENTS for the "#" line, one more of each if the code
  // line holds "//", and only the TODOs of the "#" line; then `readline`
  // (line 48) moves on to the line after the code line.
  lemma ClosingLineSingleChecked(file: seq<string>, m: Machine)
    requires FileLines(file) && 1 <= m.pos < |file|
    requires Contains(m.current, "#") && !Contains(m.current, "/*")
    requires !Contains(file[m.pos], "#")
    ensures var k := if Contains(file[m.pos], "//") then 1 else 0;
            Step(file, m)
            == ReadNext(file, Machine(m.counts.(lines := m.counts.lines + 2,
                                                comments := m.counts.comments + 1 + k,
                                                singleLineComments := m.counts.singleLineComments + 1 + k,
                                                todos := m.counts.todos + TodoCount(m.current)),
                                      m.pos + 1, Strip(file[m.pos])))
  {
    var c := CountLine(m);
    OneHashLineScan(file, c);
    var b := BlockCheck(file, c);
    SlashOnlyCount(file[m.pos]);
    var k := if Contains(file[m.pos], "//") then 1 else 0;
    var st := CheckSingle(b);
    assert st == Machine(m.counts.(lines := m.counts.lines + 2,
                                   comments := m.counts.comments + 1 + k,
                                   singleLineComments := m.counts.singleLineComments + 1 + k,
                                   todos := m.counts.todos + TodoCount(m.current)),
                         m.pos + 1, Strip(file[m.pos]));
    assert Step(file, m) == ReadNext(file, st);
  }

  /** On a line without '#', stripped or not, the single-line check only looks for "//". */
  lemma SlashOnlyCount(raw: string)
    requires !Contains(raw, "#")
    ensures SingleCount(Strip(raw)) == if Contains(raw, "//") then 1 else 0
  {
    SingleCountIsTwoTests(Strip(raw));
    StripKeepsContains(raw, "//");
    StripKeepsContains(raw, "#");
  }

  /** Each TODO spelling is counted on its own: "//TODO # TODO" adds two TODOS. */
  lemma TwoTodoSpellings()
    ensures TodoCount("//TODO # TODO") == 2
  {
    var s := "//TODO # TODO";
    assert OccursAt(s, "//TODO", 0);
    assert OccursAt(s, "# TODO", 7);
    forall i | 0 <= i <= |s| - 7
      ensures !OccursAt(s, "// TODO", i)
    {
      assert s[i..i + 7][0] == s[i] && s[i..i + 7][2] == s[i + 2];
    }
    forall i | 0 <= i <= |s| - 5
      ensures !OccursAt(s, "#TODO", i)
    {
      assert s[i..i + 5][0] == s[i] && s[i..i + 5][1] == s[i + 1];
    }
    TodoCountIsFourTests(s);
  }
}
