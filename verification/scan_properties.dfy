/**
 * What the scanner of CommentCount.py guarantees, proved about the pure
 * description in ScanSpec: how each kind of block scan ends, the line and
 * TODO totals, and the invariants the counters keep.
 */
module ScanProperties {
  import opened Text
  import opened Patterns
  import opened ScanSpec

  /** The state `m` with `d` added to its counters. */
  function Shifted(m: Machine, d: Counts): Machine {
    m.(counts := Add(d, m.counts))
  }

  lemma CountedShift(key: string, c: Counts, line: string, d: Counts)
    requires key in BlockLineChars
    ensures Counted(key, Add(d, c), line) == Add(d, Counted(key, c, line))
  {
  }

  lemma ClassifyShift(key: string, c: Counts, line: string, n: nat, d: Counts)
    requires key in BlockLineChars
    ensures Classify(key, Add(d, c), line, n) == Add(d, Classify(key, c, line, n))
  {
  }

  lemma AdvanceShift(file: seq<string>, m: Machine, d: Counts)
    requires m.pos <= |file|
    ensures Advance(file, Shifted(m, d)) == Shifted(Advance(file, m), d)
  {
  }

  lemma PassShift(file: seq<string>, key: string, m: Machine, inline: nat, d: Counts)
    requires key in BlockLineChars && m.pos <= |file| && m.current != ""
    ensures var p := Pass(file, key, m, inline);
            Pass(file, key, Shifted(m, d), inline) == (Shifted(p.0, d), p.1, p.2)
  {
    var line := Strip(m.current);
    var c := Counted(key, m.counts, line);
    CountedShift(key, m.counts, line, d);
    ClassifyShift(key, c, line, NextInline(key, line, inline), d);
    AdvanceShift(file, Machine(c, m.pos, line), d);
  }

  /** A block scan adds the same amounts whatever the counters held before. */
  lemma {:induction false} ScanShift(file: seq<string>, key: string, m: Machine, inline: nat, d: Counts)
    requires key in BlockLineChars && m.pos <= |file|
    ensures var r := ScanFrom(file, key, m, inline);
            ScanFrom(file, key, Shifted(m, d), inline) == (Shifted(r.0, d), r.1)
    decreases |file| - m.pos, if m.current == "" then 0 else 1
  {
    if m.current != "" {
      var p := Pass(file, key, m, inline);
      PassShift(file, key, m, inline, d);
      if !p.2 {
        ScanShift(file, key, p.0, p.1, d);
      }
    }
  }

  lemma BlockCheckShift(file: seq<string>, m: Machine, d: Counts)
    requires m.pos <= |file|
    ensures BlockCheck(file, Shifted(m, d)) == Shifted(BlockCheck(file, m), d)
  {
    ScanShift(file, "/*", m, 0, d);
    ScanShift(file, "#", m, 0, d);
  }

  lemma CountLineShift(m: Machine, d: Counts)
    ensures CountLine(Shifted(m, d)) == Shifted(CountLine(m), d)
  {
  }

  lemma CheckSingleShift(m: Machine, d: Counts)
    ensures CheckSingle(Shifted(m, d)) == Shifted(CheckSingle(m), d)
  {
  }

  lemma ReadNextShift(file: seq<string>, m: Machine, d: Counts)
    requires m.pos <= |file|
    ensures ReadNext(file, Shifted(m, d)) == Shifted(ReadNext(file, m), d)
  {
  }

  lemma StepShift(file: seq<string>, m: Machine, d: Counts)
    requires m.pos <= |file| && m.current != ""
    ensures Step(file, Shifted(m, d)) == Shifted(Step(file, m), d)
  {
    CountLineShift(m, d);
    BlockCheckShift(file, CountLine(m), d);
    CheckSingleShift(BlockCheck(file, CountLine(m)), d);
    ReadNextShift(file, CheckSingle(BlockCheck(file, CountLine(m))), d);
  }

  /**
   * The parse loop adds the same amounts whatever the counters held before:
   * parse_file on an object that already counted something adds on top.
   */
  lemma {:induction false} RunShift(file: seq<string>, m: Machine, d: Counts)
    requires m.pos <= |file|
    ensures Run(file, Shifted(m, d)) == Shifted(Run(file, m), d)
    decreases Measure(file, m)
  {
    if m.current != "" {
      StepShift(file, m, d);
      RunShift(file, Step(file, m), d);
    }
  }

  /** parse_file on counters that already hold `d` ends with `d` plus what a fresh parse counts. */
  lemma ParseShift(file: seq<string>, d: Counts)
    ensures Run(file, Start(file, d)).counts == Add(d, Parse(file))
  {
    var empty := Machine(Zero, 0, "");
    ReadNextShift(file, empty, d);
    assert Shifted(empty, d) == Machine(d, 0, "");
    RunShift(file, Start(file, Zero), d);
  }

  /**
   * The slack a block scan needs to keep COMMENTS at least
   * SINGLE_LINE_COMMENTS + COMMENT_LINES_IN_BLOCK: inline_count lines are
   * already owed, and one more is owed while nothing has been counted and
   * the line does not hold the opener.
   */
  predicate ScanSlack(key: string, m: Machine, inline: nat) {
    m.counts.comments >= m.counts.singleLineComments + m.counts.commentLinesInBlock + inline
                         + (if inline == 0 && !Contains(m.current, key) then 1 else 0)
  }

  /** One pass either classifies with the counters balanced or hands the slack on to the next pass. */
  lemma PassKeepsSlack(file: seq<string>, key: string, m: Machine, inline: nat)
    requires key in BlockLineChars && m.pos <= |file| && m.current != ""
    requires ScanSlack(key, m, inline)
    ensures var p := Pass(file, key, m, inline);
            && (p.2 ==> Balanced(p.0.counts))
            && (!p.2 ==> ScanSlack(key, p.0, p.1))
  {
    BlockKeyShape(key);
    var line := Strip(m.current);
    StripKeepsContains(m.current, key);
    if Contains(line, key) {
      OpenerHoldsLineMarker(line, key);
    }
  }

  lemma {:induction false} ScanKeepsBalance(file: seq<string>, key: string, m: Machine, inline: nat)
    requires key in BlockLineChars && m.pos <= |file|
    requires ScanSlack(key, m, inline)
    ensures Balanced(ScanFrom(file, key, m, inline).0.counts)
    decreases |file| - m.pos, if m.current == "" then 0 else 1
  {
    if m.current != "" {
      PassKeepsSlack(file, key, m, inline);
      var p := Pass(file, key, m, inline);
      if !p.2 {
        ScanKeepsBalance(file, key, p.0, p.1);
      }
    }
  }

  lemma BlockCheckKeepsBalance(file: seq<string>, m: Machine)
    requires m.pos <= |file| && Balanced(m.counts)
    ensures Balanced(BlockCheck(file, m).counts)
  {
    if Contains(m.current, "/*") {
      ScanKeepsBalance(file, "/*", m, 0);
    } else if Contains(m.current, "#") {
      ScanKeepsBalance(file, "#", m, 0);
    }
  }

  /** The number of lines of `ls` that contain `p`. */
  function CountWith(ls: seq<string>, p: string): (n: nat)
    ensures n <= |ls|
  {
    if ls == [] then 0 else (if Contains(ls[0], p) then 1 else 0) + CountWith(ls[1..], p)
  }

  /** A line that the "#" scan counts in inline_count: stripped, it starts with '#'. */
  predicate HashLed(line: string) {
    var t := Strip(line);
    t != [] && t[0] == '#'
  }

  /** A line is HashLed exactly when its first character that is not whitespace is '#'. */
  lemma HashLedIsFirstNonSpace(line: string)
    ensures HashLed(line) <==>
            exists i :: 0 <= i < |line| && line[i] == '#' && forall k :: 0 <= k < i ==> IsSpace(line[k])
  {
    var t := Strip(line);
    var i, j :| 0 <= i <= j <= |line| && TrimmedAt(line, i, j) && t == line[i..j];
    if HashLed(line) {
      assert line[i] == t[0];
    }
    if exists i0 :: 0 <= i0 < |line| && line[i0] == '#' && forall k :: 0 <= k < i0 ==> IsSpace(line[k]) {
      var i0 :| 0 <= i0 < |line| && line[i0] == '#' && forall k :: 0 <= k < i0 ==> IsSpace(line[k]);
      assert !IsSpace(line[i0]);
      assert i == i0 && i < j;
      assert t[0] == line[i0];
    }
  }

  /** The number of lines of `ls` that are HashLed. */
  function CountHashLed(ls: seq<string>): (n: nat)
    ensures n <= |ls|
  {
    if ls == [] then 0 else (if HashLed(ls[0]) then 1 else 0) + CountHashLed(ls[1..])
  }

  /** The test of CommentCount.py:75 and 81 for the "#" key is "the line starts with '#'". */
  lemma HashLineTest(line: string)
    ensures (Contains(line, "#") && line[..1] == "#") <==> (line != [] && line[0] == '#')
  {
    if line != [] && line[0] == '#' {
      assert OccursAt(line, "#", 0);
    }
  }

  /** The lines a scan read: the line it started on and those `readline` returned up to cursor `k`. */
  function ScannedLines(file: seq<string>, m: Machine, k: nat): (ls: seq<string>)
    requires m.pos <= k <= |file|
    ensures |ls| == k - m.pos + 1
  {
    [m.current] + file[m.pos..k]
  }

  lemma ScannedLinesStep(file: seq<string>, m: Machine, next: Machine, k: nat)
    requires m.pos < |file| && next.pos == m.pos + 1 && next.current == file[m.pos] && next.pos <= k <= |file|
    ensures ScannedLines(file, m, k) == [m.current] + ScannedLines(file, next, k)
  {
    assert file[m.pos..k] == [file[m.pos]] + file[m.pos + 1..k];
  }

  /** No line of `ls` contains `p`. */
  predicate NoneHold(ls: seq<string>, p: string) {
    forall i :: 0 <= i < |ls| ==> !Contains(ls[i], p)
  }

  /** Every line of `ls` contains `p`. */
  predicate AllHold(ls: seq<string>, p: string) {
    forall i :: 0 <= i < |ls| ==> Contains(ls[i], p)
  }

  lemma NoneHoldCons(x: string, ls: seq<string>, p: string)
    requires !Contains(x, p) && NoneHold(ls, p)
    ensures NoneHold([x] + ls, p)
  {
  }

  lemma AllHoldCons(x: string, ls: seq<string>, p: string)
    requires Contains(x, p) && AllHold(ls, p)
    ensures AllHold([x] + ls, p)
  {
  }

  lemma CountWithCons(x: string, ls: seq<string>, p: string)
    ensures CountWith([x] + ls, p) == (if Contains(x, p) then 1 else 0) + CountWith(ls, p)
  {
    assert ([x] + ls)[1..] == ls;
  }

  lemma CountHashLedCons(x: string, ls: seq<string>)
    ensures CountHashLed([x] + ls) == (if HashLed(x) then 1 else 0) + CountHashLed(ls)
  {
    assert ([x] + ls)[1..] == ls;
  }

  lemma InitCons(x: string, ls: seq<string>)
    requires ls != []
    ensures ([x] + ls)[..|ls|] == [x] + ls[..|ls| - 1]
    ensures ([x] + ls)[|ls|] == ls[|ls| - 1]
  {
  }

  /**
   * Where one pass of a scan leaves the cursor and CURRENT_LINE: a pass
   * that returns stays on its stripped line, any other reads the next line
   * or reaches end of file.
   */
  lemma PassMoves(file: seq<string>, key: string, m: Machine, inline: nat)
    requires key in BlockLineChars && m.pos <= |file| && m.current != ""
    ensures var p := Pass(file, key, m, inline);
            && (p.2 ==> p.0.pos == m.pos && p.0.current == Strip(m.current))
            && (!p.2 && m.pos < |file| ==> p.0.pos == m.pos + 1 && p.0.current == file[m.pos])
            && (!p.2 && m.pos == |file| ==> p.0.pos == m.pos && p.0.current == "")
  {
  }

  // A "/*" pass returns exactly when its raw line holds the closer.
  lemma SlashStarStops(file: seq<string>, m: Machine, inline: nat)
    requires m.pos <= |file| && m.current != ""
    ensures Pass(file, "/*", m, inline).2 <==> Contains(m.current, "*/")
  {
    BlockKeyShape("/*");
    StripKeepsContains(m.current, "*/");
  }

  /** A "#" pass returns exactly when its raw line lacks '#'. */
  lemma HashStops(file: seq<string>, m: Machine, inline: nat)
    requires m.pos <= |file| && m.current != ""
    ensures Pass(file, "#", m, inline).2 <==> !Contains(m.current, "#")
  {
    BlockKeyShape("#");
    StripKeepsContains(m.current, "#");
  }

  // One pass of a "/*" scan, in terms of the raw line it starts on.
  lemma SlashStarPass(file: seq<string>, m: Machine, inline: nat)
    requires FileLines(file) && m.pos <= |file| && m.current != ""
    ensures var p := Pass(file, "/*", m, inline);
            var star := if Contains(m.current, "*") then 1 else 0;
            && p.1 == inline + star
            && (p.2 <==> Contains(m.current, "*/"))
            && (p.2 ==> p.0 == Machine(m.counts.(comments := m.counts.comments + star,
                                                 commentLinesInBlock := m.counts.commentLinesInBlock + inline + star,
                                                 blockComments := m.counts.blockComments + 1),
                                       m.pos, Strip(m.current)))
            && (!p.2 && m.pos < |file| ==>
                  p.0 == Machine(m.counts.(lines := m.counts.lines + 1, comments := m.counts.comments + star),
                                 m.pos + 1, file[m.pos]))
            && (!p.2 && m.pos == |file| ==>
                  p.0 == Machine(m.counts.(comments := m.counts.comments + star), m.pos, ""))
  {
    BlockKeyShape("/*");
    StripKeepsContains(m.current, "*/");
    StripKeepsContains(m.current, "*");
    if Contains(m.current, "*/") {
      CloserHoldsStar(m.current);
    }
  }

  // What one "/*" pass adds to the counters and to inline_count.
  lemma SlashStarPassCounts(file: seq<string>, m: Machine, inline: nat)
    requires FileLines(file) && m.pos <= |file| && m.current != ""
    ensures var p := Pass(file, "/*", m, inline);
            var star := if Contains(m.current, "*") then 1 else 0;
            && p.1 == inline + star
            && (p.2 ==> p.0.counts == m.counts.(comments := m.counts.comments + star,
                                                commentLinesInBlock := m.counts.commentLinesInBlock + inline + star,
                                                blockComments := m.counts.blockComments + 1))
            && (!p.2 ==> p.0.counts == m.counts.(lines := m.counts.lines + (p.0.pos - m.pos),
                                                 comments := m.counts.comments + star))
  {
    SlashStarPass(file, m, inline);
  }

  // A "/*" scan (CommentCount.py:66-88) stops at the first line holding
  // "*/", that line included. Every scanned line holding "*" adds one to
  // COMMENTS and, once the block closes, to COMMENT_LINES_IN_BLOCK, together
  // with one BLOCK_COMMENTS. A scan that reaches end of file classifies
  // nothing: only its COMMENTS stay. The line left in CURRENT_LINE is the
  // last scanned line, stripped.
  lemma {:induction false} SlashStarScanEnds(file: seq<string>, m: Machine, inline: nat, r: (Machine, bool), ls: seq<string>)
    requires FileLines(file) && m.pos <= |file| && m.current != ""
    requires r == ScanFrom(file, "/*", m, inline) && ls == ScannedLines(file, m, r.0.pos)
    ensures NoneHold(ls[..|ls| - 1], "*/")
    ensures r.1 <==> Contains(ls[|ls| - 1], "*/")
    decreases |file| - m.pos
  {
    var p := Pass(file, "/*", m, inline);
    PassMoves(file, "/*", m, inline);
    SlashStarStops(file, m, inline);
    if !p.2 && m.pos < |file| {
      var rest := ScannedLines(file, p.0, r.0.pos);
      SlashStarScanEnds(file, p.0, p.1, r, rest);
      ScannedLinesStep(file, m, p.0, r.0.pos);
      InitCons(m.current, rest);
      NoneHoldCons(m.current, rest[..|rest| - 1], "*/");
      assert ls[..|ls| - 1] == [m.current] + rest[..|rest| - 1];
    } else {
      assert ls[..|ls| - 1] == [];
    }
  }

  lemma {:induction false} SlashStarScanLeaves(file: seq<string>, m: Machine, inline: nat, r: (Machine, bool), ls: seq<string>)
    requires FileLines(file) && m.pos <= |file| && m.current != ""
    requires r == ScanFrom(file, "/*", m, inline) && ls == ScannedLines(file, m, r.0.pos)
    ensures !r.1 ==> r.0.pos == |file| && r.0.current == ""
    ensures r.1 ==> r.0.current == Strip(ls[|ls| - 1])
    decreases |file| - m.pos
  {
    var p := Pass(file, "/*", m, inline);
    PassMoves(file, "/*", m, inline);
    SlashStarStops(file, m, inline);
    if !p.2 && m.pos < |file| {
      var rest := ScannedLines(file, p.0, r.0.pos);
      SlashStarScanLeaves(file, p.0, p.1, r, rest);
      ScannedLinesStep(file, m, p.0, r.0.pos);
      InitCons(m.current, rest);
    }
  }

  lemma {:induction false} SlashStarScanCounts(file: seq<string>, m: Machine, inline: nat, r: (Machine, bool), ls: seq<string>)
    requires FileLines(file) && m.pos <= |file| && m.current != ""
    requires r == ScanFrom(file, "/*", m, inline) && ls == ScannedLines(file, m, r.0.pos)
    ensures r.0.counts.lines == m.counts.lines + (r.0.pos - m.pos)
    ensures r.0.counts.comments == m.counts.comments + CountWith(ls, "*")
    ensures r.0.counts.singleLineComments == m.counts.singleLineComments
    ensures r.0.counts.commentLinesInBlock == m.counts.commentLinesInBlock + (if r.1 then inline + CountWith(ls, "*") else 0)
    ensures r.0.counts.blockComments == m.counts.blockComments + (if r.1 then 1 else 0)
    ensures r.0.counts.todos == m.counts.todos
    decreases |file| - m.pos
  {
    var p := Pass(file, "/*", m, inline);
    PassMoves(file, "/*", m, inline);
    SlashStarPassCounts(file, m, inline);
    if !p.2 && m.pos < |file| {
      var rest := ScannedLines(file, p.0, r.0.pos);
      SlashStarScanCounts(file, p.0, p.1, r, rest);
      ScannedLinesStep(file, m, p.0, r.0.pos);
      CountWithCons(m.current, rest, "*");
      assert inline + CountWith(ls, "*") == p.1 + CountWith(rest, "*");
    } else {
      assert ls == [m.current];
      assert CountWith(ls, "*") == (if Contains(m.current, "*") then 1 else 0);
    }
  }

  /** One pass of a "#" scan, in terms of the raw line it starts on. */
  lemma HashPass(file: seq<string>, m: Machine, inline: nat)
    requires FileLines(file) && m.pos <= |file| && m.current != ""
    ensures var p := Pass(file, "#", m, inline);
            && p.1 == inline + (if HashLed(m.current) then 1 else 0)
            && (p.2 <==> !Contains(m.current, "#"))
            && (p.2 ==> p.0 == Machine(m.counts.(singleLineComments := m.counts.singleLineComments
                                                                      + (if inline <= 1 then 1 else 0),
                                                 commentLinesInBlock := m.counts.commentLinesInBlock
                                                                        + (if inline > 1 then inline else 0),
                                                 blockComments := m.counts.blockComments
                                                                  + (if inline > 1 then 1 else 0)),
                                       m.pos, Strip(m.current)))
            && (!p.2 && m.pos < |file| ==>
                  p.0 == Machine(m.counts.(lines := m.counts.lines + 1, comments := m.counts.comments + 1),
                                 m.pos + 1, file[m.pos]))
            && (!p.2 && m.pos == |file| ==>
                  p.0 == Machine(m.counts.(comments := m.counts.comments + 1), m.pos, ""))
  {
    BlockKeyShape("#");
    StripKeepsContains(m.current, "#");
    HashLineTest(Strip(m.current));
  }

  /** What one "#" pass adds to the counters and to inline_count. */
  lemma HashPassCounts(file: seq<string>, m: Machine, inline: nat)
    requires FileLines(file) && m.pos <= |file| && m.current != ""
    ensures var p := Pass(file, "#", m, inline);
            && p.1 == inline + (if HashLed(m.current) then 1 else 0)
            && (p.2 ==> !Contains(m.current, "#") && !HashLed(m.current)
                        && p.0.counts == m.counts.(singleLineComments := m.counts.singleLineComments
                                                                         + (if inline <= 1 then 1 else 0),
                                                    commentLinesInBlock := m.counts.commentLinesInBlock
                                                                           + (if inline > 1 then inline else 0),
                                                    blockComments := m.counts.blockComments
                                                                     + (if inline > 1 then 1 else 0)))
            && (!p.2 ==> Contains(m.current, "#")
                         && p.0.counts == m.counts.(lines := m.counts.lines + (p.0.pos - m.pos),
                                                    comments := m.counts.comments + 1))
  {
    HashPass(file, m, inline);
    StripKeepsContains(m.current, "#");
    HashLineTest(Strip(m.current));
  }

  /**
   * A "#" scan (CommentCount.py:66-97) goes on while the line holds "#"
   * and stops at the first line without it, which it consumes; a scan that
   * reaches end of file never stops this way.
   */
  lemma {:induction false} HashScanEnds(file: seq<string>, m: Machine, inline: nat, r: (Machine, bool), ls: seq<string>)
    requires FileLines(file) && m.pos <= |file| && m.current != ""
    requires r == ScanFrom(file, "#", m, inline) && ls == ScannedLines(file, m, r.0.pos)
    ensures AllHold(ls[..|ls| - 1], "#")
    ensures r.1 <==> !Contains(ls[|ls| - 1], "#")
    decreases |file| - m.pos
  {
    var p := Pass(file, "#", m, inline);
    PassMoves(file, "#", m, inline);
    HashStops(file, m, inline);
    if !p.2 && m.pos < |file| {
      var rest := ScannedLines(file, p.0, r.0.pos);
      HashScanEnds(file, p.0, p.1, r, rest);
      ScannedLinesStep(file, m, p.0, r.0.pos);
      InitCons(m.current, rest);
      AllHoldCons(m.current, rest[..|rest| - 1], "#");
      assert ls[..|ls| - 1] == [m.current] + rest[..|rest| - 1];
    } else {
      assert ls[..|ls| - 1] == [];
    }
  }

  /** What a "#" scan leaves in CURRENT_LINE: the stripped last line, or "" at end of file. */
  lemma {:induction false} HashScanLeaves(file: seq<string>, m: Machine, inline: nat, r: (Machine, bool), ls: seq<string>)
    requires FileLines(file) && m.pos <= |file| && m.current != ""
    requires r == ScanFrom(file, "#", m, inline) && ls == ScannedLines(file, m, r.0.pos)
    ensures !r.1 ==> r.0.pos == |file| && r.0.current == ""
    ensures r.1 ==> r.0.current == Strip(ls[|ls| - 1])
    decreases |file| - m.pos
  {
    var p := Pass(file, "#", m, inline);
    PassMoves(file, "#", m, inline);
    HashStops(file, m, inline);
    if !p.2 && m.pos < |file| {
      var rest := ScannedLines(file, p.0, r.0.pos);
      HashScanLeaves(file, p.0, p.1, r, rest);
      ScannedLinesStep(file, m, p.0, r.0.pos);
      InitCons(m.current, rest);
    }
  }

  /**
   * What a "#" scan adds: one COMMENTS per line holding "#"; inline_count
   * grows by the lines that start with '#' once stripped; on stopping, more
   * than one such line makes a block (one BLOCK_COMMENTS, inline_count
   * COMMENT_LINES_IN_BLOCK), otherwise one SINGLE_LINE_COMMENTS is added.
   * A scan that reaches end of file classifies nothing.
   */
  lemma {:induction false} HashScanCounts(file: seq<string>, m: Machine, inline: nat, r: (Machine, bool), ls: seq<string>)
    requires FileLines(file) && m.pos <= |file| && m.current != ""
    requires r == ScanFrom(file, "#", m, inline) && ls == ScannedLines(file, m, r.0.pos)
    ensures r.0.counts.lines == m.counts.lines + (r.0.pos - m.pos)
    ensures r.0.counts.comments == m.counts.comments + CountWith(ls, "#")
    ensures var n := inline + CountHashLed(ls);
            r.0.counts.singleLineComments == m.counts.singleLineComments + (if r.1 && n <= 1 then 1 else 0)
    ensures var n := inline + CountHashLed(ls);
            r.0.counts.commentLinesInBlock == m.counts.commentLinesInBlock + (if r.1 && n > 1 then n else 0)
    ensures var n := inline + CountHashLed(ls);
            r.0.counts.blockComments == m.counts.blockComments + (if r.1 && n > 1 then 1 else 0)
    ensures r.0.counts.todos == m.counts.todos
    decreases |file| - m.pos
  {
    var p := Pass(file, "#", m, inline);
    PassMoves(file, "#", m, inline);
    HashPassCounts(file, m, inline);
    if !p.2 && m.pos < |file| {
      var rest := ScannedLines(file, p.0, r.0.pos);
      HashScanCounts(file, p.0, p.1, r, rest);
      ScannedLinesStep(file, m, p.0, r.0.pos);
      CountWithCons(m.current, rest, "#");
      CountHashLedCons(m.current, rest);
      assert inline + CountHashLed(ls) == p.1 + CountHashLed(rest);
      assert CountWith(ls, "#") == 1 + CountWith(rest, "#");
    } else {
      assert ls == [m.current];
      assert CountWith(ls, "#") == (if Contains(m.current, "#") then 1 else 0);
      assert CountHashLed(ls) == (if HashLed(m.current) then 1 else 0);
    }
  }
}
