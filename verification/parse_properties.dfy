/**
 * What a whole run of parse_file (CommentCount.py:37-52) adds up, proved
 * about Parse and Run: every line is counted once, TODOs are looked for on
 * the lines the outer loop reads, the counters stay balanced and there are
 * never more blocks than lines.
 */
module ParseProperties {
  import opened Text
  import opened Patterns
  import opened ScanSpec
  import opened ScanProperties

  /** A state at the head of the outer loop: CURRENT_LINE is empty only at end of file. */
  predicate AtHead(file: seq<string>, m: Machine) {
    m.pos <= |file| && (m.current == "" ==> m.pos == |file|)
  }

  /** The block check adds one LINES for every line its scan read, and nothing to TODOS. */
  lemma BlockCheckLines(file: seq<string>, m: Machine)
    requires FileLines(file) && m.pos <= |file|
    ensures BlockCheck(file, m).counts.lines == m.counts.lines + (BlockCheck(file, m).pos - m.pos)
  {
    if m.current != "" {
      var r1 := ScanFrom(file, "/*", m, 0);
      SlashStarScanCounts(file, m, 0, r1, ScannedLines(file, m, r1.0.pos));
      var r2 := ScanFrom(file, "#", m, 0);
      HashScanCounts(file, m, 0, r2, ScannedLines(file, m, r2.0.pos));
    }
  }

  /** One pass of the outer loop counts the line it starts on and every line it reads. */
  lemma StepLines(file: seq<string>, m: Machine)
    requires FileLines(file) && AtHead(file, m) && m.current != ""
    ensures AtHead(file, Step(file, m))
    ensures Step(file, m).counts.lines == m.counts.lines + Measure(file, m) - Measure(file, Step(file, m))
  {
    BlockCheckLines(file, CountLine(m));
  }

  lemma {:induction false} RunLines(file: seq<string>, m: Machine)
    requires FileLines(file) && AtHead(file, m)
    ensures Run(file, m).counts.lines == m.counts.lines + Measure(file, m)
    decreases Measure(file, m)
  {
    if m.current != "" {
      StepLines(file, m);
      RunLines(file, Step(file, m));
    }
  }

  /**
   * Total lines: after parse_file on a file of n lines, LINES is n. Every
   * line `readline` returns is counted once, whether the outer loop or a
   * block scan reads it.
   */
  lemma ParseCountsEveryLine(file: seq<string>)
    requires FileLines(file)
    ensures Parse(file).lines == |file|
  {
    RunLines(file, Start(file, Zero));
  }

  /** The lines the outer loop of parse_file starts a pass on, in order. */
  function OuterLines(file: seq<string>, m: Machine): (ls: seq<string>)
    requires m.pos <= |file|
    ensures |ls| <= Measure(file, m)
    decreases Measure(file, m)
  {
    if m.current == "" then [] else [m.current] + OuterLines(file, Step(file, m))
  }

  /** The TODO count of every line of `ls`, added up. */
  function TodoSum(ls: seq<string>): nat {
    if ls == [] then 0 else TodoCount(ls[0]) + TodoSum(ls[1..])
  }

  /**
   * TODO counting: TODOS grows by the TODO spellings of each line the
   * outer loop starts a pass on. The lines a block scan reads are never
   * looked at for TODOs.
   */
  lemma {:induction false} RunTodos(file: seq<string>, m: Machine)
    requires m.pos <= |file|
    ensures Run(file, m).counts.todos == m.counts.todos + TodoSum(OuterLines(file, m))
    decreases Measure(file, m)
  {
    if m.current != "" {
      var next := Step(file, m);
      assert next.counts.todos == m.counts.todos + TodoCount(m.current);
      RunTodos(file, next);
      assert ([m.current] + OuterLines(file, next))[1..] == OuterLines(file, next);
    }
  }

  lemma ParseTodos(file: seq<string>)
    ensures Parse(file).todos == TodoSum(OuterLines(file, Start(file, Zero)))
  {
    RunTodos(file, Start(file, Zero));
  }

  /**
   * Counter invariant: COMMENTS stays at least SINGLE_LINE_COMMENTS +
   * COMMENT_LINES_IN_BLOCK through the whole run.
   */
  lemma {:induction false} RunKeepsBalance(file: seq<string>, m: Machine)
    requires m.pos <= |file| && Balanced(m.counts)
    ensures Balanced(Run(file, m).counts)
    decreases Measure(file, m)
  {
    if m.current != "" {
      BlockCheckKeepsBalance(file, CountLine(m));
      RunKeepsBalance(file, Step(file, m));
    }
  }

  lemma ParseBalanced(file: seq<string>)
    ensures Balanced(Parse(file))
  {
    RunKeepsBalance(file, Start(file, Zero));
  }

  /**
   * BLOCK_COMMENTS grows no faster than LINES: a pass of the outer loop
   * counts its line and completes at most one block scan.
   */
  lemma {:induction false} RunBlocksBelowLines(file: seq<string>, m: Machine)
    requires m.pos <= |file|
    ensures Run(file, m).counts.blockComments - m.counts.blockComments
            <= Run(file, m).counts.lines - m.counts.lines
    decreases Measure(file, m)
  {
    if m.current != "" {
      RunBlocksBelowLines(file, Step(file, m));
    }
  }

  lemma ParseBlocksBelowLines(file: seq<string>)
    ensures Parse(file).blockComments <= Parse(file).lines
  {
    RunBlocksBelowLines(file, Start(file, Zero));
  }

  // No line opens a block: none holds "/*" or "#".
  predicate NoOpener(file: seq<string>) {
    forall i :: 0 <= i < |file| ==> !Contains(file[i], "/*") && !Contains(file[i], "#")
  }

  /** What one line adds when no block scan starts on it. */
  function LineTally(line: string): Counts {
    Counts(1, SingleCount(line), SingleCount(line), 0, 0, TodoCount(line))
  }

  /** The tallies of all lines of `ls`, added up. */
  function Tally(ls: seq<string>): Counts {
    if ls == [] then Zero else Add(LineTally(ls[0]), Tally(ls[1..]))
  }

  /** A line without a block opener is tallied on its own and the next line is read. */
  lemma PlainStep(file: seq<string>, m: Machine)
    requires m.pos <= |file| && m.current != ""
    requires !Contains(m.current, "/*") && !Contains(m.current, "#")
    ensures Step(file, m) == ReadNext(file, m.(counts := Add(m.counts, LineTally(m.current))))
  {
    var c := CountLine(m);
    assert BlockCheck(file, c) == c;
    assert CheckSingle(c) == m.(counts := Add(m.counts, LineTally(m.current)));
  }

  lemma {:induction false} PlainRun(file: seq<string>, m: Machine)
    requires FileLines(file) && NoOpener(file) && AtHead(file, m)
    requires m.current != "" ==> 1 <= m.pos && m.current == file[m.pos - 1]
    ensures m.current == "" ==> Run(file, m).counts == m.counts
    ensures m.current != "" ==> Run(file, m).counts == Add(m.counts, Tally(file[m.pos - 1..]))
    decreases Measure(file, m)
  {
    if m.current != "" {
      PlainStep(file, m);
      var next := Step(file, m);
      var line := LineTally(m.current);
      assert next.counts == Add(m.counts, line);
      PlainRun(file, next);
      var rest := file[m.pos - 1..];
      assert rest[0] == m.current && rest[1..] == file[m.pos..];
      assert Tally(rest) == Add(line, Tally(file[m.pos..]));
      if m.pos < |file| {
        assert next.pos - 1 == m.pos && next.current != "";
      } else {
        assert file[m.pos..] == [];
      }
      assert Run(file, next).counts == Add(next.counts, Tally(file[m.pos..]));
      AddAssoc(m.counts, line, Tally(file[m.pos..]));
    }
  }

  lemma AddZero(c: Counts)
    ensures Add(Zero, c) == c
  {
  }

  lemma AddAssoc(a: Counts, b: Counts, c: Counts)
    ensures Add(Add(a, b), c) == Add(a, Add(b, c))
  {
  }

  /**
   * A file in which no line opens a block: every line adds one LINES, its
   * TODO spellings and its single-line markers, and there are no blocks.
   */
  lemma PlainFile(file: seq<string>)
    requires FileLines(file) && NoOpener(file)
    ensures Parse(file) == Tally(file)
  {
    var m0 := Start(file, Zero);
    assert Parse(file) == Run(file, m0).counts;
    PlainRun(file, m0);
    if file != [] {
      assert m0 == Machine(Zero, 1, file[0]);
      assert file[m0.pos - 1..] == file;
      AddZero(Tally(file));
    } else {
      assert Tally(file) == Zero;
    }
  }
}
