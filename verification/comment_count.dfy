/**
 * The scanner of CommentCount.py as the object it is: six counters and the
 * shared cursor line CURRENT_LINE, updated in place by parse_file and the
 * three checks it drives. Every method is proved to leave the object in the
 * state the functions of ScanSpec describe.
 */
module CommentCounting {
  import opened Text
  import opened Patterns
  import opened ScanSpec
  import opened ScanProperties

  /** An open text file read with `readline`: its lines and the cursor. */
  class LineReader {
    const lines: seq<string>
    var pos: nat

    ghost predicate Valid()
      reads this
    {
      pos <= |lines|
    }

    constructor (lines: seq<string>)
      ensures Valid() && this.lines == lines && pos == 0
    {
      this.lines := lines;
      pos := 0;
    }

    /** The next line, or "" once the file is exhausted (the cursor then stays put). */
    method ReadLine() returns (line: string)
      requires Valid()
      modifies this`pos
      ensures Valid()
      ensures old(pos) < |lines| ==> pos == old(pos) + 1 && line == lines[old(pos)]
      ensures old(pos) == |lines| ==> pos == old(pos) && line == ""
    {
      if pos < |lines| {
        line := lines[pos];
        pos := pos + 1;
      } else {
        line := "";
      }
    }
  }

  class CommentCount {
    var lines: nat
    var comments: nat
    var singleLineComments: nat
    var commentLinesInBlock: nat
    var blockComments: nat
    var todos: nat
    var currentLine: string

    /** The object invariant: every counted single-line or in-block line was counted as a comment. */
    ghost predicate Valid()
      reads this
    {
      Balanced(Counters())
    }

    function Counters(): Counts
      reads this
    {
      Counts(lines, comments, singleLineComments, commentLinesInBlock, blockComments, todos)
    }

    /** The counters together with the file cursor and CURRENT_LINE. */
    function State(file: LineReader): Machine
      reads this, file
    {
      Machine(Counters(), file.pos, currentLine)
    }

    constructor ()
      ensures Valid() && Counters() == Zero && currentLine == ""
    {
      lines, comments, singleLineComments := 0, 0, 0;
      commentLinesInBlock, blockComments, todos := 0, 0, 0;
      currentLine := "";
    }

    /**
     * Reads the whole file and adds what it finds to the counters; on return
     * CURRENT_LINE is empty (end of file).
     */
    method ParseFile(contents: seq<string>)
      requires Valid()
      modifies this
      ensures Valid()
      ensures Counters() == Add(old(Counters()), Parse(contents))
      ensures currentLine == ""
    {
      var file := new LineReader(contents);
      ghost var start := Start(contents, Counters());
      currentLine := file.ReadLine();
      while currentLine != ""
        invariant file.Valid() && file.lines == contents
        invariant Valid()
        invariant Run(contents, State(file)) == Run(contents, start)
        decreases Measure(contents, State(file))
      {
        ParseLine(file);
      }
      ParseShift(contents, old(Counters()));
    }

    /** One pass of the loop of parse_file (CommentCount.py:42-48), on a non-empty CURRENT_LINE. */
    method ParseLine(file: LineReader)
      requires Valid() && file.Valid() && currentLine != ""
      modifies this, file`pos
      ensures Valid() && file.Valid()
      ensures State(file) == Step(file.lines, old(State(file)))
    {
      ghost var before := State(file);
      lines := lines + 1;
      CheckForTodos();
      assert State(file) == CountLine(before);
      CheckForBlockComment(file);
      ghost var scanned := State(file);
      CheckForSingleComment();
      assert State(file) == CheckSingle(scanned);
      currentLine := file.ReadLine();
    }

    /** check_for_todos: one more TODO for every TODO spelling in CURRENT_LINE. */
    method CheckForTodos()
      requires Valid()
      modifies this`todos
      ensures Valid()
      ensures todos == old(todos) + TodoCount(currentLine)
    {
      for i := 0 to |TodoChars|
        invariant todos == old(todos) + CountMatches(currentLine, TodoChars[..i])
      {
        if Contains(currentLine, TodoChars[i]) {
          todos := todos + 1;
        }
        assert TodoChars[..i + 1][..i] == TodoChars[..i];
      }
      assert TodoChars[..|TodoChars|] == TodoChars;
    }

    /** check_for_single_comment: one comment and one single-line comment per single-line marker found. */
    method CheckForSingleComment()
      requires Valid()
      modifies this`comments, this`singleLineComments
      ensures Valid()
      ensures Counters() == SingleCheck(old(Counters()), currentLine)
    {
      for i := 0 to |SingleLineCommentChars|
        invariant comments == old(comments) + CountMatches(currentLine, SingleLineCommentChars[..i])
        invariant singleLineComments == old(singleLineComments) + CountMatches(currentLine, SingleLineCommentChars[..i])
      {
        if Contains(currentLine, SingleLineCommentChars[i]) {
          comments := comments + 1;
          singleLineComments := singleLineComments + 1;
        }
        assert SingleLineCommentChars[..i + 1][..i] == SingleLineCommentChars[..i];
      }
      assert SingleLineCommentChars[..|SingleLineCommentChars|] == SingleLineCommentChars;
    }

    // check_for_block_comment: tries the keys "/*", "/**", "#" in order and
    // scans a block from the first one found in CURRENT_LINE. The lookup of
    // the line marker is only ever made for "/*" and "#": a line holding
    // "/**" already started a "/*" scan, and a scan that did not return
    // leaves CURRENT_LINE empty.
    method CheckForBlockComment(file: LineReader)
      requires Valid() && file.Valid()
      modifies this, file`pos
      ensures Valid() && file.Valid()
      ensures State(file) == BlockCheck(file.lines, old(State(file)))
    {
      ghost var m0 := State(file);
      MultilineKeysAreTheKeys();
      for k := 0 to |MultilineKeys|
        invariant Valid() && file.Valid()
        invariant (State(file) == m0 && forall j :: 0 <= j < k ==> !Contains(currentLine, MultilineKeys[j]))
               || (currentLine == "" && State(file) == BlockCheck(file.lines, m0))
      {
        var key := MultilineKeys[k];
        assert MultilineKeys[0] == "/*" && MultilineKeys[1] == "/**";
        JavadocOpenerContainsBlockOpener(currentLine);
        NothingInEmpty(key);
        if Contains(currentLine, key) {
          var closed := ScanBlock(file, key);
          if closed {
            return;
          }
        }
      }
    }

    /** The `while` loop of check_for_block_comment for the opener `key`. */
    method ScanBlock(file: LineReader, key: string) returns (closed: bool)
      requires Valid() && file.Valid()
      requires key in BlockLineChars && Contains(currentLine, key)
      modifies this, file`pos
      ensures (State(file), closed) == ScanFrom(file.lines, key, old(State(file)), 0)
      ensures Valid() && file.Valid()
    {
      ghost var m0 := State(file);
      ghost var result := ScanFrom(file.lines, key, m0, 0);
      var inline := 0;
      closed := false;
      while currentLine != ""
        invariant file.Valid() && !closed
        invariant ScanFrom(file.lines, key, State(file), inline) == result
        decreases |file.lines| - file.pos, if currentLine == "" then 0 else 1
      {
        ghost var head, inline0 := State(file), inline;
        inline := MarkBlockLine(key, inline);
        closed := EndBlock(key, inline);
        if closed {
          assert (State(file), inline, closed) == Pass(file.lines, key, head, inline0);
          break;
        }
        ReadBlockLine(file);
        assert (State(file), inline, closed) == Pass(file.lines, key, head, inline0);
      }
      ScanKeepsBalance(file.lines, key, m0, 0);
    }

    /**
     * Lines 72-82 of check_for_block_comment: CURRENT_LINE is stripped and,
     * when it holds the block's line marker, counted as a comment and
     * possibly as a line of the block.
     */
    method MarkBlockLine(key: string, inline: nat) returns (next: nat)
      requires key in BlockLineChars
      modifies this`currentLine, this`comments
      ensures currentLine == Strip(old(currentLine))
      ensures Counters() == Counted(key, old(Counters()), currentLine)
      ensures next == NextInline(key, currentLine, inline)
    {
      BlockKeyShape(key);
      var mark := BlockLineChars[key];
      var close := MultilineCommentChars[key];
      next := inline;
      currentLine := Strip(currentLine);
      if Contains(currentLine, mark) {
        comments := comments + 1;
        if close != key || currentLine[..1] == mark {
          next := next + 1;
        }
      }
    }

    /**
     * Lines 85-97 of check_for_block_comment: the two ways the scan
     * returns, after classifying what it saw as one block or one
     * single-line comment.
     */
    method EndBlock(key: string, inline: nat) returns (done: bool)
      requires key in BlockLineChars
      modifies this`blockComments, this`commentLinesInBlock, this`singleLineComments
      ensures done <==> ClosesBlock(key, currentLine) || EndsRun(key, currentLine)
      ensures Counters() == if done then Classify(key, old(Counters()), currentLine, inline) else old(Counters())
    {
      BlockKeyShape(key);
      var close := MultilineCommentChars[key];
      done := false;
      if Contains(currentLine, close) && key != "#" {
        blockComments := blockComments + 1;
        commentLinesInBlock := commentLinesInBlock + inline;
        done := true;
      } else if key == close && !Contains(currentLine, key) {
        if inline > 1 {
          blockComments := blockComments + 1;
          commentLinesInBlock := commentLinesInBlock + inline;
        } else {
          singleLineComments := singleLineComments + 1;
        }
        done := true;
      }
    }

    /** Lines 98-101 of check_for_block_comment: the next line is read and, unless at end of file, counted. */
    method ReadBlockLine(file: LineReader)
      requires file.Valid()
      modifies this`currentLine, this`lines, file`pos
      ensures file.Valid()
      ensures State(file) == Advance(file.lines, old(State(file)))
    {
      currentLine := file.ReadLine();
      if currentLine != "" {
        lines := lines + 1;
      }
    }
  }
}
