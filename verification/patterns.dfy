/**
 * The fixed pattern tables of the comment counter (CommentCount.py:5-23)
 * and the per-line pattern counts built on them.
 */
module Patterns {
  import opened Text

  /** The keys of MULTILINE_COMMENT_CHARS, in the dictionary's insertion order. */
  const MultilineKeys: seq<string> := ["/*", "/**", "#"]

  /** Opening block marker to closing block marker. */
  const MultilineCommentChars: map<string, string> := map["/*" := "*/", "/**" := "*/", "#" := "#"]

  /** Opening block marker to the marker that makes a line inside the block a comment line. */
  const BlockLineChars: map<string, string> := map["/*" := "*", "#" := "#"]

  const SingleLineCommentChars: seq<string> := ["//", "#"]

  const TodoChars: seq<string> := ["//TODO", "// TODO", "# TODO", "#TODO"]

  /** Number of patterns of `pats` that occur in `s`, each tested on its own. */
  function CountMatches(s: string, pats: seq<string>): (n: nat)
    ensures n <= |pats|
    ensures n == 0 <==> forall i :: 0 <= i < |pats| ==> !Contains(s, pats[i])
    ensures n == |pats| <==> forall i :: 0 <= i < |pats| ==> Contains(s, pats[i])
  {
    if pats == [] then 0
    else CountMatches(s, pats[..|pats| - 1]) + (if Contains(s, pats[|pats| - 1]) then 1 else 0)
  }

  /** How much one line adds to TODOS (CommentCount.py:54-57). */
  function TodoCount(s: string): (n: nat)
    ensures n <= 4
    ensures n == 0 <==> !Contains(s, "//TODO") && !Contains(s, "// TODO") && !Contains(s, "# TODO") && !Contains(s, "#TODO")
  {
    assert TodoChars[0] == "//TODO" && TodoChars[1] == "// TODO" && TodoChars[2] == "# TODO" && TodoChars[3] == "#TODO";
    CountMatches(s, TodoChars)
  }

  /** How much one line adds to COMMENTS and SINGLE_LINE_COMMENTS (CommentCount.py:59-63). */
  function SingleCount(s: string): (n: nat)
    ensures n <= 2
    ensures n == 0 <==> !Contains(s, "//") && !Contains(s, "#")
  {
    assert SingleLineCommentChars[0] == "//" && SingleLineCommentChars[1] == "#";
    CountMatches(s, SingleLineCommentChars)
  }

  /** The dictionary's key order lists exactly its keys, each once. */
  lemma MultilineKeysAreTheKeys()
    ensures forall k :: k in MultilineCommentChars <==> k in MultilineKeys
    ensures forall i, j :: 0 <= i < j < |MultilineKeys| ==> MultilineKeys[i] != MultilineKeys[j]
    ensures BlockLineChars.Keys <= MultilineCommentChars.Keys
  {
  }

  /** A block key has a one-character line marker and a closing marker, none with whitespace. */
  lemma BlockKeyShape(key: string)
    requires key in BlockLineChars
    ensures key in MultilineCommentChars
    ensures |BlockLineChars[key]| == 1 && NoSpace(BlockLineChars[key])
    ensures NoSpace(key) && NoSpace(MultilineCommentChars[key])
    ensures key == "/*" || key == "#"
  {
  }

  // The opener "/*" is tried before the Javadoc opener "/**" and occurs in
  // every line the latter occurs in, so a line that reaches the Javadoc test
  // never contains it.
  lemma JavadocOpenerContainsBlockOpener(s: string)
    ensures Contains(s, "/**") ==> Contains(s, "/*")
  {
    if Contains(s, "/**") {
      ContainsPiece(s, "/**", 0, "/*");
    }
  }

  /** Every line that opens a block holds that block's line marker. */
  lemma OpenerHoldsLineMarker(s: string, key: string)
    requires key in BlockLineChars && Contains(s, key)
    ensures Contains(s, BlockLineChars[key])
  {
    if key == "/*" {
      ContainsPiece(s, "/*", 1, "*");
    }
  }

  // Every line holding the closer "*/" holds the "*" line marker.
  lemma CloserHoldsStar(s: string)
    requires Contains(s, "*/")
    ensures Contains(s, "*")
  {
    ContainsPiece(s, "*/", 0, "*");
  }

  /** The TODO test adds one for each of the four spellings found, independently. */
  lemma {:induction false} TodoCountIsFourTests(s: string)
    ensures TodoCount(s) == (if Contains(s, "//TODO") then 1 else 0) + (if Contains(s, "// TODO") then 1 else 0)
                            + (if Contains(s, "# TODO") then 1 else 0) + (if Contains(s, "#TODO") then 1 else 0)
  {
    var t3, t2, t1 := TodoChars[..3], TodoChars[..2], TodoChars[..1];
    assert t3[..2] == t2 && t2[..1] == t1 && t1[..0] == [];
    assert CountMatches(s, TodoChars) == CountMatches(s, t3) + (if Contains(s, "#TODO") then 1 else 0);
    assert CountMatches(s, t3) == CountMatches(s, t2) + (if Contains(s, "# TODO") then 1 else 0);
    assert CountMatches(s, t2) == CountMatches(s, t1) + (if Contains(s, "// TODO") then 1 else 0);
    assert CountMatches(s, t1) == (if Contains(s, "//TODO") then 1 else 0);
  }

  /** The single-line test adds one for "//" and one for "#", independently. */
  lemma {:induction false} SingleCountIsTwoTests(s: string)
    ensures SingleCount(s) == (if Contains(s, "//") then 1 else 0) + (if Contains(s, "#") then 1 else 0)
  {
    assert SingleLineCommentChars[..1] == ["//"];
    assert ["//"][..0] == [];
  }
}
