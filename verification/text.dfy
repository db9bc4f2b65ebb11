/**
 * The handful of Python string operations the comment counter relies on:
 * substring membership (`p in s`), `str.strip()` and `str.split(sep)`.
 */
module Text {

  /** Python's `p in s` for two strings: `p` occurs somewhere in `s`. */
  predicate OccursAt(s: string, p: string, i: int) {
    0 <= i && i + |p| <= |s| && s[i..i + |p|] == p
  }

  predicate Contains(s: string, p: string)
    ensures p == [] ==> Contains(s, p)
    ensures Contains(s, p) ==> |p| <= |s|
  {
    assert OccursAt(s, [], 0);
    exists i :: 0 <= i <= |s| - |p| && OccursAt(s, p, i)
  }

  /** The ASCII characters for which Python's `str.isspace()` holds. */
  predicate IsSpace(c: char) {
    c == ' ' || 9 <= c as int <= 13 || 28 <= c as int <= 31
  }

  predicate NoSpace(p: string) {
    forall i :: 0 <= i < |p| ==> !IsSpace(p[i])
  }

  function TrimStart(s: string): (r: string)
    ensures r == [] || !IsSpace(r[0])
    ensures |r| <= |s|
  {
    if s != [] && IsSpace(s[0]) then TrimStart(s[1..]) else s
  }

  function TrimEnd(s: string): (r: string)
    ensures r == [] || !IsSpace(r[|r| - 1])
    ensures |r| <= |s|
  {
    if s != [] && IsSpace(s[|s| - 1]) then TrimEnd(s[..|s| - 1]) else s
  }

  /** TrimStart drops a run of leading whitespace and keeps the rest of the string. */
  lemma {:induction false} TrimStartDrops(s: string) returns (i: nat)
    ensures i <= |s| && TrimStart(s) == s[i..]
    ensures forall k :: 0 <= k < i ==> IsSpace(s[k])
    decreases |s|
  {
    if s != [] && IsSpace(s[0]) {
      var i' := TrimStartDrops(s[1..]);
      i := i' + 1;
      assert s[1..][i'..] == s[i..];
      forall k | 0 <= k < i
        ensures IsSpace(s[k])
      {
        if k > 0 {
          assert s[k] == s[1..][k - 1];
        }
      }
    } else {
      i := 0;
    }
  }

  /** TrimEnd drops a run of trailing whitespace and keeps the rest of the string. */
  lemma {:induction false} TrimEndKeeps(s: string) returns (j: nat)
    ensures j <= |s| && TrimEnd(s) == s[..j]
    ensures forall k :: j <= k < |s| ==> IsSpace(s[k])
    decreases |s|
  {
    if s != [] && IsSpace(s[|s| - 1]) {
      j := TrimEndKeeps(s[..|s| - 1]);
      assert s[..|s| - 1][..j] == s[..j];
      forall k | j <= k < |s|
        ensures IsSpace(s[k])
      {
        if k < |s| - 1 {
          assert s[k] == s[..|s| - 1][k];
        }
      }
    } else {
      j := |s|;
    }
  }

  /**
   * The slice of `s` between `i` and `j` is what stripping leaves: only
   * whitespace lies outside it, and it neither starts nor ends with
   * whitespace.
   */
  predicate TrimmedAt(s: string, i: int, j: int) {
    0 <= i <= j <= |s| &&
    (forall k :: 0 <= k < i ==> IsSpace(s[k])) && (forall k :: j <= k < |s| ==> IsSpace(s[k])) &&
    (i < j ==> !IsSpace(s[i]) && !IsSpace(s[j - 1]))
  }

  /** `r` is `s` with its leading and trailing whitespace removed. */
  predicate StripsTo(s: string, r: string) {
    exists i, j :: 0 <= i <= j <= |s| && TrimmedAt(s, i, j) && r == s[i..j]
  }

  lemma StripSlice(s: string)
    ensures StripsTo(s, TrimEnd(TrimStart(s)))
    ensures TrimEnd(TrimStart(s)) == TrimStart(s)[..|TrimEnd(TrimStart(s))|]
  {
    var i := TrimStartDrops(s);
    var j := TrimEndKeeps(TrimStart(s));
    var r := TrimEnd(TrimStart(s));
    assert r == s[i..i + j];
    forall k | i + j <= k < |s|
      ensures IsSpace(s[k])
    {
      assert s[k] == s[i..][k - i];
    }
    if 0 < j {
      assert s[i] == r[0] && s[i + j - 1] == r[|r| - 1];
    }
    assert TrimmedAt(s, i, i + j);
  }

  /**
   * Python's `s.strip()`: `s` with its leading and trailing whitespace
   * removed. StripUnique shows that StripsTo fixes the result.
   */
  function Strip(s: string): (r: string)
    ensures StripsTo(s, r)
    ensures r == [] || (!IsSpace(r[0]) && !IsSpace(r[|r| - 1]))
  {
    StripSlice(s);
    TrimEnd(TrimStart(s))
  }

  lemma TrimmedAtUnique(s: string, i: int, j: int, i': int, j': int)
    requires TrimmedAt(s, i, j) && TrimmedAt(s, i', j')
    ensures s[i..j] == s[i'..j']
  {
  }

  /** Stripping has one possible result: every trimmed slice of `s` is Strip(s). */
  lemma StripUnique(s: string, i: int, j: int)
    requires TrimmedAt(s, i, j)
    ensures s[i..j] == Strip(s)
  {
    var i', j' :| 0 <= i' <= j' <= |s| && TrimmedAt(s, i', j') && Strip(s) == s[i'..j'];
    TrimmedAtUnique(s, i, j, i', j');
  }

  /** Dropping one leading whitespace character keeps every space-free pattern. */
  lemma DropFirstKeepsContains(s: string, p: string)
    requires s != [] && IsSpace(s[0]) && NoSpace(p)
    ensures Contains(s[1..], p) <==> Contains(s, p)
  {
    if Contains(s[1..], p) {
      var i :| 0 <= i <= |s| - 1 - |p| && OccursAt(s[1..], p, i);
      assert s[i + 1..i + 1 + |p|] == s[1..][i..i + |p|];
      assert OccursAt(s, p, i + 1);
    }
    if Contains(s, p) {
      var i :| 0 <= i <= |s| - |p| && OccursAt(s, p, i);
      if p == [] {
        assert OccursAt(s[1..], p, 0);
      } else {
        assert s[i] == p[0];
        assert i != 0;
        assert s[1..][i - 1..i - 1 + |p|] == s[i..i + |p|];
        assert OccursAt(s[1..], p, i - 1);
      }
    }
  }

  /** Dropping one trailing whitespace character keeps every space-free pattern. */
  lemma DropLastKeepsContains(s: string, p: string)
    requires s != [] && IsSpace(s[|s| - 1]) && NoSpace(p)
    ensures Contains(s[..|s| - 1], p) <==> Contains(s, p)
  {
    var t := s[..|s| - 1];
    if Contains(t, p) {
      var i :| 0 <= i <= |t| - |p| && OccursAt(t, p, i);
      assert s[i..i + |p|] == t[i..i + |p|];
      assert OccursAt(s, p, i);
    }
    if Contains(s, p) {
      var i :| 0 <= i <= |s| - |p| && OccursAt(s, p, i);
      if p == [] {
        assert OccursAt(t, p, 0);
      } else {
        assert s[i + |p| - 1] == p[|p| - 1];
        assert i + |p| - 1 != |s| - 1;
        assert t[i..i + |p|] == s[i..i + |p|];
        assert OccursAt(t, p, i);
      }
    }
  }

  lemma {:induction false} TrimStartKeepsContains(s: string, p: string)
    requires NoSpace(p)
    ensures Contains(TrimStart(s), p) <==> Contains(s, p)
    decreases |s|
  {
    if s != [] && IsSpace(s[0]) {
      TrimStartKeepsContains(s[1..], p);
      DropFirstKeepsContains(s, p);
    }
  }

  lemma {:induction false} TrimEndKeepsContains(s: string, p: string)
    requires NoSpace(p)
    ensures Contains(TrimEnd(s), p) <==> Contains(s, p)
    decreases |s|
  {
    if s != [] && IsSpace(s[|s| - 1]) {
      TrimEndKeepsContains(s[..|s| - 1], p);
      DropLastKeepsContains(s, p);
    }
  }

  /**
   * Stripping a line never changes whether a pattern without whitespace
   * occurs in it; this is why the comment counter may test the markers on
   * either the raw or the stripped line.
   */
  lemma StripKeepsContains(s: string, p: string)
    requires NoSpace(p)
    ensures Contains(Strip(s), p) <==> Contains(s, p)
  {
    TrimStartKeepsContains(s, p);
    TrimEndKeepsContains(TrimStart(s), p);
  }

  /** Python's `s.split(sep)` for a one-character separator. */
  function Split(s: string, sep: char): (r: seq<string>)
    ensures |r| == 1 + multiset(s)[sep]
    ensures forall i :: 0 <= i < |r| ==> sep !in r[i]
  {
    if s == [] then [""]
    else
      var rest := Split(s[1..], sep);
      assert s == [s[0]] + s[1..];
      if s[0] == sep then [""] + rest
      else [[s[0]] + rest[0]] + rest[1..]
  }

  /** The pieces of a split, joined with the separator, give back the string. */
  function Join(pieces: seq<string>, sep: char): string
    requires pieces != []
  {
    if |pieces| == 1 then pieces[0] else pieces[0] + [sep] + Join(pieces[1..], sep)
  }

  /** Joining after a leading piece puts the separator between it and the rest. */
  lemma JoinCons(x: string, pieces: seq<string>, sep: char)
    requires pieces != []
    ensures Join([x] + pieces, sep) == x + [sep] + Join(pieces, sep)
  {
    assert ([x] + pieces)[1..] == pieces;
  }

  /** A character put in front of the first piece comes first in the join. */
  lemma JoinGrowsHead(c: char, pieces: seq<string>, sep: char)
    requires pieces != []
    ensures Join([[c] + pieces[0]] + pieces[1..], sep) == [c] + Join(pieces, sep)
  {
    if |pieces| > 1 {
      JoinCons([c] + pieces[0], pieces[1..], sep);
    }
  }

  /** One unfolding of `Split`, on the first character. */
  lemma SplitStep(s: string, sep: char)
    requires s != []
    ensures var rest := Split(s[1..], sep);
            Split(s, sep) == if s[0] == sep then [""] + rest else [[s[0]] + rest[0]] + rest[1..]
  {
  }

  lemma {:induction false} SplitJoin(s: string, sep: char)
    ensures Join(Split(s, sep), sep) == s
  {
    if s != [] {
      var rest := Split(s[1..], sep);
      SplitJoin(s[1..], sep);
      SplitStep(s, sep);
      if s[0] == sep {
        JoinCons("", rest, sep);
      } else {
        JoinGrowsHead(s[0], rest, sep);
      }
      assert Join(Split(s, sep), sep) == [s[0]] + s[1..];
      assert [s[0]] + s[1..] == s;
    }
  }

  /** Wherever a pattern occurs, every piece of it occurs too. */
  lemma ContainsPiece(s: string, p: string, k: nat, q: string)
    requires k + |q| <= |p| && p[k..k + |q|] == q && Contains(s, p)
    ensures Contains(s, q)
  {
    var i :| 0 <= i <= |s| - |p| && OccursAt(s, p, i);
    forall j | 0 <= j < |q|
      ensures s[i + k + j] == q[j]
    {
      assert s[i + k + j] == s[i..i + |p|][k + j] == p[k + j];
      assert q[j] == p[k..k + |q|][j];
    }
    assert s[i + k..i + k + |q|] == q;
    assert OccursAt(s, q, i + k);
  }

  /** A pattern with a character the string lacks does not occur in it. */
  lemma AbsentChar(s: string, p: string, k: nat)
    requires k < |p| && p[k] !in s
    ensures !Contains(s, p)
  {
    forall i | 0 <= i <= |s| - |p|
      ensures !OccursAt(s, p, i)
    {
      assert s[i + k] in s;
    }
  }

  /** A one-character pattern occurs exactly where its character does. */
  lemma ContainsChar(s: string, c: char)
    ensures Contains(s, [c]) <==> c in s
  {
    if c in s {
      var i :| 0 <= i < |s| && s[i] == c;
      assert OccursAt(s, [c], i);
    }
    if Contains(s, [c]) {
      var i :| 0 <= i <= |s| - 1 && OccursAt(s, [c], i);
      assert s[i] == s[i..i + 1][0];
    }
  }

  lemma NothingInEmpty(p: string)
    requires p != []
    ensures !Contains("", p)
  {
  }
}
