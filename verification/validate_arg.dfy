/**
 * validate_arg of CommentCount.py (lines 114-124): the three checks a path
 * must pass before the comment counter reads it. Whether a regular file
 * exists at the path is asked of the file system, so it comes in as the
 * parameter `isFile`; the message printed on each rejection is the
 * `Reason` of the verdict.
 */
module ArgCheck {
  import opened Text

  /** Why a path is refused, one per message printed by validate_arg. */
  datatype Reason = NoSuchFile | NoExtension | HiddenName

  datatype Verdict = Accepted | Rejected(reason: Reason)

  /** `len(s.split('.')) < 2` asks whether the path holds no dot at all. */
  lemma SplitFindsDot(path: string)
    ensures |Split(path, '.')| >= 2 <==> '.' in path
  {
    assert '.' in path <==> '.' in multiset(path);
  }

  /**
   * The checks run in order: existence first, then "has an extension"
   * (some dot anywhere in the path, a directory's included), then "does
   * not start with a dot". The first that fails decides the reason.
   */
  function ValidateArg(path: string, isFile: bool): (v: Verdict)
    ensures v == Accepted <==> isFile && '.' in path && path[0] != '.'
    ensures v == Rejected(NoSuchFile) <==> !isFile
    ensures v == Rejected(NoExtension) <==> isFile && '.' !in path
    ensures v == Rejected(HiddenName) <==> isFile && '.' in path && path[0] == '.'
  {
    SplitFindsDot(path);
    if !isFile then Rejected(NoSuchFile)
    else if |Split(path, '.')| < 2 then Rejected(NoExtension)
    else if path[0] == '.' then Rejected(HiddenName)
    else Accepted
  }

  /**
   * A relative path written with a leading "./", such as "./a.py", is
   * refused even when the file exists: its first character is a dot.
   */
  lemma DotSlashRefused(name: string)
    ensures ValidateArg("./" + name, true) == Rejected(HiddenName)
    ensures ValidateArg("./" + name, false) == Rejected(NoSuchFile)
  {
    assert ("./" + name)[0] == '.';
  }

  /**
   * A dot in a directory name passes for an extension: a file without one
   * in such a directory, such as "dir.d/Makefile", is accepted.
   */
  lemma DottedDirectoryAccepted(dir: string, name: string)
    requires '.' in dir && dir[0] != '.'
    ensures ValidateArg(dir + "/" + name, true) == Accepted
  {
    var path := dir + "/" + name;
    var i :| 0 <= i < |dir| && dir[i] == '.';
    assert path[i] == '.' && path[0] == dir[0];
  }
}
