/** The POSIX flavour of Python's `os.path`: `basename`, `splitext` and
    two-argument `join`, written out so that the names the pipeline builds
    can be reasoned about. */
module PyPaths {

  /** `s.rfind(c)`: the last index holding `c`, or -1. */
  function RFind(s: string, c: char): (r: int)
    ensures -1 <= r < |s|
    ensures r >= 0 ==> s[r] == c
    ensures forall k :: r < k < |s| ==> s[k] != c
  {
    if s == [] then -1
    else if s[|s| - 1] == c then |s| - 1
    else RFind(s[..|s| - 1], c)
  }

  /** `os.path.basename(p)`: everything after the last '/'. */
  function Basename(p: string): string {
    p[RFind(p, '/') + 1..]
  }

  /** Some character strictly between `lo` and `hi` is not a dot. */
  predicate NonDotBetween(p: string, lo: int, hi: int)
    requires -1 <= lo && hi <= |p|
  {
    exists k :: lo < k < hi && p[k] != '.'
  }

  /** `os.path.splitext(p)`: the extension starts at the last dot of the last
      path component, unless only dots precede it in that component (a
      leading dot does not start an extension). */
  function Splitext(p: string): (string, string) {
    var sepIndex := RFind(p, '/');
    var dotIndex := RFind(p, '.');
    if dotIndex > sepIndex && NonDotBetween(p, sepIndex, dotIndex) then
      (p[..dotIndex], p[dotIndex..])
    else
      (p, "")
  }

  function Root(p: string): string {
    Splitext(p).0
  }

  function Ext(p: string): string {
    Splitext(p).1
  }

  /** The separator `join` puts between a directory and a relative name. */
  function DirPrefix(dir: string): string {
    if dir == [] || dir[|dir| - 1] == '/' then dir else dir + "/"
  }

  /** `os.path.join(a, b)`: an absolute `b` replaces `a`; otherwise `b` is
      appended after a '/' unless `a` is empty or already ends in one. */
  function Join(a: string, b: string): string {
    if |b| > 0 && b[0] == '/' then b else DirPrefix(a) + b
  }

  /** A base name holds no separator and is what the path ends with. */
  lemma BasenameIsLastComponent(p: string)
    ensures '/' !in Basename(p)
    ensures |Basename(p)| <= |p| && p[|p| - |Basename(p)|..] == Basename(p)
    ensures '/' !in p ==> Basename(p) == p
  {
  }

  /** `splitext` splits: root and extension put back together give the
      path, and a non-empty extension is one dot followed by dot-free,
      separator-free text. */
  lemma SplitextSplits(p: string)
    ensures Root(p) + Ext(p) == p
    ensures Ext(p) != [] ==> Ext(p)[0] == '.' && '/' !in Ext(p) && '.' !in Ext(p)[1..]
    ensures Ext(p) != [] ==> Root(p) != [] && Root(p)[|Root(p)| - 1] != '/'
  {
    var sepIndex := RFind(p, '/');
    var dotIndex := RFind(p, '.');
    if dotIndex > sepIndex && NonDotBetween(p, sepIndex, dotIndex) {
      var e := p[dotIndex..];
      assert forall k :: 0 <= k < |e| ==> e[k] == p[dotIndex + k];
      var k :| sepIndex < k < dotIndex && p[k] != '.';
      assert Root(p)[k] == p[k];
    }
  }

  /** The stem of a base name (what the pipeline uses for output names)
      holds no separator either. */
  lemma StemHasNoSeparator(p: string)
    ensures '/' !in Root(Basename(p))
  {
    BasenameIsLastComponent(p);
    SplitextSplits(Basename(p));
    assert Root(Basename(p)) + Ext(Basename(p)) == Basename(p);
    assert forall k :: 0 <= k < |Root(Basename(p))| ==> Root(Basename(p))[k] == Basename(p)[k];
  }

  /** A relative name joined to a directory lies directly under it: the
      path is the directory, a separator if needed, then the name, and its
      base name is the name. */
  lemma JoinIsDirectlyUnder(dir: string, name: string)
    requires name != [] && '/' !in name
    ensures Join(dir, name) == DirPrefix(dir) + name
    ensures Basename(Join(dir, name)) == name
  {
    var p := DirPrefix(dir) + name;
    assert name[0] in name;
    var r := RFind(p, '/');
    assert forall k :: |DirPrefix(dir)| <= k < |p| ==> p[k] == name[k - |DirPrefix(dir)|];
    if DirPrefix(dir) != [] {
      assert p[|DirPrefix(dir)| - 1] == '/';
      assert r == |DirPrefix(dir)| - 1;
    } else {
      assert r == -1;
    }
  }

  /** Joining to one directory is injective in the relative name. */
  lemma JoinInjective(dir: string, n1: string, n2: string)
    requires n1 != [] && '/' !in n1
    requires n2 != [] && '/' !in n2
    ensures Join(dir, n1) == Join(dir, n2) ==> n1 == n2
  {
    JoinIsDirectlyUnder(dir, n1);
    JoinIsDirectlyUnder(dir, n2);
  }

  /** `rfind` finds the last occurrence. */
  lemma RFindIsLast(s: string, c: char, i: int)
    requires 0 <= i < |s| && s[i] == c
    requires forall k :: i < k < |s| ==> s[k] != c
    ensures RFind(s, c) == i
  {
  }

  /** The edge cases that separate `splitext` from "cut at the last dot". */
  lemma SplitextExamples()
    ensures Splitext("scan.PDF") == ("scan", ".PDF")
    ensures Splitext("archive.tar.gz") == ("archive.tar", ".gz")
    ensures Splitext(".pdf") == (".pdf", "")
  {
    var p := "scan.PDF";
    assert RFind(p, '/') == -1;
    RFindIsLast(p, '.', 4);
    assert NonDotBetween(p, -1, 4) by { assert p[0] != '.'; }
    assert p[..4] == "scan" && p[4..] == ".PDF";
    p := "archive.tar.gz";
    assert RFind(p, '/') == -1;
    RFindIsLast(p, '.', 11);
    assert NonDotBetween(p, -1, 11) by { assert p[0] != '.'; }
    assert p[..11] == "archive.tar" && p[11..] == ".gz";
    RFindIsLast(".pdf", '.', 0);
  }

  /** Leading dots of a base name are not an extension, and a dot in a
      directory name is not one either. */
  lemma SplitextDotExamples()
    ensures Splitext("..bmp") == ("..bmp", "")
    ensures Splitext("in.d/page") == ("in.d/page", "")
    ensures Splitext("in/.hidden.png") == ("in/.hidden", ".png")
  {
    RFindIsLast("..bmp", '.', 1);
    RFindIsLast("in.d/page", '/', 4);
    RFindIsLast("in.d/page", '.', 2);
    var p := "in/.hidden.png";
    RFindIsLast(p, '/', 2);
    RFindIsLast(p, '.', 10);
    assert NonDotBetween(p, 2, 10) by { assert p[4] != '.'; }
    assert p[..10] == "in/.hidden" && p[10..] == ".png";
  }
}
