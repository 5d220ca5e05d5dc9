/**
 * The POSIX path rules the generate, curate and save-as commands use to name
 * their files: os.path.basename, os.path.splitext and os.path.join, and
 * pathlib's PurePath.name, .suffix and .stem (Python 3.12 rules), all with
 * '/' as the only separator. Strings are sequences of characters.
 */
module Paths {

  predicate StartsWith(s: string, prefix: string) {
    |prefix| <= |s| && s[..|prefix|] == prefix
  }

  predicate EndsWith(s: string, suffix: string) {
    |suffix| <= |s| && s[|s| - |suffix|..] == suffix
  }

  /** str.rfind for one character: the last index holding `c`, or -1. */
  function RFind(s: string, c: char): (i: int)
    ensures -1 <= i < |s|
    ensures i >= 0 ==> s[i] == c
    ensures forall j :: i < j < |s| ==> s[j] != c
  {
    if |s| == 0 then -1
    else if s[|s| - 1] == c then |s| - 1
    else RFind(s[..|s| - 1], c)
  }

  /** No `c` at or after index `lo` means no `c` in the slice `p[lo..]`. */
  lemma NoneFrom(p: string, lo: int, c: char)
    requires 0 <= lo <= |p|
    requires forall j :: lo <= j < |p| ==> p[j] != c
    ensures c !in p[lo..]
  {
    var rest := p[lo..];
    forall k | 0 <= k < |rest| ensures rest[k] != c {
      assert rest[k] == p[lo + k];
    }
  }

  /** os.path.basename: what follows the last '/'. */
  function Basename(p: string): (b: string)
    ensures '/' !in b
    ensures EndsWith(p, b)
    ensures |b| < |p| ==> p[|p| - |b| - 1] == '/'
  {
    var i := RFind(p, '/');
    NoneFrom(p, i + 1, '/');
    p[i + 1..]
  }

  /**
   * os.path.splitext: the extension starts at the last '.' of the last path
   * component, unless every character before that dot in the component is a
   * dot too (".bashrc", "..md"), in which case there is no extension.
   * HasExtension is that condition: the last '.' follows the last '/' with a
   * non-dot between them.
   */
  predicate HasExtension(p: string) {
    var sep := RFind(p, '/');
    var dot := RFind(p, '.');
    dot > sep && exists j :: sep < j < dot && p[j] != '.'
  }

  function SplitExt(p: string): (parts: (string, string))
    ensures parts.0 + parts.1 == p
    ensures parts.1 == [] || (parts.1[0] == '.' && '.' !in parts.1[1..] && '/' !in parts.1)
    ensures parts.1 != [] <==> HasExtension(p)
    ensures parts.1 != [] ==> parts.1 == p[RFind(p, '.')..]
  {
    var sep := RFind(p, '/');
    var dot := RFind(p, '.');
    if HasExtension(p) then
      NoneFrom(p, dot + 1, '.');
      NoneFrom(p, dot, '/');
      assert p[dot..][1..] == p[dot + 1..];
      (p[..dot], p[dot..])
    else
      (p, [])
  }

  /** os.path.join(a, b): an absolute `b` replaces `a`; otherwise one '/' separates them. */
  function Join(a: string, b: string): (r: string)
    ensures EndsWith(r, b)
    ensures (b == [] || b[0] != '/') ==> StartsWith(r, a)
    ensures b != [] && b[0] == '/' ==> r == b
    ensures (b == [] || b[0] != '/') ==>
      |r| == |a| + |b| + (if a != [] && a[|a| - 1] != '/' then 1 else 0)
    ensures (b == [] || b[0] != '/') && |r| > |a| + |b| ==> r[|a|] == '/'
  {
    if |b| > 0 && b[0] == '/' then b
    else if a == [] || a[|a| - 1] == '/' then a + b
    else a + "/" + b
  }

  /** `p` without its trailing '/' characters. */
  function TrimTrailingSlashes(p: string): (r: string)
    ensures StartsWith(p, r)
    ensures r == [] || r[|r| - 1] != '/'
    ensures forall k :: |r| <= k < |p| ==> p[k] == '/'
  {
    if |p| > 0 && p[|p| - 1] == '/' then
      var q := p[..|p| - 1];
      var r := TrimTrailingSlashes(q);
      assert forall k :: |r| <= k < |q| ==> p[k] == q[k];
      r
    else p
  }

  /**
   * PurePath.name: the last path component, i.e. the part of the path, once
   * its trailing '/' are dropped, that holds no '/' and is the whole of it or
   * follows a '/' (BasenameUnique shows that this determines it).
   */
  function PathName(p: string): (name: string)
    ensures '/' !in name
    ensures name == [] <==> forall k :: 0 <= k < |p| ==> p[k] == '/'
    ensures var t := TrimTrailingSlashes(p);
      EndsWith(t, name) && (|name| < |t| ==> t[|t| - |name| - 1] == '/')
  {
    var t := TrimTrailingSlashes(p);
    assert t != [] ==> t[|t| - 1] == p[|t| - 1];
    Basename(t)
  }

  /** The suffix of a file name: from its last '.', if that dot is neither first nor last. */
  function NameSuffix(name: string): (s: string)
    ensures s == [] || s[0] == '.'
  {
    var i := RFind(name, '.');
    if 0 < i < |name| - 1 then name[i..] else []
  }

  /** The stem of a file name: the name without its suffix. */
  function NameStem(name: string): string {
    var i := RFind(name, '.');
    if 0 < i < |name| - 1 then name[..i] else name
  }

  /** PurePath.suffix. */
  function PathSuffix(p: string): (s: string)
    ensures s == [] || s[0] == '.'
  {
    NameSuffix(PathName(p))
  }

  /** PurePath.stem. */
  function PathStem(p: string): (stem: string)
    ensures '/' !in stem
  {
    NameStemSuffix(PathName(p));
    NameStem(PathName(p))
  }

  /** One character of str.lower() on ASCII letters. */
  function LowerChar(c: char): char {
    if 'A' <= c <= 'Z' then (c as int - 'A' as int + 'a' as int) as char else c
  }

  /** str.lower(), restricted to the ASCII letters. */
  function Lower(s: string): (r: string)
    ensures |r| == |s|
    ensures forall i :: 0 <= i < |s| ==> r[i] == LowerChar(s[i])
  {
    if s == [] then [] else [LowerChar(s[0])] + Lower(s[1..])
  }

  /** Two strings that agree once every ASCII letter is lower-cased. */
  predicate EqualsIgnoringCase(s: string, t: string) {
    |s| == |t| && forall i :: 0 <= i < |s| ==> LowerChar(s[i]) == LowerChar(t[i])
  }

  /** Comparing lower-cased strings is comparing them without regard to case. */
  lemma LowerEqualIff(s: string, t: string)
    ensures Lower(s) == Lower(t) <==> EqualsIgnoringCase(s, t)
  {
    if EqualsIgnoringCase(s, t) {
      assert forall i :: 0 <= i < |s| ==> Lower(s)[i] == Lower(t)[i];
    }
  }

  /**
   * os.path.basename is the only suffix of the path that holds no '/' and is
   * either the whole path or preceded by a '/'.
   */
  lemma BasenameUnique(p: string, b: string)
    requires '/' !in b
    requires EndsWith(p, b)
    requires |b| < |p| ==> p[|p| - |b| - 1] == '/'
    ensures Basename(p) == b
  {
  }

  /** The name os.path.join appends is the basename of the joined path, which starts with the directory. */
  lemma JoinBasename(dir: string, name: string)
    requires name != [] && '/' !in name
    ensures Basename(Join(dir, name)) == name
    ensures StartsWith(Join(dir, name), dir) && EndsWith(Join(dir, name), name)
  {
    var r := Join(dir, name);
    assert name[0] != '/';
    BasenameUnique(r, name);
  }

  /** A file-name suffix is empty or a dot followed by at least one character, no dot and no '/'. */
  lemma NameSuffixShape(name: string)
    requires '/' !in name
    ensures var s := NameSuffix(name);
      s == [] || (|s| >= 2 && s[0] == '.' && '.' !in s[1..] && '/' !in s)
    ensures NameSuffix(name) != [] <==>
      name != [] && name[|name| - 1] != '.' && exists i :: 0 < i < |name| && name[i] == '.'
    ensures NameSuffix(name) != [] ==> NameSuffix(name) == name[RFind(name, '.')..]
  {
    var i := RFind(name, '.');
    if name != [] && name[|name| - 1] != '.' && exists k :: 0 < k < |name| && name[k] == '.' {
      var k :| 0 < k < |name| && name[k] == '.';
      assert k <= i;
    }
    if 0 < i < |name| - 1 {
      NoneFrom(name, i + 1, '.');
      assert name[i..][1..] == name[i + 1..];
      NotInSuffix(name, i, '/');
    }
  }

  /**
   * PurePath.suffix is empty or a dot followed by at least one character, no
   * dot and no '/'. It is non-empty exactly when the name does not end in a
   * dot and holds a dot after its first character, and it then starts at the
   * name's last dot.
   */
  lemma SuffixShape(p: string)
    ensures var s := PathSuffix(p);
      s == [] || (|s| >= 2 && s[0] == '.' && '.' !in s[1..] && '/' !in s)
    ensures var name := PathName(p);
      PathSuffix(p) != [] <==> 0 < RFind(name, '.') < |name| - 1
    ensures var name := PathName(p);
      PathSuffix(p) != [] <==> name != [] && name[|name| - 1] != '.' && exists i :: 0 < i < |name| && name[i] == '.'
    ensures PathSuffix(p) != [] ==> PathSuffix(p) == PathName(p)[RFind(PathName(p), '.')..]
  {
    var name := PathName(p);
    NameSuffixShape(name);
    assert PathSuffix(p) == NameSuffix(name);
  }

  /** The last occurrence of `c`, named by its index. */
  lemma RFindAt(s: string, c: char, i: int)
    requires -1 <= i < |s|
    requires i >= 0 ==> s[i] == c
    requires forall j :: i < j < |s| ==> s[j] != c
    ensures RFind(s, c) == i
  {
  }

  /** Worked cases of Path.suffix and Path.stem: the suffix keeps its case and only the last dot counts. */
  lemma SuffixExamples()
    ensures PathSuffix("docs/notes.MD") == ".MD"
  {
    var p := "docs/notes.MD";
    assert TrimTrailingSlashes(p) == p;
    RFindAt(p, '/', 4);
    assert PathName(p) == "notes.MD";
    RFindAt("notes.MD", '.', 5);
  }

  /** Only the last dot starts the suffix. */
  lemma LastDotExample()
    ensures PathStem("x/b.tar.gz") == "b.tar" && PathSuffix("x/b.tar.gz") == ".gz"
  {
    var q := "x/b.tar.gz";
    assert TrimTrailingSlashes(q) == q;
    RFindAt(q, '/', 1);
    assert PathName(q) == "b.tar.gz";
    RFindAt("b.tar.gz", '.', 5);
    assert "b.tar.gz"[..5] == "b.tar" && "b.tar.gz"[5..] == ".gz";
  }

  /** A dot that starts or ends the name does not start a suffix. */
  lemma NoSuffixExamples()
    ensures PathSuffix("x/.bashrc") == [] && PathSuffix("a.") == []
  {
    var p := "x/.bashrc";
    assert TrimTrailingSlashes(p) == p;
    RFindAt(p, '/', 1);
    assert PathName(p) == ".bashrc";
    RFindAt(".bashrc", '.', 0);
    assert TrimTrailingSlashes("a.") == "a.";
    RFindAt("a.", '/', -1);
    assert PathName("a.") == "a.";
    RFindAt("a.", '.', 1);
  }

  /** A trailing '/' is not part of the name. */
  lemma TrailingSlashExample()
    ensures PathStem("data.json/") == "data"
  {
    var name := "data.json";
    TrimOneSlash("data.json/");
    assert "data.json/"[..9] == name;
    WholeName("data.json/", name);
    RFindAt(name, '.', 4);
    assert name[..4] == "data";
  }

  /** One trailing '/' after a character that is not '/' is all that TrimTrailingSlashes drops. */
  lemma TrimOneSlash(p: string)
    requires |p| >= 2 && p[|p| - 1] == '/' && p[|p| - 2] != '/'
    ensures TrimTrailingSlashes(p) == p[..|p| - 1]
  {
    var q := p[..|p| - 1];
    assert q[|q| - 1] == p[|p| - 2];
  }

  /** A trimmed path without '/' is its own name. */
  lemma WholeName(p: string, name: string)
    requires TrimTrailingSlashes(p) == name && '/' !in name
    ensures PathName(p) == name
  {
    RFindAt(name, '/', -1);
  }

  /** Worked cases of os.path.splitext: only the last component counts, and leading dots are not an extension. */
  lemma SplitExtExamples()
    ensures SplitExt("x/d.json") == ("x/d", ".json")
    ensures SplitExt("x.d/json") == ("x.d/json", [])
    ensures SplitExt("..md") == ("..md", [])
  {
    RFindAt("x/d.json", '/', 1);
    RFindAt("x/d.json", '.', 3);
    assert "x/d.json"[2] != '.';
    assert "x/d.json"[..3] == "x/d" && "x/d.json"[3..] == ".json";
    RFindAt("x.d/json", '/', 3);
    RFindAt("x.d/json", '.', 1);
    RFindAt("..md", '/', -1);
    RFindAt("..md", '.', 1);
  }

  /** A file name is its stem followed by its suffix, and the stem holds no '/' when the name holds none. */
  lemma NameStemSuffix(name: string)
    ensures NameStem(name) + NameSuffix(name) == name
    ensures '/' !in name ==> '/' !in NameStem(name)
  {
    var i := RFind(name, '.');
    if 0 < i < |name| - 1 {
      assert name[..i] + name[i..] == name;
      if '/' !in name {
        NotInPrefix(name, i, '/');
      }
    }
  }

  /** PurePath.stem followed by PurePath.suffix gives back PurePath.name. */
  lemma StemSuffixName(p: string)
    ensures PathStem(p) + PathSuffix(p) == PathName(p)
    ensures '/' !in PathStem(p)
  {
    NameStemSuffix(PathName(p));
  }

  lemma NotInSuffix(s: string, i: int, c: char)
    requires 0 <= i <= |s| && c !in s
    ensures c !in s[i..]
  {
    assert forall k :: 0 <= k < |s| - i ==> s[i..][k] == s[i + k];
  }

  lemma NotInPrefix(s: string, i: int, c: char)
    requires 0 <= i <= |s| && c !in s
    ensures c !in s[..i]
  {
    assert forall k :: 0 <= k < i ==> s[..i][k] == s[k];
  }

  /** `c` occurs in neither part, so it does not occur in their concatenation. */
  lemma NotInConcat(a: string, b: string, c: char)
    requires c !in a && c !in b
    ensures c !in a + b
  {
    var ab := a + b;
    forall k | 0 <= k < |ab| ensures ab[k] != c {
      if k < |a| { assert ab[k] == a[k]; } else { assert ab[k] == b[k - |a|]; }
    }
  }

  /** Suffix and prefix facts about a concatenation. */
  lemma ConcatEnds(a: string, b: string)
    ensures StartsWith(a + b, a) && EndsWith(a + b, b)
  {
    assert (a + b)[..|a|] == a;
    assert (a + b)[|a|..] == b;
  }

  lemma EndsWithTrans(s: string, t: string, u: string)
    requires EndsWith(s, t) && EndsWith(t, u)
    ensures EndsWith(s, u)
  {
    assert s[|s| - |u|..] == s[|s| - |t|..][|t| - |u|..];
  }
}
