/** POSIX path strings as `posixpath` treats them: `join`, `basename`, and the
    `str.endswith` test that `save` applies to the target path. Paths are plain
    strings; nothing here consults a filesystem. */
module Paths {

  type Path = string

  /** `s.endswith(suffix)` */
  predicate EndsWith(s: string, suffix: string) {
    |suffix| <= |s| && s[|s| - |suffix|..] == suffix
  }

  /** `s.startswith(prefix)` */
  predicate StartsWith(s: string, prefix: string) {
    |prefix| <= |s| && s[..|prefix|] == prefix
  }

  /** A component that `join` treats as absolute: it starts with the separator. */
  predicate IsAbs(p: Path) {
    |p| > 0 && p[0] == '/'
  }

  /** `p.rfind('/')`: the index of the last separator, or -1 when there is none. */
  function LastSlash(p: Path): (i: int)
    ensures -1 <= i < |p|
    ensures i >= 0 ==> p[i] == '/'
    ensures forall j :: i < j < |p| ==> p[j] != '/'
  {
    if p == [] then -1
    else if p[|p| - 1] == '/' then |p| - 1
    else LastSlash(p[..|p| - 1])
  }

  /** `posixpath.basename(p)`: everything after the last separator. The three
      ensures characterise it: the longest suffix of `p` free of separators. */
  function Basename(p: Path): (r: Path)
    ensures '/' !in r
    ensures EndsWith(p, r)
    ensures |r| < |p| ==> p[|p| - |r| - 1] == '/'
  {
    p[LastSlash(p) + 1..]
  }

  /** `posixpath.join(a, b)` for two components: an absolute `b` replaces `a`;
      otherwise `b` is appended, after a separator unless `a` is empty or
      already ends with one. */
  function Join(a: Path, b: Path): (r: Path)
    ensures EndsWith(r, b)
    ensures IsAbs(b) ==> r == b
    ensures !IsAbs(b) ==> StartsWith(r, a) && |a| + |b| <= |r| <= |a| + 1 + |b|
    ensures !IsAbs(b) && a != [] ==> r[|r| - |b| - 1] == '/'
    ensures !IsAbs(b) && (a == [] || a[|a| - 1] == '/') ==> r == a + b
  {
    if IsAbs(b) then b
    else if a == [] || a[|a| - 1] == '/' then a + b
    else a + "/" + b
  }

  /** Two suffixes of `p` that hold no separator and are each preceded by one
      (or are the whole of `p`) are the same suffix. */
  lemma {:induction false} SlashFreeSuffixUnique(p: Path, s: Path, t: Path)
    requires '/' !in s && EndsWith(p, s) && (|s| < |p| ==> p[|p| - |s| - 1] == '/')
    requires '/' !in t && EndsWith(p, t) && (|t| < |p| ==> p[|p| - |t| - 1] == '/')
    ensures s == t
  {
  }

  /** Joining a directory with a plain file name (one without a separator) gives
      a path whose basename is that name, whatever the directory is. */
  lemma BasenameOfJoin(dir: Path, name: Path)
    requires '/' !in name
    ensures Basename(Join(dir, name)) == name
  {
    var p := Join(dir, name);
    SlashFreeSuffixUnique(p, Basename(p), name);
  }
}
