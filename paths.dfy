/**
 * The two `os.path` operations the downloader uses on POSIX paths:
 * `join`, to build destinations, and `dirname`, which `download_file`
 * uses to find the folder it must create.
 */
module Paths {
  predicate NoSlash(s: string) {
    forall i :: 0 <= i < |s| ==> s[i] != '/'
  }

  predicate AllSlashes(s: string) {
    forall i :: 0 <= i < |s| ==> s[i] == '/'
  }

  /**
   * `os.path.join(a, b)`: an absolute `b` replaces `a`; otherwise one '/'
   * separates the two unless `a` is empty or already ends in '/'.
   * `b` always ends the result, and a relative `b` keeps `a` in front.
   */
  function Join(a: string, b: string): (r: string)
    ensures |b| <= |r| && r[|r| - |b|..] == b
    ensures (b == [] || b[0] != '/') ==> |a| <= |r| && r[..|a|] == a
    ensures b != [] && b[0] == '/' ==> r == b
    ensures (b == [] || b[0] != '/') && (a == [] || a[|a| - 1] == '/') ==> r == a + b
    ensures (b == [] || b[0] != '/') && a != [] && a[|a| - 1] != '/' ==> r == a + "/" + b
  {
    if b != [] && b[0] == '/' then b
    else if a == [] || a[|a| - 1] == '/' then a + b
    else a + "/" + b
  }

  /** Joining a folder that does not end in '/' and a relative name puts one '/' between them. */
  lemma JoinWithSeparator(a: string, b: string)
    requires a != [] && a[|a| - 1] != '/'
    requires b != [] && b[0] != '/'
    ensures Join(a, b) == a + "/" + b
  {
  }

  /** The index just past the last '/' of `p`, or 0 when `p` has none. */
  function LastSlashEnd(p: string): (i: nat)
    ensures i <= |p|
    ensures i > 0 ==> p[i - 1] == '/'
    ensures forall k :: i <= k < |p| ==> p[k] != '/'
  {
    if p == [] then 0
    else if p[|p| - 1] == '/' then |p|
    else LastSlashEnd(p[..|p| - 1])
  }

  /** Length of the longest suffix of `s` made of '/'. */
  function TrailingSlashes(s: string): (k: nat)
    ensures k <= |s|
    ensures forall i :: |s| - k <= i < |s| ==> s[i] == '/'
    ensures k < |s| ==> s[|s| - 1 - k] != '/'
  {
    if s == [] || s[|s| - 1] != '/' then 0 else 1 + TrailingSlashes(s[..|s| - 1])
  }

  /**
   * `os.path.dirname(p)`: everything up to the last '/', with the trailing
   * slashes removed unless nothing but slashes is left. The result is a
   * prefix of `p`, and it is empty exactly when `p` holds no '/'.
   */
  function DirName(p: string): (r: string)
    ensures |r| <= |p| && r == p[..|r|]
    ensures r == [] <==> NoSlash(p)
  {
    var head := p[..LastSlashEnd(p)];
    if head != [] && !AllSlashes(head) then head[..|head| - TrailingSlashes(head)] else head
  }

  /**
   * Joining a folder that does not end in '/' with a plain file name, then
   * asking for the folder back, gives that folder.
   */
  lemma DirNameOfJoin(d: string, f: string)
    requires d != [] && d[|d| - 1] != '/'
    requires NoSlash(f)
    ensures DirName(Join(d, f)) == d
  {
    var p := Join(d, f);
    assert p == d + "/" + f;
    assert p[|d|] == '/';
    assert forall k :: |d| + 1 <= k < |p| ==> p[k] == f[k - |d| - 1];
    var i := LastSlashEnd(p);
    assert i == |d| + 1;
    var head := p[..i];
    assert head == d + "/";
    assert head[|d| - 1] != '/';
    assert TrailingSlashes(head) == 1;
    assert head[..|head| - 1] == d;
  }
}
