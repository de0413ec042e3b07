/**
 * The parts of Python's `posixpath` that the federated client uses to name a
 * per-provider output file: `basename`, `dirname` and `join`.
 */
module PosixPath {

  predicate AllSlashes(s: string)
  {
    forall i :: 0 <= i < |s| ==> s[i] == '/'
  }

  /** `p.rfind('/') + 1`: the index just past the last slash, 0 when there is none. */
  function AfterLastSlash(p: string): (i: nat)
    ensures i <= |p|
    ensures i > 0 ==> p[i - 1] == '/'
    ensures forall j :: i <= j < |p| ==> p[j] != '/'
  {
    if p == [] then 0
    else if p[|p| - 1] == '/' then |p|
    else AfterLastSlash(p[..|p| - 1])
  }

  /** `s.rstrip('/')`. */
  function StripTrailingSlashes(s: string): (r: string)
    ensures r <= s
    ensures r == [] || r[|r| - 1] != '/'
  {
    if s != [] && s[|s| - 1] == '/' then StripTrailingSlashes(s[..|s| - 1]) else s
  }

  /** `posixpath.basename(p)`: everything after the last slash. */
  function Basename(p: string): (r: string)
    ensures '/' !in r
    ensures |r| <= |p| && r == p[|p| - |r|..]
  {
    p[AfterLastSlash(p)..]
  }

  /**
   * `posixpath.dirname(p)`: everything up to the last slash, with trailing
   * slashes removed unless it consists of slashes only.
   */
  function Dirname(p: string): (r: string)
    ensures r == [] || AllSlashes(r) || r[|r| - 1] != '/'
  {
    var head := p[..AfterLastSlash(p)];
    if head != [] && !AllSlashes(head) then StripTrailingSlashes(head) else head
  }

  /** `posixpath.join(a, b)`. */
  function Join(a: string, b: string): string
  {
    if |b| > 0 && b[0] == '/' then b
    else if a == [] || a[|a| - 1] == '/' then a + b
    else a + "/" + b
  }

  /** Appending slash-free text does not move the last slash. */
  lemma {:induction false} AfterLastSlashAppend(a: string, b: string)
    requires '/' !in b
    ensures AfterLastSlash(a + b) == AfterLastSlash(a)
  {
    if b != [] {
      var ab := a + b;
      assert ab[|ab| - 1] == b[|b| - 1];
      assert ab[..|ab| - 1] == a + b[..|b| - 1];
      AfterLastSlashAppend(a, b[..|b| - 1]);
    } else {
      assert a + b == a;
    }
  }

  /**
   * Joining a directory produced by `dirname` with a slash-free name gives a
   * path whose `basename` is that name and whose `dirname` is that directory.
   */
  lemma DirnameBasenameOfJoin(dir: string, name: string)
    requires dir == [] || AllSlashes(dir) || dir[|dir| - 1] != '/'
    requires '/' !in name
    ensures Basename(Join(dir, name)) == name
    ensures Dirname(Join(dir, name)) == dir
  {
    var joined := Join(dir, name);
    if dir == [] || dir[|dir| - 1] == '/' {
      assert joined == dir + name;
      AfterLastSlashAppend(dir, name);
      assert AfterLastSlash(dir) == |dir|;
      assert joined[..|dir|] == dir;
    } else {
      assert joined == (dir + "/") + name;
      AfterLastSlashAppend(dir + "/", name);
      var head := joined[..|dir| + 1];
      assert head == dir + "/";
      assert head[|head| - 1] == '/' && head[..|head| - 1] == dir;
      assert !AllSlashes(head) by {
        assert head[|dir| - 1] == dir[|dir| - 1];
      }
      assert StripTrailingSlashes(head) == StripTrailingSlashes(dir) == dir;
    }
  }
}
