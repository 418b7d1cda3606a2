/**
 * os.path.split and os.path.join as Python's posixpath module defines them,
 * with '/' as the only separator.
 */
module PosixPath {
  import PyStr

  /** p.rfind('/') + 1: where the head ends before its trailing slashes are stripped. */
  function SlashEnd(p: string): (i: nat)
    ensures i <= |p|
    ensures i > 0 ==> p[i - 1] == '/'
    ensures forall j :: i <= j < |p| ==> p[j] != '/'
  {
    if |p| == 0 then 0
    else if p[|p| - 1] == '/' then |p|
    else SlashEnd(p[..|p| - 1])
  }

  predicate AllSlashes(h: string) {
    forall j :: 0 <= j < |h| ==> h[j] == '/'
  }

  /** h.rstrip('/') */
  function RStripSlashes(h: string): (r: string)
    ensures PyStr.StartsWith(h, r)
    ensures r == [] || r[|r| - 1] != '/'
    ensures forall j :: |r| <= j < |h| ==> h[j] == '/'
  {
    if |h| > 0 && h[|h| - 1] == '/' then RStripSlashes(h[..|h| - 1]) else h
  }

  /** The head keeps its trailing slashes only when it consists of nothing else. */
  function TrimHead(h: string): (r: string)
    ensures PyStr.StartsWith(h, r)
    ensures forall j :: |r| <= j < |h| ==> h[j] == '/'
    ensures r == [] || r[|r| - 1] != '/' || AllSlashes(r)
  {
    if h != [] && !AllSlashes(h) then RStripSlashes(h) else h
  }

  /** os.path.split: (head, tail), where tail is everything after the last '/'. */
  function Split(p: string): (string, string) {
    (TrimHead(p[..SlashEnd(p)]), p[SlashEnd(p)..])
  }

  /**
   * The tail is everything after the last '/', the head a prefix of the path,
   * and only slashes lie between them; the head loses its trailing slashes
   * unless it is all slashes.
   */
  lemma SplitSpec(p: string)
    ensures var parts := Split(p);
      && PyStr.StartsWith(p, parts.0)
      && PyStr.EndsWith(p, parts.1)
      && '/' !in parts.1
      && (|parts.1| == |p| || p[|p| - |parts.1| - 1] == '/')
      && |parts.0| + |parts.1| <= |p|
      && (forall j :: |parts.0| <= j < |p| - |parts.1| ==> p[j] == '/')
      && (parts.0 == [] || parts.0[|parts.0| - 1] != '/' || AllSlashes(parts.0))
      && (AllSlashes(parts.0) ==> |parts.0| + |parts.1| == |p|)
  {
    var i := SlashEnd(p);
    var h := p[..i];
    var head := TrimHead(h);
    assert forall j :: |head| <= j < i ==> p[j] == h[j];
    if h != [] && !AllSlashes(h) {
      var j :| 0 <= j < |h| && h[j] != '/';
      assert j < |head|;
      assert !AllSlashes(head) by {
        assert head[|head| - 1] != '/';
      }
    }
  }

  /** os.path.join of two components. */
  function Join(a: string, b: string): (r: string)
    ensures PyStr.StartsWith(b, "/") ==> r == b
    ensures !PyStr.StartsWith(b, "/") ==> PyStr.StartsWith(r, a) && PyStr.EndsWith(r, b)
    ensures !PyStr.StartsWith(b, "/") ==>
      |r| == |a| + |b| + (if a == [] || PyStr.EndsWith(a, "/") then 0 else 1)
    ensures !PyStr.StartsWith(b, "/") && a != [] ==> r[|r| - |b| - 1] == '/'
  {
    if PyStr.StartsWith(b, "/") then b
    else if a == [] || PyStr.EndsWith(a, "/") then a + b
    else a + "/" + b
  }

  /** With no '/' in `name`, the last slash of x + name is the last character of x. */
  lemma SlashEndBeforeName(x: string, name: string)
    requires x == [] || x[|x| - 1] == '/'
    requires '/' !in name
    ensures SlashEnd(x + name) == |x|
  {
    var p := x + name;
    assert forall j :: |x| <= j < |p| ==> p[j] == name[j - |x|];
    assert forall j :: |x| <= j < |p| ==> p[j] != '/';
    assert x != [] ==> p[|x| - 1] == '/';
  }

  /** Splitting x + name, where x is empty or ends in '/', cuts exactly at the end of x. */
  lemma SplitAfterSlash(x: string, name: string)
    requires x == [] || x[|x| - 1] == '/'
    requires '/' !in name
    ensures Split(x + name) == (TrimHead(x), name)
  {
    SlashEndBeforeName(x, name);
    assert (x + name)[..|x|] == x;
    assert (x + name)[|x|..] == name;
  }

  /** Appending one '/' to a directory that does not end in '/' is undone by the head trimming. */
  lemma TrimHeadAddedSlash(dir: string)
    requires dir != [] && dir[|dir| - 1] != '/'
    ensures TrimHead(dir + "/") == TrimHead(dir) == dir
  {
    var x := dir + "/";
    assert x[..|x| - 1] == dir;
    assert !AllSlashes(x) by {
      assert x[|dir| - 1] == dir[|dir| - 1];
    }
    assert !AllSlashes(dir) by {
      assert dir[|dir| - 1] != '/';
    }
  }

  /**
   * Splitting a joined path gives back the file name, and as head the
   * directory with its trailing slashes stripped (unless it is all slashes).
   */
  lemma SplitJoin(dir: string, name: string)
    requires name != [] && '/' !in name
    ensures Split(Join(dir, name)) == (TrimHead(dir), name)
  {
    assert !PyStr.StartsWith(name, "/") by {
      assert name[0] in name;
    }
    if dir == [] || PyStr.EndsWith(dir, "/") {
      SplitAfterSlash(dir, name);
    } else {
      var x := dir + "/";
      assert Join(dir, name) == x + name;
      SplitAfterSlash(x, name);
      TrimHeadAddedSlash(dir);
    }
  }

  /** A path ending in '/' splits into the whole path, trimmed, and an empty name. */
  lemma SplitSlashEnded(p: string)
    requires p != [] && p[|p| - 1] == '/'
    ensures Split(p) == (TrimHead(p), "")
  {
    assert p[..|p|] == p;
    assert p[|p|..] == "";
  }

  /** A path not ending in '/' that is not all slashes is its own trimmed head, and its split head is shorter. */
  lemma SplitUnslashed(p: string)
    requires p != [] && p[|p| - 1] != '/'
    ensures TrimHead(p) == p
    ensures |Split(p).0| < |p|
  {
    assert !AllSlashes(p) by {
      assert p[|p| - 1] != '/';
    }
    assert SlashEnd(p) < |p|;
  }
}
