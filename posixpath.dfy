/** The two functions of Python's posixpath module that the File resource uses:
    os.path.basename and os.path.dirname, on '/'-separated paths. */
module PosixPath {

  /** Index of the last '/' in p, or -1 when p has none (Python's str.rfind). */
  function LastSlash(p: string): (k: int)
    ensures -1 <= k < |p|
  {
    if p == [] then -1
    else if p[|p| - 1] == '/' then |p| - 1
    else LastSlash(p[..|p| - 1])
  }

  /** LastSlash finds a '/' with no '/' after it, or reports that there is none. */
  lemma {:induction false} LastSlashIsLast(p: string)
    ensures LastSlash(p) >= 0 ==> p[LastSlash(p)] == '/'
    ensures forall j :: LastSlash(p) < j < |p| ==> p[j] != '/'
  {
    if p != [] && p[|p| - 1] != '/' {
      LastSlashIsLast(p[..|p| - 1]);
    }
  }

  /** os.path.basename: everything after the last '/'. */
  function Basename(p: string): string
  {
    p[LastSlash(p) + 1..]
  }

  predicate AllSlashes(s: string)
  {
    forall j :: 0 <= j < |s| ==> s[j] == '/'
  }

  /** str.rstrip('/'): the longest prefix that does not end in '/'. */
  function TrimTrailingSlashes(s: string): string
  {
    if s != [] && s[|s| - 1] == '/' then TrimTrailingSlashes(s[..|s| - 1]) else s
  }

  /** rstrip keeps a prefix, which ends in something other than '/' unless it is
      empty, and removes only slashes. */
  lemma {:induction false} TrimKeepsPrefix(s: string)
    ensures TrimTrailingSlashes(s) <= s
    ensures TrimTrailingSlashes(s) == [] || TrimTrailingSlashes(s)[|TrimTrailingSlashes(s)| - 1] != '/'
    ensures forall j :: |TrimTrailingSlashes(s)| <= j < |s| ==> s[j] == '/'
  {
    if s != [] && s[|s| - 1] == '/' {
      TrimKeepsPrefix(s[..|s| - 1]);
    }
  }

  /** os.path.dirname: the prefix up to and including the last '/', with trailing
      slashes removed unless that prefix is made only of slashes (the root). */
  function Dirname(p: string): string
  {
    var head := p[..LastSlash(p) + 1];
    if head != [] && !AllSlashes(head) then TrimTrailingSlashes(head) else head
  }

  /** A basename never holds a separator. */
  lemma BasenameHasNoSlash(p: string)
    ensures '/' !in Basename(p)
  {
    var k := LastSlash(p);
    LastSlashIsLast(p);
    forall j | 0 <= j < |Basename(p)| ensures Basename(p)[j] != '/' {
      assert Basename(p)[j] == p[k + 1 + j];
    }
  }

  /** Splitting a path built as dir + "/" + name gives back dir and name, when dir is
      non-empty and does not itself end in '/'. */
  lemma SplitJoin(d: string, b: string)
    requires '/' !in b
    requires d != [] && d[|d| - 1] != '/'
    ensures Dirname(d + "/" + b) == d
    ensures Basename(d + "/" + b) == b
  {
    var p := d + "/" + b;
    var k := LastSlash(p);
    LastSlashIsLast(p);
    assert p[|d|] == '/';
    forall j | |d| < j < |p| ensures p[j] != '/' {
      assert p[j] == b[j - |d| - 1];
    }
    assert k == |d|;
    assert p[k + 1..] == b;
    var head := p[..k + 1];
    assert head == d + "/";
    assert head[|d| - 1] != '/';
    var r := TrimTrailingSlashes(head);
    TrimKeepsPrefix(head);
    assert |r| == |d|;
    assert r == head[..|d|] == d;
  }
}
