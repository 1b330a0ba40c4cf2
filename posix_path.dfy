/**
 * The three `os.path` functions the service relies on, with the semantics
 * of Python's `posixpath` module (separator '/').
 */
module PosixPath {

  const Sep: char := '/'

  /** Index of the last separator in `p`, or -1 when there is none (`p.rfind('/')`). */
  function RFindSep(p: string): (i: int)
    ensures -1 <= i < |p|
    ensures 0 <= i ==> p[i] == Sep
    ensures forall j :: i < j < |p| ==> p[j] != Sep
  {
    if |p| == 0 then -1
    else if p[|p| - 1] == Sep then |p| - 1
    else RFindSep(p[..|p| - 1])
  }

  /** `os.path.basename`: the longest suffix of `p` that holds no separator. */
  function Basename(p: string): (r: string)
    ensures Sep !in r
    ensures |r| <= |p| && r == p[|p| - |r|..]
    ensures |r| == |p| || p[|p| - |r| - 1] == Sep
  {
    p[RFindSep(p) + 1..]
  }

  predicate AllSeps(s: string)
  {
    forall k :: 0 <= k < |s| ==> s[k] == Sep
  }

  /** `s.rstrip('/')`. */
  function TrimTrailingSeps(s: string): (r: string)
    ensures |r| <= |s| && r == s[..|r|]
    ensures forall k :: |r| <= k < |s| ==> s[k] == Sep
    ensures r == "" || r[|r| - 1] != Sep
  {
    if |s| > 0 && s[|s| - 1] == Sep then TrimTrailingSeps(s[..|s| - 1]) else s
  }

  /**
   * `os.path.dirname`: everything up to the last separator, with trailing
   * separators removed unless that part consists of separators only.
   */
  function Dirname(p: string): (r: string)
    ensures |r| <= |p| && r == p[..|r|]
    ensures Sep !in p <==> r == ""
    ensures r == "" || AllSeps(r) || r[|r| - 1] != Sep
    ensures |r| <= RFindSep(p) + 1 && forall k :: |r| <= k <= RFindSep(p) ==> p[k] == Sep
    ensures AllSeps(p[..RFindSep(p) + 1]) ==> r == p[..RFindSep(p) + 1]
  {
    var head := p[..RFindSep(p) + 1];
    if head != "" && !AllSeps(head) then TrimTrailingSeps(head) else head
  }

  /** `os.path.join(a, b)`: an absolute `b` replaces `a`; otherwise one separator is put between them when `a` does not already end with one. */
  function Join(a: string, b: string): (r: string)
    ensures |b| <= |r| && r[|r| - |b|..] == b
    ensures (b == "" || b[0] != Sep) ==> |a| <= |r| && r[..|a|] == a
    ensures |b| > 0 && b[0] == Sep ==> r == b
    ensures (b == "" || b[0] != Sep) && (a == "" || a[|a| - 1] == Sep) ==> r == a + b
    ensures (b == "" || b[0] != Sep) && a != "" && a[|a| - 1] != Sep ==> r == a + [Sep] + b
  {
    if |b| > 0 && b[0] == Sep then b
    else if a == "" || a[|a| - 1] == Sep then a + b
    else a + [Sep] + b
  }

  /** Joining a separator-free component and taking the basename gives that component back. */
  lemma {:induction false} BasenameOfJoin(a: string, b: string)
    requires Sep !in b
    ensures Basename(Join(a, b)) == b
  {
    var r := Join(a, b);
    // `b` is a separator-free suffix of `r` preceded by a separator (or by nothing)
    assert r == (if a == "" || a[|a| - 1] == Sep then a + b else a + [Sep] + b);
    assert |r| == |b| || r[|r| - |b| - 1] == Sep;
  }

  /** The basename of anything followed by a separator and a separator-free component is that component. */
  lemma BasenameAfterSep(prefix: string, b: string)
    requires Sep !in b
    ensures Basename(prefix + [Sep] + b) == b
  {
    var p := prefix + [Sep] + b;
    assert p[|prefix|] == Sep;
  }

  /**
   * The directory part of `a/b`, for a separator-free `b` and an `a` that
   * does not end with a separator, is `a`.
   */
  lemma DirnameOfJoin(a: string, b: string)
    requires Sep !in b && a != "" && a[|a| - 1] != Sep
    ensures Dirname(Join(a, b)) == a
  {
    var p := Join(a, b);
    assert p == a + [Sep] + b;
    assert p[|a|] == Sep;
    assert RFindSep(p) == |a| by {
      assert forall j :: |a| < j < |p| ==> p[j] == b[j - |a| - 1];
    }
    var head := p[..|a| + 1];
    assert head == a + [Sep];
    assert head[|a| - 1] != Sep;
    assert TrimTrailingSeps(head) == a;
  }
}
