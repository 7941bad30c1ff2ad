/** Repository targets and the ownership overlap test (`targets_overlap`). */
module Targets {

  /** `path` is the case-folded component list of the normalized repository path. */
  datatype Target = Target(remote: string, root: string, path: seq<string>, repoWide: bool)

  predicate Overlap(l: Target, r: Target) {
    if l.remote != r.remote || l.root != r.root then false
    else if l.repoWide || r.repoWide then true
    else
      var width := if |l.path| < |r.path| then |l.path| else |r.path|;
      l.path[..width] == r.path[..width]
  }

  /** A place in some repository that a worker could touch. */
  datatype Place = Place(remote: string, root: string, path: seq<string>)

  /** A path target owns its path and everything below it; a repo-wide one owns the repository. */
  ghost predicate Covers(t: Target, p: Place) {
    t.remote == p.remote && t.root == p.root && (t.repoWide || t.path <= p.path)
  }

  /** Two targets overlap exactly when some place lies under both. */
  lemma OverlapIsSharedPlace(l: Target, r: Target)
    ensures Overlap(l, r) <==> exists p :: Covers(l, p) && Covers(r, p)
  {
    var longer := if r.repoWide || (!l.repoWide && |r.path| <= |l.path|) then l.path else r.path;
    if Overlap(l, r) {
      assert Covers(l, Place(l.remote, l.root, longer)) && Covers(r, Place(l.remote, l.root, longer));
    }
    if p :| Covers(l, p) && Covers(r, p) && !l.repoWide && !r.repoWide {
      var width := if |l.path| < |r.path| then |l.path| else |r.path|;
      assert l.path[..width] == p.path[..width] == r.path[..width];
    }
  }

  lemma OverlapSymmetric(l: Target, r: Target)
    ensures Overlap(l, r) == Overlap(r, l)
  {
  }
}
