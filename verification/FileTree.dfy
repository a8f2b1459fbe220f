/**
 A file tree and the few changes the storage migration makes to it.

 A job moves everything under one directory to the same place under another.  What matters is that after
 every single change each file of the source is still complete on one of the two sides.
 */
module FileTree {
  type Path = seq<string>
  type Bytes = seq<int>

  datatype Node = Dir | File(data: Bytes)

  type Tree = map<Path, Node>

  datatype Job = Job(start: Tree, src: Path, dst: Path)

  function Parent(p: Path): Path
    requires p != []
  {
    p[..|p| - 1]
  }

  /** Everything in the tree sits in a directory of the tree. */
  ghost predicate Closed(t: Tree) {
    forall p :: p in t && p != [] ==> Parent(p) in t && t[Parent(p)].Dir?
  }

  /** The place that corresponds to `p` when `from` becomes `to`. */
  function Rebase(p: Path, from: Path, to: Path): (r: Path)
    requires from <= p
    ensures to <= r && from + r[|to|..] == p
  {
    to + p[|from|..]
  }

  predicate Same(t: Tree, u: Tree, p: Path) {
    (p in t <==> p in u) && (p in t ==> t[p] == u[p])
  }

  /**
   No file is lost or changed: those of the source are in place or complete at the destination, all others,
   those already at the destination included, are as they were.
   */
  predicate KeptAt(job: Job, t: Tree, p: Path) {
    p in job.start && job.start[p].File? ==>
      || (p in t && t[p] == job.start[p])
      || (job.src <= p && !(job.dst <= p) && Rebase(p, job.src, job.dst) in t && t[Rebase(p, job.src, job.dst)] == job.start[p])
  }

  ghost predicate Kept(job: Job, t: Tree) {
    forall p :: KeptAt(job, t, p)
  }

  // ---------------------------------------------------------------- changes

  /** A copy of `q` and everything under it at `r`. */
  function CopyOf(t: Tree, q: Path, r: Path): Tree {
    map p | p in (set x | x in t && q <= x :: Rebase(x, q, r)) :: t[q + p[|r|..]]
  }

  /** `q` with everything under it becomes `r`, in one step. */
  function Renamed(t: Tree, q: Path, r: Path): Tree {
    Without(t, q, {}) + CopyOf(t, q, r)
  }

  function Without(t: Tree, q: Path, left: set<Path>): Tree {
    map p | p in t && (!(q <= p) || p in left) :: t[p]
  }

  predicate Vacant(t: Tree, r: Path) {
    forall p :: p in t ==> !(r <= p)
  }

  /** Part of the source that does not overlap the destination, and its place there, which is free. */
  predicate Movable(job: Job, t: Tree, q: Path, r: Path) {
    && job.src <= q && q in t && !(job.dst <= q) && !(q <= job.dst)
    && r == Rebase(q, job.src, job.dst) && Vacant(t, r)
  }

  lemma {:induction false} VacantWhenMissing(t: Tree, r: Path)
    requires Closed(t) && r !in t
    ensures Vacant(t, r)
  {
    forall p | p in t
      ensures !(r <= p)
    {
      NothingBelow(t, r, p);
    }
  }

  lemma {:induction false} NothingBelow(t: Tree, r: Path, p: Path)
    requires Closed(t) && r !in t && p in t
    ensures !(r <= p)
    decreases |p|
  {
    if r <= p && r != p {
      assert r <= Parent(p);
      NothingBelow(t, r, Parent(p));
    }
  }

  lemma CopyAt(t: Tree, q: Path, r: Path, p: Path)
    ensures p in CopyOf(t, q, r) <==> r <= p && q + p[|r|..] in t
    ensures p in CopyOf(t, q, r) ==> CopyOf(t, q, r)[p] == t[q + p[|r|..]]
  {
    if r <= p && q + p[|r|..] in t {
      var x := q + p[|r|..];
      assert q <= x && Rebase(x, q, r) == p;
    }
  }

  lemma RenamedAt(t: Tree, q: Path, r: Path, p: Path)
    requires Vacant(t, r) && !(q <= r)
    ensures r <= p ==> (p in Renamed(t, q, r) <==> q + p[|r|..] in t) && (p in Renamed(t, q, r) ==> Renamed(t, q, r)[p] == t[q + p[|r|..]])
    ensures !(r <= p) && q <= p ==> p !in Renamed(t, q, r)
    ensures !(r <= p) && !(q <= p) ==> Same(t, Renamed(t, q, r), p)
  {
    CopyAt(t, q, r, p);
  }

  lemma Comparable(a: Path, b: Path, p: Path)
    requires a <= p && b <= p
    ensures a <= b || b <= a
  {
    if |a| <= |b| {
      assert a == p[..|a|] && b[..|a|] == p[..|a|];
    } else {
      assert b == p[..|b|] && a[..|b|] == p[..|b|];
    }
  }

  /** Nothing under the destination is under a movable part of the source. */
  lemma NotUnder(job: Job, t: Tree, q: Path, r: Path, p: Path)
    requires Movable(job, t, q, r) && job.dst <= p
    ensures !(q <= p)
  {
    if q <= p {
      Comparable(q, job.dst, p);
    }
  }

  lemma Apart(job: Job, t: Tree, q: Path, r: Path)
    requires Movable(job, t, q, r)
    ensures !(q <= r) && !(r <= q) && job.dst <= r
  {
    NotUnder(job, t, q, r, r);
  }

  /** Where a file under `q` goes. */
  lemma Lands(job: Job, t: Tree, q: Path, r: Path, p: Path)
    requires Movable(job, t, q, r) && q <= p
    ensures r <= Rebase(p, job.src, job.dst) && q + Rebase(p, job.src, job.dst)[|r|..] == p
    ensures Rebase(p, job.src, job.dst) == Rebase(p, q, r)
  {
    assert p == q + p[|q|..];
    assert p[|job.src|..] == q[|job.src|..] + p[|q|..];
  }

  lemma RenameKeeps(job: Job, t: Tree, q: Path, r: Path)
    requires Kept(job, t) && Movable(job, t, q, r)
    ensures Kept(job, Renamed(t, q, r))
  {
    Apart(job, t, q, r);
    var u := Renamed(t, q, r);
    forall p
      ensures KeptAt(job, u, p)
    {
      assert KeptAt(job, t, p);
      if p in job.start && job.start[p].File? {
        RenamedAt(t, q, r, p);
        if p in t && t[p] == job.start[p] {
          if q <= p {
            Lands(job, t, q, r, p);
            RenamedAt(t, q, r, Rebase(p, job.src, job.dst));
          }
        } else {
          RenamedAt(t, q, r, Rebase(p, job.src, job.dst));
        }
      }
    }
  }

  /** New entries at a free place, one of them the place itself. */
  ghost predicate Sprout(more: Tree, r: Path) {
    && (more != map[] ==> r in more)
    && forall p :: p in more ==> r <= p && (p != r ==> Parent(p) in more && more[Parent(p)].Dir?)
  }

  lemma AddKeeps(job: Job, t: Tree, r: Path, more: Tree)
    requires Kept(job, t) && Vacant(t, r) && Sprout(more, r)
    ensures Kept(job, t + more)
  {
    forall p
      ensures KeptAt(job, t + more, p)
    {
      assert KeptAt(job, t, p);
    }
  }

  lemma AddStaysClosed(t: Tree, r: Path, more: Tree)
    requires Closed(t) && Vacant(t, r) && Sprout(more, r) && r != [] && Parent(r) in t && t[Parent(r)].Dir?
    ensures Closed(t + more)
  {
    forall p | p in t + more && p != []
      ensures Parent(p) in t + more && (t + more)[Parent(p)].Dir?
    {
      if p in more {
        assert p == r ==> Parent(p) !in more;
      } else {
        assert Parent(p) !in more;
      }
    }
  }

  lemma CopySprouts(t: Tree, q: Path, r: Path)
    requires Closed(t) && q in t
    ensures Sprout(CopyOf(t, q, r), r)
  {
    var more := CopyOf(t, q, r);
    CopyAt(t, q, r, r);
    assert q + r[|r|..] == q;
    forall p | p in more
      ensures r <= p && (p != r ==> Parent(p) in more && more[Parent(p)].Dir?)
    {
      CopyAt(t, q, r, p);
      if p != r {
        CopyAt(t, q, r, Parent(p));
        assert q + Parent(p)[|r|..] == Parent(q + p[|r|..]);
      }
    }
  }

  /** Removing the source of a complete copy, wholly or in part. */
  lemma RemoveKeeps(job: Job, t: Tree, q: Path, r: Path, left: set<Path>)
    requires Kept(job, t) && Movable(job, t, q, r)
    ensures Kept(job, Without(t + CopyOf(t, q, r), q, left))
  {
    Apart(job, t, q, r);
    var u := Without(t + CopyOf(t, q, r), q, left);
    forall p
      ensures KeptAt(job, u, p)
    {
      assert KeptAt(job, t, p);
      if p in job.start && job.start[p].File? {
        CopyAt(t, q, r, p);
        if p in t && t[p] == job.start[p] {
          if q <= p {
            Lands(job, t, q, r, p);
            CopyAt(t, q, r, Rebase(p, job.src, job.dst));
            assert !(q <= Rebase(p, job.src, job.dst)) by {
              NotUnder(job, t, q, r, Rebase(p, job.src, job.dst));
            }
          }
        } else {
          NotUnder(job, t, q, r, Rebase(p, job.src, job.dst));
          CopyAt(t, q, r, Rebase(p, job.src, job.dst));
        }
      }
    }
  }

  /** The remaining part of a directory being removed is still a tree. */
  ghost predicate Remnant(left: set<Path>, q: Path) {
    forall p :: p in left && p != q && q <= p ==> Parent(p) in left
  }

  lemma RemoveStaysClosed(t: Tree, q: Path, left: set<Path>)
    requires Closed(t) && Remnant(left, q)
    ensures Closed(Without(t, q, left))
  {
    var u := Without(t, q, left);
    forall p | p in u && p != []
      ensures Parent(p) in u && u[Parent(p)].Dir?
    {
      assert q <= Parent(p) ==> q <= p && p != q;
    }
  }

  lemma RenameStaysClosed(job: Job, t: Tree, q: Path, r: Path)
    requires Closed(t) && Movable(job, t, q, r) && r != [] && Parent(r) in t && t[Parent(r)].Dir?
    ensures Closed(Renamed(t, q, r))
  {
    Apart(job, t, q, r);
    var u := Without(t, q, {});
    RemoveStaysClosed(t, q, {});
    CopySprouts(t, q, r);
    assert Parent(r) in u by {
      assert q <= Parent(r) ==> q <= r;
    }
    AddStaysClosed(u, r, CopyOf(t, q, r));
  }
}
