/**
 Merging an old storage directory into a new one, child by child, with every way a move can go wrong.
 The destination may lie inside the source; the source must not lie inside the destination.
 */
module StorageMigration {
  import opened FileTree

  /**
   What the disk does when one path is moved.  If it cannot rename, a copy is made: `partial` is what is there
   of a directory copy when it stops, `finished` whether it completed, `left` what then resists removal.
   */
  datatype Luck = Luck(renames: bool, partial: Tree, finished: bool, left: set<Path>)

  datatype Outcome = Moved | Skipped | Failed

  /** The path goes, and nothing of it stays behind. */
  predicate Smooth(luck: Luck) {
    luck.renames || (luck.finished && luck.left == {})
  }

  /** Neither a rename nor a complete copy. */
  predicate Hopeless(luck: Luck) {
    !luck.renames && !luck.finished
  }

  /** The moves that fail while the first list of failures becomes the second: the last entries, each of them beyond help. */
  ghost predicate FailedSince(before: seq<Path>, after: seq<Path>, env: Path -> Luck) {
    before <= after && forall k :: |before| <= k < |after| ==> Hopeless(env(after[k]))
  }

  ghost predicate Plausible(luck: Luck, q: Path, r: Path) {
    Sprout(luck.partial, r) && Remnant(luck.left, q)
  }

  /** The place of a path of the source at the destination. */
  function Place(job: Job, q: Path): Path
    requires job.src <= q
  {
    Rebase(q, job.src, job.dst)
  }

  ghost predicate AlwaysPlausible(job: Job, env: Path -> Luck) {
    forall q: Path {:trigger env(q)} :: job.src <= q ==> Plausible(env(q), q, Place(job, q))
  }

  /** Only paths under the two given ones have changed. */
  ghost predicate Frame(t: Tree, u: Tree, q: Path, r: Path) {
    forall p :: !(q <= p) && !(r <= p) ==> Same(t, u, p)
  }

  /** Outside the destination nothing appears or changes; inside it nothing that was there disappears or changes. */
  ghost predicate Onward(job: Job, t: Tree, u: Tree) {
    && (forall p :: p in u && !(job.dst <= p) ==> p in t && u[p] == t[p])
    && (forall p :: p in t && job.dst <= p ==> p in u && u[p] == t[p])
  }

  /** Something has arrived at the destination. */
  ghost predicate Arrived(job: Job, t: Tree, u: Tree) {
    exists p :: p in u && job.dst <= p && p !in t
  }

  /** `moved` is what a merge reports: when it says so something arrived, and unless a move failed, only then. */
  ghost predicate Reports(job: Job, t: Tree, u: Tree, moved: bool, failed: bool) {
    (moved ==> Arrived(job, t, u)) && (!failed && !moved ==> !Arrived(job, t, u))
  }

  lemma ReportsTwice(job: Job, t: Tree, u: Tree, v: Tree, first: bool, second: bool, f: bool, g: bool)
    requires Onward(job, t, u) && Onward(job, u, v) && Reports(job, t, u, first, f) && Reports(job, u, v, second, g)
    ensures Reports(job, t, v, first || second, f || g)
  {
    if first {
      var p :| p in u && job.dst <= p && p !in t;
      assert p in v;
    }
    if second {
      var p :| p in v && job.dst <= p && p !in u;
      assert p !in t;
    }
  }

  /**
   Why a path stays: it was to be skipped, it contains the destination, something is in its place, or the disk
   does not let all of it go.
   */
  predicate Obstacle(job: Job, env: Path -> Luck, t: Tree, src: Path, ignored: set<string>, q: Path)
    requires job.src <= src <= q && |src| < |q|
  {
    || (|q| == |src| + 1 && q[|src|] in ignored)
    || q <= job.dst
    || !Smooth(env(q))
    || (q in t && Place(job, q) in t && !(t[q].Dir? && t[Place(job, q)].Dir?))
  }

  ghost predicate Stuck(job: Job, env: Path -> Luck, t: Tree, src: Path, ignored: set<string>, p: Path)
    requires job.src <= src <= p
  {
    exists k :: |src| < k <= |p| && Obstacle(job, env, t, src, ignored, p[..k])
  }

  /** A file of the source that is still there and not part of the destination. */
  predicate Remains(job: Job, t: Tree, src: Path, p: Path) {
    src <= p && |src| < |p| && !(job.dst <= p) && p in t && t[p].File?
  }

  /** No file is left that could have been moved, among the children that are done. */
  ghost predicate Drained(job: Job, env: Path -> Luck, t: Tree, src: Path, ignored: set<string>, todo: set<string>)
    requires job.src <= src
  {
    forall p :: Remains(job, t, src, p) && p[|src|] !in todo ==> Stuck(job, env, t, src, ignored, p)
  }

  /** The two directories of one level of the recursion. */
  ghost predicate Level(job: Job, t: Tree, src: Path, dst: Path) {
    && job.src <= src && dst == Place(job, src) && !(job.dst <= src) && (src == job.src || !(src <= job.dst))
    && src in t && t[src].Dir? && dst in t && t[dst].Dir?
  }

  lemma ChildIsApart(job: Job, t: Tree, src: Path, dst: Path, n: string)
    requires Level(job, t, src, dst) && !(src + [n] <= dst)
    ensures var child := src + [n];
            && job.src <= child && !(job.dst <= child) && !(child <= job.dst) && Place(job, child) == dst + [n]
  {
    var child := src + [n];
    assert child[..|src|] == src;
    assert child[|job.src|..] == src[|job.src|..] + [n];
    assert job.dst <= child && job.dst != child ==> job.dst <= src;
    assert child <= job.dst ==> src <= job.dst;
  }

  /** A pair of child directories is the next level, with fewer paths to handle. */
  lemma DeeperLevel(job: Job, t: Tree, src: Path, dst: Path, n: string, own: set<Path>)
    requires Level(job, t, src, dst) && !(src + [n] <= dst)
    requires src + [n] in t && t[src + [n]].Dir? && dst + [n] in t && t[dst + [n]].Dir?
    requires forall p :: p in t && src <= p && !(job.dst <= p) ==> p in own
    ensures Level(job, t, src + [n], dst + [n]) && own - {src} < own
    ensures forall p :: p in t && src + [n] <= p && !(job.dst <= p) ==> p in own - {src}
  {
    ChildIsApart(job, t, src, dst, n);
    forall p | p in t && src + [n] <= p && !(job.dst <= p)
      ensures p in own - {src}
    {
      assert src <= src + [n] <= p && |p| > |src|;
    }
    assert src in own;
  }

  lemma {:induction false} AncestorIn(t: Tree, p: Path, k: nat)
    requires Closed(t) && p in t && k <= |p|
    ensures p[..k] in t
    decreases |p|
  {
    if k < |p| {
      AncestorIn(t, Parent(p), k);
      assert Parent(p)[..k] == p[..k];
    } else {
      assert p[..k] == p;
    }
  }

  lemma PlaceOf(job: Job, src: Path, dst: Path, q: Path)
    requires job.src <= src <= q && dst == Place(job, src)
    ensures Place(job, q) == dst + q[|src|..]
  {
    assert q[|job.src|..] == src[|job.src|..] + q[|src|..];
  }

  /** Handling one child touches no path of another, nor its place. */
  lemma OtherChildSame(job: Job, t: Tree, u: Tree, src: Path, dst: Path, n: string, q: Path)
    requires Level(job, t, src, dst) && !(src + [n] <= dst) && Frame(t, u, src + [n], dst + [n])
    requires src <= q && |src| < |q| && q[|src|] != n && !(job.dst <= q)
    ensures Same(t, u, q) && Same(t, u, Place(job, q))
  {
    ChildIsApart(job, t, src, dst, n);
    PlaceOf(job, src, dst, q);
    var child, target := src + [n], dst + [n];
    assert child[|src|] == n && target[|dst|] == n;
    assert !(child <= q);
    assert target <= q ==> job.dst <= q;
    var r := Place(job, q);
    assert r[|dst|] == q[|src|];
    assert !(target <= r);
    if child <= r {
      Comparable(child, job.dst, r);
    }
  }

  /** What was stuck under one child stays stuck while another is handled. */
  lemma StillStuck(job: Job, env: Path -> Luck, t: Tree, u: Tree, src: Path, dst: Path, ignored: set<string>, n: string, p: Path)
    requires Level(job, t, src, dst) && !(src + [n] <= dst) && Frame(t, u, src + [n], dst + [n])
    requires src <= p && |src| < |p| && !(job.dst <= p) && p[|src|] != n && Stuck(job, env, t, src, ignored, p)
    ensures Stuck(job, env, u, src, ignored, p)
  {
    var k :| |src| < k <= |p| && Obstacle(job, env, t, src, ignored, p[..k]);
    var q := p[..k];
    assert q[|src|] == p[|src|];
    assert job.dst <= q ==> job.dst <= p;
    OtherChildSame(job, t, u, src, dst, n, q);
    assert Obstacle(job, env, u, src, ignored, q);
  }

  // ---------------------------------------------------------------- moving one path

  /** The tree once a move is over, however it went. */
  function AfterMove(t: Tree, q: Path, r: Path, luck: Luck): Tree
    requires q in t
  {
    if luck.renames then Renamed(t, q, r)
    else if luck.finished then Without(t + CopyOf(t, q, r), q, luck.left)
    else if t[q].Dir? then t + luck.partial
    else t
  }

  lemma CopyFrame(t: Tree, q: Path, r: Path, left: set<Path>, p: Path)
    ensures !(q <= p) && !(r <= p) ==> Same(t, Without(t + CopyOf(t, q, r), q, left), p)
    ensures q <= p && !(r <= p) && p in Without(t + CopyOf(t, q, r), q, left) ==> Same(t, Without(t + CopyOf(t, q, r), q, left), p)
  {
    CopyAt(t, q, r, p);
  }

  lemma MoveFrame(job: Job, t: Tree, q: Path, r: Path, luck: Luck, p: Path)
    requires Movable(job, t, q, r) && Plausible(luck, q, r)
    ensures var u := AfterMove(t, q, r, luck);
            && (!(q <= p) && !(r <= p) ==> Same(t, u, p))
            && (!(r <= p) && p in u ==> Same(t, u, p))
  {
    Apart(job, t, q, r);
    if luck.renames {
      RenamedAt(t, q, r, p);
    } else if luck.finished {
      CopyFrame(t, q, r, luck.left, p);
    }
  }

  lemma MoveOnward(job: Job, t: Tree, q: Path, r: Path, luck: Luck)
    requires Movable(job, t, q, r) && Plausible(luck, q, r)
    ensures var u := AfterMove(t, q, r, luck); Frame(t, u, q, r) && Onward(job, t, u)
  {
    var u := AfterMove(t, q, r, luck);
    Apart(job, t, q, r);
    forall p
      ensures !(q <= p) && !(r <= p) ==> Same(t, u, p)
      ensures p in u && !(job.dst <= p) ==> p in t && u[p] == t[p]
      ensures p in t && job.dst <= p ==> p in u && u[p] == t[p]
    {
      MoveFrame(job, t, q, r, luck, p);
      assert !(job.dst <= p) ==> !(r <= p);
      if job.dst <= p {
        NotUnder(job, t, q, r, p);
      }
    }
  }

  // ---------------------------------------------------------------- one level of the recursion

  ghost predicate ChildDrained(job: Job, env: Path -> Luck, t: Tree, src: Path, n: string)
    requires job.src <= src
  {
    forall p :: Remains(job, t, src, p) && p[|src|] == n ==> Stuck(job, env, t, src, {}, p)
  }

  lemma GoneAt(job: Job, t: Tree, src: Path, dst: Path, n: string, luck: Luck, p: Path)
    requires Movable(job, t, src + [n], dst + [n]) && Smooth(luck)
    requires src <= p && |src| < |p| && p[|src|] == n && !(job.dst <= p)
    ensures p !in AfterMove(t, src + [n], dst + [n], luck)
  {
    var child, target := src + [n], dst + [n];
    Apart(job, t, child, target);
    assert p[..|child|] == child;
    assert target <= p ==> job.dst <= p;
    RenamedAt(t, child, target, p);
    CopyAt(t, child, target, p);
  }

  /** What is left of a child after a move: nothing, or what the disk would not let go. */
  lemma MovedIsDrained(job: Job, env: Path -> Luck, t: Tree, src: Path, dst: Path, n: string)
    requires job.src <= src && Movable(job, t, src + [n], dst + [n])
    ensures ChildDrained(job, env, AfterMove(t, src + [n], dst + [n], env(src + [n])), src, n)
  {
    var child := src + [n];
    var u := AfterMove(t, child, dst + [n], env(child));
    forall p | Remains(job, u, src, p) && p[|src|] == n
      ensures Stuck(job, env, u, src, {}, p)
    {
      if Smooth(env(child)) {
        GoneAt(job, t, src, dst, n, env(child), p);
      }
      assert p[..|src| + 1] == child;
      assert Obstacle(job, env, u, src, {}, p[..|src| + 1]);
    }
  }

  lemma BlockedIsDrained(job: Job, env: Path -> Luck, t: Tree, src: Path, n: string)
    requires Closed(t) && job.src <= src && src + [n] in t && Place(job, src + [n]) in t
    requires !(t[src + [n]].Dir? && t[Place(job, src + [n])].Dir?)
    ensures ChildDrained(job, env, t, src, n)
  {
    forall p | Remains(job, t, src, p) && p[|src|] == n
      ensures Stuck(job, env, t, src, {}, p)
    {
      var k := |src| + 1;
      assert p[..k] == src + [n];
      assert Obstacle(job, env, t, src, {}, p[..k]);
    }
  }

  lemma MergedIsDrained(job: Job, env: Path -> Luck, t: Tree, u: Tree, src: Path, n: string)
    requires job.src <= src && job.src <= src + [n] && src + [n] in t && t[src + [n]].Dir? && Onward(job, t, u)
    requires Drained(job, env, u, src + [n], {}, {})
    ensures ChildDrained(job, env, u, src, n)
  {
    var child := src + [n];
    forall p | Remains(job, u, src, p) && p[|src|] == n
      ensures Stuck(job, env, u, src, {}, p)
    {
      assert p[..|child|] == child;
      assert p != child;
      assert Remains(job, u, child, p);
      var k :| |child| < k <= |p| && Obstacle(job, env, u, child, {}, p[..k]);
      assert Obstacle(job, env, u, src, {}, p[..k]);
    }
  }

  lemma OnwardTrans(job: Job, t: Tree, u: Tree, v: Tree)
    requires Onward(job, t, u) && Onward(job, u, v)
    ensures Onward(job, t, v)
  {
  }

  lemma SkippedContains(job: Job, t: Tree, src: Path, dst: Path, n: string)
    requires Level(job, t, src, dst) && src + [n] <= dst
    ensures src + [n] <= job.dst
  {
    Comparable(src + [n], job.dst, dst);
    assert job.dst <= src + [n] ==> job.dst <= src || job.dst == src + [n];
  }

  /** After one more child, all children but those still to do are drained. */
  lemma DrainMore(job: Job, env: Path -> Luck, t: Tree, u: Tree, src: Path, dst: Path, ignored: set<string>, todo: set<string>, n: string)
    requires Level(job, t, src, dst) && !(src + [n] <= dst) && Frame(t, u, src + [n], dst + [n]) && Onward(job, t, u)
    requires Drained(job, env, t, src, ignored, todo + {n}) && ChildDrained(job, env, u, src, n)
    ensures Drained(job, env, u, src, ignored, todo)
  {
    forall p | Remains(job, u, src, p) && p[|src|] !in todo
      ensures Stuck(job, env, u, src, ignored, p)
    {
      if p[|src|] == n {
        var k :| |src| < k <= |p| && Obstacle(job, env, u, src, {}, p[..k]);
        assert Obstacle(job, env, u, src, ignored, p[..k]);
      } else {
        assert Remains(job, t, src, p);
        StillStuck(job, env, t, u, src, dst, ignored, n, p);
      }
    }
  }

  /** A child that is skipped is drained at once. */
  lemma DrainSkipped(job: Job, env: Path -> Luck, t: Tree, src: Path, ignored: set<string>, todo: set<string>, n: string)
    requires job.src <= src && Drained(job, env, t, src, ignored, todo + {n}) && (n in ignored || src + [n] <= job.dst)
    ensures Drained(job, env, t, src, ignored, todo)
  {
    forall p | Remains(job, t, src, p) && p[|src|] !in todo
      ensures Stuck(job, env, t, src, ignored, p)
    {
      if p[|src|] == n {
        var k := |src| + 1;
        assert p[..k] == src + [n];
        assert Obstacle(job, env, t, src, ignored, p[..k]);
      }
    }
  }

  /** Handling a child leaves the two directories, and the other children, where they are. */
  lemma LevelStays(job: Job, t: Tree, u: Tree, src: Path, dst: Path, n: string)
    requires Level(job, t, src, dst) && !(src + [n] <= dst) && Frame(t, u, src + [n], dst + [n])
    ensures Level(job, u, src, dst)
    ensures forall m: string :: m != n && src + [m] in t ==> src + [m] in u
  {
    var child, target := src + [n], dst + [n];
    assert target <= src ==> job.dst <= src;
    assert !(child <= src) && !(target <= dst);
    assert Same(t, u, src) && Same(t, u, dst);
    forall m: string | m != n && src + [m] in t
      ensures src + [m] in u
    {
      var other := src + [m];
      assert other[|src|] == m && child[|src|] == n;
      assert target <= other ==> job.dst <= src;
      assert Same(t, u, other);
    }
  }

  lemma FrameTrans(t: Tree, u: Tree, v: Tree, src: Path, dst: Path, n: string)
    requires Frame(t, u, src, dst) && Frame(u, v, src + [n], dst + [n])
    ensures Frame(t, v, src, dst)
  {
    forall p | !(src <= p) && !(dst <= p)
      ensures Same(t, v, p)
    {
      assert src + [n] <= p ==> src <= p;
      assert dst + [n] <= p ==> dst <= p;
      assert Same(t, u, p) && Same(u, v, p);
    }
  }

  /** What is to be skipped stays as it is, apart from the destination and the way to it. */
  ghost predicate IgnoredKept(t: Tree, u: Tree, src: Path, dst: Path, ignored: set<string>) {
    forall p :: src <= p && |src| < |p| && p[|src|] in ignored && !(dst <= p) && !(p <= dst) ==> Same(t, u, p)
  }

  lemma IgnoredTrans(t: Tree, u: Tree, v: Tree, src: Path, dst: Path, ignored: set<string>, n: string)
    requires IgnoredKept(t, u, src, dst, ignored) && Frame(u, v, src + [n], dst + [n]) && (n in ignored ==> v == u)
    ensures IgnoredKept(t, v, src, dst, ignored)
  {
    forall p | src <= p && |src| < |p| && p[|src|] in ignored && !(dst <= p) && !(p <= dst)
      ensures Same(t, v, p)
    {
      assert Same(t, u, p);
      assert dst + [n] <= p ==> dst <= p;
      assert src + [n] <= p ==> p[|src|] == n;
      assert Same(u, v, p);
    }
  }

  /** Nothing changes outside the two directories, nothing is lost or changed at the destination, what is skipped stays. */
  ghost predicate Confined(job: Job, t: Tree, u: Tree, src: Path, dst: Path, ignored: set<string>) {
    Frame(t, u, src, dst) && Onward(job, t, u) && IgnoredKept(t, u, src, dst, ignored)
  }

  lemma NothingYet(job: Job, t: Tree, src: Path, dst: Path, ignored: set<string>)
    ensures Confined(job, t, t, src, dst, ignored) && Reports(job, t, t, false, false)
  {
  }

  /** One more child. */
  lemma ConfinedTrans(job: Job, t: Tree, u: Tree, v: Tree, src: Path, dst: Path, ignored: set<string>, n: string)
    requires Confined(job, t, u, src, dst, ignored) && Frame(u, v, src + [n], dst + [n]) && Onward(job, u, v) && (n in ignored ==> v == u)
    ensures Confined(job, t, v, src, dst, ignored)
  {
    FrameTrans(t, u, v, src, dst, n);
    IgnoredTrans(t, u, v, src, dst, ignored, n);
    OnwardTrans(job, t, u, v);
  }

  function ChildNames(t: Tree, src: Path): set<string> {
    set p | p in t && src <= p && |p| == |src| + 1 :: p[|src|]
  }

  lemma ChildListed(t: Tree, src: Path, n: string)
    ensures n in ChildNames(t, src) <==> src + [n] in t
  {
    if src + [n] in t {
      assert (src + [n])[|src|] == n;
    }
    if n in ChildNames(t, src) {
      var p :| p in t && src <= p && |p| == |src| + 1 && p[|src|] == n;
      assert p == src + [n];
    }
  }

  lemma AllChildrenListed(job: Job, env: Path -> Luck, t: Tree, src: Path, ignored: set<string>)
    requires Closed(t) && job.src <= src
    ensures forall n: string :: n in ChildNames(t, src) <==> src + [n] in t
    ensures Drained(job, env, t, src, ignored, ChildNames(t, src))
  {
    forall n: string
      ensures n in ChildNames(t, src) <==> src + [n] in t
    {
      ChildListed(t, src, n);
    }
    forall p | Remains(job, t, src, p)
      ensures p[|src|] in ChildNames(t, src)
    {
      AncestorIn(t, p, |src| + 1);
      assert p[..|src| + 1] == src + [p[|src|]];
    }
  }

  lemma RemovalFrame(job: Job, t0: Tree, t: Tree, u: Tree, src: Path, dst: Path)
    requires Level(job, t, src, dst) && (u == t || u == t - {src}) && Frame(t0, t, src, dst) && Onward(job, t0, t)
    ensures Frame(t0, u, src, dst) && Onward(job, t0, u)
  {
    forall p
      ensures !(src <= p) && !(dst <= p) ==> Same(t0, u, p)
      ensures p in t0 && job.dst <= p ==> p in u && u[p] == t0[p]
    {
      assert !(src <= p) && !(dst <= p) ==> Same(t0, t, p);
      assert p == src ==> !(job.dst <= p);
    }
  }

  lemma RemovalKeepsDrained(job: Job, env: Path -> Luck, t: Tree, u: Tree, src: Path, dst: Path, ignored: set<string>)
    requires Level(job, t, src, dst) && (u == t || u == t - {src}) && Drained(job, env, t, src, ignored, {})
    ensures Drained(job, env, u, src, ignored, {})
  {
    forall p | Remains(job, u, src, p)
      ensures Stuck(job, env, u, src, ignored, p)
    {
      assert Remains(job, t, src, p) && p[|src|] !in {};
      var k :| |src| < k <= |p| && Obstacle(job, env, t, src, ignored, p[..k]);
      assert Obstacle(job, env, u, src, ignored, p[..k]);
    }
  }

  lemma EmptyHasNothing(job: Job, t: Tree, src: Path)
    requires Closed(t) && Kept(job, t) && src in t && t[src].Dir? && ChildNames(t, src) == {} && !(job.dst <= src)
    ensures Closed(t - {src}) && Kept(job, t - {src})
  {
    forall p | p in t && p != [] && Parent(p) == src
      ensures p[|src|] in ChildNames(t, src)
    {
    }
    forall p
      ensures KeptAt(job, t - {src}, p)
    {
      assert KeptAt(job, t, p);
    }
  }

  // ---------------------------------------------------------------- the destination

  function Prefixes(d: Path): set<Path> {
    set k | 0 <= k <= |d| :: d[..k]
  }

  /** No file is in the way of making the directory. */
  predicate Open(t: Tree, d: Path) {
    forall p :: p in Prefixes(d) && p in t ==> t[p].Dir?
  }

  function WithDirs(t: Tree, d: Path): Tree {
    (map p | p in Prefixes(d) :: Dir) + t
  }

  lemma WithDirsOk(job: Job, t: Tree, d: Path)
    requires Closed(t) && Kept(job, t) && Open(t, d)
    ensures var u := WithDirs(t, d); Closed(u) && Kept(job, u) && d in u && u[d].Dir?
    ensures forall p :: p in t ==> Same(t, WithDirs(t, d), p)
  {
    var u := WithDirs(t, d);
    assert d == d[..|d|];
    forall p | p in u && p != []
      ensures Parent(p) in u && u[Parent(p)].Dir?
    {
      if p !in t {
        var k :| 0 <= k <= |d| && p == d[..k];
        assert Parent(p) == d[..k - 1];
        assert Parent(p) in Prefixes(d);
      }
    }
    forall p
      ensures KeptAt(job, u, p)
    {
      assert KeptAt(job, t, p);
    }
  }

  /** Whatever is new is at the destination, or a directory on the way to it. */
  ghost predicate NewOnlyThere(t: Tree, u: Tree, d: Path) {
    forall p :: p in u && p !in t ==> d <= p || (p <= d && u[p].Dir?)
  }

  ghost predicate HasNew(t: Tree, u: Tree, d: Path) {
    exists p :: p in u && d < p && p !in t
  }

  lemma ArrivedIsNew(job: Job, t: Tree, u: Tree, d: Path)
    requires job.dst == d
    ensures Arrived(job, WithDirs(t, d), u) <==> HasNew(t, u, d)
  {
    var v := WithDirs(t, d);
    assert d == d[..|d|] && d in v;
    if HasNew(t, u, d) {
      var p :| p in u && d < p && p !in t;
      assert p in u && job.dst <= p && p !in v;
    }
    if Arrived(job, v, u) {
      var p :| p in u && job.dst <= p && p !in v;
      assert p != d && p[..|d|] == d;
      assert d < p && p !in t;
    }
  }

  lemma AfterMaking(job: Job, t: Tree, u: Tree, src: Path, d: Path, ignored: set<string>)
    requires job.dst == d && Onward(job, WithDirs(t, d), u) && IgnoredKept(WithDirs(t, d), u, src, d, ignored)
    ensures NewOnlyThere(t, u, d) && IgnoredKept(t, u, src, d, ignored)
  {
    var v := WithDirs(t, d);
    forall p | !(p <= d)
      ensures Same(t, v, p)
    {
    }
    forall p | p in u && p !in t && !(d <= p)
      ensures p <= d && u[p].Dir?
    {
      assert p in v && u[p] == v[p];
    }
  }

  lemma MovedArrives(job: Job, t: Tree, q: Path, r: Path, luck: Luck)
    requires Movable(job, t, q, r) && (luck.renames || luck.finished)
    ensures Arrived(job, t, AfterMove(t, q, r, luck))
  {
    Apart(job, t, q, r);
    RenamedAt(t, q, r, r);
    CopyAt(t, q, r, r);
    assert q + r[|r|..] == q && r !in t;
    assert r in AfterMove(t, q, r, luck);
  }

  class Disk {
    var fs: Tree
    ghost var history: seq<Tree>
    /** The paths whose move failed, in the order in which they were tried. */
    ghost var failures: seq<Path>

    /** The disk as it is, and as it was after every change so far, keeps every file. */
    ghost predicate Safe(job: Job)
      reads this`fs, this`history
    {
      && Closed(fs) && |history| > 0 && history[|history| - 1] == fs
      && forall h :: h in history ==> Kept(job, h)
    }

    constructor (fs: Tree)
      requires Closed(fs)
      ensures this.fs == fs && history == [fs] && failures == []
    {
      this.fs, history, failures := fs, [fs], [];
    }

    /** The only way the tree changes. */
    method Change(ghost job: Job, next: Tree)
      requires Safe(job) && Closed(next) && Kept(job, next)
      modifies this`fs, this`history
      ensures Safe(job) && fs == next && old(history) <= history
    {
      fs, history := next, history + [next];
    }

    method CopyTree(ghost job: Job, q: Path, r: Path, luck: Luck) returns (done: bool)
      requires Safe(job) && Movable(job, fs, q, r) && Plausible(luck, q, r) && !luck.renames
      requires r != [] && Parent(r) in fs && fs[Parent(r)].Dir?
      modifies this`fs, this`history
      ensures Safe(job) && old(history) <= history
      ensures fs == AfterMove(old(fs), q, r, luck) && done == luck.finished
    {
      var t := fs;
      if fs[q].Dir? {
        AddKeeps(job, t, r, luck.partial);
        AddStaysClosed(t, r, luck.partial);
        Change(job, fs + luck.partial);
      }
      done := luck.finished;
      if done {
        Finish(job, t, q, r, luck);
      }
    }

    /** The copy completes, then as much of the source goes as can be removed. */
    method Finish(ghost job: Job, t: Tree, q: Path, r: Path, luck: Luck)
      requires Safe(job) && Closed(t) && Kept(job, t) && Movable(job, t, q, r) && Plausible(luck, q, r)
      requires r != [] && Parent(r) in t && t[Parent(r)].Dir?
      modifies this`fs, this`history
      ensures Safe(job) && old(history) <= history && fs == Without(t + CopyOf(t, q, r), q, luck.left)
    {
      CopySprouts(t, q, r);
      AddKeeps(job, t, r, CopyOf(t, q, r));
      AddStaysClosed(t, r, CopyOf(t, q, r));
      RemoveKeeps(job, t, q, r, luck.left);
      RemoveStaysClosed(t + CopyOf(t, q, r), q, luck.left);
      Change(job, t + CopyOf(t, q, r));
      Change(job, Without(fs, q, luck.left));
    }

    method Rename(ghost job: Job, q: Path, r: Path)
      requires Safe(job) && Movable(job, fs, q, r)
      requires r != [] && Parent(r) in fs && fs[Parent(r)].Dir?
      modifies this`fs, this`history
      ensures Safe(job) && old(history) <= history && fs == Renamed(old(fs), q, r)
    {
      RenameKeeps(job, fs, q, r);
      RenameStaysClosed(job, fs, q, r);
      Change(job, Renamed(fs, q, r));
    }

    /** A rename, or a copy if the disk will not rename. */
    method Move(ghost job: Job, q: Path, r: Path, luck: Luck) returns (o: Outcome)
      requires Safe(job) && Movable(job, fs, q, r) && Plausible(luck, q, r)
      requires r != [] && Parent(r) in fs && fs[Parent(r)].Dir?
      modifies this
      ensures Safe(job) && old(history) <= history
      ensures fs == AfterMove(old(fs), q, r, luck)
      ensures o == if Hopeless(luck) then Failed else Moved
      ensures failures == if Hopeless(luck) then old(failures) + [q] else old(failures)
    {
      if luck.renames {
        Rename(job, q, r);
        return Moved;
      }
      var done := CopyTree(job, q, r, luck);
      if done {
        return Moved;
      }
      failures := failures + [q];
      return Failed;
    }

    /** Moves one path to a free place; an existing target is never touched. */
    method MigratePath(ghost job: Job, q: Path, r: Path, luck: Luck) returns (o: Outcome)
      requires Safe(job) && job.src <= q && !(job.dst <= q) && !(q <= job.dst) && r == Place(job, q) && Plausible(luck, q, r)
      requires r != [] && Parent(r) in fs && fs[Parent(r)].Dir?
      modifies this
      ensures Safe(job) && old(history) <= history
      ensures o.Skipped? <==> q !in old(fs) || r in old(fs)
      ensures o.Skipped? ==> fs == old(fs)
      ensures !o.Skipped? ==> Movable(job, old(fs), q, r) && fs == AfterMove(old(fs), q, r, luck)
      ensures !o.Skipped? ==> (o.Failed? <==> Hopeless(luck))
      ensures failures == if o.Failed? then old(failures) + [q] else old(failures)
    {
      if q !in fs || r in fs {
        return Skipped;
      }
      VacantWhenMissing(fs, r);
      o := Move(job, q, r, luck);
    }

    /** One child that neither is skipped nor contains the destination: merge two directories, or move it, or leave it. */
    method MergeChild(ghost job: Job, src: Path, dst: Path, n: string, critical: bool, env: Path -> Luck, ghost own: set<Path>)
      returns (moved: bool, raised: bool)
      requires Safe(job) && Level(job, fs, src, dst) && !(src + [n] <= dst) && src + [n] in fs && AlwaysPlausible(job, env)
      requires forall p :: p in fs && src <= p && !(job.dst <= p) ==> p in own
      modifies this
      ensures Safe(job) && old(history) <= history
      ensures Frame(old(fs), fs, src + [n], dst + [n]) && Onward(job, old(fs), fs)
      ensures FailedSince(old(failures), failures, env) && (raised <==> critical && failures != old(failures))
      ensures Reports(job, old(fs), fs, moved, failures != old(failures))
      ensures !raised ==> ChildDrained(job, env, fs, src, n)
      decreases own, 0, 1
    {
      var child, target := src + [n], dst + [n];
      ChildIsApart(job, fs, src, dst, n);
      ghost var t := fs;
      if target in fs {
        moved, raised := false, false;
        if fs[child].Dir? && fs[target].Dir? {
          moved, raised := MergeBoth(job, src, dst, n, critical, env, own);
        } else {
          BlockedIsDrained(job, env, fs, src, n);
        }
        return;
      }
      var o := MoveChild(job, src, dst, n, env);
      moved, raised := o.Moved?, o.Failed? && critical;
    }

    method MergeBoth(ghost job: Job, src: Path, dst: Path, n: string, critical: bool, env: Path -> Luck, ghost own: set<Path>)
      returns (moved: bool, raised: bool)
      requires Safe(job) && Level(job, fs, src, dst) && !(src + [n] <= dst) && AlwaysPlausible(job, env)
      requires src + [n] in fs && fs[src + [n]].Dir? && dst + [n] in fs && fs[dst + [n]].Dir?
      requires forall p :: p in fs && src <= p && !(job.dst <= p) ==> p in own
      modifies this
      ensures Safe(job) && old(history) <= history
      ensures Frame(old(fs), fs, src + [n], dst + [n]) && Onward(job, old(fs), fs)
      ensures FailedSince(old(failures), failures, env) && (raised <==> critical && failures != old(failures))
      ensures Reports(job, old(fs), fs, moved, failures != old(failures))
      ensures !raised ==> ChildDrained(job, env, fs, src, n)
      decreases own, 0, 0
    {
      ghost var t := fs;
      DeeperLevel(job, fs, src, dst, n, own);
      moved, raised := MergeInto(job, src + [n], dst + [n], {}, critical, env, own - {src});
      if !raised {
        MergedIsDrained(job, env, t, fs, src, n);
      }
    }

    method MoveChild(ghost job: Job, src: Path, dst: Path, n: string, env: Path -> Luck) returns (o: Outcome)
      requires Safe(job) && Level(job, fs, src, dst) && !(src + [n] <= dst) && src + [n] in fs && dst + [n] !in fs
      requires Plausible(env(src + [n]), src + [n], dst + [n])
      modifies this
      ensures Safe(job) && old(history) <= history
      ensures Frame(old(fs), fs, src + [n], dst + [n]) && Onward(job, old(fs), fs)
      ensures FailedSince(old(failures), failures, env) && (o.Failed? <==> failures != old(failures))
      ensures ChildDrained(job, env, fs, src, n)
      ensures !o.Skipped? && (o.Moved? ==> Arrived(job, old(fs), fs))
    {
      var child, target := src + [n], dst + [n];
      ChildIsApart(job, fs, src, dst, n);
      ghost var t := fs;
      assert Parent(target) == dst;
      o := MigratePath(job, child, target, env(child));
      MoveOnward(job, t, child, target, env(child));
      if o.Moved? {
        MovedArrives(job, t, child, target, env(child));
      }
      MovedIsDrained(job, env, t, src, dst, n);
    }

    /** One name of the listing. */
    method MergeName(ghost job: Job, src: Path, dst: Path, ignored: set<string>, n: string, ghost rest: set<string>,
                     critical: bool, env: Path -> Luck, ghost own: set<Path>)
      returns (moved: bool, raised: bool)
      requires Safe(job) && Level(job, fs, src, dst) && AlwaysPlausible(job, env) && n !in rest
      requires forall m :: m in rest + {n} ==> src + [m] in fs
      requires forall p :: p in fs && src <= p && !(job.dst <= p) ==> p in own
      requires Drained(job, env, fs, src, ignored, rest + {n})
      modifies this
      ensures Safe(job) && old(history) <= history && Level(job, fs, src, dst)
      ensures Frame(old(fs), fs, src + [n], dst + [n]) && Onward(job, old(fs), fs)
      ensures forall m :: m in rest ==> src + [m] in fs
      ensures n in ignored ==> fs == old(fs)
      ensures FailedSince(old(failures), failures, env) && (raised <==> critical && failures != old(failures))
      ensures Reports(job, old(fs), fs, moved, failures != old(failures))
      ensures !raised ==> Drained(job, env, fs, src, ignored, rest)
      decreases own, 1
    {
      ghost var t := fs;
      if n in ignored || src + [n] <= dst {
        if n !in ignored {
          SkippedContains(job, fs, src, dst, n);
        }
        DrainSkipped(job, env, fs, src, ignored, rest, n);
        return false, false;
      }
      moved, raised := MergeChild(job, src, dst, n, critical, env, own);
      LevelStays(job, t, fs, src, dst, n);
      if !raised {
        DrainMore(job, env, t, fs, src, dst, ignored, rest, n);
      }
    }

    /** A merge that began with the tree `start` and the failures `before`, with the names `todo` still to come. */
    ghost predicate Underway(job: Job, start: Tree, before: seq<Path>, src: Path, dst: Path, ignored: set<string>, todo: set<string>,
                             critical: bool, env: Path -> Luck, moved: bool, raised: bool)
      reads this`fs, this`failures
    {
      && Level(job, fs, src, dst) && (forall n :: n in todo ==> src + [n] in fs)
      && Confined(job, start, fs, src, dst, ignored) && Reports(job, start, fs, moved, failures != before)
      && FailedSince(before, failures, env) && (raised <==> critical && failures != before)
      && (!raised ==> Drained(job, env, fs, src, ignored, todo))
    }

    lemma MergeStarts(job: Job, src: Path, dst: Path, ignored: set<string>, critical: bool, env: Path -> Luck)
      requires Closed(fs) && Level(job, fs, src, dst)
      ensures Underway(job, fs, failures, src, dst, ignored, ChildNames(fs, src), critical, env, false, false)
    {
      AllChildrenListed(job, env, fs, src, ignored);
      NothingYet(job, fs, src, dst, ignored);
    }

    method MergeNext(ghost job: Job, ghost start: Tree, ghost before: seq<Path>, src: Path, dst: Path, ignored: set<string>, n: string,
                     ghost rest: set<string>, critical: bool, env: Path -> Luck, ghost own: set<Path>, some: bool)
      returns (moved: bool, raised: bool)
      requires Safe(job) && AlwaysPlausible(job, env) && n !in rest
      requires forall p :: p in start && src <= p && !(job.dst <= p) ==> p in own
      requires Underway(job, start, before, src, dst, ignored, rest + {n}, critical, env, some, false)
      modifies this
      ensures Safe(job) && old(history) <= history
      ensures Underway(job, start, before, src, dst, ignored, rest, critical, env, moved, raised)
      decreases own, 2
    {
      ghost var t, earlier := fs, failures;
      moved, raised := MergeName(job, src, dst, ignored, n, rest, critical, env, own);
      ReportsTwice(job, start, t, fs, some, moved, earlier != before, failures != earlier);
      ConfinedTrans(job, start, t, fs, src, dst, ignored, n);
      moved := some || moved;
    }

    /** All names of the listing, in whatever order it has them. */
    method MergeListed(ghost job: Job, src: Path, dst: Path, ignored: set<string>, critical: bool, env: Path -> Luck, ghost own: set<Path>)
      returns (moved: bool, raised: bool)
      requires Safe(job) && Level(job, fs, src, dst) && AlwaysPlausible(job, env)
      requires forall p :: p in fs && src <= p && !(job.dst <= p) ==> p in own
      modifies this
      ensures Safe(job) && old(history) <= history && Level(job, fs, src, dst)
      ensures Confined(job, old(fs), fs, src, dst, ignored)
      ensures FailedSince(old(failures), failures, env) && (raised <==> critical && failures != old(failures))
      ensures Reports(job, old(fs), fs, moved, failures != old(failures))
      ensures !raised ==> Drained(job, env, fs, src, ignored, {})
      decreases own, 3
    {
      moved, raised := false, false;
      var todo := ChildNames(fs, src);
      MergeStarts(job, src, dst, ignored, critical, env);
      while todo != {} && !raised
        invariant Safe(job) && old(history) <= history
        invariant Underway(job, old(fs), old(failures), src, dst, ignored, todo, critical, env, moved, raised)
        decreases todo
      {
        var n :| n in todo;
        assert todo == (todo - {n}) + {n};
        todo := todo - {n};
        moved, raised := MergeNext(job, old(fs), old(failures), src, dst, ignored, n, todo, critical, env, own, moved);
      }
    }

    method MergeInto(ghost job: Job, src: Path, dst: Path, ignored: set<string>, critical: bool, env: Path -> Luck, ghost own: set<Path>)
      returns (moved: bool, raised: bool)
      requires Safe(job) && Level(job, fs, src, dst) && AlwaysPlausible(job, env)
      requires forall p :: p in fs && src <= p && !(job.dst <= p) ==> p in own
      modifies this
      ensures Safe(job) && old(history) <= history
      ensures Frame(old(fs), fs, src, dst) && Onward(job, old(fs), fs) && IgnoredKept(old(fs), fs, src, dst, ignored)
      ensures FailedSince(old(failures), failures, env) && (raised <==> critical && failures != old(failures))
      ensures Reports(job, old(fs), fs, moved, failures != old(failures))
      ensures !raised ==> Drained(job, env, fs, src, ignored, {})
      ensures src !in fs <==> !raised && ignored == {} && ChildNames(fs, src) == {}
      decreases own, 4
    {
      moved, raised := MergeListed(job, src, dst, ignored, critical, env, own);
      if !raised && ignored == {} {
        ghost var t := fs;
        RemoveIfEmpty(job, src);
        RemovalFrame(job, old(fs), t, fs, src, dst);
        assert forall p :: job.dst <= p ==> (p in t <==> p in fs);
        RemovalKeepsDrained(job, env, t, fs, src, dst, ignored);
      }
    }

    /** The source directory itself goes once nothing is in it. */
    method RemoveIfEmpty(ghost job: Job, src: Path)
      requires Safe(job) && job.src <= src && !(job.dst <= src) && src in fs && fs[src].Dir?
      modifies this`fs, this`history
      ensures Safe(job) && old(history) <= history
      ensures fs == if ChildNames(old(fs), src) == {} then old(fs) - {src} else old(fs)
    {
      if ChildNames(fs, src) == {} {
        EmptyHasNothing(job, fs, src);
        Change(job, fs - {src});
      }
    }

    /**
     Merges the children of one directory into another.  Whatever the disk does, every state it passes through
     keeps every file, and what is left behind unless it raises is what was to stay or what the disk would not let
     go.  It raises if the destination is blocked, and when it is critical for a failed move or for a source that
     is no directory.
     */
    method MergeTree(src: Path, dst: Path, ignored: set<string>, critical: bool, env: Path -> Luck) returns (moved: bool, raised: bool)
      requires Closed(fs) && (dst <= src ==> dst == src) && AlwaysPlausible(Job(fs, src, dst), env)
      modifies this
      ensures |history| > 0 && history[0] == old(fs) && Safe(Job(old(fs), src, dst))
      ensures src !in old(fs) || src == dst || !Open(old(fs), dst) ==> fs == old(fs) && !moved
      ensures src in old(fs) && src != dst && Open(old(fs), dst) ==> dst in fs && fs[dst].Dir?
      ensures src !in old(fs) || src == dst ==> !raised
      ensures src in old(fs) && src != dst ==>
                (raised <==> !Open(old(fs), dst) || (critical && (old(fs)[src].File? || failures != old(failures))))
      ensures FailedSince(old(failures), failures, env)
      ensures moved ==> HasNew(old(fs), fs, dst)
      ensures !moved && failures == old(failures) ==> !HasNew(old(fs), fs, dst)
      ensures src in old(fs) && old(fs)[src].Dir? && src != dst && !raised ==>
                Drained(Job(old(fs), src, dst), env, fs, src, ignored, {})
      ensures IgnoredKept(old(fs), fs, src, dst, ignored) && NewOnlyThere(old(fs), fs, dst)
      ensures src in old(fs) && old(fs)[src].Dir? && src != dst && !raised ==>
                (src !in fs <==> ignored == {} && ChildNames(fs, src) == {})
    {
      ghost var job := Job(fs, src, dst);
      history := [fs];
      if src !in fs || src == dst {
        return false, false;
      }
      if !Open(fs, dst) {
        return false, true;
      }
      MakeDestination(job, dst);
      AfterMaking(job, job.start, fs, src, dst, ignored);
      ArrivedIsNew(job, job.start, fs, dst);
      if !fs[src].Dir? {
        return false, critical;
      }
      moved, raised := MergeInto(job, src, dst, ignored, critical, env, fs.Keys);
      AfterMaking(job, job.start, fs, src, dst, ignored);
      ArrivedIsNew(job, job.start, fs, dst);
    }

    method MakeDestination(ghost job: Job, dst: Path)
      requires Safe(job) && fs == job.start && Open(fs, dst)
      modifies this`fs, this`history
      ensures Safe(job) && old(history) <= history && fs == WithDirs(job.start, dst)
      ensures dst in fs && fs[dst].Dir? && forall p :: p in job.start ==> Same(job.start, fs, p)
    {
      WithDirsOk(job, fs, dst);
      Change(job, WithDirs(fs, dst));
    }
  }
}
