/** When the system calls of an extraction succeed. */
module ExtractionSuccess {
  import opened Seqs
  import opened FileTree
  import opened Extraction

  /** Whatever exists of the path below the root, up to the `n`-th name, is a directory. */
  ghost predicate DirsOnly(fs: FS, root: Path, p: Path, n: int) {
    forall k :: |root| < k <= n && k <= |p| && p[..k] in fs.nodes ==> fs.nodes[p[..k]].Dir?
  }

  ghost predicate DirsTo(fs: FS, p: Path) {
    forall k :: 0 < k < |p| ==> Get(fs, p[..k]) == Some(Dir)
  }

  /** A walk over directories arrives, unless one is missing. */
  lemma {:induction false} WalkArrives(fs: FS, root: Path, p: Path, k: nat, follow: bool, hops: nat)
    requires RootOk(fs, root) && root <= p && Plain(p) && k <= |p| && DirsOnly(fs, root, p, |p| - 1)
    requires follow && p in fs.nodes ==> !fs.nodes[p].Link?
    ensures var r := Walk(fs, p[..k], p[k..], follow, hops);
            (r == Ok(p) || r == Err(NotExist)) && (DirsTo(fs, p) ==> r == Ok(p))
    decreases |p| - k
  {
    var rest := p[k..];
    if k == |p| {
      assert p[..k] == p;
    } else {
      var here := p[..k] + [rest[0]];
      assert here == p[..k + 1] && rest[1..] == p[k + 1..] && PlainName(p[k]);
      if k + 1 <= |root| {
        assert here == root[..k + 1];
      }
      if here in fs.nodes && fs.nodes[here].Dir? {
        WalkArrives(fs, root, p, k + 1, follow, hops);
      }
      if k + 1 == |p| {
        assert here == p;
      }
    }
  }

  lemma WalkArrivesFromTop(fs: FS, root: Path, p: Path, follow: bool, hops: nat)
    requires RootOk(fs, root) && root <= p && Plain(p) && DirsOnly(fs, root, p, |p| - 1)
    requires follow && p in fs.nodes ==> !fs.nodes[p].Link?
    ensures var r := Walk(fs, [], p, follow, hops);
            (r == Ok(p) || r == Err(NotExist)) && (DirsTo(fs, p) ==> r == Ok(p))
  {
    WalkArrives(fs, root, p, 0, follow, hops);
    assert p[..0] == [] && p[0..] == p;
  }

  /** In a tree in order a node, or one next to nothing in a directory, has only directories above it. */
  lemma DirsToNode(fs: FS, p: Path)
    requires TreeOk(fs) && (p in fs.nodes || Get(fs, Parent(p)) == Some(Dir))
    ensures DirsTo(fs, p)
  {
    forall k | 0 < k < |p| ensures Get(fs, p[..k]) == Some(Dir) {
      if p in fs.nodes {
        DirsAbove(fs, p, k);
      } else if k < |p| - 1 {
        DirsAbove(fs, Parent(p), k);
        assert Parent(p)[..k] == p[..k];
      } else {
        assert p[..k] == Parent(p);
      }
    }
  }

  lemma DirsOnlyParent(fs: FS, root: Path, p: Path)
    requires p != [] && DirsOnly(fs, root, p, |p| - 1)
    ensures DirsOnly(fs, root, Parent(p), |Parent(p)|)
  {
    forall k | |root| < k <= |Parent(p)| && Parent(p)[..k] in fs.nodes ensures fs.nodes[Parent(p)[..k]].Dir? {
      assert Parent(p)[..k] == p[..k];
    }
  }

  lemma DirsOnlyKept(fs: FS, fs': FS, root: Path, p: Path, n: int)
    requires DirsOnly(fs, root, p, n) && OnlyDirsAdded(fs, fs')
    ensures DirsOnly(fs', root, p, n)
  {
    forall k | |root| < k <= n && k <= |p| && p[..k] in fs'.nodes ensures fs'.nodes[p[..k]].Dir? {
      assert Get(fs', p[..k]) == Get(fs, p[..k]) || Get(fs', p[..k]) == Some(Dir);
    }
  }

  lemma DirsOnlyNoLinks(fs: FS, root: Path, p: Path, n: nat)
    requires DirsOnly(fs, root, p, n)
    ensures NoLinks(fs, root, p, n)
  {
  }

  /** Making directories along a path succeeds when nothing but directories is in the way. */
  lemma {:induction false} MkdirAllSucceeds(fs: FS, root: Path, p: Path, hops: nat)
    requires Inv(fs, root) && root <= p && Plain(p) && DirsOnly(fs, root, p, |p|)
    ensures MkdirAll(fs, p, hops).1.None?
    decreases |p|
  {
    assert p[..|p|] == p;
    if p == root {
      StatRoot(fs, root, hops);
    } else {
      WalkArrivesFromTop(fs, root, p, true, hops);
      if p in fs.nodes {
        DirsToNode(fs, p);
      } else {
        assert Stat(fs, p, hops) == Err(NotExist);
        DirsOnlyParent(fs, root, p);
        MkdirAllSucceeds(fs, root, Parent(p), hops);
        LastMkdirSucceeds(fs, root, p, hops);
      }
    }
  }

  lemma LastMkdirSucceeds(fs: FS, root: Path, p: Path, hops: nat)
    requires Inv(fs, root) && Under(root, p) && Plain(p) && DirsOnly(fs, root, p, |p|)
    requires MkdirAll(fs, Parent(p), hops).1.None?
    ensures var fs1 := MkdirAll(fs, Parent(p), hops).0; Mkdir(fs1, p, hops).Ok? || Lstat(fs1, p, hops) == Ok(Dir)
  {
    DirsOnlyParent(fs, root, p);
    DirsOnlyNoLinks(fs, root, Parent(p), |Parent(p)|);
    MkdirAllSafe(fs, root, Parent(p), hops);
    MkdirAllMakes(fs, root, Parent(p), hops);
    var fs1 := MkdirAll(fs, Parent(p), hops).0;
    DirsOnlyKept(fs, fs1, root, p, |p|);
    DirsToNode(fs1, p);
    WalkArrivesFromTop(fs1, root, p, false, hops);
    assert p[..|p|] == p;
  }

  /** Only names along the path are added. */
  lemma {:induction false} MkdirAllAlong(fs: FS, root: Path, p: Path, hops: nat, q: Path)
    requires Inv(fs, root) && root <= p && Plain(p) && NoLinks(fs, root, p, |p|)
    requires q in MkdirAll(fs, p, hops).0.nodes && q !in fs.nodes
    ensures q <= p
    decreases |p|
  {
    if p == root {
      StatRoot(fs, root, hops);
    } else if Stat(fs, p, hops).Err? {
      NoLinksParent(fs, root, p);
      MkdirAllSafe(fs, root, Parent(p), hops);
      var fs1 := MkdirAll(fs, Parent(p), hops).0;
      if q in fs1.nodes {
        MkdirAllAlong(fs, root, Parent(p), hops, q);
      } else {
        NoLinksKept(fs, fs1, root, p, |p|);
        WalkFromTop(fs1, root, p, false, hops);
      }
    }
  }

  // ---- What an entry needs of the tree ----

  /** Something can be put at the path: it is below the root, and only directories are above it. */
  ghost predicate CanPlace(fs: FS, root: Path, p: Path) {
    Under(root, p) && DirsOnly(fs, root, p, |p| - 1)
  }

  ghost predicate CanWrite(fs: FS, root: Path, p: Path) {
    CanPlace(fs, root, p) && (p in fs.nodes ==> fs.nodes[p].File?)
  }

  /** Whatever is at the path can be unlinked: everything but a directory with something in it. */
  predicate CanClear(fs: FS, p: Path) {
    p in fs.nodes && fs.nodes[p].Dir? ==> !HasChild(fs, p)
  }

  ghost predicate CanLink(fs: FS, root: Path, p: Path) {
    CanPlace(fs, root, p) && CanClear(fs, p)
  }

  ghost predicate CanHardlink(fs: FS, root: Path, from: Path, p: Path) {
    && CanLink(fs, root, p) && (p in fs.nodes ==> !fs.nodes[p].Link?)
    && from != p && from in fs.nodes && fs.nodes[from].File?
  }

  /** What has become a directory had only directories in its way. */
  lemma MadeMeansDirs(fs: FS, fs': FS, root: Path, p: Path)
    requires TreeOk(fs') && OnlyDirsAdded(fs, fs') && Get(fs', p) == Some(Dir)
    ensures DirsOnly(fs, root, p, |p|)
  {
    forall k | |root| < k <= |p| && p[..k] in fs.nodes ensures fs.nodes[p[..k]].Dir? {
      assert Get(fs', p[..k]) == Get(fs, p[..k]);
      if k < |p| {
        DirsAbove(fs', p, k);
      } else {
        assert p[..k] == p;
      }
    }
  }

  lemma PlaceMeansDirs(fs: FS, fs': FS, root: Path, p: Path)
    requires TreeOk(fs') && OnlyDirsAdded(fs, fs') && p != [] && Get(fs', Parent(p)) == Some(Dir)
    ensures DirsOnly(fs, root, p, |p| - 1)
  {
    MadeMeansDirs(fs, fs', root, Parent(p));
    forall k | |root| < k <= |p| - 1 && p[..k] in fs.nodes ensures fs.nodes[p[..k]].Dir? {
      assert p[..k] == Parent(p)[..k];
    }
  }

  /** Only directories were added, all of them above the path. */
  ghost predicate GrownAbove(fs: FS, fs': FS, p: Path) {
    Grown(fs, fs') && forall q :: q in fs'.nodes && q !in fs.nodes ==> |q| < |p|
  }

  /** Then nothing has changed at the path and below it. */
  lemma AboveKeeps(fs: FS, fs': FS, root: Path, p: Path)
    requires GrownAbove(fs, fs', p)
    ensures Get(fs', p) == Get(fs, p) && (CanClear(fs', p) <==> CanClear(fs, p))
    ensures forall q :: |q| >= |p| ==> Get(fs', q) == Get(fs, q)
  {
    forall q | |q| >= |p| ensures Get(fs', q) == Get(fs, q) {
      assert Get(fs', q) == Get(fs, q) || (Get(fs, q).None? && Get(fs', q) == Some(Dir));
    }
    if HasChild(fs, p) {
      var q :| q in fs.nodes && q != [] && Parent(q) == p;
      assert Get(fs', q) == Get(fs, q);
    }
    if HasChild(fs', p) {
      var q :| q in fs'.nodes && q != [] && Parent(q) == p;
      assert Get(fs', q) == Get(fs, q);
    }
  }

  lemma WriteSucceedsIff(fs: FS, root: Path, p: Path, bytes: Bytes, hops: nat)
    requires Inv(fs, root) && Under(root, p) && Plain(p) && NoLinks(fs, root, p, |p|)
    requires Get(fs, Parent(p)) == Some(Dir)
    ensures WriteFile(fs, p, bytes, hops).Ok? <==> (p in fs.nodes ==> fs.nodes[p].File?)
  {
    assert p[..|p|] == p;
    WalkToPlace(fs, root, p, true, hops);
  }

  /** With its directory there, a walk finds the place. */
  lemma WalkToPlace(fs: FS, root: Path, p: Path, follow: bool, hops: nat)
    requires Inv(fs, root) && Under(root, p) && Plain(p) && Get(fs, Parent(p)) == Some(Dir)
    requires follow && p in fs.nodes ==> !fs.nodes[p].Link?
    ensures Walk(fs, [], p, follow, hops) == Ok(p)
  {
    DirsToNode(fs, p);
    assert DirsOnly(fs, root, p, |p| - 1) by {
      forall k | |root| < k <= |p| - 1 ensures Get(fs, p[..k]) == Some(Dir) {
      }
    }
    WalkArrivesFromTop(fs, root, p, follow, hops);
  }

  lemma UnlinkSucceedsIff(fs: FS, root: Path, p: Path, hops: nat)
    requires Inv(fs, root) && Under(root, p) && Plain(p) && Get(fs, Parent(p)) == Some(Dir)
    ensures var r := Remove(fs, p, hops); (r.Ok? || r == Err(NotExist)) <==> CanClear(fs, p)
  {
    WalkToPlace(fs, root, p, false, hops);
  }

  lemma LinkSucceeds(fs: FS, root: Path, p: Path, t: Target, hops: nat)
    requires Inv(fs, root) && Under(root, p) && Plain(p) && Get(fs, Parent(p)) == Some(Dir) && p !in fs.nodes
    ensures Symlink(fs, t, p, hops).Ok?
  {
    WalkToPlace(fs, root, p, false, hops);
  }

  lemma HardLinkSucceedsIff(fs: FS, root: Path, from: Path, p: Path, hops: nat)
    requires Inv(fs, root) && Under(root, p) && Plain(p) && Get(fs, Parent(p)) == Some(Dir) && p !in fs.nodes
    requires root <= from && Plain(from) && NoLinks(fs, root, from, |from|)
    ensures HardLink(fs, from, p, hops).Ok? <==> from in fs.nodes && fs.nodes[from].File?
  {
    WalkToPlace(fs, root, p, false, hops);
    WalkFromTop(fs, root, from, false, hops);
    if from in fs.nodes {
      WalkReaches(fs, from, 0, hops);
      assert from[..0] == [] && from[0..] == from;
    }
  }
}
