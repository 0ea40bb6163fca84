/** The extraction loop over a mutable file tree. */
module TarExtractor {
  import opened Seqs
  import opened FileTree
  import opened Extraction
  import opened ExtractionSuccess
  import opened TarEntries

  datatype Problem = UnsafePath | OutsideRoot | ThroughSymlink | BadLinkTarget | System(errno: Errno)

  /** What ensureNoSymlinkPath accepts of one prefix of a path: it is missing, or there and not a link. */
  predicate Clear(fs: FS, p: Path, hops: nat) {
    match Lstat(fs, p, hops)
    case Ok(node) => !node.Link?
    case Err(e) => e.NotExist?
  }

  lemma LstatSees(fs: FS, q: Path, hops: nat)
    requires TreeOk(fs) && q in fs.nodes && Plain(q)
    ensures Lstat(fs, q, hops) == Ok(fs.nodes[q])
  {
    WalkReaches(fs, q, 0, hops);
    assert q[..0] == [] && q[0..] == q;
  }

  lemma ClearMeansNoLinks(fs: FS, root: Path, p: Path, n: nat, hops: nat)
    requires TreeOk(fs) && Plain(p) && n <= |p|
    requires forall k :: |root| < k <= n ==> Clear(fs, p[..k], hops)
    ensures NoLinks(fs, root, p, n)
  {
    forall k | |root| < k <= n && p[..k] in fs.nodes ensures !fs.nodes[p[..k]].Link? {
      LstatSees(fs, p[..k], hops);
      assert Clear(fs, p[..k], hops);
    }
  }

  lemma ClearWhenDirs(fs: FS, root: Path, p: Path, hops: nat)
    requires TreeOk(fs) && RootOk(fs, root) && root <= p && Plain(p) && DirsOnly(fs, root, p, |p| - 1)
    requires p in fs.nodes ==> !fs.nodes[p].Link?
    ensures forall k :: |root| < k <= |p| ==> Clear(fs, p[..k], hops)
  {
    forall k | |root| < k <= |p| ensures Clear(fs, p[..k], hops) {
      var q := p[..k];
      assert k == |p| ==> q == p;
      if q in fs.nodes {
        LstatSees(fs, q, hops);
      } else {
        forall j | |root| < j <= |q| - 1 && q[..j] in fs.nodes ensures fs.nodes[q[..j]].Dir? {
          assert q[..j] == p[..j];
        }
        WalkArrivesFromTop(fs, root, q, false, hops);
      }
    }
  }

  /** The loop of ensureNoSymlinkPath. Whether the last name may be missing makes no difference to the answer. */
  method EnsureNoSymlinkPath(fs: FS, root: Path, target: Path, allowMissingLeaf: bool,
                             hops: nat) returns (problem: Option<Problem>)
    ensures problem.None? <==> root <= target && forall k :: |root| < k <= |target| ==> Clear(fs, target[..k], hops)
    ensures !(root <= target) ==> problem == Some(OutsideRoot)
  {
    if !(root <= target) {
      return Some(OutsideRoot);
    }
    var current := root;
    for i := |root| to |target|
      invariant current == target[..i]
      invariant forall k :: |root| < k <= i ==> Clear(fs, target[..k], hops)
    {
      current := current + [target[i]];
      assert current == target[..i + 1];
      match Lstat(fs, current, hops)
      case Err(e) =>
        if e.NotExist? {
          if i == |target| - 1 && allowMissingLeaf {
            return None;
          }
        } else {
          return Some(System(e));
        }
      case Ok(node) =>
        if node.Link? {
          return Some(ThroughSymlink);
        }
    }
    problem := None;
  }

  class Extractor {
    const root: Path
    const hops: nat
    var fs: FS

    constructor (root: Path, hops: nat, fs: FS)
      ensures this.root == root && this.hops == hops && this.fs == fs
    {
      this.root, this.hops, this.fs := root, hops, fs;
    }

    /** The check, and what a caller learns from it. */
    method Check(target: Path, allowMissingLeaf: bool) returns (problem: Option<Problem>)
      requires Inv(fs, root) && Plain(target)
      ensures problem.None? ==> root <= target && NoLinks(fs, root, target, |target|)
      ensures (&& root <= target && DirsOnly(fs, root, target, |target| - 1)
               && (target in fs.nodes ==> !fs.nodes[target].Link?)) ==> problem.None?
      ensures !(root <= target) ==> problem.Some?
    {
      problem := EnsureNoSymlinkPath(fs, root, target, allowMissingLeaf, hops);
      if problem.None? {
        ClearMeansNoLinks(fs, root, target, |target|, hops);
      } else if root <= target && DirsOnly(fs, root, target, |target| - 1)
                && (target in fs.nodes ==> !fs.nodes[target].Link?) {
        ClearWhenDirs(fs, root, target, hops);
      }
    }

    method MakeAll(path: Path) returns (problem: Option<Problem>)
      requires Inv(fs, root) && root <= path && Plain(path) && NoLinks(fs, root, path, |path|)
      modifies this
      ensures Safe(old(fs), fs, root) && Grown(old(fs), fs)
      ensures problem.None? ==> Get(fs, path) == Some(Dir)
      ensures problem.None? <==> DirsOnly(old(fs), root, path, |path|)
      ensures forall q :: q in fs.nodes && q !in old(fs).nodes ==> q <= path
    {
      MkdirAllSafe(fs, root, path, hops);
      MkdirAllMakes(fs, root, path, hops);
      MkdirAllWritesNothing(fs, path, hops);
      forall q | q in MkdirAll(fs, path, hops).0.nodes && q !in fs.nodes ensures q <= path {
        MkdirAllAlong(fs, root, path, hops, q);
      }
      if DirsOnly(fs, root, path, |path|) {
        MkdirAllSucceeds(fs, root, path, hops);
      }
      var (made, failed) := MkdirAll(fs, path, hops);
      fs := made;
      problem := if failed.Some? then Some(System(failed.value)) else None;
      if problem.None? {
        MadeMeansDirs(old(fs), fs, root, path);
      }
    }

    /** Check and make the directory an entry goes into. */
    method PrepareParent(target: Path) returns (problem: Option<Problem>)
      requires Inv(fs, root) && root <= target && Plain(target)
      modifies this
      ensures Safe(old(fs), fs, root) && Grown(old(fs), fs)
      ensures problem.None? ==>
                Under(root, target) && Get(fs, Parent(target)) == Some(Dir) && NoLinks(fs, root, target, |target| - 1)
      ensures problem.None? <==> CanPlace(old(fs), root, target)
      ensures GrownAbove(old(fs), fs, target)
    {
      SafeRefl(fs, root);
      if Under(root, target) && DirsOnly(fs, root, target, |target| - 1) {
        DirsOnlyParent(fs, root, target);
        ParentIsNoLink(fs, root, Parent(target));
      }
      problem := Check(Parent(target), true);
      if problem.Some? {
        return;
      }
      ghost var before := fs;
      problem := MakeAll(Parent(target));
      NoLinksKept(before, fs, root, Parent(target), |Parent(target)|);
      NoLinksBelowParent(fs, root, target);
      if problem.None? {
        PlaceMeansDirs(before, fs, root, target);
      }
    }

    method ExtractDir(target: Path) returns (problem: Option<Problem>)
      requires Inv(fs, root) && root <= target && Plain(target)
      modifies this
      ensures Safe(old(fs), fs, root)
      ensures problem.None? ==> Get(fs, target) == Some(Dir) && Moved(old(fs), fs, target)
      ensures problem.None? <==> DirsOnly(old(fs), root, target, |target|)
    {
      SafeRefl(fs, root);
      if DirsOnly(fs, root, target, |target|) {
        ParentIsNoLink(fs, root, target);
      }
      problem := Check(target, true);
      if problem.None? {
        problem := MakeAll(target);
      }
    }

    method ExtractFile(target: Path, bytes: Bytes) returns (problem: Option<Problem>)
      requires Inv(fs, root) && root <= target && Plain(target)
      modifies this
      ensures Safe(old(fs), fs, root)
      ensures problem.None? ==> Holds(fs, target, bytes) && Wrote(old(fs), fs, target)
      ensures problem.None? <==> CanWrite(old(fs), root, target)
    {
      problem := PrepareParent(target);
      if problem.Some? {
        return;
      }
      AboveKeeps(old(fs), fs, root, target);
      DirsOnlyKept(old(fs), fs, root, target, |target| - 1);
      problem := Check(target, true);
      if problem.Some? {
        return;
      }
      ghost var before := fs;
      WriteFileSafe(fs, root, target, bytes, hops);
      WriteFileWrote(fs, root, target, bytes, hops);
      WriteSucceedsIff(fs, root, target, bytes, hops);
      match WriteFile(fs, target, bytes, hops)
      case Err(e) => problem := Some(System(e));
      case Ok(written) =>
        fs := written;
        SafeTrans(old(fs), before, fs, root);
        GrownThenWrote(old(fs), before, fs, target);
    }

    /** Unlink a path that may be missing. */
    method RemoveExisting(target: Path) returns (problem: Option<Problem>)
      requires Inv(fs, root) && Under(root, target) && Plain(target) && NoLinks(fs, root, target, |target| - 1)
      requires Get(fs, Parent(target)) == Some(Dir)
      modifies this
      ensures Safe(old(fs), fs, root)
      ensures forall q :: Get(fs, q) == old(Get(fs, q)) || Get(fs, q).None?
      ensures Moved(old(fs), fs, target) && (problem.None? ==> target !in fs.nodes)
      ensures problem.None? <==> CanClear(old(fs), target)
    {
      SafeRefl(fs, root);
      UnlinkSucceedsIff(fs, root, target, hops);
      RemoveCallSafe(fs, root, target, hops);
      RemoveMoved(fs, root, target, hops);
      match Remove(fs, target, hops)
      case Ok(removed) =>
        fs := removed;
        problem := None;
      case Err(e) => problem := if e.NotExist? then None else Some(System(e));
    }

    method ExtractSymlink(target: Path, link: string) returns (problem: Option<Problem>)
      requires Inv(fs, root) && root <= target && Plain(target)
      modifies this
      ensures Safe(old(fs), fs, root)
      ensures problem.None? ==>
                && Get(fs, target) == Some(Link(TargetOf(link))) && LinkInside(root, target, TargetOf(link))
                && Moved(old(fs), fs, target)
      ensures problem.None? <==> CanLink(old(fs), root, target) && ValidateSymlinkTarget(root, target, link)
    {
      problem := PrepareParent(target);
      if problem.Some? {
        return;
      }
      AboveKeeps(old(fs), fs, root, target);
      if !ValidateSymlinkTarget(root, target, link) {
        return Some(BadLinkTarget);
      }
      ghost var prepared := fs;
      problem := RemoveExisting(target);
      SafeTrans(old(fs), prepared, fs, root);
      if problem.Some? {
        return;
      }
      NoLinksShrink(prepared, fs, root, target, |target| - 1);
      ghost var removed := fs;
      SymlinkSafe(fs, root, target, TargetOf(link), hops);
      SymlinkMoved(fs, root, target, TargetOf(link), hops);
      assert SameOrNewDir(prepared, fs, Parent(target));
      LinkSucceeds(fs, root, target, TargetOf(link), hops);
      match Symlink(fs, TargetOf(link), target, hops)
      case Err(e) => problem := if e.Exists? then None else Some(System(e));
      case Ok(linked) =>
        fs := linked;
        SafeTrans(old(fs), removed, fs, root);
        MovedTrans(prepared, removed, fs, target);
        MovedTrans(old(fs), prepared, fs, target);
    }

    /** Unlink the path and link it to the source. */
    method Relink(target: Path, from: Path) returns (problem: Option<Problem>)
      requires Inv(fs, root) && Under(root, target) && Plain(target) && root <= from && Plain(from)
      requires Get(fs, Parent(target)) == Some(Dir) && NoLinks(fs, root, target, |target| - 1)
      requires NoLinks(fs, root, from, |from|)
      modifies this
      ensures Safe(old(fs), fs, root) && Moved(old(fs), fs, target)
      ensures problem.None? ==> target in fs.nodes && fs.nodes[target].File? && Get(fs, from) == Get(fs, target)
      ensures problem.None? <==> CanClear(old(fs), target) && from != target && IsFile(old(fs), from)
    {
      ghost var prepared := fs;
      problem := RemoveExisting(target);
      if problem.Some? {
        return;
      }
      NoLinksShrink(prepared, fs, root, target, |target| - 1);
      NoLinksShrink(prepared, fs, root, from, |from|);
      ghost var removed := fs;
      HardLinkSafe(fs, root, from, target, hops);
      HardLinkMoved(fs, root, from, target, hops);
      assert SameOrNewDir(prepared, fs, Parent(target));
      HardLinkSucceedsIff(fs, root, from, target, hops);
      SourceStays(prepared, fs, from, target);
      match HardLink(fs, from, target, hops)
      case Err(e) => problem := Some(System(e));
      case Ok(linked) =>
        fs := linked;
        SafeTrans(prepared, removed, fs, root);
        MovedTrans(prepared, removed, fs, target);
    }

    method ExtractHardlink(target: Path, from: Path) returns (problem: Option<Problem>)
      requires Inv(fs, root) && root <= target && Plain(target) && root <= from && Plain(from)
      modifies this
      ensures Safe(old(fs), fs, root)
      ensures problem.None? ==>
                && target in fs.nodes && fs.nodes[target].File? && Get(fs, from) == Get(fs, target)
                && Moved(old(fs), fs, target)
      ensures problem.None? <==> CanHardlink(old(fs), root, from, target)
    {
      SafeRefl(fs, root);
      if IsFile(fs, from) {
        NodeHasDirs(fs, root, from);
      }
      problem := Check(from, false);
      if problem.Some? {
        return;
      }
      ghost var start := fs;
      problem := PrepareParent(target);
      if problem.Some? {
        return;
      }
      NoLinksKept(start, fs, root, from, |from|);
      AboveKeeps(start, fs, root, target);
      DirsOnlyKept(start, fs, root, target, |target| - 1);
      FilesStay(start, fs, from);
      problem := Check(target, true);
      if problem.Some? {
        return;
      }
      ghost var prepared := fs;
      assert target[..|target|] == target;
      problem := Relink(target, from);
      SafeTrans(start, prepared, fs, root);
      MovedTrans(start, prepared, fs, target);
    }

    method ExtractEntry(e: Entry) returns (problem: Option<Problem>)
      requires Inv(fs, root)
      modifies this
      ensures Safe(old(fs), fs, root)
      ensures problem.None? ==> Extracted(fs, root, e) && Touched(old(fs), fs, root, e)
      ensures problem.None? <==> Acceptable(old(fs), root, e)
    {
      SafeRefl(fs, root);
      SafeJoinStaysInside(root, e.name);
      var target := SafeJoin(root, e.name);
      if target.None? {
        return Some(UnsafePath);
      }
      match e
      case DirEntry(_) => problem := ExtractDir(target.value);
      case FileEntry(_, bytes) => problem := ExtractFile(target.value, bytes);
      case SymlinkEntry(_, link) => problem := ExtractSymlink(target.value, link);
      case HardlinkEntry(_, link) =>
        SafeJoinStaysInside(root, link);
        var from := SafeJoin(root, link);
        if from.None? {
          return Some(UnsafePath);
        }
        problem := ExtractHardlink(target.value, from.value);
      case OtherEntry(_) => problem := None;
    }

    /** One turn of the loop over the entries. `trees` are the trees found so far. */
    method UnpackNext(entries: seq<Entry>, i: nat, ghost trees: seq<FS>)
      returns (problem: Option<Problem>, ghost after: seq<FS>)
      requires Inv(fs, root) && i < |entries| && Unpacked(trees, root, entries[..i]) && trees[i] == fs
      modifies this
      ensures Safe(old(fs), fs, root) && after != [] && after[0] == trees[0]
      ensures problem.None? ==> Unpacked(after, root, entries[..i + 1]) && after[i + 1] == fs
      ensures problem.Some? ==> StopsAt(after, root, entries)
    {
      problem := ExtractEntry(entries[i]);
      after := trees;
      if problem.None? {
        InvIsSound(fs, root);
        OneMoreEntry(trees, root, entries[..i], fs, entries[i]);
        assert entries[..i + 1] == entries[..i] + [entries[i]];
        after := trees + [fs];
      }
    }

    /** The loop. */
    method Unpack(entries: seq<Entry>) returns (problem: Option<Problem>, ghost trees: seq<FS>)
      requires Inv(fs, root)
      modifies this
      ensures Safe(old(fs), fs, root) && trees != [] && trees[0] == old(fs)
      ensures problem.None? ==> Unpacked(trees, root, entries) && trees[|entries|] == fs
      ensures problem.Some? ==> StopsAt(trees, root, entries)
    {
      SafeRefl(fs, root);
      InvIsSound(fs, root);
      trees := [fs];
      for i := 0 to |entries|
        invariant Safe(old(fs), fs, root)
        invariant Unpacked(trees, root, entries[..i]) && trees[0] == old(fs) && trees[i] == fs
      {
        ghost var before := fs;
        problem, trees := UnpackNext(entries, i, trees);
        SafeTrans(old(fs), before, fs, root);
        if problem.Some? {
          return;
        }
      }
      problem := None;
      assert entries[..|entries|] == entries;
    }

    /** extractTar: whatever the entries are, nothing outside the root has changed, and every link below it leads
        lexically inside. It fails exactly at the first entry that is not acceptable to the tree it finds. On success
        every entry that no later one spoils is in place, an entry "a/b" at a/b below the root; below a root that was
        empty, and without clashing paths, all are. */
    method ExtractTar(entries: seq<Entry>) returns (problem: Option<Problem>, ghost trees: seq<FS>)
      requires Inv(fs, root)
      modifies this
      ensures SameOutside(old(fs), fs, root) && Inv(fs, root)
      ensures forall p :: p in fs.nodes && Under(root, p) && fs.nodes[p].Link? ==>
                LinkInside(root, p, fs.nodes[p].target)
      ensures trees != [] && trees[0] == old(fs)
      ensures problem.None? ==>
                && Unpacked(trees, root, entries) && trees[|entries|] == fs
                && StandsAsFarAsUnspoilt(trees, root, entries)
      ensures problem.Some? ==> StopsAt(trees, root, entries)
    {
      problem, trees := Unpack(entries);
      if problem.None? {
        UnpackedStands(trees, root, entries);
      }
    }
  }

  predicate IsFile(fs: FS, p: Path) {
    p in fs.nodes && fs.nodes[p].File?
  }

  lemma NodeHasDirs(fs: FS, root: Path, p: Path)
    requires TreeOk(fs) && p in fs.nodes
    ensures DirsOnly(fs, root, p, |p| - 1)
  {
    forall k | |root| < k <= |p| - 1 ensures Get(fs, p[..k]) == Some(Dir) {
      DirsAbove(fs, p, k);
    }
  }

  /** A directory or a missing one, and the root itself, is no link. */
  lemma ParentIsNoLink(fs: FS, root: Path, p: Path)
    requires RootOk(fs, root) && root <= p && DirsOnly(fs, root, p, |p|)
    ensures DirsOnly(fs, root, p, |p| - 1) && (p in fs.nodes ==> !fs.nodes[p].Link?)
  {
    assert p[..|p|] == p;
    if |p| == |root| {
      assert p == root && root[..|root|] == root;
      assert Get(fs, root[..|root|]) == Some(Dir);
    }
  }

  /** The source of a hard link is a file at the end exactly if it was one and is not the path that was cleared. */
  lemma SourceStays(prepared: FS, removed: FS, from: Path, target: Path)
    requires Moved(prepared, removed, target) && target !in removed.nodes
    ensures IsFile(removed, from) <==> from != target && IsFile(prepared, from)
  {
    assert from != target ==> SameOrNewDir(prepared, removed, from);
  }

  lemma FilesStay(fs: FS, fs': FS, p: Path)
    requires OnlyDirsAdded(fs, fs')
    ensures IsFile(fs', p) <==> IsFile(fs, p)
  {
    assert Get(fs', p) == Get(fs, p) || Get(fs', p) == Some(Dir);
  }

  lemma NoLinksBelowParent(fs: FS, root: Path, p: Path)
    requires NoLinks(fs, root, Parent(p), |Parent(p)|) && p != []
    ensures NoLinks(fs, root, p, |p| - 1)
  {
    forall k | |root| < k <= |p| - 1 && p[..k] in fs.nodes ensures !fs.nodes[p[..k]].Link? {
      assert p[..k] == Parent(p)[..k];
    }
  }

  lemma NoLinksShrink(fs: FS, fs': FS, root: Path, p: Path, n: nat)
    requires NoLinks(fs, root, p, n) && forall q :: Get(fs', q) == Get(fs, q) || Get(fs', q).None?
    ensures NoLinks(fs', root, p, n)
  {
    forall k | |root| < k <= n && k <= |p| && p[..k] in fs'.nodes ensures !fs'.nodes[p[..k]].Link? {
      assert Get(fs', p[..k]) == Get(fs, p[..k]);
    }
  }
}
