/** What the entries of an archive ask for, and which later entries can spoil an earlier one. */
module TarEntries {
  import opened Seqs
  import opened FileTree
  import opened Extraction
  import opened ExtractionSuccess

  datatype Entry =
    | DirEntry(name: string)
    | FileEntry(name: string, bytes: Bytes)
    | SymlinkEntry(name: string, link: string)
    | HardlinkEntry(name: string, link: string)
    | OtherEntry(name: string)

  function PathOf(root: Path, e: Entry): Option<Path> {
    SafeJoin(root, e.name)
  }

  /** The entry is in place at this path. */
  ghost predicate InPlace(fs: FS, root: Path, target: Path, e: Entry) {
    match e
    case DirEntry(_) => Get(fs, target) == Some(Dir)
    case FileEntry(_, bytes) => Holds(fs, target, bytes)
    case SymlinkEntry(_, link) => Get(fs, target) == Some(Link(TargetOf(link)))
    case HardlinkEntry(_, link) =>
      SafeJoin(root, link).Some? && target in fs.nodes && fs.nodes[target].File?
          && Get(fs, SafeJoin(root, link).value) == Get(fs, target)
    case OtherEntry(_) => true
  }

  /** The entry is in place where its name leads. */
  ghost predicate Extracted(fs: FS, root: Path, e: Entry) {
    PathOf(root, e).Some? && InPlace(fs, root, PathOf(root, e).value, e)
  }

  /** The entry's name is these names joined with slashes. */
  predicate IsNamed(e: Entry, names: seq<string>) {
    names != [] && Plain(names) && NoSlash(names) && e.name == Joined(names)
  }

  /** For names joined with slashes that is just those names below the root. */
  lemma ExtractedAtNames(fs: FS, root: Path, e: Entry, names: seq<string>)
    requires Extracted(fs, root, e) && IsNamed(e, names)
    ensures InPlace(fs, root, root + names, e)
  {
    PlainNamesLead(root, names);
  }

  /** What an entry needs of the tree it finds. A directory: nothing but directories in the way. A file: its place below
      the root with only directories above it, and nothing there but a file. A link: its place, with anything there
      that can be unlinked; its text leading inside; a hard link also a file to link to that is not in its place, and no
      link there. */
  ghost predicate Acceptable(fs: FS, root: Path, e: Entry) {
    && PathOf(root, e).Some?
    && var p := PathOf(root, e).value;
    match e
    case DirEntry(_) => DirsOnly(fs, root, p, |p|)
    case FileEntry(_, _) => CanWrite(fs, root, p)
    case SymlinkEntry(_, link) => CanLink(fs, root, p) && ValidateSymlinkTarget(root, p, link)
    case HardlinkEntry(_, link) => SafeJoin(root, link).Some? && CanHardlink(fs, root, SafeJoin(root, link).value, p)
    case OtherEntry(_) => true
  }

  /** All that unpacking an entry changes: its own path, missing directories, and for a regular file the contents of the
      file that was there. */
  ghost predicate Touched(fs: FS, fs': FS, root: Path, e: Entry) {
    match e
    case OtherEntry(_) => fs' == fs
    case FileEntry(_, _) => PathOf(root, e).Some? && Wrote(fs, fs', PathOf(root, e).value)
    case _ => PathOf(root, e).Some? && Moved(fs, fs', PathOf(root, e).value)
  }

  /** What the entries need of a tree in order: the root is a directory, and new files get new contents. */
  ghost predicate Sound(fs: FS, root: Path) {
    Plain(root) && Get(fs, root) == Some(Dir) && forall p :: FileBelow(fs, p, fs.next)
  }

  predicate FileBelow(fs: FS, p: Path, next: nat) {
    p in fs.nodes && fs.nodes[p].File? ==> fs.nodes[p].inode < next
  }

  lemma InvIsSound(fs: FS, root: Path)
    requires Inv(fs, root)
    ensures Sound(fs, root)
  {
    assert root[..|root|] == root && Get(fs, root[..|root|]) == Some(Dir);
  }

  /** `trees` are the file trees before, between and after the entries. */
  ghost predicate Unpacked(trees: seq<FS>, root: Path, entries: seq<Entry>) {
    && |trees| == |entries| + 1
    && (forall i :: 0 <= i < |trees| ==> Sound(trees[i], root))
    && forall i :: 0 <= i < |entries| ==> UnpackedAt(trees, root, entries, i)
  }

  ghost predicate UnpackedAt(trees: seq<FS>, root: Path, entries: seq<Entry>, i: nat)
    requires |trees| == |entries| + 1 && i < |entries|
  {
    && Acceptable(trees[i], root, entries[i])
    && Touched(trees[i], trees[i + 1], root, entries[i]) && Extracted(trees[i + 1], root, entries[i])
  }

  /** The unpacking got as far as an entry that the tree it found could not take. */
  ghost predicate StopsAt(trees: seq<FS>, root: Path, entries: seq<Entry>) {
    && 0 < |trees| <= |entries| && Unpacked(trees, root, entries[..|trees| - 1])
    && !Acceptable(trees[|trees| - 1], root, entries[|trees| - 1])
  }

  lemma OneMoreEntry(trees: seq<FS>, root: Path, entries: seq<Entry>, fs: FS, e: Entry)
    requires Unpacked(trees, root, entries) && Sound(fs, root)
    requires Acceptable(trees[|entries|], root, e) && Touched(trees[|entries|], fs, root, e) && Extracted(fs, root, e)
    ensures Unpacked(trees + [fs], root, entries + [e])
  {
    forall i | 0 <= i < |entries + [e]| ensures UnpackedAt(trees + [fs], root, entries + [e], i) {
      assert i < |entries| ==> UnpackedAt(trees, root, entries, i);
    }
  }

  /** Two entries for one path, unless both are directories. */
  predicate Clash(root: Path, e: Entry, later: Entry) {
    && !e.OtherEntry? && !later.OtherEntry? && !(e.DirEntry? && later.DirEntry?)
    && PathOf(root, later) == PathOf(root, e)
  }

  predicate SharesFile(fs: FS, p: Path, q: Path) {
    p in fs.nodes && fs.nodes[p].File? && Get(fs, q) == Get(fs, p)
  }

  /** A later entry for the same path, or for the path a hard link was made from, or a file written over contents that
      it shares. */
  predicate Spoils(fs: FS, root: Path, e: Entry, later: Entry) {
    || Clash(root, e, later)
    || (e.HardlinkEntry? && !later.OtherEntry? && PathOf(root, later) == SafeJoin(root, e.link))
    || (e.FileEntry? && later.FileEntry? && PathOf(root, later).Some? && PathOf(root, e).Some?
        && SharesFile(fs, PathOf(root, e).value, PathOf(root, later).value))
  }

  /** An entry in place stays there unless the next one spoils it. */
  lemma StaysThrough(fs: FS, fs': FS, root: Path, e: Entry, later: Entry)
    requires Sound(fs, root) && Extracted(fs, root, e) && !Spoils(fs, root, e, later)
    requires Touched(fs, fs', root, later) && Extracted(fs', root, later)
    ensures Extracted(fs', root, e)
  {
    if !e.OtherEntry? && !later.OtherEntry? {
      var p, t := PathOf(root, e).value, PathOf(root, later).value;
      assert p != t ==> SameOrNewDir(fs, fs', p);
      if e.HardlinkEntry? {
        assert SameOrNewDir(fs, fs', SafeJoin(root, e.link).value);
      } else if e.FileEntry? && later.FileEntry? {
        assert FileBelow(fs, p, fs.next) && Get(fs, t) != Some(File(fs.nodes[p].inode));
        assert SameData(fs, fs', fs.nodes[p].inode);
      }
    }
  }

  ghost predicate Unspoilt(trees: seq<FS>, root: Path, entries: seq<Entry>, i: nat, n: nat)
    requires |trees| == |entries| + 1 && i < n <= |entries|
  {
    forall j :: i < j < n ==> !Spoils(trees[j], root, entries[i], entries[j])
  }

  /** Every entry that no later one spoils is in place. */
  lemma {:induction false} EntryStays(trees: seq<FS>, root: Path, entries: seq<Entry>, i: nat, n: nat)
    requires Unpacked(trees, root, entries) && i < n <= |entries| && Unspoilt(trees, root, entries, i, n)
    ensures Extracted(trees[n], root, entries[i])
  {
    assert UnpackedAt(trees, root, entries, n - 1);
    if i < n - 1 {
      EntryStays(trees, root, entries, i, n - 1);
      StaysThrough(trees[n - 1], trees[n], root, entries[i], entries[n - 1]);
    }
  }

  // ---- A fresh root ----

  ghost predicate EmptyBelow(fs: FS, root: Path) {
    forall p :: p in fs.nodes ==> !Under(root, p)
  }

  predicate ClashFree(root: Path, entries: seq<Entry>) {
    forall i, j :: 0 <= i < j < |entries| ==> !Clash(root, entries[i], entries[j])
  }

  /** One of the first `n` entries put something other than a directory there. */
  ghost predicate Placed(root: Path, entries: seq<Entry>, n: nat, p: Path)
    requires n <= |entries|
  {
    exists i :: 0 <= i < n && !entries[i].DirEntry? && !entries[i].OtherEntry? && PathOf(root, entries[i]) == Some(p)
  }

  /** Below a root that was empty, everything but directories was put there by an entry. */
  lemma {:induction false} OnlyEntriesBelow(trees: seq<FS>, root: Path, entries: seq<Entry>, n: nat, p: Path)
    requires Unpacked(trees, root, entries) && EmptyBelow(trees[0], root) && n <= |entries|
    requires Under(root, p) && p in trees[n].nodes && !trees[n].nodes[p].Dir?
    ensures Placed(root, entries, n, p)
  {
    if n > 0 {
      assert UnpackedAt(trees, root, entries, n - 1);
      var e := entries[n - 1];
      if !e.OtherEntry? && PathOf(root, e) == Some(p) {
        assert !e.DirEntry?;
      } else {
        assert e.OtherEntry? || SameOrNewDir(trees[n - 1], trees[n], p);
        OnlyEntriesBelow(trees, root, entries, n - 1, p);
      }
    }
  }

  lemma NotPlacedBefore(root: Path, entries: seq<Entry>, n: nat, j: nat)
    requires ClashFree(root, entries) && n <= j < |entries|
    requires !entries[j].OtherEntry? && PathOf(root, entries[j]).Some?
    ensures !Placed(root, entries, n, PathOf(root, entries[j]).value)
  {
    forall i | 0 <= i < n
      ensures entries[i].DirEntry? || entries[i].OtherEntry? || PathOf(root, entries[i]) != PathOf(root, entries[j])
    {
      assert !Clash(root, entries[i], entries[j]);
    }
  }

  /** A path of a later entry holds no file or link before that entry. */
  lemma LaterPathIsFree(trees: seq<FS>, root: Path, entries: seq<Entry>, n: nat, j: nat)
    requires Unpacked(trees, root, entries) && EmptyBelow(trees[0], root) && ClashFree(root, entries)
    requires n <= j < |entries| && !entries[j].OtherEntry? && PathOf(root, entries[j]).Some?
    ensures var t := PathOf(root, entries[j]).value; t in trees[n].nodes ==> trees[n].nodes[t].Dir?
  {
    var t := PathOf(root, entries[j]).value;
    assert Sound(trees[n], root);
    SafeJoinStaysInside(root, entries[j].name);
    NotPlacedBefore(root, entries, n, j);
    if t in trees[n].nodes && !trees[n].nodes[t].Dir? {
      OnlyEntriesBelow(trees, root, entries, n, t);
    }
  }

  /** Unpacked into an empty root, an archive without clashing paths is in place as a whole: every directory, every
      file with its contents, every link. */
  lemma FreshArchiveIsComplete(trees: seq<FS>, root: Path, entries: seq<Entry>, i: nat)
    requires Unpacked(trees, root, entries) && EmptyBelow(trees[0], root) && ClashFree(root, entries)
    requires i < |entries|
    ensures Extracted(trees[|entries|], root, entries[i])
  {
    forall j | i < j < |entries| ensures !Spoils(trees[j], root, entries[i], entries[j]) {
      assert UnpackedAt(trees, root, entries, i) && UnpackedAt(trees, root, entries, j);
      if !entries[j].OtherEntry? {
        LaterPathIsFree(trees, root, entries, i + 1, j);
        LaterPathIsFree(trees, root, entries, j, j);
      }
    }
    EntryStays(trees, root, entries, i, |entries|);
  }

  // ---- The whole archive ----

  /** In place, and for names joined with slashes at just those names below the root. */
  ghost predicate Stands(fs: FS, root: Path, e: Entry) {
    && Extracted(fs, root, e)
    && forall names :: IsNamed(e, names) ==> InPlace(fs, root, root + names, e)
  }

  /** Every entry that no later one spoils stands; in an empty root and without clashing paths, every entry does. */
  ghost predicate StandsAsFarAsUnspoilt(trees: seq<FS>, root: Path, entries: seq<Entry>)
    requires |trees| == |entries| + 1
  {
    && (forall i :: 0 <= i < |entries| && Unspoilt(trees, root, entries, i, |entries|) ==>
          Stands(trees[|entries|], root, entries[i]))
    && (EmptyBelow(trees[0], root) && ClashFree(root, entries) ==>
          forall i :: 0 <= i < |entries| ==> Stands(trees[|entries|], root, entries[i]))
  }

  lemma ExtractedStands(fs: FS, root: Path, e: Entry)
    requires Extracted(fs, root, e)
    ensures Stands(fs, root, e)
  {
    forall names | IsNamed(e, names) ensures InPlace(fs, root, root + names, e) {
      ExtractedAtNames(fs, root, e, names);
    }
  }

  lemma UnpackedStands(trees: seq<FS>, root: Path, entries: seq<Entry>)
    requires Unpacked(trees, root, entries)
    ensures StandsAsFarAsUnspoilt(trees, root, entries)
  {
    var fs := trees[|entries|];
    forall i | 0 <= i < |entries| && Unspoilt(trees, root, entries, i, |entries|) ensures Stands(fs, root, entries[i]) {
      EntryStays(trees, root, entries, i, |entries|);
      ExtractedStands(fs, root, entries[i]);
    }
    if EmptyBelow(trees[0], root) && ClashFree(root, entries) {
      forall i | 0 <= i < |entries| ensures Stands(fs, root, entries[i]) {
        FreshArchiveIsComplete(trees, root, entries, i);
        ExtractedStands(fs, root, entries[i]);
      }
    }
  }
}
