/** Unpacking a tar stream below a root directory. */
module Extraction {
  import opened Seqs
  import opened Text
  import opened FileTree

  // ---- Path computations ----

  function Split(s: string): seq<string>
    decreases |s|
  {
    match Cut(s, '/')
    case None => [s]
    case Some((before, after)) => [before] + Split(after)
  }

  predicate IsAbs(s: string) {
    s != "" && s[0] == '/'
  }

  /** filepath.Clean of an absolute path: names appended to `base` one by one, ".." climbing and stopping at the top. */
  function CleanOnto(base: Path, parts: seq<string>): Path
    decreases |parts|
  {
    if parts == [] then base
    else if parts[0] == "" || parts[0] == "." then CleanOnto(base, parts[1..])
    else if parts[0] == ".." then CleanOnto(Parent(base), parts[1..])
    else CleanOnto(base + [parts[0]], parts[1..])
  }

  /** filepath.Clean of a relative path: a ".." that has nothing to climb stays in front. */
  function CleanRel(base: seq<string>, parts: seq<string>): seq<string>
    decreases |parts|
  {
    if parts == [] then base
    else if parts[0] == "" || parts[0] == "." then CleanRel(base, parts[1..])
    else if parts[0] == ".." && base != [] && base[|base| - 1] != ".." then CleanRel(base[..|base| - 1], parts[1..])
    else CleanRel(base + [parts[0]], parts[1..])
  }

  /** Where an entry's name leads, or nothing if it is refused. */
  function SafeJoin(root: Path, name: string): Option<Path> {
    var clean := CleanRel([], Split(name));
    if IsAbs(name) then None
    else if clean == [] then Some(root)
    else if ".." <= clean[0] then None
    else if root <= CleanOnto(root, clean) then Some(CleanOnto(root, clean))
    else None
  }

  /** In a cleaned relative path every ".." comes before every other name. */
  predicate ClimbsFirst(p: seq<string>) {
    && (forall i :: 0 <= i < |p| ==> p[i] != "" && p[i] != ".")
    && (forall i, j :: 0 <= i < j < |p| && p[j] == ".." ==> p[i] == "..")
  }

  lemma {:induction false} CleanRelClimbsFirst(base: seq<string>, parts: seq<string>)
    requires ClimbsFirst(base)
    ensures ClimbsFirst(CleanRel(base, parts))
    decreases |parts|
  {
    if parts != [] {
      if parts[0] == "" || parts[0] == "." {
        CleanRelClimbsFirst(base, parts[1..]);
      } else if parts[0] == ".." && base != [] && base[|base| - 1] != ".." {
        CleanRelClimbsFirst(base[..|base| - 1], parts[1..]);
      } else {
        CleanRelClimbsFirst(base + [parts[0]], parts[1..]);
      }
    }
  }

  lemma {:induction false} CleanOntoPlain(base: Path, parts: seq<string>)
    requires Plain(parts)
    ensures CleanOnto(base, parts) == base + parts
    decreases |parts|
  {
    if parts != [] {
      assert PlainName(parts[0]);
      CleanOntoPlain(base + [parts[0]], parts[1..]);
      assert base + [parts[0]] + parts[1..] == base + parts;
    } else {
      assert base + parts == base;
    }
  }

  lemma {:induction false} CleanOntoIsPlain(base: Path, parts: seq<string>)
    requires Plain(base)
    ensures Plain(CleanOnto(base, parts))
    decreases |parts|
  {
    if parts != [] {
      CleanOntoIsPlain(base, parts[1..]);
      CleanOntoIsPlain(Parent(base), parts[1..]);
      if PlainName(parts[0]) {
        CleanOntoIsPlain(base + [parts[0]], parts[1..]);
      }
    }
  }

  /** An accepted name leads to the root or below it; it is refused exactly if it is absolute or its cleaned form
      begins with two dots, and the second check never refuses anything. */
  lemma SafeJoinStaysInside(root: Path, name: string)
    requires Plain(root)
    ensures SafeJoin(root, name).Some? ==> root <= SafeJoin(root, name).value && Plain(SafeJoin(root, name).value)
    ensures SafeJoin(root, name).None? <==>
              IsAbs(name) || (CleanRel([], Split(name)) != [] && ".." <= CleanRel([], Split(name))[0])
  {
    var clean := CleanRel([], Split(name));
    CleanRelClimbsFirst([], Split(name));
    if clean != [] && !(".." <= clean[0]) {
      forall i | 0 <= i < |clean| ensures PlainName(clean[i]) {
        assert clean[0] != "..";
      }
      CleanOntoPlain(root, clean);
    }
  }

  // ---- What a name means, over the joined string ----

  /** Parts put together with slashes. */
  function Joined(parts: seq<string>): string {
    if parts == [] then "" else if |parts| == 1 then parts[0] else parts[0] + "/" + Joined(parts[1..])
  }

  predicate NoSlash(parts: seq<string>) {
    forall i :: 0 <= i < |parts| ==> '/' !in parts[i]
  }

  /** Splitting undoes joining. */
  lemma {:induction false} SplitJoined(parts: seq<string>)
    requires parts != [] && NoSlash(parts)
    ensures Split(Joined(parts)) == parts
  {
    if |parts| == 1 {
      assert Cut(parts[0], '/').None?;
    } else {
      assert parts[0] + "/" + Joined(parts[1..]) == parts[0] + ['/'] + Joined(parts[1..]);
      CutAt(parts[0], '/', Joined(parts[1..]));
      SplitJoined(parts[1..]);
      assert [parts[0]] + parts[1..] == parts;
    }
  }

  /** And joining undoes splitting. */
  lemma {:induction false} JoinedSplit(s: string)
    ensures Split(s) != [] && NoSlash(Split(s)) && Joined(Split(s)) == s
    decreases |s|
  {
    match Cut(s, '/')
    case None =>
    case Some((before, after)) =>
      JoinedSplit(after);
      var parts := Split(s);
      assert parts[1..] == Split(after);
      assert s == before + "/" + after;
  }

  lemma {:induction false} CleanRelConcat(base: seq<string>, xs: seq<string>, ys: seq<string>)
    ensures CleanRel(base, xs + ys) == CleanRel(CleanRel(base, xs), ys)
    decreases |xs|
  {
    if xs == [] {
      assert xs + ys == ys;
    } else {
      assert (xs + ys)[0] == xs[0] && (xs + ys)[1..] == xs[1..] + ys;
      if xs[0] == "" || xs[0] == "." {
        CleanRelConcat(base, xs[1..], ys);
      } else if xs[0] == ".." && base != [] && base[|base| - 1] != ".." {
        CleanRelConcat(base[..|base| - 1], xs[1..], ys);
      } else {
        CleanRelConcat(base + [xs[0]], xs[1..], ys);
      }
    }
  }

  lemma {:induction false} CleanRelPlain(base: seq<string>, names: seq<string>)
    requires Plain(names)
    ensures CleanRel(base, names) == base + names
    decreases |names|
  {
    if names == [] {
      assert base + names == base;
    } else {
      assert PlainName(names[0]);
      CleanRelPlain(base + [names[0]], names[1..]);
      assert base + [names[0]] + names[1..] == base + names;
    }
  }

  /** A leading ".." is never cancelled. */
  lemma {:induction false} CleanRelStaysUp(base: seq<string>, parts: seq<string>)
    requires base != [] && base[0] == ".."
    ensures CleanRel(base, parts) != [] && CleanRel(base, parts)[0] == ".."
    decreases |parts|
  {
    if parts != [] {
      if parts[0] == "" || parts[0] == "." {
        CleanRelStaysUp(base, parts[1..]);
      } else if parts[0] == ".." && base[|base| - 1] != ".." {
        CleanRelStaysUp(base[..|base| - 1], parts[1..]);
      } else {
        CleanRelStaysUp(base + [parts[0]], parts[1..]);
      }
    }
  }

  lemma AbsFirst(parts: seq<string>)
    requires parts != [] && NoSlash(parts)
    ensures IsAbs(Joined(parts)) <==> parts[0] == "" && |parts| > 1
  {
    if parts[0] != "" {
      assert Joined(parts)[0] == parts[0][0] && parts[0][0] in parts[0];
    }
  }

  /** Names joined with slashes lead to just those names below the root, unless the first begins with two dots. */
  lemma PlainNamesLead(root: Path, names: seq<string>)
    requires names != [] && Plain(names) && NoSlash(names)
    ensures SafeJoin(root, Joined(names)) == if ".." <= names[0] then None else Some(root + names)
  {
    assert PlainName(names[0]);
    SplitJoined(names);
    AbsFirst(names);
    CleanRelPlain([], names);
    assert [] + names == names;
    CleanOntoPlain(root, names);
  }

  /** The same cleaned parts and the same kind of path lead to the same place. */
  lemma SameClean(root: Path, xs: seq<string>, ys: seq<string>)
    requires xs != [] && ys != [] && NoSlash(xs) && NoSlash(ys) && CleanRel([], xs) == CleanRel([], ys)
    requires IsAbs(Joined(xs)) == IsAbs(Joined(ys))
    ensures SafeJoin(root, Joined(xs)) == SafeJoin(root, Joined(ys))
  {
    SplitJoined(xs);
    SplitJoined(ys);
  }

  /** The parts make a relative name that does not start with an empty part. */
  predicate Relative(parts: seq<string>) {
    parts != [] && parts[0] != ""
  }

  /** Empty and "." parts do not matter. */
  lemma IdlePartsDoNotMatter(root: Path, xs: seq<string>, idle: string, ys: seq<string>)
    requires NoSlash(xs) && NoSlash(ys) && (idle == "" || idle == ".")
    requires Relative(xs + [idle] + ys) && Relative(xs + ys)
    ensures SafeJoin(root, Joined(xs + [idle] + ys)) == SafeJoin(root, Joined(xs + ys))
  {
    AbsFirst(xs + [idle] + ys);
    AbsFirst(xs + ys);
    CleanRelConcat([], xs + [idle], ys);
    CleanRelConcat([], xs, [idle]);
    CleanRelConcat([], xs, ys);
    assert CleanRel(CleanRel([], xs), [idle]) == CleanRel([], xs);
    SameClean(root, xs + [idle] + ys, xs + ys);
  }

  /** A name directly followed by ".." cancels; when nothing is left the root is meant. */
  lemma UpCancels(root: Path, xs: seq<string>, name: string, ys: seq<string>)
    requires NoSlash(xs) && NoSlash(ys) && PlainName(name) && '/' !in name
    requires xs + ys == [] || Relative(xs + ys)
    ensures SafeJoin(root, Joined(xs + [name, ".."] + ys))
              == if xs + ys == [] then Some(root) else SafeJoin(root, Joined(xs + ys))
  {
    var all, base := xs + [name, ".."] + ys, CleanRel([], xs);
    AbsFirst(all);
    CleanRelConcat([], xs + [name, ".."], ys);
    CleanRelConcat([], xs, [name, ".."]);
    CleanRelConcat([], xs, ys);
    assert CleanRel(base, [name, ".."]) == base by {
      assert [name, ".."][1..] == [".."] && (base + [name])[..|base|] == base;
      assert CleanRel(base, [name, ".."]) == CleanRel(base + [name], [".."]);
      assert [".."][1..] == [];
    }
    if xs + ys == [] {
      SplitJoined(all);
    } else {
      AbsFirst(xs + ys);
      SameClean(root, all, xs + ys);
    }
  }

  /** What is refused: absolute names, and names that start by climbing. */
  lemma AbsoluteAndClimbingAreRefused(root: Path, s: string, parts: seq<string>)
    requires NoSlash(parts)
    ensures SafeJoin(root, "/" + s).None? && SafeJoin(root, Joined([".."] + parts)).None?
    ensures SafeJoin(root, "") == SafeJoin(root, ".") == Some(root)
  {
    var up := [".."] + parts;
    SplitJoined(up);
    assert up[1..] == parts;
    CleanRelStaysUp([".."], parts);
    assert [] + [".."] == [".."];
    SplitJoined([""]);
    SplitJoined(["."]);
  }

  function TargetOf(linkName: string): Target {
    Target(IsAbs(linkName), Split(linkName))
  }

  /** Where a link's text leads lexically: an absolute text is read below the root. */
  function LinkLeads(root: Path, at: Path, t: Target): Path {
    if t.absolute then CleanOnto(root, CleanOnto([], t.parts)) else CleanOnto(Parent(at), t.parts)
  }

  predicate LinkInside(root: Path, at: Path, t: Target) {
    root <= LinkLeads(root, at, t)
  }

  function ValidateSymlinkTarget(root: Path, at: Path, linkName: string): bool {
    !Blank(linkName) && LinkInside(root, at, TargetOf(linkName))
  }

  /** Absolute link texts are always accepted. */
  lemma AbsoluteTargetsStayInside(root: Path, at: Path, t: Target)
    requires t.absolute
    ensures LinkInside(root, at, t)
  {
    CleanOntoIsPlain([], t.parts);
    CleanOntoPlain(root, CleanOnto([], t.parts));
  }

  /** A link's text, read by its parts. */
  lemma TargetOfJoined(parts: seq<string>)
    requires parts != [] && NoSlash(parts)
    ensures TargetOf(Joined(parts)) == Target(parts[0] == "" && |parts| > 1, parts)
  {
    SplitJoined(parts);
    AbsFirst(parts);
  }

  /** A plain link text leads beside the link. */
  lemma RelativeLinkLeads(root: Path, at: Path, names: seq<string>)
    requires names != [] && Plain(names) && NoSlash(names)
    ensures LinkLeads(root, at, TargetOf(Joined(names))) == Parent(at) + names
  {
    assert PlainName(names[0]);
    TargetOfJoined(names);
    CleanOntoPlain(Parent(at), names);
  }

  /** With a leading ".." it starts one directory up. */
  lemma UpLinkLeads(root: Path, at: Path, names: seq<string>)
    requires Plain(names) && NoSlash(names)
    ensures LinkLeads(root, at, TargetOf(Joined([".."] + names))) == Parent(Parent(at)) + names
  {
    var up := [".."] + names;
    TargetOfJoined(up);
    assert up[1..] == names;
    CleanOntoPlain(Parent(Parent(at)), names);
  }

  /** With a leading slash it leads below the root. */
  lemma AbsoluteLinkLeads(root: Path, at: Path, names: seq<string>)
    requires names != [] && Plain(names) && NoSlash(names)
    ensures LinkLeads(root, at, TargetOf(Joined([""] + names))) == root + names
  {
    var top := [""] + names;
    TargetOfJoined(top);
    assert top[1..] == names;
    CleanOntoPlain([], names);
    assert [] + names == names;
    CleanOntoPlain(root, names);
  }

  // ---- What extraction keeps ----

  ghost predicate LinksOk(fs: FS, root: Path) {
    forall p :: p in fs.nodes && Under(root, p) && fs.nodes[p].Link? ==> LinkInside(root, p, fs.nodes[p].target)
  }

  ghost predicate Inv(fs: FS, root: Path) {
    TreeOk(fs) && RootOk(fs, root) && InodesOk(fs, root) && LinksOk(fs, root)
  }

  /** From a tree in order: outside the root nothing has changed, and the tree is still in order. */
  ghost predicate Safe(fs: FS, fs': FS, root: Path) {
    Inv(fs', root) && SameOutside(fs, fs', root)
  }

  /** Only directories were added. */
  ghost predicate OnlyDirsAdded(fs: FS, fs': FS) {
    forall p :: Get(fs', p) == Get(fs, p) || (Get(fs, p).None? && Get(fs', p) == Some(Dir))
  }

  /** Only directories were added, and no file was written. */
  ghost predicate Grown(fs: FS, fs': FS) {
    OnlyDirsAdded(fs, fs') && fs'.data == fs.data && fs'.next == fs.next
  }

  /** As it was, or a directory where there was nothing. */
  predicate SameOrNewDir(fs: FS, fs': FS, p: Path) {
    Get(fs', p) == Get(fs, p) || (Get(fs, p).None? && Get(fs', p) == Some(Dir))
  }

  /** One path may hold something else now; elsewhere only directories were added; no file was written. */
  ghost predicate Moved(fs: FS, fs': FS, target: Path) {
    && fs'.data == fs.data && fs'.next == fs.next
    && forall p :: p != target ==> SameOrNewDir(fs, fs', p)
  }

  /** The path is the file it was or a new one; elsewhere only directories were added, and no other file was written. */
  ghost predicate Wrote(fs: FS, fs': FS, target: Path) {
    && fs.next <= fs'.next
    && (forall p :: p != target ==> SameOrNewDir(fs, fs', p))
    && (Get(fs', target) == Get(fs, target) || Get(fs', target) == Some(File(fs.next)))
    && (forall i :: 0 <= i < fs.next && Get(fs, target) != Some(File(i)) ==> SameData(fs, fs', i))
  }

  predicate SameData(fs: FS, fs': FS, i: nat) {
    (i in fs'.data <==> i in fs.data) && (i in fs.data ==> fs'.data[i] == fs.data[i])
  }

  lemma MovedTrans(a: FS, b: FS, c: FS, target: Path)
    requires Moved(a, b, target) && Moved(b, c, target)
    ensures Moved(a, c, target)
  {
    forall p | p != target ensures SameOrNewDir(a, c, p) {
      assert SameOrNewDir(a, b, p) && SameOrNewDir(b, c, p);
    }
  }

  lemma GrownThenWrote(a: FS, b: FS, c: FS, target: Path)
    requires Grown(a, b) && Wrote(b, c, target) && (Get(b, target) == Some(Dir) ==> Get(c, target) != Some(Dir))
    ensures Wrote(a, c, target)
  {
    forall p | p != target ensures SameOrNewDir(a, c, p) {
      assert SameOrNewDir(a, b, p) && SameOrNewDir(b, c, p);
    }
    forall i | 0 <= i < a.next && Get(a, target) != Some(File(i)) ensures SameData(a, c, i) {
      assert Get(b, target) != Some(File(i));
      assert SameData(b, c, i);
    }
  }

  lemma SafeTrans(a: FS, b: FS, c: FS, root: Path)
    requires Safe(a, b, root) && Safe(b, c, root)
    ensures Safe(a, c, root)
  {
    forall p | !Under(root, p)
      ensures Get(c, p) == Get(a, p)
      ensures Get(a, p).Some? && Get(a, p).value.File? ==>
                var i := Get(a, p).value.inode;
                && (i in c.data <==> i in a.data)
                && (i in a.data ==> c.data[i] == a.data[i])
    {
      assert Get(b, p) == Get(a, p) && Get(c, p) == Get(b, p);
    }
  }

  lemma RootIsOutside(root: Path, k: nat)
    requires k <= |root|
    ensures !Under(root, root[..k])
  {
  }

  /** The parent can hold another node. */
  ghost predicate Vacant(fs: FS, p: Path) {
    p !in fs.nodes && p != [] && (|p| > 1 ==> Get(fs, Parent(p)) == Some(Dir))
  }

  lemma AddTree(fs: FS, p: Path, n: Node, fs': FS)
    requires TreeOk(fs) && Vacant(fs, p) && fs'.nodes == fs.nodes[p := n]
    ensures TreeOk(fs')
  {
    forall q | q in fs'.nodes ensures q != [] && (|q| > 1 ==> Get(fs', Parent(q)) == Some(Dir)) {
      assert q != p ==> Get(fs, q).Some?;
      assert Parent(q) == p ==> q !in fs.nodes;
    }
  }

  lemma AddInodes(fs: FS, root: Path, p: Path, n: Node)
    requires InodesOk(fs, root) && Under(root, p)
    requires n.File? ==> exists q :: q in fs.nodes && Under(root, q) && fs.nodes[q] == n
    ensures InodesOk(fs.(nodes := fs.nodes[p := n]), root)
  {
  }

  /** Changes below the root leave the way to it alone. */
  lemma RootKept(fs: FS, fs': FS, root: Path)
    requires RootOk(fs, root) && forall p :: !Under(root, p) ==> Get(fs', p) == Get(fs, p)
    ensures RootOk(fs', root)
  {
    forall k | 0 < k <= |root| ensures Get(fs', root[..k]) == Some(Dir) {
      RootIsOutside(root, k);
      assert Get(fs, root[..k]) == Some(Dir);
    }
  }

  lemma AddSafe(fs: FS, root: Path, p: Path, n: Node)
    requires Inv(fs, root) && Under(root, p) && Vacant(fs, p)
    requires n.Link? ==> LinkInside(root, p, n.target)
    requires n.File? ==> exists q :: q in fs.nodes && Under(root, q) && fs.nodes[q] == n
    ensures Safe(fs, fs.(nodes := fs.nodes[p := n]), root)
  {
    var fs' := fs.(nodes := fs.nodes[p := n]);
    AddTree(fs, p, n, fs');
    AddInodes(fs, root, p, n);
    RootKept(fs, fs', root);
  }

  lemma NewFileSafe(fs: FS, root: Path, p: Path, bytes: Bytes)
    requires Inv(fs, root) && Under(root, p) && Vacant(fs, p)
    ensures Safe(fs, FS(fs.nodes[p := File(fs.next)], fs.data[fs.next := bytes], fs.next + 1), root)
  {
    var fs' := FS(fs.nodes[p := File(fs.next)], fs.data[fs.next := bytes], fs.next + 1);
    AddTree(fs, p, File(fs.next), fs');
    RootKept(fs, fs', root);
  }

  lemma WriteSafe(fs: FS, root: Path, p: Path, bytes: Bytes)
    requires Inv(fs, root) && Under(root, p) && p in fs.nodes && fs.nodes[p].File?
    ensures Safe(fs, fs.(data := fs.data[fs.nodes[p].inode := bytes]), root)
  {
    var fs' := fs.(data := fs.data[fs.nodes[p].inode := bytes]);
    forall k | 0 < k <= |root| ensures Get(fs', root[..k]) == Some(Dir) {
      assert Get(fs, root[..k]) == Some(Dir);
    }
    forall q | !Under(root, q) && Get(fs, q).Some? && Get(fs, q).value.File?
      ensures Get(fs, q).value.inode != fs.nodes[p].inode
    {
      assert q in fs.nodes;
    }
  }

  lemma RemoveSafe(fs: FS, root: Path, p: Path)
    requires Inv(fs, root) && Under(root, p) && p in fs.nodes && (fs.nodes[p].Dir? ==> !HasChild(fs, p))
    ensures Safe(fs, fs.(nodes := fs.nodes - {p}), root)
  {
    var fs' := fs.(nodes := fs.nodes - {p});
    forall q | q in fs'.nodes ensures q != [] && (|q| > 1 ==> Get(fs', Parent(q)) == Some(Dir)) {
      assert q in fs.nodes;
    }
    RootKept(fs, fs', root);
  }

  lemma SafeRefl(fs: FS, root: Path)
    requires Inv(fs, root)
    ensures Safe(fs, fs, root)
  {
  }

  // ---- System calls along a path without links ----

  lemma {:induction false} WalkDirs(fs: FS, root: Path, k: nat, hops: nat)
    requires RootOk(fs, root) && k <= |root|
    ensures Walk(fs, root[..k], root[k..], true, hops) == Ok(root)
    decreases |root| - k
  {
    if k == |root| {
      assert root[..k] == root;
    } else {
      assert root[..k] + [root[k]] == root[..k + 1] && root[k..][1..] == root[k + 1..] && PlainName(root[k]);
      assert Get(fs, root[..k + 1]) == Some(Dir);
      WalkDirs(fs, root, k + 1, hops);
    }
  }

  lemma StatRoot(fs: FS, root: Path, hops: nat)
    requires RootOk(fs, root)
    ensures Stat(fs, root, hops) == Ok(Dir)
  {
    WalkDirs(fs, root, 0, hops);
    assert root[..0] == [] && root[0..] == root && root[..|root|] == root;
    assert Get(fs, root[..|root|]) == Some(Dir);
  }

  lemma NoLinksParent(fs: FS, root: Path, p: Path)
    requires NoLinks(fs, root, p, |p|) && p != []
    ensures NoLinks(fs, root, Parent(p), |Parent(p)|)
  {
    forall k | |root| < k <= |Parent(p)| && Parent(p)[..k] in fs.nodes ensures !fs.nodes[Parent(p)[..k]].Link? {
      assert Parent(p)[..k] == p[..k];
    }
  }

  lemma NoLinksKept(fs: FS, fs': FS, root: Path, p: Path, n: nat)
    requires NoLinks(fs, root, p, n) && OnlyDirsAdded(fs, fs')
    ensures NoLinks(fs', root, p, n)
  {
    forall k | |root| < k <= n && k <= |p| && p[..k] in fs'.nodes ensures !fs'.nodes[p[..k]].Link? {
      assert Get(fs', p[..k]) == Get(fs, p[..k]) || Get(fs', p[..k]) == Some(Dir);
    }
  }

  lemma MkdirSafe(fs: FS, root: Path, p: Path, hops: nat)
    requires Inv(fs, root) && root <= p && Plain(p) && NoLinks(fs, root, p, |p|)
    ensures Mkdir(fs, p, hops).Ok? ==>
              Safe(fs, Mkdir(fs, p, hops).value, root) && OnlyDirsAdded(fs, Mkdir(fs, p, hops).value)
  {
    WalkFromTop(fs, root, p, false, hops);
    if Mkdir(fs, p, hops).Ok? {
      assert root[..|root|] == root;
      assert Get(fs, root[..|root|]) == Some(Dir);
      AddSafe(fs, root, p, Dir);
    }
  }

  lemma {:induction false} MkdirAllSafe(fs: FS, root: Path, p: Path, hops: nat)
    requires Inv(fs, root) && root <= p && Plain(p) && NoLinks(fs, root, p, |p|)
    ensures Safe(fs, MkdirAll(fs, p, hops).0, root) && OnlyDirsAdded(fs, MkdirAll(fs, p, hops).0)
    decreases |p|
  {
    SafeRefl(fs, root);
    if p == root {
      StatRoot(fs, root, hops);
    } else if Stat(fs, p, hops).Err? {
      NoLinksParent(fs, root, p);
      MkdirAllSafe(fs, root, Parent(p), hops);
      var (fs1, failed) := MkdirAll(fs, Parent(p), hops);
      NoLinksKept(fs, fs1, root, p, |p|);
      MkdirSafe(fs1, root, p, hops);
      if Mkdir(fs1, p, hops).Ok? {
        SafeTrans(fs, fs1, Mkdir(fs1, p, hops).value, root);
      }
    }
  }

  lemma {:induction false} MkdirAllWritesNothing(fs: FS, p: Path, hops: nat)
    ensures MkdirAll(fs, p, hops).0.data == fs.data && MkdirAll(fs, p, hops).0.next == fs.next
    decreases |p|
  {
    if Stat(fs, p, hops).Err? && p != [] {
      MkdirAllWritesNothing(fs, Parent(p), hops);
    }
  }

  /** The path is a file with these contents. */
  predicate Holds(fs: FS, p: Path, bytes: Bytes) {
    p in fs.nodes && fs.nodes[p].File? && fs.nodes[p].inode in fs.data && fs.data[fs.nodes[p].inode] == bytes
  }

  lemma DirCalls(fs: FS, root: Path, p: Path, hops: nat)
    requires RootOk(fs, root) && root <= p && Plain(p) && NoLinks(fs, root, p, |p|)
    ensures Stat(fs, p, hops) == Ok(Dir) || Lstat(fs, p, hops) == Ok(Dir) ==> Get(fs, p) == Some(Dir)
    ensures Mkdir(fs, p, hops).Ok? ==> Get(Mkdir(fs, p, hops).value, p) == Some(Dir)
  {
    WalkFromTop(fs, root, p, true, hops);
    WalkFromTop(fs, root, p, false, hops);
  }

  /** When it succeeds, the path is a directory. */
  lemma MkdirAllMakes(fs: FS, root: Path, p: Path, hops: nat)
    requires Inv(fs, root) && root <= p && Plain(p) && NoLinks(fs, root, p, |p|)
    ensures MkdirAll(fs, p, hops).1.None? ==> Get(MkdirAll(fs, p, hops).0, p) == Some(Dir)
  {
    DirCalls(fs, root, p, hops);
    if p == root {
      StatRoot(fs, root, hops);
    } else if Stat(fs, p, hops).Err? {
      NoLinksParent(fs, root, p);
      MkdirAllSafe(fs, root, Parent(p), hops);
      LastMkdirMakes(fs, root, p, hops);
    }
  }

  lemma LastMkdirMakes(fs: FS, root: Path, p: Path, hops: nat)
    requires root <= p && Plain(p) && p != root && NoLinks(fs, root, p, |p|) && Stat(fs, p, hops).Err?
    requires RootOk(MkdirAll(fs, Parent(p), hops).0, root) && OnlyDirsAdded(fs, MkdirAll(fs, Parent(p), hops).0)
    ensures MkdirAll(fs, p, hops).1.None? ==> Get(MkdirAll(fs, p, hops).0, p) == Some(Dir)
  {
    var fs1 := MkdirAll(fs, Parent(p), hops).0;
    NoLinksKept(fs, fs1, root, p, |p|);
    DirCalls(fs1, root, p, hops);
  }

  lemma WriteFileSafe(fs: FS, root: Path, p: Path, bytes: Bytes, hops: nat)
    requires Inv(fs, root) && Under(root, p) && Plain(p) && NoLinks(fs, root, p, |p|)
    ensures var r := WriteFile(fs, p, bytes, hops);
            r.Ok? ==> Safe(fs, r.value, root) && Holds(r.value, p, bytes)
  {
    WalkFromTop(fs, root, p, true, hops);
    if WriteFile(fs, p, bytes, hops).Ok? {
      if p in fs.nodes {
        WriteSafe(fs, root, p, bytes);
      } else {
        NewFileSafe(fs, root, p, bytes);
      }
    }
  }

  lemma RemoveCallSafe(fs: FS, root: Path, p: Path, hops: nat)
    requires Inv(fs, root) && Under(root, p) && Plain(p) && NoLinks(fs, root, p, |p| - 1)
    ensures var r := Remove(fs, p, hops);
            && (r.Ok? ==>
                  && Safe(fs, r.value, root) && p !in r.value.nodes
                  && forall q :: Get(r.value, q) == Get(fs, q) || Get(r.value, q).None?)
            && (r == Err(NotExist) && Get(fs, Parent(p)) == Some(Dir) ==> p !in fs.nodes)
  {
    WalkFromTop(fs, root, p, false, hops);
    if Remove(fs, p, hops).Ok? {
      RemoveSafe(fs, root, p);
    } else if p in fs.nodes {
      WalkReaches(fs, p, 0, hops);
      assert p[..0] == [] && p[0..] == p;
    }
  }

  lemma SymlinkSafe(fs: FS, root: Path, p: Path, t: Target, hops: nat)
    requires Inv(fs, root) && Under(root, p) && Plain(p) && NoLinks(fs, root, p, |p| - 1) && LinkInside(root, p, t)
    ensures var r := Symlink(fs, t, p, hops);
            && (r.Ok? ==> Safe(fs, r.value, root) && Get(r.value, p) == Some(Link(t)))
            && (r == Err(Exists) ==> p in fs.nodes)
  {
    WalkFromTop(fs, root, p, false, hops);
    if Symlink(fs, t, p, hops).Ok? {
      AddSafe(fs, root, p, Link(t));
    }
  }

  lemma HardLinkSafe(fs: FS, root: Path, from: Path, p: Path, hops: nat)
    requires Inv(fs, root) && Under(root, p) && Plain(p) && NoLinks(fs, root, p, |p| - 1)
    requires root <= from && Plain(from) && NoLinks(fs, root, from, |from|)
    ensures var r := HardLink(fs, from, p, hops);
            r.Ok? ==>
              && Safe(fs, r.value, root) && Get(r.value, p) == Get(r.value, from) == Get(fs, from)
              && Get(fs, from).Some? && Get(fs, from).value.File?
  {
    WalkFromTop(fs, root, p, false, hops);
    WalkFromTop(fs, root, from, false, hops);
    if HardLink(fs, from, p, hops).Ok? {
      assert root[..|root|] == root;
      assert Get(fs, root[..|root|]) == Some(Dir);
      AddSafe(fs, root, p, fs.nodes[from]);
    }
  }

  /** Writing a file along a path without links writes that file only. */
  lemma WriteFileWrote(fs: FS, root: Path, p: Path, bytes: Bytes, hops: nat)
    requires RootOk(fs, root) && root <= p && Plain(p) && NoLinks(fs, root, p, |p|)
    ensures WriteFile(fs, p, bytes, hops).Ok? ==> Wrote(fs, WriteFile(fs, p, bytes, hops).value, p)
  {
    WalkFromTop(fs, root, p, true, hops);
  }

  lemma RemoveMoved(fs: FS, root: Path, p: Path, hops: nat)
    requires RootOk(fs, root) && root <= p && Plain(p) && NoLinks(fs, root, p, |p| - 1)
    ensures Remove(fs, p, hops).Ok? ==> Moved(fs, Remove(fs, p, hops).value, p)
  {
    WalkFromTop(fs, root, p, false, hops);
  }

  lemma SymlinkMoved(fs: FS, root: Path, p: Path, t: Target, hops: nat)
    requires RootOk(fs, root) && root <= p && Plain(p) && NoLinks(fs, root, p, |p| - 1)
    ensures Symlink(fs, t, p, hops).Ok? ==> Moved(fs, Symlink(fs, t, p, hops).value, p)
  {
    WalkFromTop(fs, root, p, false, hops);
  }

  lemma HardLinkMoved(fs: FS, root: Path, from: Path, p: Path, hops: nat)
    requires RootOk(fs, root) && root <= p && Plain(p) && NoLinks(fs, root, p, |p| - 1)
    ensures HardLink(fs, from, p, hops).Ok? ==> Moved(fs, HardLink(fs, from, p, hops).value, p)
  {
    WalkFromTop(fs, root, p, false, hops);
  }
}
