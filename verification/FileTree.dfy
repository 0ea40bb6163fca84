/** A file tree with directories, files shared by hard links, and symbolic links, and the system calls that walk it. */
module FileTree {
  import opened Seqs

  /** An absolute location: the names from the top. */
  type Path = seq<string>
  type Bytes = string

  /** A symbolic link's text, cut at slashes. */
  datatype Target = Target(absolute: bool, parts: seq<string>)

  datatype Node = Dir | File(inode: nat) | Link(target: Target)

  datatype FS = FS(nodes: map<Path, Node>, data: map<nat, Bytes>, next: nat)

  datatype Errno = NotExist | NotDirectory | IsDirectory | Exists | NotEmpty | TooManyLinks | Refused

  function Parent(p: Path): Path {
    if p == [] then [] else p[..|p| - 1]
  }

  /** Where a path leads, as the kernel walks it from `at`: links in the middle are followed, a link at the end only if
      `follow`; the last name may be missing. At most `hops` links are followed. */
  function Walk(fs: FS, at: Path, rest: seq<string>, follow: bool, hops: nat): (r: Result<Path, Errno>)
    ensures r.Err? ==> r.error.NotExist? || r.error.NotDirectory? || r.error.TooManyLinks?
    decreases hops, |rest|
  {
    if rest == [] then Ok(at)
    else if rest[0] == "" || rest[0] == "." then Walk(fs, at, rest[1..], follow, hops)
    else if rest[0] == ".." then Walk(fs, Parent(at), rest[1..], follow, hops)
    else
      var here := at + [rest[0]];
      if here !in fs.nodes then (if |rest| == 1 then Ok(here) else Err(NotExist))
      else
        match fs.nodes[here]
        case Dir => Walk(fs, here, rest[1..], follow, hops)
        case File(_) => if |rest| == 1 then Ok(here) else Err(NotDirectory)
        case Link(t) =>
          if |rest| == 1 && !follow then Ok(here)
          else if hops == 0 then Err(TooManyLinks)
          else Walk(fs, if t.absolute then [] else at, t.parts + rest[1..], follow, hops - 1)
  }

  function Lstat(fs: FS, path: Path, hops: nat): Result<Node, Errno> {
    match Walk(fs, [], path, false, hops)
    case Err(e) => Err(e)
    case Ok(p) => if p == [] then Ok(Dir) else if p in fs.nodes then Ok(fs.nodes[p]) else Err(NotExist)
  }

  function Stat(fs: FS, path: Path, hops: nat): Result<Node, Errno> {
    match Walk(fs, [], path, true, hops)
    case Err(e) => Err(e)
    case Ok(p) => if p == [] then Ok(Dir) else if p in fs.nodes then Ok(fs.nodes[p]) else Err(NotExist)
  }

  function Mkdir(fs: FS, path: Path, hops: nat): Result<FS, Errno> {
    match Walk(fs, [], path, false, hops)
    case Err(e) => Err(e)
    case Ok(p) => if p == [] || p in fs.nodes then Err(Exists) else Ok(fs.(nodes := fs.nodes[p := Dir]))
  }

  /** os.MkdirAll: done if the path is a directory; else make the parents, then the last directory. What was made before
      a failure stays. */
  function MkdirAll(fs: FS, path: Path, hops: nat): (FS, Option<Errno>)
    decreases |path|
  {
    match Stat(fs, path, hops)
    case Ok(node) => (fs, if node.Dir? then None else Some(NotDirectory))
    case Err(e) =>
      if path == [] then (fs, Some(e))
      else
        var (fs1, failed) := MkdirAll(fs, Parent(path), hops);
        if failed.Some? then (fs1, failed)
        else
          match Mkdir(fs1, path, hops)
          case Ok(fs2) => (fs2, None)
          case Err(e2) => (fs1, if Lstat(fs1, path, hops) == Ok(Dir) then None else Some(e2))
  }

  /** Open for writing, creating or truncating, and write. */
  function WriteFile(fs: FS, path: Path, bytes: Bytes, hops: nat): Result<FS, Errno> {
    match Walk(fs, [], path, true, hops)
    case Err(e) => Err(e)
    case Ok(p) =>
      if p == [] then Err(IsDirectory)
      else if p !in fs.nodes then Ok(FS(fs.nodes[p := File(fs.next)], fs.data[fs.next := bytes], fs.next + 1))
      else
        match fs.nodes[p]
        case File(i) => Ok(fs.(data := fs.data[i := bytes]))
        case _ => Err(IsDirectory)
  }

  predicate HasChild(fs: FS, p: Path) {
    exists q :: q in fs.nodes && q != [] && Parent(q) == p
  }

  function Remove(fs: FS, path: Path, hops: nat): Result<FS, Errno> {
    match Walk(fs, [], path, false, hops)
    case Err(e) => Err(e)
    case Ok(p) =>
      if p == [] then Err(Refused)
      else if p !in fs.nodes then Err(NotExist)
      else if fs.nodes[p].Dir? && HasChild(fs, p) then Err(NotEmpty)
      else Ok(fs.(nodes := fs.nodes - {p}))
  }

  function Symlink(fs: FS, target: Target, path: Path, hops: nat): Result<FS, Errno> {
    match Walk(fs, [], path, false, hops)
    case Err(e) => Err(e)
    case Ok(p) => if p == [] || p in fs.nodes then Err(Exists) else Ok(fs.(nodes := fs.nodes[p := Link(target)]))
  }

  /** Hard links are made to files only. */
  function HardLink(fs: FS, old_: Path, new_: Path, hops: nat): Result<FS, Errno> {
    match (Walk(fs, [], old_, false, hops), Walk(fs, [], new_, false, hops))
    case (Ok(p), Ok(q)) =>
      if p !in fs.nodes then Err(NotExist)
      else if !fs.nodes[p].File? then Err(Refused)
      else if q == [] || q in fs.nodes then Err(Exists)
      else Ok(fs.(nodes := fs.nodes[q := fs.nodes[p]]))
    case (Err(e), _) => Err(e)
    case (_, Err(e)) => Err(e)
  }

  // ---- Below a root ----

  predicate Under(root: Path, p: Path) {
    root <= p && p != root
  }

  function Get(fs: FS, p: Path): Option<Node> {
    if p in fs.nodes then Some(fs.nodes[p]) else None
  }

  /** Nothing outside the root differs: neither the tree nor the contents of files reachable there. */
  ghost predicate SameOutside(fs: FS, fs': FS, root: Path) {
    forall p :: !Under(root, p) ==>
      && Get(fs', p) == Get(fs, p)
      && (Get(fs, p).Some? && Get(fs, p).value.File? ==>
            var i := Get(fs, p).value.inode;
            && (i in fs'.data <==> i in fs.data)
            && (i in fs.data ==> fs'.data[i] == fs.data[i]))
  }

  /** A name that means itself in a walk. */
  predicate PlainName(c: string) {
    c != "" && c != "." && c != ".."
  }

  predicate Plain(p: Path) {
    forall i :: 0 <= i < |p| ==> PlainName(p[i])
  }

  ghost predicate RootOk(fs: FS, root: Path) {
    && root != [] && Plain(root)
    && forall k :: 0 < k <= |root| ==> Get(fs, root[..k]) == Some(Dir)
  }

  /** Everything but the top lies in a directory. */
  ghost predicate TreeOk(fs: FS) {
    forall p :: p in fs.nodes ==> p != [] && (|p| > 1 ==> Get(fs, Parent(p)) == Some(Dir))
  }

  /** No file inside the root shares its contents with one outside. */
  ghost predicate InodesOk(fs: FS, root: Path) {
    && (forall p :: p in fs.nodes && fs.nodes[p].File? ==> fs.nodes[p].inode < fs.next)
    && (forall p, q ::
          && p in fs.nodes && q in fs.nodes && fs.nodes[p].File? && fs.nodes[q].File?
          && Under(root, p) && !Under(root, q)
          ==> fs.nodes[p].inode != fs.nodes[q].inode)
  }

  /** No name of the path below the root is a symbolic link, up to the `n`-th name. */
  ghost predicate NoLinks(fs: FS, root: Path, p: Path, n: nat) {
    forall k :: |root| < k <= n && k <= |p| && p[..k] in fs.nodes ==> !fs.nodes[p[..k]].Link?
  }

  /** A walk along a path without links stays on it. */
  lemma {:induction false} WalkStraight(fs: FS, root: Path, p: Path, k: nat, follow: bool, hops: nat)
    requires RootOk(fs, root) && root <= p && Plain(p) && k <= |p|
    requires NoLinks(fs, root, p, if follow then |p| else |p| - 1)
    requires k > 0 ==> Get(fs, p[..k]) == Some(Dir)
    ensures var r := Walk(fs, p[..k], p[k..], follow, hops);
            r.Ok? ==> r.value == p && (k < |p| && |p| > 1 ==> Get(fs, Parent(p)) == Some(Dir))
    decreases |p| - k
  {
    var rest := p[k..];
    if k == |p| {
      assert p[..k] == p;
    } else {
      var here := p[..k] + [rest[0]];
      assert here == p[..k + 1] && rest[1..] == p[k + 1..] && PlainName(p[k]);
      if k + 1 <= |root| {
        assert here == root[..k + 1];
      }
      if here in fs.nodes && fs.nodes[here].Dir? {
        WalkStraight(fs, root, p, k + 1, follow, hops);
      }
      if k + 1 == |p| {
        assert here == p && Parent(p) == p[..k];
      }
    }
  }

  lemma WalkFromTop(fs: FS, root: Path, p: Path, follow: bool, hops: nat)
    requires RootOk(fs, root) && root <= p && Plain(p) && NoLinks(fs, root, p, if follow then |p| else |p| - 1)
    ensures var r := Walk(fs, [], p, follow, hops);
            r.Ok? ==> r.value == p && (|p| > 1 ==> Get(fs, Parent(p)) == Some(Dir))
  {
    WalkStraight(fs, root, p, 0, follow, hops);
    assert p[..0] == [] && p[0..] == p;
  }

  lemma {:induction false} DirsAbove(fs: FS, p: Path, k: nat)
    requires TreeOk(fs) && p in fs.nodes && 0 < k < |p|
    ensures Get(fs, p[..k]) == Some(Dir)
    decreases |p| - k
  {
    if k + 1 < |p| {
      DirsAbove(fs, p, k + 1);
      assert Parent(p[..k + 1]) == p[..k];
    } else {
      assert Parent(p) == p[..k];
    }
  }

  /** In a tree in order, a walk that does not follow the last name reaches every node. */
  lemma {:induction false} WalkReaches(fs: FS, p: Path, k: nat, hops: nat)
    requires TreeOk(fs) && p in fs.nodes && Plain(p) && k < |p|
    ensures Walk(fs, p[..k], p[k..], false, hops) == Ok(p)
    decreases |p| - k
  {
    assert p[..k] + [p[k]] == p[..k + 1] && p[k..][1..] == p[k + 1..] && PlainName(p[k]);
    if k + 1 < |p| {
      DirsAbove(fs, p, k + 1);
      WalkReaches(fs, p, k + 1, hops);
    } else {
      assert p[..k + 1] == p;
    }
  }
}
