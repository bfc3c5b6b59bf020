/**
 Payload trees on a filesystem (src/cache_payload.rs): a flat table of objects by path,
 the tree it holds at a path, and the counts the bounded walk must produce.
 */
module PayloadTree {
  import opened Common
  import opened Order

  type Path = seq<string>

  type Usize = n: nat | n <= U64_MAX

  /** The content of a file or the target of a link: a character stands for one byte. */
  type Content = s: string | |s| <= U64_MAX

  datatype Object = RegularFile(content: Content) | Symlink(target: Content) | Folder | Special

  type Objects = map<Path, Object>

  /** A tree by value: the entries of a directory in ascending order of name. */
  datatype Tree =
    | File(content: Content)
    | Link(target: Content)
    | Odd
    | Directory(names: seq<string>, children: seq<Tree>)

  datatype LinkPolicy = Preserve | Reject

  datatype Stats = Stats(bytes: nat, files: nat)

  datatype CacheError =
    | Io
    | InventoryLimitExceeded
    | SizeOverflow
    | SymlinkInManagedRoot(path: Path)
    | UnexpectedEntry(path: Path)
    | PayloadSymlinkUnsupported(path: Path)
    | PayloadSymlinkRead(path: Path)
    | PayloadSymlinkCreate(path: Path)

  /** The names `read_dir` yields. */
  function Names(objects: Objects, p: Path): set<string> {
    set q | q in objects && |q| == |p| + 1 && p <= q :: q[|p|]
  }

  /** The filesystem holds `t` at `p`. */
  ghost predicate IsTreeAt(objects: Objects, p: Path, t: Tree)
    decreases t
  {
    && p in objects
    && match t
       case File(content) => objects[p] == RegularFile(content)
       case Link(target) => objects[p] == Symlink(target)
       case Odd => objects[p] == Special
       case Directory(names, children) =>
         && objects[p] == Folder
         && Ascending(names) && Elements(names) == Names(objects, p) && |names| == |children|
         && forall i :: 0 <= i < |names| ==> IsTreeAt(objects, p + [names[i]], children[i])
  }

  /** Nothing is at `p` or under it. */
  ghost predicate Vacant(objects: Objects, p: Path) {
    forall q :: q in objects ==> !(p <= q)
  }

  ghost predicate SameAt(a: Objects, b: Objects, q: Path) {
    (q in a <==> q in b) && (q in a ==> a[q] == b[q])
  }

  ghost predicate SameUnder(a: Objects, b: Objects, p: Path) {
    forall q :: p <= q ==> SameAt(a, b, q)
  }

  /** Nothing changed except at or under `p`. */
  ghost predicate SameOutside(a: Objects, b: Objects, p: Path) {
    forall q :: !(p <= q) ==> SameAt(a, b, q)
  }

  predicate Apart(p: Path, q: Path) {
    !(p <= q) && !(q <= p)
  }

  /** A path holds at most one tree. */
  lemma {:induction false} TreeUnique(objects: Objects, p: Path, t: Tree, u: Tree)
    requires IsTreeAt(objects, p, t) && IsTreeAt(objects, p, u)
    ensures t == u
    decreases t
  {
    if t.Directory? {
      AscendingUnique(t.names, u.names);
      forall i | 0 <= i < |t.children|
        ensures t.children[i] == u.children[i]
      {
        TreeUnique(objects, p + [t.names[i]], t.children[i], u.children[i]);
      }
    }
  }

  lemma {:induction false} TreeFrame(a: Objects, b: Objects, p: Path, t: Tree)
    requires IsTreeAt(a, p, t) && SameUnder(a, b, p)
    ensures IsTreeAt(b, p, t)
    decreases t
  {
    assert SameAt(a, b, p);
    if t.Directory? {
      NamesFrame(a, b, p);
      forall i | 0 <= i < |t.names|
        ensures IsTreeAt(b, p + [t.names[i]], t.children[i])
      {
        UnderChild(a, b, p, t.names[i]);
        TreeFrame(a, b, p + [t.names[i]], t.children[i]);
      }
    }
  }

  lemma UnderChild(a: Objects, b: Objects, p: Path, name: string)
    requires SameUnder(a, b, p)
    ensures SameUnder(a, b, p + [name])
  {
    forall q | p + [name] <= q
      ensures SameAt(a, b, q)
    {
      assert p <= q;
    }
  }

  lemma NamesFrame(a: Objects, b: Objects, p: Path)
    requires SameUnder(a, b, p)
    ensures Names(a, p) == Names(b, p)
  {
    forall n
      ensures n in Names(a, p) <==> n in Names(b, p)
    {
      assert SameAt(a, b, p + [n]);
      NameIsChild(a, p, n);
      NameIsChild(b, p, n);
    }
  }

  lemma NameIsChild(objects: Objects, p: Path, n: string)
    ensures n in Names(objects, p) <==> p + [n] in objects
  {
    if n in Names(objects, p) {
      var q :| q in objects && |q| == |p| + 1 && p <= q && q[|p|] == n;
      assert q == p + [n];
    }
    if p + [n] in objects {
      var q := p + [n];
      assert |q| == |p| + 1 && p <= q && q[|p|] == n;
    }
  }

  // ---------------------------------------------------------------------------
  // Counts
  // ---------------------------------------------------------------------------

  function Size(t: Tree): nat {
    if t.Directory? then 1 + SizeAll(t.children) else 1
  }

  function SizeAll(ts: seq<Tree>): nat {
    if ts == [] then 0 else SizeAll(ts[..|ts| - 1]) + Size(ts[|ts| - 1])
  }

  /** The bytes of files and of link targets. */
  function Bytes(t: Tree): nat {
    match t
    case File(content) => |content|
    case Link(target) => |target|
    case Odd => 0
    case Directory(_, children) => BytesAll(children)
  }

  function BytesAll(ts: seq<Tree>): nat {
    if ts == [] then 0 else BytesAll(ts[..|ts| - 1]) + Bytes(ts[|ts| - 1])
  }

  /** Files and links. */
  function Files(t: Tree): nat {
    match t
    case File(_) => 1
    case Link(_) => 1
    case Odd => 0
    case Directory(_, children) => FilesAll(children)
  }

  function FilesAll(ts: seq<Tree>): nat {
    if ts == [] then 0 else FilesAll(ts[..|ts| - 1]) + Files(ts[|ts| - 1])
  }

  /** No special object, and no link unless links are preserved. */
  predicate Admissible(t: Tree, policy: LinkPolicy) {
    match t
    case File(_) => true
    case Link(_) => policy == Preserve
    case Odd => false
    case Directory(_, children) => forall i :: 0 <= i < |children| ==> Admissible(children[i], policy)
  }

  /** Every node in the order of the walk: a directory before its entries, entries in the
      order of their names. */
  function Paths(p: Path, t: Tree): seq<Path>
    decreases t
  {
    if t.Directory? && |t.names| == |t.children| then [p] + PathsAll(p, t.names, t.children) else [p]
  }

  function PathsAll(p: Path, names: seq<string>, ts: seq<Tree>): seq<Path>
    requires |names| == |ts|
    decreases ts
  {
    if ts == [] then []
    else
      var n := |ts| - 1;
      PathsAll(p, names[..n], ts[..n]) + Paths(p + [names[n]], ts[n])
  }

  lemma {:induction false} SizeGrows(ts: seq<Tree>, n: nat)
    requires n <= |ts|
    ensures SizeAll(ts[..n]) <= SizeAll(ts) && BytesAll(ts[..n]) <= BytesAll(ts) && FilesAll(ts[..n]) <= FilesAll(ts)
    decreases |ts|
  {
    if n < |ts| {
      var m := |ts| - 1;
      SizeGrows(ts[..m], n);
      assert ts[..m][..n] == ts[..n];
    } else {
      assert ts[..n] == ts;
    }
  }

  // ---------------------------------------------------------------------------
  // The walk meets every object exactly once
  // ---------------------------------------------------------------------------

  /** Every object but the root of the filesystem lies in a directory. */
  ghost predicate WellFormed(objects: Objects) {
    forall q {:trigger HasParent(objects, q)} :: q in objects && q != [] ==> HasParent(objects, q)
  }

  ghost predicate HasParent(objects: Objects, q: Path)
    requires q != []
  {
    var parent := q[..|q| - 1];
    parent in objects && objects[parent] == Folder
  }

  lemma {:induction false} AncestorIsFolder(objects: Objects, q: Path, k: nat)
    requires WellFormed(objects) && q in objects && k < |q|
    ensures q[..k] in objects && objects[q[..k]] == Folder
    decreases |q| - k
  {
    if k == |q| - 1 {
      assert HasParent(objects, q);
    } else {
      AncestorIsFolder(objects, q, k + 1);
      var r := q[..k + 1];
      assert HasParent(objects, r) && r[..k] == q[..k];
    }
  }

  lemma {:induction false} PathsAllMember(p: Path, names: seq<string>, ts: seq<Tree>, q: Path)
    requires |names| == |ts|
    ensures q in PathsAll(p, names, ts) <==> exists i :: 0 <= i < |ts| && q in Paths(p + [names[i]], ts[i])
    decreases |ts|
  {
    if ts != [] {
      var n := |ts| - 1;
      PathsAllMember(p, names[..n], ts[..n], q);
      assert names[..n] + [names[n]] == names && ts[..n] + [ts[n]] == ts;
      if q in PathsAll(p, names[..n], ts[..n]) {
        var i :| 0 <= i < n && q in Paths(p + [names[..n][i]], ts[..n][i]);
        assert q in Paths(p + [names[i]], ts[i]);
      }
    }
  }

  lemma {:induction false} PathIsObject(objects: Objects, p: Path, t: Tree, q: Path)
    requires IsTreeAt(objects, p, t) && q in Paths(p, t)
    ensures q in objects && p <= q
    decreases t
  {
    if t.Directory? && q != p {
      PathsAllMember(p, t.names, t.children, q);
      var i :| 0 <= i < |t.children| && q in Paths(p + [t.names[i]], t.children[i]);
      PathIsObject(objects, p + [t.names[i]], t.children[i], q);
    }
  }

  lemma {:induction false} ObjectIsPath(objects: Objects, p: Path, t: Tree, q: Path)
    requires WellFormed(objects) && IsTreeAt(objects, p, t) && q in objects && p <= q
    ensures q in Paths(p, t)
    decreases t
  {
    if q != p {
      var n := q[|p|];
      NextIsChild(objects, p, q);
      assert n in Elements(t.names);
      var i :| 0 <= i < |t.names| && t.names[i] == n;
      ObjectIsPath(objects, p + [n], t.children[i], q);
      PathsAllMember(p, t.names, t.children, q);
    }
  }

  lemma NextIsChild(objects: Objects, p: Path, q: Path)
    requires WellFormed(objects) && q in objects && p <= q && q != p
    ensures p in objects && objects[p] == Folder && q[|p|] in Names(objects, p) && p + [q[|p|]] <= q
  {
    AncestorIsFolder(objects, q, |p|);
    assert q[..|p|] == p;
    if |q| > |p| + 1 {
      AncestorIsFolder(objects, q, |p| + 1);
    }
    assert q[..|p| + 1] == p + [q[|p|]];
    NameIsChild(objects, p, q[|p|]);
  }

  /** The walk meets exactly the objects at or under its root: it goes through no link. */
  lemma PathsAreObjects(objects: Objects, p: Path, t: Tree, q: Path)
    requires WellFormed(objects) && IsTreeAt(objects, p, t)
    ensures q in Paths(p, t) <==> q in objects && p <= q
  {
    if q in Paths(p, t) {
      PathIsObject(objects, p, t, q);
    } else if q in objects && p <= q {
      ObjectIsPath(objects, p, t, q);
    }
  }

  lemma {:induction false} PathsUnder(p: Path, t: Tree, q: Path)
    requires q in Paths(p, t)
    ensures p <= q
    decreases t, 1
  {
    if t.Directory? && |t.names| == |t.children| && q != p {
      PathsAllMember(p, t.names, t.children, q);
      var i :| 0 <= i < |t.children| && q in Paths(p + [t.names[i]], t.children[i]);
      PathsUnder(p + [t.names[i]], t.children[i], q);
    }
  }

  /** Each object once, as many as there are nodes. */
  lemma {:induction false} PathsOnce(objects: Objects, p: Path, t: Tree)
    requires IsTreeAt(objects, p, t)
    ensures Unique(Paths(p, t)) && |Paths(p, t)| == Size(t)
    decreases t, 1, 0
  {
    if t.Directory? {
      PathsAllOnce(objects, p, t, |t.children|);
      assert t.names[..|t.names|] == t.names && t.children[..|t.names|] == t.children;
      var rest := PathsAll(p, t.names, t.children);
      forall q | q in rest
        ensures q != p
      {
        PathsAllMember(p, t.names, t.children, q);
        var i :| 0 <= i < |t.children| && q in Paths(p + [t.names[i]], t.children[i]);
        PathsUnder(p + [t.names[i]], t.children[i], q);
      }
      UniqueConcat([p], rest);
    }
  }

  lemma {:induction false} PathsAllOnce(objects: Objects, p: Path, t: Tree, n: nat)
    requires IsTreeAt(objects, p, t) && t.Directory? && n <= |t.children|
    ensures Unique(PathsAll(p, t.names[..n], t.children[..n]))
    ensures |PathsAll(p, t.names[..n], t.children[..n])| == SizeAll(t.children[..n])
    decreases t, 0, n
  {
    if n > 0 {
      var m := n - 1;
      PathsAllOnce(objects, p, t, m);
      PathsOnce(objects, p + [t.names[m]], t.children[m]);
      assert t.names[..n][..m] == t.names[..m] && t.children[..n][..m] == t.children[..m];
      var a, b := PathsAll(p, t.names[..m], t.children[..m]), Paths(p + [t.names[m]], t.children[m]);
      forall q | q in a && q in b
        ensures false
      {
        PathsAllMember(p, t.names[..m], t.children[..m], q);
        var i :| 0 <= i < m && q in Paths(p + [t.names[..m][i]], t.children[..m][i]);
        PathsUnder(p + [t.names[i]], t.children[i], q);
        PathsUnder(p + [t.names[m]], t.children[m], q);
        SiblingsApart(p, t.names[i], t.names[m], q);
        LessIrreflexive(t.names[m]);
        assert false;
      }
      UniqueConcat(a, b);
    }
  }

  lemma SiblingsApart(p: Path, x: string, y: string, q: Path)
    requires p + [x] <= q && p + [y] <= q
    ensures x == y
  {
    assert (p + [x])[|p|] == q[|p|] && (p + [y])[|p|] == q[|p|];
  }

  lemma UniqueConcat<T>(a: seq<T>, b: seq<T>)
    requires Unique(a) && Unique(b) && forall x :: !(x in a && x in b)
    ensures Unique(a + b)
  {
    forall i, j | 0 <= i < j < |a + b|
      ensures (a + b)[i] != (a + b)[j]
    {
      if i < |a| <= j {
        assert (a + b)[i] in a && (a + b)[j] in b;
      }
    }
  }
}
