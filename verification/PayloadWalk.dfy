/**
 The bounded walk and the copy of a payload tree (src/cache_payload.rs:14-231) and their
 use when a generation is prepared (src/cache.rs:503-516, 1376-1387). Every operating
 system call may fail.
 */
module PayloadWalk {
  import opened Common
  import opened Order
  import opened PayloadTree

  const MAX_INVENTORY_NODES: Usize := 100_000

  /** The tree passes under the policy and the node limit. */
  predicate Passes(t: Tree, policy: LinkPolicy, start: nat, limit: nat) {
    Admissible(t, policy) && start + Size(t) <= limit
  }

  /** Both sums of the walk fit in 64 bits. */
  predicate Fits(t: Tree) {
    Bytes(t) <= U64_MAX && Files(t) <= U64_MAX
  }

  /** The errors that report a failing operating system call. */
  predicate IsCallFailure(error: CacheError) {
    error.Io? || error.PayloadSymlinkRead? || error.PayloadSymlinkCreate?
  }

  /** The operating system calls, and which of them fail on which path. */
  datatype Call = Metadata | ReadDirectory | ReadLink | CopyFile | CreateDirectory | CreateLink

  type Faults = (Call, Path) -> bool

  /** Some call at or under `p` fails. */
  ghost predicate Faulty(faults: Faults, p: Path) {
    exists call, q :: p <= q && faults(call, q)
  }

  lemma FaultyAbove(faults: Faults, p: Path, name: string)
    ensures Faulty(faults, p + [name]) ==> Faulty(faults, p)
  {
    if Faulty(faults, p + [name]) {
      var call, q :| p + [name] <= q && faults(call, q);
      assert p <= p + [name] <= q;
      assert p <= q;
    }
  }

  ghost predicate FaultyEither(faults: Faults, source: Path, destination: Path) {
    Faulty(faults, source) || Faulty(faults, destination)
  }

  lemma FaultyEitherAbove(faults: Faults, source: Path, destination: Path, name: string)
    ensures FaultyEither(faults, source + [name], destination + [name]) ==> FaultyEither(faults, source, destination)
  {
    FaultyAbove(faults, source, name);
    FaultyAbove(faults, destination, name);
  }

  lemma FaultHere(faults: Faults, call: Call, p: Path)
    requires faults(call, p)
    ensures Faulty(faults, p)
  {
  }

  /** Every error has its reason: a failing call, or what is wrong with the tree. */
  ghost predicate Justified(error: CacheError, io: bool, objects: Objects, root: Path, t: Tree, policy: LinkPolicy,
                            start: nat, limit: nat)
  {
    match error
    case Io => io
    case InventoryLimitExceeded => start + Size(t) > limit
    case SizeOverflow => Bytes(t) > U64_MAX || Files(t) > U64_MAX
    case PayloadSymlinkUnsupported(p) =>
      policy == Reject && root <= p && p in objects && objects[p].Symlink? && !Admissible(t, policy)
    case UnexpectedEntry(p) => root <= p && p in objects && objects[p] == Special && !Admissible(t, policy)
    case PayloadSymlinkRead(p) => io && policy == Preserve && root <= p && p in objects && objects[p].Symlink?
    case PayloadSymlinkCreate(_) => io && policy == Preserve
    case SymlinkInManagedRoot(_) => false
  }

  lemma ChildFault(error: CacheError, io: bool, whole: bool, objects: Objects, p: Path, t: Tree, i: nat,
                   policy: LinkPolicy, start: nat, limit: nat)
    requires t.Directory? && |t.names| == |t.children| && i < |t.children|
    requires Justified(error, io, objects, p + [t.names[i]], t.children[i], policy,
                       start + 1 + SizeAll(t.children[..i]), limit)
    requires io ==> whole
    ensures Justified(error, whole, objects, p, t, policy, start, limit)
  {
    SizeGrows(t.children, i + 1);
    assert t.children[..i + 1][..i] == t.children[..i];
    assert p <= p + [t.names[i]];
    assert !Admissible(t.children[i], policy) ==> !Admissible(t, policy);
    assert Bytes(t.children[i]) <= Bytes(t) && Files(t.children[i]) <= Files(t);
    if error.PayloadSymlinkUnsupported? || error.UnexpectedEntry? || error.PayloadSymlinkRead? {
      assert p + [t.names[i]] <= error.path;
      assert p <= error.path;
    }
  }

  class PayloadFs {
    var objects: Objects
    /** The counter the source threads through the recursion. */
    var nodes: Usize
    /** The paths whose metadata the walk or the copy has asked for below its root. */
    ghost var visited: seq<Path>

    /** The counter step both recursions start with. */
    method Count(limit: Usize) returns (r: Result<(), CacheError>)
      modifies this`nodes
      ensures r.Ok? <==> old(nodes) + 1 <= limit
      ensures r.Ok? ==> nodes == old(nodes) + 1
      ensures r.Err? ==> r.error == InventoryLimitExceeded
    {
      if nodes == U64_MAX {
        return Err(InventoryLimitExceeded);
      }
      nodes := nodes + 1;
      if nodes > limit {
        return Err(InventoryLimitExceeded);
      }
      return Ok(());
    }

    /** `walk_payload_with_policy`: a successful walk has met every node once and returns
        its exact counts; a failed one names its reason, so that it succeeds on every tree that
        passes when no call fails. */
    method Walk(path: Path, limit: Usize, policy: LinkPolicy, faults: Faults, ghost t: Tree)
      returns (r: Result<Stats, CacheError>)
      requires IsTreeAt(objects, path, t)
      modifies this`nodes, this`visited
      ensures r.Ok? ==>
        && Passes(t, policy, old(nodes), limit) && nodes == old(nodes) + Size(t)
        && r.value == Stats(Bytes(t), Files(t)) && Fits(t)
        && visited == old(visited) + Paths(path, t)
      ensures r.Err? ==> Justified(r.error, Faulty(faults, path), objects, path, t, policy, old(nodes), limit)
      ensures !Faulty(faults, path) && Passes(t, policy, old(nodes), limit) && Fits(t) ==> r.Ok?
      decreases t
    {
      var counted := Count(limit);
      if counted.Err? {
        return Err(counted.error);
      }
      visited := visited + [path];
      if faults(Metadata, path) {
        FaultHere(faults, Metadata, path);
        return Err(Io);
      }
      match objects[path]
      case Symlink(target) =>
        if policy == Reject {
          return Err(PayloadSymlinkUnsupported(path));
        }
        if faults(ReadLink, path) {
          FaultHere(faults, ReadLink, path);
          return Err(PayloadSymlinkRead(path));
        }
        return Ok(Stats(|target|, 1));
      case RegularFile(content) =>
        return Ok(Stats(|content|, 1));
      case Special =>
        return Err(UnexpectedEntry(path));
      case Folder =>
        r := WalkEntries(path, limit, policy, faults, t, old(nodes), old(visited));
    }

    /** The loop over the entries of a directory in the order of their names. */
    method WalkEntries(path: Path, limit: Usize, policy: LinkPolicy, faults: Faults, ghost t: Tree, ghost start: nat,
                       ghost before: seq<Path>)
      returns (r: Result<Stats, CacheError>)
      requires IsTreeAt(objects, path, t) && t.Directory?
      requires nodes == start + 1 <= limit && visited == before + [path]
      modifies this`nodes, this`visited
      ensures r.Ok? ==>
        && Passes(t, policy, start, limit) && nodes == start + Size(t)
        && r.value == Stats(Bytes(t), Files(t)) && Fits(t)
        && visited == before + Paths(path, t)
      ensures r.Err? ==> Justified(r.error, Faulty(faults, path), objects, path, t, policy, start, limit)
      ensures !Faulty(faults, path) && Passes(t, policy, start, limit) && Fits(t) ==> r.Ok?
      decreases t, 0
    {
      if faults(ReadDirectory, path) {
        FaultHere(faults, ReadDirectory, path);
        return Err(Io);
      }
      var names := SortSet(Names(objects, path));
      AscendingUnique(names, t.names);
      var stats := Stats(0, 0);
      for i := 0 to |names|
        invariant Walked(path, t, policy, start, limit, i, nodes, stats) && Visits(path, t, i, before, visited)
      {
        var child := Walk(path + [names[i]], limit, policy, faults, t.children[i]);
        if child.Err? {
          FaultyAbove(faults, path, names[i]);
          ChildFault(child.error, Faulty(faults, path + [names[i]]), Faulty(faults, path), objects, path, t, i, policy,
                     start, limit);
          return Err(child.error);
        }
        WalkedOne(path, t, policy, start, limit, i, stats);
        if stats.bytes + child.value.bytes > U64_MAX || stats.files + child.value.files > U64_MAX {
          return Err(SizeOverflow);
        }
        stats := Stats(stats.bytes + child.value.bytes, stats.files + child.value.files);
        VisitedOne(path, t, i, before);
      }
      WalkedAll(path, t);
      return Ok(stats);
    }

    /** `measure_payload_tree_with_policy`: the root must be a plain directory. */
    method Measure(root: Path, limit: Usize, policy: LinkPolicy, faults: Faults, ghost t: Tree)
      returns (r: Result<Stats, CacheError>)
      requires IsTreeAt(objects, root, t)
      modifies this`nodes, this`visited
      ensures r.Ok? ==>
        && t.Directory? && Passes(t, policy, old(nodes), limit) && nodes == old(nodes) + Size(t)
        && r.value == Stats(Bytes(t), Files(t)) && Fits(t) && visited == old(visited) + Paths(root, t)
      ensures r.Err? ==>
        || (r.error == SymlinkInManagedRoot(root) && t.Link?)
        || (r.error == UnexpectedEntry(root) && (t.File? || t.Odd?))
        || Justified(r.error, Faulty(faults, root), objects, root, t, policy, old(nodes), limit)
      ensures !Faulty(faults, root) && t.Directory? && Passes(t, policy, old(nodes), limit) && Fits(t) ==> r.Ok?
    {
      if faults(Metadata, root) {
        FaultHere(faults, Metadata, root);
        return Err(Io);
      }
      if objects[root].Symlink? {
        return Err(SymlinkInManagedRoot(root));
      }
      if objects[root] != Folder {
        return Err(UnexpectedEntry(root));
      }
      r := Walk(root, limit, policy, faults, t);
    }

    /** `copy_payload_node`: a successful copy holds an equal tree, links included, and
        nothing outside the destination changes in any case. */
    method CopyNode(source: Path, destination: Path, limit: Usize, policy: LinkPolicy, faults: Faults, ghost t: Tree)
      returns (r: Result<(), CacheError>)
      requires IsTreeAt(objects, source, t) && Vacant(objects, destination) && Apart(source, destination)
      modifies this
      ensures SameOutside(old(objects), objects, destination)
      ensures r.Ok? ==>
        && IsTreeAt(objects, destination, t)
        && Passes(t, policy, old(nodes), limit) && nodes == old(nodes) + Size(t)
        && visited == old(visited) + Paths(source, t)
      ensures r.Err? ==>
        && r.error != SizeOverflow
        && Justified(r.error, FaultyEither(faults, source, destination), old(objects), source, t, policy,
                     old(nodes), limit)
      ensures !FaultyEither(faults, source, destination) && Passes(t, policy, old(nodes), limit) ==> r.Ok?
      decreases t
    {
      var counted := Count(limit);
      if counted.Err? {
        return Err(counted.error);
      }
      visited := visited + [source];
      if faults(Metadata, source) {
        FaultHere(faults, Metadata, source);
        return Err(Io);
      }
      match objects[source]
      case Symlink(target) =>
        if policy == Reject {
          return Err(PayloadSymlinkUnsupported(source));
        }
        if faults(ReadLink, source) {
          FaultHere(faults, ReadLink, source);
          return Err(PayloadSymlinkRead(source));
        }
        if faults(Metadata, destination) {
          FaultHere(faults, Metadata, destination);
          return Err(Io);
        }
        if destination in objects {
          return Err(UnexpectedEntry(destination));
        }
        if faults(CreateLink, destination) {
          FaultHere(faults, CreateLink, destination);
          return Err(PayloadSymlinkCreate(destination));
        }
        objects := objects[destination := Symlink(target)];
        return Ok(());
      case RegularFile(content) =>
        if faults(CopyFile, source) {
          FaultHere(faults, CopyFile, source);
          // A copy that fails half way leaves a part of the file.
          var written: Content := *;
          objects := objects[destination := RegularFile(written)];
          return Err(Io);
        }
        objects := objects[destination := RegularFile(content)];
        return Ok(());
      case Special =>
        return Err(UnexpectedEntry(source));
      case Folder =>
        if faults(CreateDirectory, destination) {
          FaultHere(faults, CreateDirectory, destination);
          return Err(Io);
        }
        ghost var first := objects;
        objects := objects[destination := Folder];
        CopyStarts(first, objects, source, destination, t);
        r := CopyEntries(source, destination, limit, policy, faults, t, old(nodes), old(visited), first);
    }

    /** The loop over the entries of the source directory. */
    method CopyEntries(source: Path, destination: Path, limit: Usize, policy: LinkPolicy, faults: Faults, ghost t: Tree,
                       ghost start: nat, ghost before: seq<Path>, ghost first: Objects)
      returns (r: Result<(), CacheError>)
      requires IsTreeAt(first, source, t) && t.Directory? && Apart(source, destination)
      requires Copied(first, objects, destination, t, 0)
      requires nodes == start + 1 <= limit && visited == before + [source]
      modifies this
      ensures SameOutside(first, objects, destination)
      ensures r.Ok? ==>
        && IsTreeAt(objects, destination, t)
        && Passes(t, policy, start, limit) && nodes == start + Size(t)
        && visited == before + Paths(source, t)
      ensures r.Err? ==>
        && r.error != SizeOverflow
        && Justified(r.error, FaultyEither(faults, source, destination), first, source, t, policy, start, limit)
      ensures !FaultyEither(faults, source, destination) && Passes(t, policy, start, limit) ==> r.Ok?
      decreases t, 0
    {
      if faults(ReadDirectory, source) {
        FaultHere(faults, ReadDirectory, source);
        return Err(Io);
      }
      assert Names(objects, source) == Names(first, source) by {
        ApartSame(first, objects, source, destination);
        NamesFrame(first, objects, source);
      }
      var names := SortSet(Names(objects, source));
      AscendingUnique(names, t.names);
      for i := 0 to |names|
        invariant Copied(first, objects, destination, t, i)
        invariant Counted(t, policy, start, limit, i, nodes) && Visits(source, t, i, before, visited)
      {
        ghost var previous := objects;
        NextEntry(first, objects, source, destination, t, i);
        var child := CopyNode(source + [names[i]], destination + [names[i]], limit, policy, faults, t.children[i]);
        EntryCopied(first, previous, objects, destination, t, i, child.Ok?);
        if child.Err? {
          ghost var io := FaultyEither(faults, source + [names[i]], destination + [names[i]]);
          FaultyEitherAbove(faults, source, destination, names[i]);
          JustifiedFrame(child.error, io, first, previous, source, destination, t, i, policy,
                         start + 1 + SizeAll(t.children[..i]), limit);
          ChildFault(child.error, io, FaultyEither(faults, source, destination), first, source, t, i, policy, start,
                     limit);
          return Err(child.error);
        }
        CountedOne(t, policy, start, limit, i);
        VisitedOne(source, t, i, before);
      }
      WalkedAll(source, t);
      AllCopied(first, objects, destination, t);
      return Ok(());
    }

    /** `copy_payload_tree_with_policy`: the source must be a plain directory and the
        destination must not exist. */
    method CopyTree(source: Path, destination: Path, limit: Usize, policy: LinkPolicy, faults: Faults, ghost t: Tree)
      returns (r: Result<(), CacheError>)
      requires IsTreeAt(objects, source, t) && WellFormed(objects)
      requires source <= destination ==> source == destination
      modifies this
      ensures SameOutside(old(objects), objects, destination)
      ensures destination in old(objects) ==> r.Err? && objects == old(objects)
      ensures r.Ok? ==>
        && t.Directory? && IsTreeAt(objects, destination, t)
        && Passes(t, policy, old(nodes), limit) && nodes == old(nodes) + Size(t)
        && visited == old(visited) + Paths(source, t)
      ensures r.Err? ==>
        || (r.error == SymlinkInManagedRoot(source) && t.Link?)
        || (r.error == UnexpectedEntry(source) && (t.File? || t.Odd?))
        || (r.error == UnexpectedEntry(destination) && destination in old(objects))
        || (r.error != SizeOverflow
            && Justified(r.error, FaultyEither(faults, source, destination), old(objects), source, t, policy,
                         old(nodes), limit))
      ensures
        && !FaultyEither(faults, source, destination) && t.Directory? && destination !in old(objects)
        && Passes(t, policy, old(nodes), limit)
        ==> r.Ok?
    {
      if faults(Metadata, source) {
        FaultHere(faults, Metadata, source);
        return Err(Io);
      }
      if objects[source].Symlink? {
        return Err(SymlinkInManagedRoot(source));
      }
      if objects[source] != Folder {
        return Err(UnexpectedEntry(source));
      }
      if faults(Metadata, destination) {
        FaultHere(faults, Metadata, destination);
        return Err(Io);
      }
      if destination in objects {
        return Err(UnexpectedEntry(destination));
      }
      AbsentIsVacant(objects, destination);
      r := CopyNode(source, destination, limit, policy, faults, t);
    }

    /** How a complete generation is reused (src/cache.rs:503-516, 1376-1387): validate the
        tree, then copy it under the same policy and limit. Once validation has passed,
        the copy meets no link, limit or object-type error. */
    method Reuse(source: Path, destination: Path, policy: LinkPolicy, faults: Faults, ghost t: Tree)
      returns (validated: bool, r: Result<(), CacheError>)
      requires IsTreeAt(objects, source, t) && WellFormed(objects)
      requires !(source <= destination) && destination !in objects
      modifies this
      ensures SameOutside(old(objects), objects, destination) && IsTreeAt(objects, source, t)
      ensures !validated ==> r.Err? && objects == old(objects)
      ensures validated ==> t.Directory? && Passes(t, policy, 0, MAX_INVENTORY_NODES) && Fits(t)
      ensures validated && r.Err? ==> FaultyEither(faults, source, destination) && IsCallFailure(r.error)
      ensures
        && !FaultyEither(faults, source, destination) && t.Directory?
        && Passes(t, policy, 0, MAX_INVENTORY_NODES) && Fits(t)
        ==> r.Ok?
      ensures r.Ok? ==> IsTreeAt(objects, destination, t) && nodes == Size(t) <= MAX_INVENTORY_NODES
    {
      nodes := 0;
      var stats := Measure(source, MAX_INVENTORY_NODES, policy, faults, t);
      if stats.Err? {
        return false, Err(stats.error);
      }
      nodes := 0;
      r := CopyTree(source, destination, MAX_INVENTORY_NODES, policy, faults, t);
      validated := true;
      AbsentIsVacant(old(objects), destination);
      ApartSame(old(objects), objects, source, destination);
      TreeFrame(old(objects), objects, source, t);
    }
  }

  lemma AncestorIsThere(objects: Objects, p: Path, q: Path)
    requires WellFormed(objects) && q in objects && p <= q
    ensures p in objects
  {
    if p != q {
      AncestorIsFolder(objects, q, |p|);
      assert q[..|p|] == p;
    }
  }

  lemma AbsentIsVacant(objects: Objects, p: Path)
    requires WellFormed(objects) && p !in objects
    ensures Vacant(objects, p)
  {
    forall q | q in objects
      ensures !(p <= q)
    {
      if p <= q {
        AncestorIsThere(objects, p, q);
        assert false;
      }
    }
  }

  /** After the first `i` entries. */
  ghost predicate Walked(p: Path, t: Tree, policy: LinkPolicy, start: nat, limit: nat, i: nat, nodes: nat, stats: Stats) {
    && t.Directory? && |t.names| == |t.children| && i <= |t.children|
    && nodes == start + 1 + SizeAll(t.children[..i]) <= limit
    && stats == Stats(BytesAll(t.children[..i]), FilesAll(t.children[..i]))
    && stats.bytes <= U64_MAX && stats.files <= U64_MAX
    && forall k :: 0 <= k < i ==> Admissible(t.children[k], policy)
  }

  ghost predicate Visits(p: Path, t: Tree, i: nat, before: seq<Path>, visited: seq<Path>) {
    && t.Directory? && |t.names| == |t.children| && i <= |t.children|
    && visited == before + ([p] + PathsAll(p, t.names[..i], t.children[..i]))
  }

  lemma WalkedOne(p: Path, t: Tree, policy: LinkPolicy, start: nat, limit: nat, i: nat, stats: Stats)
    requires t.Directory? && i < |t.children|
    requires Walked(p, t, policy, start, limit, i, start + 1 + SizeAll(t.children[..i]), stats)
    requires Passes(t.children[i], policy, start + 1 + SizeAll(t.children[..i]), limit)
    ensures stats.bytes + Bytes(t.children[i]) <= Bytes(t) && stats.files + Files(t.children[i]) <= Files(t)
    ensures var more := Stats(stats.bytes + Bytes(t.children[i]), stats.files + Files(t.children[i]));
            more.bytes <= U64_MAX && more.files <= U64_MAX ==>
              Walked(p, t, policy, start, limit, i + 1, start + 1 + SizeAll(t.children[..i]) + Size(t.children[i]), more)
  {
    assert t.children[..i + 1][..i] == t.children[..i];
    SizeGrows(t.children, i + 1);
  }

  lemma VisitedOne(p: Path, t: Tree, i: nat, before: seq<Path>)
    requires t.Directory? && |t.names| == |t.children| && i < |t.children|
    ensures before + ([p] + PathsAll(p, t.names[..i], t.children[..i])) + Paths(p + [t.names[i]], t.children[i])
            == before + ([p] + PathsAll(p, t.names[..i + 1], t.children[..i + 1]))
  {
    var names, ts := t.names[..i + 1], t.children[..i + 1];
    assert ts[..i] == t.children[..i] && names[..i] == t.names[..i];
    var done, one := PathsAll(p, t.names[..i], t.children[..i]), Paths(p + [t.names[i]], t.children[i]);
    assert PathsAll(p, names, ts) == done + one;
    Regroup(before, [p], done, one);
  }

  lemma Regroup<T>(a: seq<T>, b: seq<T>, c: seq<T>, d: seq<T>)
    ensures a + (b + c) + d == a + (b + (c + d))
  {
  }

  lemma WalkedAll(p: Path, t: Tree)
    requires t.Directory? && |t.names| == |t.children|
    ensures t.children[..|t.children|] == t.children && t.names[..|t.children|] == t.names
  {
  }

  // ---------------------------------------------------------------------------
  // Copying entry by entry
  // ---------------------------------------------------------------------------

  /** The destination holds the first `i` entries and nothing else. */
  ghost predicate Copied(first: Objects, now: Objects, d: Path, t: Tree, i: nat) {
    && t.Directory? && |t.names| == |t.children| && i <= |t.children|
    && SameOutside(first, now, d)
    && d in now && now[d] == Folder
    && (forall q :: q in now && d <= q ==> Filled(d, t, i, q))
    && forall k :: 0 <= k < i ==> IsTreeAt(now, d + [t.names[k]], t.children[k])
  }

  predicate Filled(d: Path, t: Tree, i: nat, q: Path)
    requires t.Directory? && i <= |t.names| && d <= q
  {
    q == d || q[|d|] in t.names[..i]
  }

  ghost predicate Counted(t: Tree, policy: LinkPolicy, start: nat, limit: nat, i: nat, nodes: nat) {
    && t.Directory? && i <= |t.children|
    && nodes == start + 1 + SizeAll(t.children[..i]) <= limit
    && forall k :: 0 <= k < i ==> Admissible(t.children[k], policy)
  }

  lemma CountedOne(t: Tree, policy: LinkPolicy, start: nat, limit: nat, i: nat)
    requires t.Directory? && i < |t.children|
    requires Counted(t, policy, start, limit, i, start + 1 + SizeAll(t.children[..i]))
    requires Passes(t.children[i], policy, start + 1 + SizeAll(t.children[..i]), limit)
    ensures Counted(t, policy, start, limit, i + 1, start + 1 + SizeAll(t.children[..i]) + Size(t.children[i]))
  {
    assert t.children[..i + 1][..i] == t.children[..i];
  }

  lemma CopyStarts(first: Objects, now: Objects, s: Path, d: Path, t: Tree)
    requires IsTreeAt(first, s, t) && t.Directory? && Vacant(first, d) && now == first[d := Folder]
    ensures Copied(first, now, d, t, 0)
  {
  }

  lemma ApartSame(first: Objects, now: Objects, s: Path, d: Path)
    requires SameOutside(first, now, d) && Apart(s, d)
    ensures SameUnder(first, now, s)
  {
    forall q | s <= q
      ensures SameAt(first, now, q)
    {
      PrefixesMeet(s, d, q);
    }
  }

  lemma PrefixesMeet(s: Path, d: Path, q: Path)
    ensures s <= q && d <= q ==> s <= d || d <= s
  {
    if s <= q && d <= q {
      assert if |s| <= |d| then s == d[..|s|] else d == s[..|d|];
    }
  }

  /** Before an entry is copied: its place is vacant and its source unchanged. */
  lemma NextEntry(first: Objects, now: Objects, s: Path, d: Path, t: Tree, i: nat)
    requires IsTreeAt(first, s, t) && Apart(s, d) && Copied(first, now, d, t, i) && i < |t.children|
    ensures IsTreeAt(now, s + [t.names[i]], t.children[i])
    ensures Vacant(now, d + [t.names[i]]) && Apart(s + [t.names[i]], d + [t.names[i]])
  {
    ApartSame(first, now, s, d);
    UnderChild(first, now, s, t.names[i]);
    TreeFrame(first, now, s + [t.names[i]], t.children[i]);
    forall q | q in now
      ensures !(d + [t.names[i]] <= q)
    {
      if d + [t.names[i]] <= q {
        assert (d + [t.names[i]])[|d|] == q[|d|];
        assert Filled(d, t, i, q);
        LessIrreflexive(t.names[i]);
        assert false;
      }
    }
    StillApart(s, d, t.names[i]);
  }

  lemma StillApart(s: Path, d: Path, n: string)
    requires Apart(s, d)
    ensures Apart(s + [n], d + [n])
  {
    PrefixDrops(s, d, n);
    PrefixDrops(d, s, n);
  }

  lemma PrefixDrops(s: Path, d: Path, n: string)
    ensures s + [n] <= d + [n] ==> s <= d
  {
    if s + [n] <= d + [n] {
      assert s == (s + [n])[..|s|] == (d + [n])[..|s|] == d[..|s|];
    }
  }

  /** After an entry was copied, or its copy failed. */
  lemma EntryCopied(first: Objects, previous: Objects, now: Objects, d: Path, t: Tree, i: nat, ok: bool)
    requires Copied(first, previous, d, t, i) && i < |t.children| && Ascending(t.names)
    requires SameOutside(previous, now, d + [t.names[i]])
    requires ok ==> IsTreeAt(now, d + [t.names[i]], t.children[i])
    ensures SameOutside(first, now, d)
    ensures ok ==> Copied(first, now, d, t, i + 1)
  {
    var place := d + [t.names[i]];
    forall q | !(d <= q)
      ensures SameAt(first, now, q)
    {
      assert !(place <= q);
      assert SameAt(first, previous, q) && SameAt(previous, now, q);
    }
    assert SameAt(previous, now, d);
    forall q | q in now && d <= q
      ensures Filled(d, t, i + 1, q)
    {
      if place <= q {
        assert place[|d|] == q[|d|];
        assert t.names[..i + 1][i] == q[|d|];
      } else {
        assert SameAt(previous, now, q);
        assert Filled(d, t, i, q);
      }
    }
    forall k | 0 <= k < i
      ensures IsTreeAt(now, d + [t.names[k]], t.children[k])
    {
      SiblingSame(previous, now, d, t.names[k], t.names[i]);
      TreeFrame(previous, now, d + [t.names[k]], t.children[k]);
    }
  }

  lemma SiblingSame(previous: Objects, now: Objects, d: Path, x: string, y: string)
    requires SameOutside(previous, now, d + [y]) && Less(x, y)
    ensures SameUnder(previous, now, d + [x])
  {
    LessIrreflexive(x);
    forall q | d + [x] <= q
      ensures SameAt(previous, now, q)
    {
      if d + [y] <= q {
        SiblingsApart(d, x, y, q);
      }
    }
  }

  lemma AllCopied(first: Objects, now: Objects, d: Path, t: Tree)
    requires t.Directory? && Ascending(t.names) && Copied(first, now, d, t, |t.children|)
    ensures IsTreeAt(now, d, t)
  {
    forall n
      ensures n in Elements(t.names) <==> n in Names(now, d)
    {
      NameIsChild(now, d, n);
      if d + [n] in now {
        assert Filled(d, t, |t.children|, d + [n]);
      }
      if n in t.names {
        var k :| 0 <= k < |t.names| && t.names[k] == n;
        assert IsTreeAt(now, d + [n], t.children[k]);
      }
    }
  }

  /** What is wrong with an entry was wrong with it before the copy began. */
  lemma JustifiedFrame(error: CacheError, io: bool, first: Objects, previous: Objects, s: Path, d: Path, t: Tree,
                       i: nat, policy: LinkPolicy, start: nat, limit: nat)
    requires t.Directory? && |t.names| == |t.children| && i < |t.children|
    requires SameOutside(first, previous, d) && Apart(s, d)
    requires Justified(error, io, previous, s + [t.names[i]], t.children[i], policy, start, limit)
    ensures Justified(error, io, first, s + [t.names[i]], t.children[i], policy, start, limit)
  {
    ApartSame(first, previous, s, d);
    if error.PayloadSymlinkUnsupported? || error.UnexpectedEntry? || error.PayloadSymlinkRead? {
      assert s <= s + [t.names[i]] <= error.path;
      assert s <= error.path;
      assert SameAt(first, previous, error.path);
    }
  }
}
