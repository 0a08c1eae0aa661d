/** The download folder: picking a free name and committing a part file under it
    (storage/file_manager.rs 193-263 and the retry loop of server/routes.rs 566-586). */
module Storage {
  import opened Wrappers
  import opened Octets
  import opened Names

  datatype Node = File(content: seq<Octet>) | Folder

  type Tree = map<Path, Node>

  datatype StorageError = FileNotFound | AlreadyExists | OtherIo

  // ----- What an operation may do to the tree -----

  /** `after` holds everything that was there before and everything other programs created,
      unchanged; only `spared` is left open. Whatever else is new is a folder on the way to `folder`. */
  ghost predicate Grown(before: Tree, after: Tree, added: Tree, folder: Path, spared: set<Path>) {
    var all := before + added;
    && (forall p :: p in all && p !in spared ==> p in after && after[p] == all[p])
    && (forall p :: p in after && p !in all && p !in spared ==> after[p] == Folder && p <= folder)
  }

  /** The part was committed: one new file with the bytes of the part, under a name nobody had taken. */
  ghost predicate Committed(before: Tree, after: Tree, added: Tree, folder: Path, part: Path, dest: Path) {
    var all := before + added;
    && part in all && all[part].File?
    && dest !in all && dest in after && after[dest] == all[part]
    && (part in after ==> after[part] == all[part])
    && Grown(before, after, added, folder, {part, dest})
  }

  /** The headline of a commit: of all files there are now, the ones neither there before nor created
      by others are exactly one, `dest`; and every file that was there before, the part aside, is
      unchanged. */
  lemma CommitAddsOneFile(before: Tree, after: Tree, added: Tree, folder: Path, part: Path, dest: Path)
    requires Committed(before, after, added, folder, part, dest) && added.Keys !! before.Keys
    ensures (set p | p in after && after[p].File? && p !in before && p !in added) - {part} == {dest} - {part}
    ensures dest != part && after[dest] == (before + added)[part]
    ensures forall p :: p in before && p != part ==> p in after && after[p] == before[p]
  {
    assert forall p :: p in before ==> p in before + added && (before + added)[p] == before[p];
  }

  /** Nothing was committed and everything is still there, the part included. */
  ghost predicate NotCommitted(before: Tree, after: Tree, added: Tree, folder: Path) {
    Grown(before, after, added, folder, {})
  }

  /** The copy broke off and what it had written could not be removed either. */
  ghost predicate HalfCopied(before: Tree, after: Tree, added: Tree, folder: Path, part: Path, dest: Path) {
    var all := before + added;
    && part in all && all[part].File?
    && dest !in all && dest in after && after[dest].File? && after[dest].content <= all[part].content
    && Grown(before, after, added, folder, {dest})
  }

  /** What each answer of a commit means for the tree. */
  ghost predicate Outcome(before: Tree, after: Tree, added: Tree, folder: Path, part: Path, dest: Path,
                          r: Result<(), StorageError>) {
    match r
    case Ok(_) => Committed(before, after, added, folder, part, dest)
    case Err(AlreadyExists) => NotCommitted(before, after, added, folder) && dest in after
    case Err(OtherIo) =>
      NotCommitted(before, after, added, folder) || HalfCopied(before, after, added, folder, part, dest)
    case Err(FileNotFound) => NotCommitted(before, after, added, folder) && part !in after
  }

  lemma GrownTwice(before: Tree, middle: Tree, after: Tree, added: Tree, more: Tree, folder: Path, spared: set<Path>)
    requires Grown(before, middle, added, folder, {})
    requires Grown(middle, after, more, folder, spared)
    requires more.Keys !! middle.Keys
    ensures Grown(before, after, added + more, folder, spared)
  {
    var all, all2 := before + added, middle + more;
    var all' := before + (added + more);
    forall p | p in all' && p !in spared
      ensures p in after && after[p] == all'[p]
    {
      if p in more {
        assert p in all2 && all2[p] == more[p];
      } else {
        assert p in all && all[p] == all'[p];
        assert p in middle;
      }
    }
    forall p | p in after && p !in all' && p !in spared
      ensures after[p] == Folder && p <= folder
    {
      assert p !in all && p !in more;
      if p in middle {
        assert all2[p] == middle[p];
      }
    }
  }

  /** A commit after other programs and folder creation is a commit from where it all began. */
  lemma GrownThenOutcome(before: Tree, middle: Tree, after: Tree, added: Tree, more: Tree,
                         folder: Path, part: Path, dest: Path, r: Result<(), StorageError>)
    requires NotCommitted(before, middle, added, folder)
    requires Outcome(middle, after, more, folder, part, dest, r)
    requires more.Keys !! middle.Keys
    ensures Outcome(before, after, added + more, folder, part, dest, r)
  {
    var all, all2 := before + added, middle + more;
    var all' := before + (added + more);
    assert forall p :: p in all' ==> p in all2 && all2[p] == all'[p];
    assert forall p :: p in all2 && all2[p].File? ==> p in all' && all'[p] == all2[p];
    if NotCommitted(middle, after, more, folder) {
      GrownTwice(before, middle, after, added, more, folder, {});
    }
    if Committed(middle, after, more, folder, part, dest) {
      GrownTwice(before, middle, after, added, more, folder, {part, dest});
    }
    if HalfCopied(middle, after, more, folder, part, dest) {
      GrownTwice(before, middle, after, added, more, folder, {dest});
    }
  }

  /** The tree right after the part got its new name, with or without its old one. */
  lemma LinkedAndRemoved(before: Tree, after: Tree, added: Tree, folder: Path, part: Path, dest: Path)
    requires part in before && before[part].File? && dest !in before && dest !in added
    requires added.Keys !! before.Keys
    requires var linked := (before + added)[dest := before[part]];
             after == linked || after == linked - {part}
    ensures Committed(before, after, added, folder, part, dest)
  {
  }

  /** The tree after a broken copy, with or without what was copied. */
  lemma CopyBrokeOff(before: Tree, after: Tree, added: Tree, folder: Path, part: Path, dest: Path, n: nat)
    requires part in before && before[part].File? && n <= |before[part].content|
    requires dest !in before && dest !in added && added.Keys !! before.Keys
    requires var copied := (before + added)[dest := File(before[part].content[..n])];
             after == copied || after == copied - {dest}
    ensures NotCommitted(before, after, added, folder) || HalfCopied(before, after, added, folder, part, dest)
  {
    if dest in after {
      assert HalfCopied(before, after, added, folder, part, dest);
    }
  }

  // ----- The names tried for a target run out -----

  ghost function Tried(t: Target, k: nat): (s: set<Path>)
    ensures forall p :: p in s <==> exists m: nat :: m < k && p == DestPath(t, m)
  {
    if k == 0 then {} else Tried(t, k - 1) + {DestPath(t, k - 1)}
  }

  lemma {:induction false} TriedCount(t: Target, k: nat)
    ensures |Tried(t, k)| == k
  {
    if k > 0 {
      TriedCount(t, k - 1);
      if DestPath(t, k - 1) in Tried(t, k - 1) {
        var m: nat :| m < k - 1 && DestPath(t, k - 1) == DestPath(t, m);
        DestPathInjective(t, k - 1, m);
      }
    }
  }

  /** A finite tree cannot hold more of the names tried than it has entries. */
  lemma TakenNamesAreBounded(nodes: Tree, t: Target, k: nat)
    requires forall m: nat :: m < k ==> DestPath(t, m) in nodes
    ensures k <= |nodes|
  {
    TriedCount(t, k);
    SmallerSet(Tried(t, k), nodes.Keys);
  }

  lemma OneMoreTaken(nodes: Tree, t: Target, n: nat)
    requires DestPath(t, n) in nodes && forall m: nat :: m < n ==> DestPath(t, m) in nodes
    ensures forall m: nat :: m < n + 1 ==> DestPath(t, m) in nodes
  {
    forall m: nat | m < n + 1
      ensures DestPath(t, m) in nodes
    {
      assert m < n || m == n;
    }
  }

  lemma SizeOfUnion(a: Tree, b: Tree)
    requires a.Keys !! b.Keys
    ensures |a + b| == |a| + |b|
  {
    assert (a + b).Keys == a.Keys + b.Keys;
    assert |a + b| == |(a + b).Keys| && |a| == |a.Keys| && |b| == |b.Keys|;
  }

  /** Others have created these files and folders, none of them on a reserved path. */
  ghost predicate Joins(before: Tree, after: Tree, added: Tree, reserved: set<Path>) {
    after == before + added && added.Keys !! before.Keys && added.Keys !! reserved
  }

  lemma JoinsTwice(before: Tree, middle: Tree, after: Tree, added: Tree, more: Tree, reserved: set<Path>)
    requires Joins(before, middle, added, reserved) && Joins(middle, after, more, reserved)
    ensures Joins(before, after, added + more, reserved)
  {
    assert before + added + more == before + (added + more);
  }

  /** The free destination of a target: the plain name, or the smallest number still free. */
  ghost predicate IsFirstFree(nodes: Tree, t: Target, dest: Path, n: nat) {
    && dest == DestPath(t, n) && dest !in nodes
    && forall m: nat :: m < n ==> DestPath(t, m) in nodes
  }

  lemma FirstFreeIsUnique(nodes: Tree, t: Target, d1: Path, n1: nat, d2: Path, n2: nat)
    requires IsFirstFree(nodes, t, d1, n1) && IsFirstFree(nodes, t, d2, n2)
    ensures n1 == n2 && d1 == d2
  {
  }

  class Disk {
    var nodes: Tree
    /** Paths other programs keep away from: the part files of the transfers at hand. */
    const reserved: set<Path>

    constructor (nodes: Tree, reserved: set<Path>)
      ensures this.nodes == nodes && this.reserved == reserved
    {
      this.nodes, this.reserved := nodes, reserved;
    }

    /** Other programs create files and folders of their own, anywhere but on reserved paths. */
    method Interfere() returns (ghost added: Tree)
      modifies this
      ensures nodes == old(nodes) + added
      ensures added.Keys !! old(nodes).Keys && added.Keys !! reserved
    {
      var wish: Tree := *;
      var created := map p | p in wish && p !in nodes && p !in reserved :: wish[p];
      nodes := nodes + created;
      added := created;
    }

    /** Others create no more than so many files before the next look. */
    method InterfereAtMost(budget: nat) returns (left: nat, ghost added: Tree)
      modifies this
      ensures Joins(old(nodes), nodes, added, reserved)
      ensures |nodes| + left <= |old(nodes)| + budget
    {
      left, added := budget, map[];
      var wish: Tree := *;
      var created := map p | p in wish && p !in nodes && p !in reserved :: wish[p];
      if |created| <= budget {
        SizeOfUnion(nodes, created);
        nodes := nodes + created;
        left := budget - |created|;
        added := created;
      }
    }

    /** Looks for a free name, while others may create files between any two looks. However many they create
        in all, the search ends; when it does, the name found is free and every name before it is taken. */
    method GetUniqueDestPath(folder: Path, fileName: string) returns (dest: Path, n: nat, ghost added: Tree)
      modifies this
      ensures Joins(old(nodes), nodes, added, reserved)
      ensures IsFirstFree(nodes, Target(folder, Sanitize(fileName)), dest, n)
    {
      var name := SanitizeFilename(fileName);
      dest, n, added := FirstFree(Target(folder, name));
    }

    /** The names tried so far were taken, and still are. */
    ghost predicate Taken(t: Target, n: nat)
      reads this
    {
      forall m: nat :: m < n ==> DestPath(t, m) in nodes
    }

    /** Others act before the next look. */
    method Meanwhile(t: Target, ghost n: nat, budget: nat, ghost begin: Tree, ghost added: Tree)
      returns (left: nat, ghost all: Tree)
      requires Joins(begin, nodes, added, reserved) && Taken(t, n)
      modifies this
      ensures Joins(begin, nodes, all, reserved) && Taken(t, n)
      ensures |nodes| + left <= |old(nodes)| + budget
    {
      ghost var before, more := nodes, map[];
      left, more := InterfereAtMost(budget);
      JoinsTwice(begin, before, nodes, added, more, reserved);
      all := added + more;
    }

    method FirstFree(t: Target) returns (dest: Path, n: nat, ghost added: Tree)
      modifies this
      ensures Joins(old(nodes), nodes, added, reserved)
      ensures IsFirstFree(nodes, t, dest, n)
    {
      var others: nat := *;
      dest, n, added := DestPath(t, 0), 0, map[];
      while dest in nodes
        invariant dest == DestPath(t, n)
        invariant Joins(old(nodes), nodes, added, reserved) && Taken(t, n)
        decreases others + |nodes| - n
      {
        OneMoreTaken(nodes, t, n);
        n := n + 1;
        TakenNamesAreBounded(nodes, t, n);
        dest := DestPath(t, n);
        others, added := Meanwhile(t, n, others, old(nodes), added);
      }
    }

    method ResolveDestinationPath(fileName: string, relative: Option<string>)
      returns (dest: Path, n: nat, ghost added: Tree)
      modifies this
      ensures Joins(old(nodes), nodes, added, reserved)
      ensures IsFirstFree(nodes, ResolveTarget(fileName, relative), dest, n)
    {
      if relative.Some? {
        var kept := SanitizeRelativePath(relative.value);
        if kept.Some? {
          var last := |kept.value| - 1;
          dest, n, added := GetUniqueDestPath(kept.value[..last], kept.value[last]);
          return;
        }
      }
      dest, n, added := GetUniqueDestPath([], fileName);
    }

    /** Creates the missing folders on the way to `folder`; may stop early with an error. */
    method CreateFolders(folder: Path) returns (ok: bool)
      modifies this
      ensures Grown(old(nodes), nodes, map[], folder, {})
      ensures forall p :: p in nodes && p !in old(nodes) ==> p != [] && p <= folder
    {
      var wish: set<nat> := *;
      var made: Tree := map i | i in wish && 0 < i <= |folder| && folder[..i] !in nodes :: folder[..i] := Folder;
      nodes := nodes + made;
      ok := *;
    }

    /** Deletes the part if the system lets it; the result of the deletion is ignored. */
    method RemovePart(part: Path) returns (ghost added: Tree)
      modifies this
      ensures added.Keys !! old(nodes).Keys && added.Keys !! reserved
      ensures nodes == old(nodes) + added || nodes == (old(nodes) + added) - {part}
    {
      added := Interfere();
      var gone := *;
      if gone {
        nodes := nodes - {part};
      }
    }

    /** Creates `dest`, which must not exist, and copies into it as far as the system lets it. */
    method CopyBytes(part: Path, dest: Path) returns (created: bool, n: nat, ghost added: Tree)
      requires part in nodes && nodes[part].File? && dest !in nodes
      modifies this
      ensures added.Keys !! old(nodes).Keys && added.Keys !! reserved && dest !in added
      ensures n <= |old(nodes)[part].content|
      ensures nodes == if created then (old(nodes) + added)[dest := File(old(nodes)[part].content[..n])]
                       else old(nodes) + added
    {
      added, n := map[], 0;
      created := *;
      if created {
        nodes := nodes[dest := File([])];
        added := Interfere();
        var content := nodes[part].content;
        n :| 0 <= n <= |content|;
        nodes := nodes[dest := File(content[..n])];
      }
    }

    /** The fallback where hard links are not supported. */
    method CopyPart(part: Path, dest: Path) returns (r: Result<(), StorageError>, ghost added: Tree)
      requires part in nodes && nodes[part].File? && dest !in nodes && dest != []
      modifies this
      ensures added.Keys !! old(nodes).Keys && added.Keys !! reserved
      ensures Outcome(old(nodes), nodes, added, dest[..|dest| - 1], part, dest, r)
      ensures r.Ok? || r.error == OtherIo
    {
      var size := |nodes[part].content|;
      var created, n;
      created, n, added := CopyBytes(part, dest);
      if !created {
        return Err(OtherIo), added;
      }
      var synced, cleaned := *, *;
      if n == size && synced {
        ghost var whole := old(nodes)[part];
        assert File(whole.content[..n]) == whole;
        ghost var more := RemovePart(part);
        assert (old(nodes) + added)[dest := whole] + more == (old(nodes) + (added + more))[dest := whole];
        added := added + more;
        LinkedAndRemoved(old(nodes), nodes, added, dest[..|dest| - 1], part, dest);
        r := Ok(());
      } else {
        if cleaned {
          nodes := nodes - {dest};
        }
        CopyBrokeOff(old(nodes), nodes, added, dest[..|dest| - 1], part, dest, n);
        r := Err(OtherIo);
      }
    }

    /** The steps of a commit before it links or copies: other programs act, the folder is made. */
    method PrepareCommit(dest: Path) returns (ok: bool, ghost added: Tree)
      requires dest != []
      modifies this
      ensures added.Keys !! old(nodes).Keys && added.Keys !! reserved
      ensures NotCommitted(old(nodes), nodes, added, dest[..|dest| - 1])
    {
      ok, added := true, map[];
      ghost var more := Interfere();
      added := more;
      var folder := dest[..|dest| - 1];
      if folder != [] && folder !in nodes {
        ok := CreateFolders(folder);
      }
      more := Interfere();
      added := added + more;
    }

    /** Links or copies the part to `dest` without ever replacing what is there. Between any two
        steps other programs may create files; links, copies and deletions may fail. */
    method CommitPartFile(part: Path, dest: Path) returns (r: Result<(), StorageError>, ghost added: Tree)
      requires dest != []
      modifies this
      ensures added.Keys !! old(nodes).Keys && added.Keys !! reserved
      ensures Outcome(old(nodes), nodes, added, dest[..|dest| - 1], part, dest, r)
    {
      added := map[];
      if part !in nodes {
        return Err(FileNotFound), added;
      }
      var ok;
      ok, added := PrepareCommit(dest);
      if !ok {
        return Err(OtherIo), added;
      }
      label ready:
      ghost var more;
      r, more := LinkOrCopy(part, dest);
      GrownThenOutcome(old(nodes), old@ready(nodes), nodes, added, more, dest[..|dest| - 1], part, dest, r);
      added := added + more;
    }

    method LinkOrCopy(part: Path, dest: Path) returns (r: Result<(), StorageError>, ghost added: Tree)
      requires part in nodes && dest != []
      modifies this
      ensures added.Keys !! old(nodes).Keys && added.Keys !! reserved
      ensures Outcome(old(nodes), nodes, added, dest[..|dest| - 1], part, dest, r)
      ensures r != Err(FileNotFound)
    {
      added := map[];
      var linkable, reported := *, *;
      if linkable && nodes[part].File? && dest !in nodes {
        nodes := nodes[dest := nodes[part]];
        added := RemovePart(part);
        assert added.Keys !! old(nodes).Keys && dest !in added;
        LinkedAndRemoved(old(nodes), nodes, added, dest[..|dest| - 1], part, dest);
        return Ok(()), added;
      }
      if reported && dest in nodes {
        return Err(AlreadyExists), added;
      }
      added := Interfere();
      if dest in nodes {
        return Err(AlreadyExists), added;
      }
      if nodes[part].Folder? {
        return Err(OtherIo), added;
      }
      label copying:
      ghost var more;
      r, more := CopyPart(part, dest);
      GrownThenOutcome(old(nodes), old@copying(nodes), nodes, added, more, dest[..|dest| - 1], part, dest, r);
      added := added + more;
    }

    /** Picks a name that was free a moment ago. */
    method Pick(fileName: string, relative: Option<string>) returns (dest: Path, ghost n: nat, ghost added: Tree)
      modifies this
      ensures Joins(old(nodes), nodes, added, reserved) && dest == DestPath(ResolveTarget(fileName, relative), n)
    {
      var k;
      dest, k, added := ResolveDestinationPath(fileName, relative);
      n := k;
      ghost var before := nodes;
      ghost var more := Interfere();
      JoinsTwice(old(nodes), before, nodes, added, more, reserved);
      added := added + more;
    }

    /** One round of the retry loop: pick a free name, then commit under it. Other programs may take
        the name in between. */
    method TryOnce(part: Path, fileName: string, relative: Option<string>)
      returns (r: Result<(), StorageError>, dest: Path, ghost n: nat, ghost added: Tree)
      modifies this
      ensures added.Keys !! old(nodes).Keys && added.Keys !! reserved
      ensures dest == DestPath(ResolveTarget(fileName, relative), n)
      ensures Outcome(old(nodes), nodes, added, ResolveTarget(fileName, relative).folder, part, dest, r)
    {
      ghost var t := ResolveTarget(fileName, relative);
      dest, n, added := Pick(fileName, relative);
      ghost var folder := t.folder;
      assert dest[..|dest| - 1] == folder;
      label picked:
      ghost var more;
      r, more := CommitPartFile(part, dest);
      GrownThenOutcome(old(nodes), old@picked(nodes), nodes, added, more, folder, part, dest, r);
      added := added + more;
    }

    /** Picks a free name and commits under it; when another program takes the name in between, picks
        the next one, at most five more times. */
    method PickAndCommit(part: Path, fileName: string, relative: Option<string>)
      returns (r: Result<(), StorageError>, dest: Path, tries: nat, ghost n: nat, ghost added: Tree)
      modifies this
      ensures 1 <= tries <= 6
      ensures r == Err(AlreadyExists) ==> tries == 6
      ensures added.Keys !! old(nodes).Keys && added.Keys !! reserved
      ensures dest == DestPath(ResolveTarget(fileName, relative), n)
      ensures Outcome(old(nodes), nodes, added, ResolveTarget(fileName, relative).folder, part, dest, r)
    {
      var attempts := 0;
      tries, added := 0, map[];
      ghost var folder := ResolveTarget(fileName, relative).folder;
      while true
        invariant 0 <= attempts <= 5 && tries == attempts
        invariant NotCommitted(old(nodes), nodes, added, folder)
        invariant added.Keys !! old(nodes).Keys && added.Keys !! reserved
        decreases 5 - attempts
      {
        tries := tries + 1;
        label trying:
        ghost var more;
        r, dest, n, more := TryOnce(part, fileName, relative);
        GrownThenOutcome(old(nodes), old@trying(nodes), nodes, added, more, folder, part, dest, r);
        added := added + more;
        if r.Ok? || r.error != AlreadyExists || attempts >= 5 {
          return;
        }
        attempts := attempts + 1;
      }
    }
  }
}
