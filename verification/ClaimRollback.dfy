/** Publishing an employee package into a directory that other writers can reach: claim a new
    directory, record every path as it is created, and on failure remove exactly what was recorded.

    The file system is a map from path to node; a node's `inode` is its identity and is never
    reused.  A path is the sequence of its segments.  Here nobody else is at work while the package is
    written, so that creating an entry and recording its identity can be one step; `ContestedClaim` has
    them apart.  Checking an identity and removing the entry is one step. */
module ClaimRollback {

  type Path = seq<string>

  datatype Node = Dir(inode: nat) | File(inode: nat, content: string) | Link(inode: nat)

  type Tree = map<Path, Node>

  /** Every entry except the root of the file system lies in an existing directory. */
  ghost predicate IsTree(fs: Tree)
  {
    forall p {:trigger InDirectory(fs, p)} :: p in fs && p != [] ==> InDirectory(fs, p)
  }

  ghost predicate InDirectory(fs: Tree, p: Path)
  {
    p != [] && p[..|p| - 1] in fs && fs[p[..|p| - 1]].Dir?
  }

  predicate HasChild(fs: Tree, p: Path)
  {
    exists q :: q in fs && |q| == |p| + 1 && p <= q
  }

  /** A recorded path with the identity it had when it was created. */
  datatype Owned = Owned(path: Path, inode: nat, directory: bool)

  predicate SameOwned(fs: Tree, e: Owned)
  {
    e.path in fs && fs[e.path].inode == e.inode && (if e.directory then fs[e.path].Dir? else fs[e.path].File?)
  }

  datatype Claim = Claim(root: Path, inode: nat, marker: Path, token: string, owned: seq<Owned>)

  // ---------------------------------------------------------------------------------------
  // Cleanup
  // ---------------------------------------------------------------------------------------

  /** Checks one recorded entry and removes it; a directory only if it is empty. */
  function RemoveOwned(fs: Tree, e: Owned): Tree
  {
    if SameOwned(fs, e) && (e.directory ==> !HasChild(fs, e.path)) then fs - {e.path} else fs
  }

  /** Entries `owned[i..]` have been handled, last first. */
  function RemoveBackTo(fs: Tree, owned: seq<Owned>, i: nat): Tree
    requires i <= |owned|
    decreases |owned| - i
  {
    if i == |owned| then fs else RemoveOwned(RemoveBackTo(fs, owned, i + 1), owned[i])
  }

  predicate IsClaimed(fs: Tree, claim: Claim)
  {
    claim.root in fs && fs[claim.root].Dir? && fs[claim.root].inode == claim.inode
  }

  predicate MarkerStands(fs: Tree, claim: Claim)
  {
    && claim.owned != []
    && claim.owned[0].path == claim.marker
    && SameOwned(fs, claim.owned[0])
    && fs[claim.marker].File? && fs[claim.marker].content == claim.token
  }

  function Cleaned(fs: Tree, claim: Claim): Tree
  {
    if !IsClaimed(fs, claim) || !MarkerStands(fs, claim) then fs
    else RemoveOwned(RemoveBackTo(fs, claim.owned, 0), Owned(claim.root, claim.inode, true))
  }

  /** The tree shared with other writers. */
  class FileSystem {
    var nodes: Tree
    var inodes: nat

    constructor (nodes: Tree, inodes: nat)
      ensures this.nodes == nodes && this.inodes == inodes
    {
      this.nodes, this.inodes := nodes, inodes;
    }

    /** `mkdir` and `writeFile` with flag `wx`: the new entry's inode, or nothing if the path exists
        or has no parent directory. */
    method Create(p: Path, content: string, directory: bool) returns (made: bool, inode: nat)
      requires p != []
      modifies this
      ensures made <==> CanCreate(old(nodes), p)
      ensures made ==> inode == old(inodes) && inodes == old(inodes) + 1
      ensures !made ==> inodes == old(inodes)
      ensures nodes == if made then old(nodes)[p := MakeNode(inode, content, directory)] else old(nodes)
    {
      var parent := p[..|p| - 1];
      if p in nodes || parent !in nodes || !nodes[parent].Dir? {
        return false, 0;
      }
      inode := inodes;
      nodes := nodes[p := MakeNode(inode, content, directory)];
      inodes := inodes + 1;
      made := true;
    }

    method Remove(e: Owned)
      modifies this`nodes
      ensures nodes == RemoveOwned(old(nodes), e)
    {
      if SameOwned(nodes, e) && (e.directory ==> !HasChild(nodes, e.path)) {
        nodes := nodes - {e.path};
      }
    }

    method CleanupOwnedPackageTarget(claim: Claim)
      modifies this`nodes
      ensures nodes == Cleaned(old(nodes), claim)
    {
      if !IsClaimed(nodes, claim) || !MarkerStands(nodes, claim) { return; }
      var i := |claim.owned|;
      while i > 0
        invariant 0 <= i <= |claim.owned|
        invariant nodes == RemoveBackTo(old(nodes), claim.owned, i)
      {
        i := i - 1;
        Remove(claim.owned[i]);
      }
      Remove(Owned(claim.root, claim.inode, true));
    }

    /** `writeEmployeePackageFiles` up to the first failure: directories first, then files.
        Returns the entries recorded so far. */
    method WriteFiles(dirs: seq<Path>, files: seq<(Path, string)>, recorded: seq<Owned>)
      returns (owned: seq<Owned>, complete: bool)
      requires forall i :: 0 <= i < |dirs| ==> dirs[i] != []
      requires forall i :: 0 <= i < |files| ==> files[i].0 != []
      modifies this
      ensures (nodes, inodes, owned, complete) == Written(old(nodes), old(inodes), Entries(dirs, files), recorded)
    {
      owned := recorded;
      var entries := Entries(dirs, files);
      EntriesAt(dirs, files);
      for i := 0 to |entries|
        invariant Written(old(nodes), old(inodes), entries, recorded) == Written(nodes, inodes, entries[i..], owned)
      {
        assert entries[i..][0] == entries[i] && entries[i..][1..] == entries[i + 1..];
        var entry := entries[i];
        var made, inode := Create(entry.path, entry.content, entry.directory);
        if !made {
          return owned, false;
        }
        owned := owned + [Owned(entry.path, inode, entry.directory)];
      }
      complete := true;
    }
  }

  predicate CanCreate(fs: Tree, p: Path)
    requires p != []
  {
    p !in fs && p[..|p| - 1] in fs && fs[p[..|p| - 1]].Dir?
  }

  function MakeNode(inode: nat, content: string, directory: bool): Node
  {
    if directory then Dir(inode) else File(inode, content)
  }

  datatype Entry = Entry(path: Path, content: string, directory: bool)

  function Entries(dirs: seq<Path>, files: seq<(Path, string)>): seq<Entry>
  {
    seq(|dirs|, i requires 0 <= i < |dirs| => Entry(dirs[i], "", true))
    + seq(|files|, i requires 0 <= i < |files| => Entry(files[i].0, files[i].1, false))
  }

  lemma EntriesAt(dirs: seq<Path>, files: seq<(Path, string)>)
    requires forall i :: 0 <= i < |dirs| ==> dirs[i] != []
    requires forall i :: 0 <= i < |files| ==> files[i].0 != []
    ensures forall i :: 0 <= i < |Entries(dirs, files)| ==> Entries(dirs, files)[i].path != []
  {
  }

  /** The tree, the next inode, the recorded entries, and whether everything was written. */
  function Written(fs: Tree, inodes: nat, entries: seq<Entry>, owned: seq<Owned>): (Tree, nat, seq<Owned>, bool)
    decreases |entries|
  {
    if entries == [] then (fs, inodes, owned, true)
    else
      var e := entries[0];
      if e.path == [] || !CanCreate(fs, e.path) then (fs, inodes, owned, false)
      else
        Written(fs[e.path := MakeNode(inodes, e.content, e.directory)], inodes + 1, entries[1..],
                owned + [Owned(e.path, inodes, e.directory)])
  }

  // ---------------------------------------------------------------------------------------
  // Which directories a package needs
  // ---------------------------------------------------------------------------------------

  ghost predicate Within(root: Path, d: Path, p: Path) { root < d && d <= p }

  /** `packageDirectories`: every proper prefix of a file path, in order of first mention. */
  method PackageDirectories(root: Path, files: seq<Path>) returns (dirs: seq<Path>)
    requires forall i :: 0 <= i < |files| ==> files[i] != []
    ensures Listed(root, files, dirs)
  {
    dirs := [];
    var f := 0;
    while f < |files|
      invariant 0 <= f <= |files|
      invariant forall i, j :: 0 <= i < j < |dirs| ==> dirs[i] != dirs[j]
      invariant forall d :: d in dirs <==> IsPackageDirectory(root, files[..f], d)
      invariant forall i, d :: 0 <= i < |dirs| && Within(root, d, dirs[i]) && d != dirs[i] ==> d in dirs[..i]
    {
      var segments := files[f][..|files[f]| - 1];
      var current := root;
      var k := 0;
      while k < |segments|
        invariant 0 <= k <= |segments|
        invariant current == root + segments[..k]
        invariant forall i, j :: 0 <= i < j < |dirs| ==> dirs[i] != dirs[j]
        invariant forall d :: d in dirs <==> IsPackageDirectory(root, files[..f], d) || Within(root, d, current)
        invariant forall i, d :: 0 <= i < |dirs| && Within(root, d, dirs[i]) && d != dirs[i] ==> d in dirs[..i]
      {
        ghost var before := current;
        current := current + [segments[k]];
        assert segments[..k + 1] == segments[..k] + [segments[k]];
        assert forall d :: Within(root, d, current) <==> d == current || Within(root, d, before);
        if current !in dirs {
          ghost var was := dirs;
          dirs := dirs + [current];
          assert forall i :: 0 <= i <= |was| ==> dirs[..i] == was[..i];
          assert dirs[..|was|] == was;
        }
        k := k + 1;
      }
      assert segments[..|segments|] == segments;
      forall d
        ensures IsPackageDirectory(root, files[..f + 1], d) <==> d in dirs
      {
        if IsPackageDirectory(root, files[..f], d) {
          var i :| 0 <= i < f && IsDirectoryOf(root, files[..f][i], d);
          assert files[..f + 1][i] == files[i];
        }
        if IsDirectoryOf(root, files[f], d) {
          assert files[..f + 1][f] == files[f];
        }
      }
      f := f + 1;
    }
    assert files[..f] == files;
  }

  ghost predicate IsDirectoryOf(root: Path, file: Path, d: Path)
    requires file != []
  {
    Within(root, d, root + file[..|file| - 1])
  }

  ghost predicate IsPackageDirectory(root: Path, files: seq<Path>, d: Path)
    requires forall i :: 0 <= i < |files| ==> files[i] != []
  {
    exists i :: 0 <= i < |files| && IsDirectoryOf(root, files[i], d)
  }

  // ---------------------------------------------------------------------------------------
  // What cleanup removes, in any tree
  // ---------------------------------------------------------------------------------------

  ghost predicate Intact(fs: Tree, owned: seq<Owned>, p: Path)
  {
    exists k :: 0 <= k < |owned| && owned[k].path == p && SameOwned(fs, owned[k])
  }

  /** `p` is a recorded entry, and so is everything below it: nothing foreign is in the way. */
  ghost predicate Clear(fs: Tree, owned: seq<Owned>, p: Path)
  {
    p in fs && forall q :: q in fs && p <= q ==> Intact(fs, owned, q)
  }

  /** Entries are recorded parents first: a later one is never at or above an earlier one. */
  ghost predicate ParentsFirst(owned: seq<Owned>)
  {
    forall i, j :: 0 <= i < j < |owned| ==> !(owned[j].path <= owned[i].path)
  }

  ghost predicate Handled(fs: Tree, owned: seq<Owned>, i: nat, p: Path)
  {
    Clear(fs, owned, p) && exists k :: i <= k < |owned| && owned[k].path == p
  }

  lemma {:induction false} PrefixInTree(fs: Tree, p: Path, n: nat)
    requires IsTree(fs) && p in fs && n <= |p|
    ensures p[..n] in fs && (n < |p| ==> fs[p[..n]].Dir?)
    decreases |p|
  {
    if n == |p| {
      assert p[..n] == p;
    } else {
      var parent := p[..|p| - 1];
      assert InDirectory(fs, p);
      PrefixInTree(fs, parent, n);
      assert parent[..n] == p[..n];
      if n == |parent| { assert p[..n] == parent; }
    }
  }

  /** The tree after entries `i` and later have been handled. */
  ghost predicate RemovedSoFar(fs: Tree, owned: seq<Owned>, i: nat, now: Tree)
  {
    forall p :: (p in now <==> p in fs && !Handled(fs, owned, i, p)) && (p in now ==> now[p] == fs[p])
  }

  lemma ClearBelow(fs: Tree, owned: seq<Owned>, p: Path, c: Path)
    requires Clear(fs, owned, p) && p <= c && c in fs
    ensures Clear(fs, owned, c)
  {
    forall q | q in fs && c <= q ensures Intact(fs, owned, q) {
      assert p <= q;
    }
  }

  /** Below a recorded directory that is clear, no child is left once the later entries are handled. */
  lemma NoChildLeft(fs: Tree, owned: seq<Owned>, i: nat, now: Tree, c: Path)
    requires ParentsFirst(owned) && i < |owned|
    requires RemovedSoFar(fs, owned, i + 1, now)
    requires Clear(fs, owned, owned[i].path) && owned[i].path < c
    ensures c !in now
  {
    if c in fs {
      ClearBelow(fs, owned, owned[i].path, c);
      assert Intact(fs, owned, c);
      var k :| 0 <= k < |owned| && owned[k].path == c && SameOwned(fs, owned[k]);
      assert k > i;
      assert Handled(fs, owned, i + 1, c);
    }
  }

  /** Above an entry that was not recorded, some child of the directory is left. */
  lemma SomeChildLeft(fs: Tree, owned: seq<Owned>, i: nat, now: Tree, q: Path)
    requires IsTree(fs) && i < |owned|
    requires RemovedSoFar(fs, owned, i + 1, now)
    requires SameOwned(fs, owned[i])
    requires q in fs && owned[i].path <= q && !Intact(fs, owned, q)
    ensures HasChild(now, owned[i].path)
  {
    var p := owned[i].path;
    assert q != p;
    var c := q[..|p| + 1];
    PrefixInTree(fs, q, |p| + 1);
    assert c <= q;
    assert !Clear(fs, owned, c);
    assert !Handled(fs, owned, i + 1, c);
    assert c in now && p <= c;
  }

  /** A recorded directory still has a child exactly when something below it was not recorded. */
  lemma ChildSurvives(fs: Tree, owned: seq<Owned>, i: nat, now: Tree)
    requires IsTree(fs) && ParentsFirst(owned) && i < |owned|
    requires RemovedSoFar(fs, owned, i + 1, now)
    requires SameOwned(fs, owned[i])
    ensures HasChild(now, owned[i].path) <==> !Clear(fs, owned, owned[i].path)
  {
    var p := owned[i].path;
    if Clear(fs, owned, p) {
      forall c | |c| == |p| + 1 && p <= c ensures c !in now {
        NoChildLeft(fs, owned, i, now, c);
      }
    } else {
      var q :| q in fs && p <= q && !Intact(fs, owned, q);
      SomeChildLeft(fs, owned, i, now, q);
    }
  }

  lemma OnlyOwner(fs: Tree, owned: seq<Owned>, i: nat)
    requires ParentsFirst(owned) && i < |owned| && !SameOwned(fs, owned[i])
    ensures !Intact(fs, owned, owned[i].path)
  {
  }

  lemma HandledStep(fs: Tree, owned: seq<Owned>, i: nat, p: Path)
    requires i < |owned|
    ensures Handled(fs, owned, i, p) <==> Handled(fs, owned, i + 1, p) || (p == owned[i].path && Clear(fs, owned, p))
  {
  }

  lemma NotYetHandled(fs: Tree, owned: seq<Owned>, i: nat)
    requires ParentsFirst(owned) && i < |owned|
    ensures !Handled(fs, owned, i + 1, owned[i].path)
  {
    assert forall k :: i < k < |owned| ==> !(owned[k].path <= owned[i].path);
  }

  /** An entry goes when its turn comes exactly when it is clear. */
  lemma GoesWhenClear(fs: Tree, owned: seq<Owned>, i: nat, now: Tree)
    requires IsTree(fs) && ParentsFirst(owned) && i < |owned| && RemovedSoFar(fs, owned, i + 1, now)
    ensures RemoveOwned(now, owned[i]) == if Clear(fs, owned, owned[i].path) then now - {owned[i].path} else now
  {
    var e := owned[i];
    NotYetHandled(fs, owned, i);
    assert SameOwned(now, e) <==> SameOwned(fs, e);
    if !SameOwned(fs, e) {
      OnlyOwner(fs, owned, i);
    } else if e.directory {
      ChildSurvives(fs, owned, i, now);
    } else {
      NothingBelowFile(fs, owned, e);
    }
  }

  lemma {:induction false} RemovesExactly(fs: Tree, owned: seq<Owned>, i: nat)
    requires IsTree(fs) && ParentsFirst(owned) && i <= |owned|
    ensures RemovedSoFar(fs, owned, i, RemoveBackTo(fs, owned, i))
    decreases |owned| - i
  {
    if i < |owned| {
      RemovesExactly(fs, owned, i + 1);
      Removes(fs, owned, i, RemoveBackTo(fs, owned, i + 1));
    }
  }

  lemma Removes(fs: Tree, owned: seq<Owned>, i: nat, now: Tree)
    requires IsTree(fs) && ParentsFirst(owned) && i < |owned| && RemovedSoFar(fs, owned, i + 1, now)
    ensures RemovedSoFar(fs, owned, i, RemoveOwned(now, owned[i]))
  {
    GoesWhenClear(fs, owned, i, now);
    var after := RemoveOwned(now, owned[i]);
    forall p
      ensures (p in after <==> p in fs && !Handled(fs, owned, i, p)) && (p in after ==> after[p] == fs[p])
    {
      HandledStep(fs, owned, i, p);
    }
  }

  lemma NothingBelowFile(fs: Tree, owned: seq<Owned>, e: Owned)
    requires IsTree(fs) && e in owned && SameOwned(fs, e) && !e.directory
    ensures Clear(fs, owned, e.path)
  {
    forall q | q in fs && e.path <= q ensures Intact(fs, owned, q) {
      PrefixInTree(fs, q, |e.path|);
      assert q[..|e.path|] == e.path;
      assert q == e.path;
    }
  }

  function AllOwned(claim: Claim): seq<Owned>
  {
    [Owned(claim.root, claim.inode, true)] + claim.owned
  }

  lemma {:induction false} RootGoesLast(fs: Tree, claim: Claim, i: nat)
    requires i <= |claim.owned|
    ensures RemoveBackTo(fs, AllOwned(claim), i + 1) == RemoveBackTo(fs, claim.owned, i)
    decreases |claim.owned| - i
  {
    if i < |claim.owned| {
      RootGoesLast(fs, claim, i + 1);
      assert AllOwned(claim)[i + 1] == claim.owned[i];
    }
  }

  lemma CleanedIs(fs: Tree, claim: Claim)
    requires IsClaimed(fs, claim) && MarkerStands(fs, claim)
    ensures Cleaned(fs, claim) == RemoveBackTo(fs, AllOwned(claim), 0)
  {
    RootGoesLast(fs, claim, 0);
  }

  lemma ClearIsHandled(fs: Tree, owned: seq<Owned>, p: Path)
    ensures Handled(fs, owned, 0, p) <==> Clear(fs, owned, p)
  {
    if Clear(fs, owned, p) { assert Intact(fs, owned, p); }
  }

  /** Whatever other writers did to the tree: cleanup removes a path exactly when the path and
      everything below it still are the entries the claim recorded; nothing else changes.  Without the
      claimed directory or its marker it removes nothing. */
  lemma CleanupRemovesExactly(fs: Tree, claim: Claim, p: Path)
    requires IsTree(fs) && ParentsFirst(AllOwned(claim))
    ensures p in Cleaned(fs, claim) <==>
            p in fs && !(IsClaimed(fs, claim) && MarkerStands(fs, claim) && Clear(fs, AllOwned(claim), p))
    ensures p in Cleaned(fs, claim) ==> Cleaned(fs, claim)[p] == fs[p]
  {
    if IsClaimed(fs, claim) && MarkerStands(fs, claim) {
      var owned := AllOwned(claim);
      RemovesExactly(fs, owned, 0);
      CleanedIs(fs, claim);
      ClearIsHandled(fs, owned, p);
    }
  }

  // ---------------------------------------------------------------------------------------
  // Rolling back a claim
  // ---------------------------------------------------------------------------------------

  /** The claim: a new directory with a marker file in it. */
  function ClaimedTree(fs: Tree, inodes: nat, root: Path, name: string, token: string): Tree
    requires root != []
  {
    fs[root := Dir(inodes)][root + [name] := File(inodes + 1, token)]
  }

  function NewClaim(inodes: nat, root: Path, name: string, token: string): Claim
  {
    Claim(root, inodes, root + [name], token, [Owned(root + [name], inodes + 1, false)])
  }

  /** With no other writer at work, below the root there is exactly what was recorded... */
  ghost predicate Recorded(fs: Tree, root: Path, all: seq<Owned>)
  {
    forall p :: p in fs && root <= p ==> Intact(fs, all, p)
  }

  /** ...elsewhere the tree is as before... */
  ghost predicate Elsewhere(before: Tree, fs: Tree, root: Path)
  {
    forall p :: !(root <= p) ==> (p in fs <==> p in before) && (p in fs ==> fs[p] == before[p])
  }

  /** ...and every recorded entry is still there, below the root. */
  ghost predicate Standing(fs: Tree, root: Path, all: seq<Owned>)
  {
    forall k :: 0 <= k < |all| ==> SameOwned(fs, all[k]) && root <= all[k].path
  }

  ghost predicate Claiming(before: Tree, fs: Tree, root: Path, all: seq<Owned>)
  {
    && IsTree(fs)
    && ParentsFirst(all)
    && Recorded(fs, root, all)
    && Elsewhere(before, fs, root)
    && Standing(fs, root, all)
  }

  lemma NothingBelow(fs: Tree, p: Path)
    requires IsTree(fs) && p !in fs
    ensures forall q :: q in fs ==> !(p <= q)
  {
    forall q | q in fs ensures !(p <= q) {
      if p <= q {
        assert q[..|p|] == p;
        PrefixInTree(fs, q, |p|);
      }
    }
  }

  lemma StaysTree(fs: Tree, p: Path, node: Node)
    requires IsTree(fs) && p != [] && CanCreate(fs, p)
    ensures IsTree(fs[p := node])
  {
    var fs' := fs[p := node];
    forall q | q in fs' && q != []
      ensures InDirectory(fs', q)
    {
      assert q != p ==> InDirectory(fs, q);
    }
  }

  lemma ClaimStarts(before: Tree, inodes: nat, root: Path, name: string, token: string)
    requires IsTree(before) && root != [] && CanCreate(before, root)
    ensures Claiming(before, ClaimedTree(before, inodes, root, name, token), root,
                     AllOwned(NewClaim(inodes, root, name, token)))
  {
    var marker, dir := root + [name], before[root := Dir(inodes)];
    var rootEntry, markerEntry := Owned(root, inodes, true), Owned(marker, inodes + 1, false);
    assert marker[..|root|] == root;
    DirectoryStarts(before, inodes, root);
    assert CanCreate(dir, marker) by {
      NothingBelow(before, root);
      assert marker[..|marker| - 1] == root;
    }
    WriteKeepsClaim(before, dir, root, [rootEntry], markerEntry, File(inodes + 1, token));
    assert [rootEntry] + [markerEntry] == AllOwned(NewClaim(inodes, root, name, token));
  }

  lemma DirectoryStarts(before: Tree, inodes: nat, root: Path)
    requires IsTree(before) && root != [] && CanCreate(before, root)
    ensures Claiming(before, before[root := Dir(inodes)], root, [Owned(root, inodes, true)])
  {
    var fs, all := before[root := Dir(inodes)], [Owned(root, inodes, true)];
    NothingBelow(before, root);
    StaysTree(before, root, Dir(inodes));
    assert all[0].path == root && SameOwned(fs, all[0]);
    assert Intact(fs, all, root);
  }

  lemma WriteKeepsRecorded(fs: Tree, root: Path, all: seq<Owned>, o: Owned, node: Node)
    requires Recorded(fs, root, all) && o.path !in fs && SameOwned(fs[o.path := node], o)
    ensures Recorded(fs[o.path := node], root, all + [o])
  {
    var fs', all' := fs[o.path := node], all + [o];
    forall p | p in fs' && root <= p ensures Intact(fs', all', p) {
      if p == o.path {
        assert all'[|all|] == o;
      } else {
        assert Intact(fs, all, p);
        var k :| 0 <= k < |all| && all[k].path == p && SameOwned(fs, all[k]);
        assert all'[k] == all[k];
      }
    }
  }

  lemma WriteKeepsStanding(fs: Tree, root: Path, all: seq<Owned>, o: Owned, node: Node)
    requires Standing(fs, root, all) && ParentsFirst(all) && IsTree(fs)
    requires o.path !in fs && SameOwned(fs[o.path := node], o) && root <= o.path
    ensures Standing(fs[o.path := node], root, all + [o])
    ensures ParentsFirst(all + [o])
  {
    NothingBelow(fs, o.path);
    assert forall i :: 0 <= i < |all| ==> SameOwned(fs, all[i]) && all[i].path != o.path;
  }

  lemma WriteKeepsElsewhere(before: Tree, fs: Tree, root: Path, o: Owned, node: Node)
    requires Elsewhere(before, fs, root) && root <= o.path
    ensures Elsewhere(before, fs[o.path := node], root)
  {
  }

  lemma WriteKeepsClaim(before: Tree, fs: Tree, root: Path, all: seq<Owned>, o: Owned, node: Node)
    requires Claiming(before, fs, root, all)
    requires root < o.path && CanCreate(fs, o.path) && SameOwned(fs[o.path := node], o)
    ensures Claiming(before, fs[o.path := node], root, all + [o])
  {
    WriteKeepsRecorded(fs, root, all, o, node);
    WriteKeepsStanding(fs, root, all, o, node);
    WriteKeepsElsewhere(before, fs, root, o, node);
    StaysTree(fs, o.path, node);
  }

  ghost predicate MarkerFirst(fs: Tree, root: Path, name: string, token: string, inode: nat, owned: seq<Owned>)
  {
    var marker := root + [name];
    owned != [] && owned[0] == Owned(marker, inode, false) && marker in fs && fs[marker] == File(inode, token)
  }

  predicate Writes(fs: Tree, entries: seq<Entry>)
  {
    entries != [] && entries[0].path != [] && CanCreate(fs, entries[0].path)
  }

  lemma WrittenStep(fs: Tree, inodes: nat, entries: seq<Entry>, owned: seq<Owned>)
    ensures Written(fs, inodes, entries, owned) ==
      if Writes(fs, entries) then
        Written(fs[entries[0].path := MakeNode(inodes, entries[0].content, entries[0].directory)], inodes + 1, entries[1..],
                owned + [Owned(entries[0].path, inodes, entries[0].directory)])
      else (fs, inodes, owned, entries == [])
  {
  }

  lemma WriteKeeps(before: Tree, fs: Tree, root: Path, first: Owned, owned: seq<Owned>, o: Owned, node: Node)
    requires Claiming(before, fs, root, [first] + owned)
    requires root < o.path && CanCreate(fs, o.path) && SameOwned(fs[o.path := node], o)
    ensures Claiming(before, fs[o.path := node], root, [first] + (owned + [o]))
  {
    RecordJoins(first, owned, o);
    WriteKeepsClaim(before, fs, root, [first] + owned, o, node);
  }

  lemma RecordJoins(first: Owned, owned: seq<Owned>, o: Owned)
    ensures [first] + owned + [o] == [first] + (owned + [o])
  {
  }

  /** Any sequence of writes, complete or stopped at any entry that cannot be created. */
  lemma {:induction false} WritingKeepsClaim(before: Tree, fs: Tree, inodes: nat, entries: seq<Entry>, owned: seq<Owned>,
                                             root: Path, first: Owned)
    requires Claiming(before, fs, root, [first] + owned)
    requires EntriesBelow(root, entries)
    ensures Claiming(before, Written(fs, inodes, entries, owned).0, root, [first] + Written(fs, inodes, entries, owned).2)
    decreases |entries|
  {
    WrittenStep(fs, inodes, entries, owned);
    if Writes(fs, entries) {
      var e := entries[0];
      var o, node := Owned(e.path, inodes, e.directory), MakeNode(inodes, e.content, e.directory);
      WriteKeeps(before, fs, root, first, owned, o, node);
      WritingKeepsClaim(before, fs[e.path := node], inodes + 1, entries[1..], owned + [o], root, first);
    }
  }

  lemma {:induction false} WritingKeepsMarker(fs: Tree, inodes: nat, entries: seq<Entry>, owned: seq<Owned>,
                                              root: Path, name: string, token: string, inode: nat)
    requires MarkerFirst(fs, root, name, token, inode, owned)
    ensures var w := Written(fs, inodes, entries, owned);
            MarkerFirst(w.0, root, name, token, inode, w.2)
    decreases |entries|
  {
    WrittenStep(fs, inodes, entries, owned);
    if Writes(fs, entries) {
      var e := entries[0];
      WritingKeepsMarker(fs[e.path := MakeNode(inodes, e.content, e.directory)], inodes + 1, entries[1..],
                         owned + [Owned(e.path, inodes, e.directory)], root, name, token, inode);
    }
  }

  /** The tree and the claim after claiming `root` and writing `entries` as far as they go. */
  function Attempted(before: Tree, inodes: nat, root: Path, name: string, token: string, entries: seq<Entry>): (Tree, Claim)
    requires root != []
  {
    var claim := NewClaim(inodes, root, name, token);
    var w := Written(ClaimedTree(before, inodes, root, name, token), inodes + 2, entries, claim.owned);
    (w.0, claim.(owned := w.2))
  }

  lemma OnlyTheClaimGoes(before: Tree, fs: Tree, claim: Claim, p: Path)
    requires IsTree(before) && claim.root !in before && Claiming(before, fs, claim.root, AllOwned(claim))
    requires MarkerStands(fs, claim)
    ensures p in Cleaned(fs, claim) <==> p in before
    ensures p in before ==> p in Cleaned(fs, claim) && Cleaned(fs, claim)[p] == before[p]
  {
    CleanupRemovesExactly(fs, claim, p);
    assert SameOwned(fs, AllOwned(claim)[0]);
    NothingBelow(before, claim.root);
    if claim.root <= p {
      if p in fs {
        forall q | q in fs && p <= q ensures Intact(fs, AllOwned(claim), q) {
          assert claim.root <= q;
        }
        assert Clear(fs, AllOwned(claim), p);
      }
    } else if p in fs {
      assert !Intact(fs, AllOwned(claim), p);
    }
  }

  ghost predicate EntriesBelow(root: Path, entries: seq<Entry>)
  {
    forall i :: 0 <= i < |entries| ==> root < entries[i].path
  }

  /** The claim as it is made. */
  lemma StartStands(before: Tree, inodes: nat, root: Path, name: string, token: string)
    requires IsTree(before) && root != [] && CanCreate(before, root)
    ensures var fs, owned := ClaimedTree(before, inodes, root, name, token), NewClaim(inodes, root, name, token).owned;
      && Claiming(before, fs, root, [Owned(root, inodes, true)] + owned)
      && MarkerFirst(fs, root, name, token, inodes + 1, owned)
  {
    ClaimStarts(before, inodes, root, name, token);
  }

  /** Writing keeps it, from any tree in which it stands. */
  lemma WritingStands(before: Tree, fs: Tree, inodes: nat, entries: seq<Entry>, owned: seq<Owned>, root: Path,
                      name: string, token: string, first: Owned, inode: nat)
    requires Claiming(before, fs, root, [first] + owned) && EntriesBelow(root, entries)
    requires MarkerFirst(fs, root, name, token, inode, owned)
    ensures var w := Written(fs, inodes, entries, owned);
      Claiming(before, w.0, root, [first] + w.2) && MarkerFirst(w.0, root, name, token, inode, w.2)
  {
    WritingKeepsClaim(before, fs, inodes, entries, owned, root, first);
    WritingKeepsMarker(fs, inodes, entries, owned, root, name, token, inode);
  }

  /** A record that begins with the marker is that of a claim whose marker stands. */
  lemma RecordStands(fs: Tree, claim: Claim, name: string, inode: nat)
    requires claim.marker == claim.root + [name]
    requires MarkerFirst(fs, claim.root, name, claim.token, inode, claim.owned)
    ensures MarkerStands(fs, claim) && AllOwned(claim) == [Owned(claim.root, claim.inode, true)] + claim.owned
  {
  }

  lemma AttemptStands(before: Tree, inodes: nat, root: Path, name: string, token: string, entries: seq<Entry>)
    requires IsTree(before) && root != [] && CanCreate(before, root) && EntriesBelow(root, entries)
    ensures var (fs, claim) := Attempted(before, inodes, root, name, token, entries);
            claim.root == root && Claiming(before, fs, root, AllOwned(claim)) && MarkerStands(fs, claim)
  {
    var start, claim := ClaimedTree(before, inodes, root, name, token), NewClaim(inodes, root, name, token);
    StartStands(before, inodes, root, name, token);
    WritingStands(before, start, inodes + 2, entries, claim.owned, root, name, token, Owned(root, inodes, true), inodes + 1);
    var w := Written(start, inodes + 2, entries, claim.owned);
    RecordStands(w.0, claim.(owned := w.2), name, inodes + 1);
  }

  lemma CleanedIsBefore(before: Tree, fs: Tree, claim: Claim)
    requires IsTree(before) && claim.root !in before && Claiming(before, fs, claim.root, AllOwned(claim))
    requires MarkerStands(fs, claim)
    ensures Cleaned(fs, claim) == before
  {
    forall p
      ensures p in Cleaned(fs, claim) <==> p in before
      ensures p in before ==> p in Cleaned(fs, claim) && Cleaned(fs, claim)[p] == before[p]
    {
      OnlyTheClaimGoes(before, fs, claim, p);
    }
    assert Cleaned(fs, claim).Keys == before.Keys;
  }

  /** With no other writer at work, rollback after any number of writes restores the tree exactly. */
  lemma RollbackIsExact(before: Tree, inodes: nat, root: Path, name: string, token: string, entries: seq<Entry>)
    requires IsTree(before) && root != [] && CanCreate(before, root) && EntriesBelow(root, entries)
    ensures var (fs, claim) := Attempted(before, inodes, root, name, token, entries);
            Cleaned(fs, claim) == before
  {
    var (fs, claim) := Attempted(before, inodes, root, name, token, entries);
    AttemptStands(before, inodes, root, name, token, entries);
    CleanedIsBefore(before, fs, claim);
  }

  // ---------------------------------------------------------------------------------------
  // A package that can be written
  // ---------------------------------------------------------------------------------------

  /** Each entry is new, and its parent directory exists already or comes earlier. */
  ghost predicate Plan(fs: Tree, entries: seq<Entry>)
  {
    && (forall i :: 0 <= i < |entries| ==> entries[i].path != [] && entries[i].path !in fs)
    && (forall i, j :: 0 <= i < j < |entries| ==> entries[i].path != entries[j].path)
    && (forall i :: 0 <= i < |entries| ==> ParentReady(fs, entries, i))
  }

  ghost predicate ParentReady(fs: Tree, entries: seq<Entry>, i: nat)
    requires i < |entries| && entries[i].path != []
  {
    var parent := entries[i].path[..|entries[i].path| - 1];
    (parent in fs && fs[parent].Dir?) || exists j :: 0 <= j < i && entries[j].path == parent && entries[j].directory
  }

  lemma {:induction false} PlanSucceeds(fs: Tree, inodes: nat, entries: seq<Entry>, owned: seq<Owned>)
    requires Plan(fs, entries)
    ensures Written(fs, inodes, entries, owned).3
    decreases |entries|
  {
    WrittenStep(fs, inodes, entries, owned);
    if entries != [] {
      var e := entries[0];
      assert ParentReady(fs, entries, 0);
      var fs', rest := fs[e.path := MakeNode(inodes, e.content, e.directory)], entries[1..];
      forall i | 0 <= i < |rest| ensures ParentReady(fs', rest, i) {
        assert rest[i] == entries[i + 1] && ParentReady(fs, entries, i + 1);
        var parent := rest[i].path[..|rest[i].path| - 1];
        if !(parent in fs && fs[parent].Dir?) {
          var j :| 0 <= j < i + 1 && entries[j].path == parent && entries[j].directory;
          assert j > 0 ==> rest[j - 1] == entries[j];
        }
      }
      PlanSucceeds(fs', inodes + 1, rest, owned + [Owned(e.path, inodes, e.directory)]);
    }
  }

  function Absolute(root: Path, files: seq<(Path, string)>): seq<(Path, string)>
  {
    seq(|files|, i requires 0 <= i < |files| => (root + files[i].0, files[i].1))
  }

  function Names(files: seq<(Path, string)>): seq<Path>
  {
    seq(|files|, i requires 0 <= i < |files| => files[i].0)
  }

  /** What `PackageDirectories` ensures. */
  ghost predicate Listed(root: Path, files: seq<Path>, dirs: seq<Path>)
    requires forall i :: 0 <= i < |files| ==> files[i] != []
  {
    && (forall i, j :: 0 <= i < j < |dirs| ==> dirs[i] != dirs[j])
    && (forall d :: d in dirs <==> IsPackageDirectory(root, files, d))
    && (forall i, d :: 0 <= i < |dirs| && Within(root, d, dirs[i]) && d != dirs[i] ==> d in dirs[..i])
  }

  /** The package names no file twice, and no file as a directory. */
  ghost predicate Unambiguous(root: Path, dirs: seq<Path>, files: seq<(Path, string)>)
  {
    && (forall i, j :: 0 <= i < j < |files| ==> files[i].0 != files[j].0)
    && (forall i :: 0 <= i < |files| ==> root + files[i].0 !in dirs)
  }

  /** Nor anything that exists. */
  ghost predicate NoClash(fs: Tree, root: Path, dirs: seq<Path>, files: seq<(Path, string)>)
  {
    && Unambiguous(root, dirs, files)
    && (forall i :: 0 <= i < |files| ==> root + files[i].0 !in fs)
    && (forall i :: 0 <= i < |dirs| ==> dirs[i] !in fs)
  }

  ghost predicate NonEmptyNames(files: seq<(Path, string)>)
  {
    forall i :: 0 <= i < |files| ==> files[i].0 != []
  }

  lemma EntriesDistinct(root: Path, dirs: seq<Path>, files: seq<(Path, string)>, i: nat, j: nat)
    requires NonEmptyNames(files) && Listed(root, Names(files), dirs) && Unambiguous(root, dirs, files)
    requires i < j < |dirs| + |files|
    ensures Entries(dirs, Absolute(root, files))[i].path != Entries(dirs, Absolute(root, files))[j].path
  {
    if i >= |dirs| {
      CancelRoot(root, files[i - |dirs|].0, files[j - |dirs|].0);
    } else if j >= |dirs| {
      assert dirs[i] in dirs;
    }
  }

  lemma EntryBelowRoot(root: Path, dirs: seq<Path>, files: seq<(Path, string)>, i: nat)
    requires NonEmptyNames(files) && Listed(root, Names(files), dirs) && i < |dirs| + |files|
    ensures root < Entries(dirs, Absolute(root, files))[i].path
  {
    if i < |dirs| {
      assert dirs[i] in dirs;
      var k :| 0 <= k < |Names(files)| && IsDirectoryOf(root, Names(files)[k], dirs[i]);
    }
  }

  lemma EntryNew(fs: Tree, root: Path, dirs: seq<Path>, files: seq<(Path, string)>, i: nat)
    requires NonEmptyNames(files) && Listed(root, Names(files), dirs) && NoClash(fs, root, dirs, files)
    requires i < |dirs| + |files|
    ensures root < Entries(dirs, Absolute(root, files))[i].path && Entries(dirs, Absolute(root, files))[i].path !in fs
  {
    EntryBelowRoot(root, dirs, files, i);
  }

  lemma EntryReady(fs: Tree, root: Path, dirs: seq<Path>, files: seq<(Path, string)>, i: nat)
    requires NonEmptyNames(files) && Listed(root, Names(files), dirs) && NoClash(fs, root, dirs, files)
    requires root in fs && fs[root].Dir? && i < |dirs| + |files|
    requires Entries(dirs, Absolute(root, files))[i].path != []
    ensures ParentReady(fs, Entries(dirs, Absolute(root, files)), i)
  {
    var entries := Entries(dirs, Absolute(root, files));
    EntryNew(fs, root, dirs, files, i);
    var parent := entries[i].path[..|entries[i].path| - 1];
    if parent != root {
      assert parent in dirs[..if i < |dirs| then i else |dirs|] by {
        if i < |dirs| {
          assert Within(root, parent, dirs[i]);
        } else {
          var f := files[i - |dirs|].0;
          assert parent == root + f[..|f| - 1];
          assert Names(files)[i - |dirs|] == f && IsDirectoryOf(root, f, parent);
          assert IsPackageDirectory(root, Names(files), parent);
          assert dirs[..|dirs|] == dirs;
        }
      }
      var j :| 0 <= j < |dirs| && j < i && dirs[j] == parent;
      assert entries[j].path == parent && entries[j].directory;
    }
  }

  /** Directories as `PackageDirectories` lists them, then the files: into a freshly claimed root all of
      it can be written. */
  lemma PackageIsWritable(fs: Tree, inodes: nat, root: Path, dirs: seq<Path>, files: seq<(Path, string)>, owned: seq<Owned>)
    requires root in fs && fs[root].Dir?
    requires NonEmptyNames(files) && Listed(root, Names(files), dirs) && NoClash(fs, root, dirs, files)
    ensures Written(fs, inodes, Entries(dirs, Absolute(root, files)), owned).3
  {
    var entries := Entries(dirs, Absolute(root, files));
    forall i | 0 <= i < |entries|
      ensures entries[i].path != [] && entries[i].path !in fs && ParentReady(fs, entries, i)
    {
      EntryNew(fs, root, dirs, files, i);
      EntryReady(fs, root, dirs, files, i);
    }
    forall i, j | 0 <= i < j < |entries| ensures entries[i].path != entries[j].path {
      EntriesDistinct(root, dirs, files, i, j);
    }
    PlanSucceeds(fs, inodes, entries, owned);
  }

  lemma CancelRoot(root: Path, a: Path, b: Path)
    requires a != b
    ensures root + a != root + b
  {
    assert (root + a)[|root|..] == a && (root + b)[|root|..] == b;
  }
}
