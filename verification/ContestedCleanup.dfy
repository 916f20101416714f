/** The rollback of a contested package: its record lists parents first whatever happened to the tree, so the cleanup
    removes exactly what is still as recorded; and what all this is with nobody else at work. */
module ContestedCleanup {

  import opened ClaimRollback
  import opened ContestedClaim
  import opened RollbackSafety

  // ---------------------------------------------------------------------------------------
  // The record lists parents first, whatever happened to the tree
  // ---------------------------------------------------------------------------------------

  /** The root, the marker, the listed directories, the files. */
  function Planned(root: Path, name: string, token: string, dirs: seq<Path>, files: seq<(Path, string)>): seq<Entry>
  {
    [Entry(root, "", true), Entry(root + [name], token, false)] + Entries(dirs, Absolute(root, files))
  }

  ghost predicate PathsFirst(entries: seq<Entry>)
  {
    forall i, j :: 0 <= i < j < |entries| ==> !(entries[j].path <= entries[i].path)
  }

  /** No directory and no file of the package is called like the marker. */
  ghost predicate MarkerUnnamed(root: Path, name: string, dirs: seq<Path>, files: seq<(Path, string)>)
  {
    root + [name] !in dirs && forall i :: 0 <= i < |files| ==> files[i].0 != [name]
  }

  lemma PackageAfterParents(root: Path, dirs: seq<Path>, files: seq<(Path, string)>, i: nat, j: nat)
    requires NonEmptyNames(files) && Listed(root, Names(files), dirs) && Unambiguous(root, dirs, files)
    requires i < j < |dirs| + |files|
    ensures !(Entries(dirs, Absolute(root, files))[j].path <= Entries(dirs, Absolute(root, files))[i].path)
  {
    var entries := Entries(dirs, Absolute(root, files));
    var p, q := entries[i].path, entries[j].path;
    EntriesDistinct(root, dirs, files, i, j);
    EntryBelowRoot(root, dirs, files, j);
    if q <= p { AboveIsListed(root, dirs, files, i, q); }
  }

  /** What lies between the root and an entry is a listed directory; above a directory, one listed earlier. */
  lemma AboveIsListed(root: Path, dirs: seq<Path>, files: seq<(Path, string)>, i: nat, q: Path)
    requires NonEmptyNames(files) && Listed(root, Names(files), dirs) && i < |dirs| + |files|
    requires root < q < Entries(dirs, Absolute(root, files))[i].path
    ensures q in dirs && (i < |dirs| ==> q in dirs[..i])
  {
    if i < |dirs| {
      assert Within(root, q, dirs[i]);
    } else {
      var f := files[i - |dirs|].0;
      assert (root + f)[..|root + f| - 1] == root + f[..|f| - 1];
      assert q <= root + f[..|f| - 1];
      assert Names(files)[i - |dirs|] == f && IsDirectoryOf(root, f, q);
    }
  }

  lemma PlanIsParentsFirst(root: Path, name: string, token: string, dirs: seq<Path>, files: seq<(Path, string)>)
    requires NonEmptyNames(files) && Listed(root, Names(files), dirs) && Unambiguous(root, dirs, files)
    requires MarkerUnnamed(root, name, dirs, files)
    ensures PathsFirst(Planned(root, name, token, dirs, files))
  {
    var plan, entries := Planned(root, name, token, dirs, files), Entries(dirs, Absolute(root, files));
    forall i, j | 0 <= i < j < |plan|
      ensures !(plan[j].path <= plan[i].path)
    {
      if j >= 2 {
        EntryBelowRoot(root, dirs, files, j - 2);
        assert plan[j] == entries[j - 2];
        if i >= 2 {
          PackageAfterParents(root, dirs, files, i - 2, j - 2);
        } else {
          NotTheMarker(root, name, dirs, files, j - 2);
        }
      }
    }
  }

  lemma NotTheMarker(root: Path, name: string, dirs: seq<Path>, files: seq<(Path, string)>, j: nat)
    requires NonEmptyNames(files) && Listed(root, Names(files), dirs) && MarkerUnnamed(root, name, dirs, files)
    requires j < |dirs| + |files|
    ensures !(Entries(dirs, Absolute(root, files))[j].path <= root + [name])
  {
    EntryBelowRoot(root, dirs, files, j);
    if j < |dirs| {
      assert dirs[j] in dirs;
    } else {
      CancelRoot(root, files[j - |dirs|].0, [name]);
    }
  }

  lemma PlannedFits(root: Path, name: string, token: string, dirs: seq<Path>, files: seq<(Path, string)>)
    requires root != []
    ensures PlanFits(Planned(root, name, token, dirs, files))
  {
  }

  lemma RecordIsParentsFirst(w: World)
    requires Inv(w) && PathsFirst(w.plan)
    ensures ParentsFirst(w.book.owned)
  {
    forall i, j | 0 <= i < j < |w.book.owned|
      ensures !(w.book.owned[j].path <= w.book.owned[i].path)
    {
      assert RecordFits(w.plan, w.disk.kinds, w.book, i) && RecordFits(w.plan, w.disk.kinds, w.book, j);
    }
  }

  lemma ClaimRecordsAll(w: World)
    requires Inv(w) && |w.book.owned| >= 2
    ensures AllOwned(ClaimOf(w)) == w.book.owned
    ensures ClaimOf(w).root == w.plan[0].path && ClaimOf(w).marker == w.plan[1].path
  {
    assert RecordFits(w.plan, w.disk.kinds, w.book, 0) && RecordFits(w.plan, w.disk.kinds, w.book, 1);
  }

  /** Whatever others did while the package was written, after any number of its entries: the cleanup, left to
      itself from then on, removes a path exactly when the claim and its marker stand and the path and all below
      it are still what was recorded; and where every record found an entry of the claim, all that goes was created
      by the claim. */
  lemma ContestedCleanup(before: Tree, kinds: map<nat, Kind>, root: Path, name: string, token: string, dirs: seq<Path>,
                         files: seq<(Path, string)>, events: seq<Event>, p: Path)
    requires IsTree(before) && Fits(before, kinds) && root != []
    requires NonEmptyNames(files) && Listed(root, Names(files), dirs) && Unambiguous(root, dirs, files)
    requires MarkerUnnamed(root, name, dirs, files)
    requires var start := Start(before, kinds, Planned(root, name, token, dirs, files));
      PossibleRun(start, events) && |Run(start, events).book.owned| >= 2
    ensures var start := Start(before, kinds, Planned(root, name, token, dirs, files));
      var w := Run(start, events);
      var fs, claim := w.disk.fs, ClaimOf(w);
      && claim.root == root && claim.marker == root + [name]
      && (p in Cleaned(fs, claim) <==>
            p in fs && !(IsClaimed(fs, claim) && MarkerStands(fs, claim) && Clear(fs, w.book.owned, p)))
      && (p in Cleaned(fs, claim) ==> Cleaned(fs, claim)[p] == fs[p])
      && (FoundOwn(start, events) && p in fs && p !in Cleaned(fs, claim) ==>
            forall q :: q in fs && p <= q ==> fs[q].inode in w.disk.mine)
  {
    var plan := Planned(root, name, token, dirs, files);
    var start := Start(before, kinds, plan);
    var w := Run(start, events);
    PlannedFits(root, name, token, dirs, files);
    EveryRunKeepsInv(start, events);
    PlanStays(start, events);
    PlanIsParentsFirst(root, name, token, dirs, files);
    RecordIsParentsFirst(w);
    ClaimRecordsAll(w);
    CleanupRemovesExactly(w.disk.fs, ClaimOf(w), p);
    RecordIsMineMeans(before, kinds, plan, events);
    if RecordIsMine(w) && Clear(w.disk.fs, w.book.owned, p) { ClearIsMine(w, p); }
  }

  lemma ClearIsMine(w: World, p: Path)
    requires RecordIsMine(w) && Clear(w.disk.fs, w.book.owned, p)
    ensures forall q :: q in w.disk.fs && p <= q ==> w.disk.fs[q].inode in w.disk.mine
  {
    forall q | q in w.disk.fs && p <= q
      ensures w.disk.fs[q].inode in w.disk.mine
    {
      assert Intact(w.disk.fs, w.book.owned, q);
    }
  }

  // ---------------------------------------------------------------------------------------
  // Left alone
  // ---------------------------------------------------------------------------------------

  /** `n` records handled. */
  ghost predicate GotTo(w: World, w': World, n: nat)
    requires n <= |w.book.owned|
  {
    && Differs(w, w', Cleaning(|w.book.owned| - n))
    && w'.disk.fs == RemoveBackTo(w.disk.fs, w.book.owned, |w.book.owned| - n)
  }

  lemma OneMoreHandled(w: World, w': World, n: nat)
    requires n < |w.book.owned| && GotTo(w, w', n)
    ensures GotTo(w, Clean(w'), n + 1)
  {
  }

  lemma {:induction false} RemovalsAre(w: World, n: nat)
    requires w.phase == Cleaning(|w.book.owned|) && n <= |w.book.owned|
    ensures GotTo(w, Run(w, Removals(n)), n)
  {
    if n > 0 {
      RemovalsAre(w, n - 1);
      OneMoreRemoval(w, n);
      OneMoreHandled(w, Run(w, Removals(n - 1)), n - 1);
    }
  }

  lemma OneMoreRemoval(w: World, n: nat)
    requires n > 0
    ensures Run(w, Removals(n)) == Clean(Run(w, Removals(n - 1)))
  {
    RunSnoc(w, Removals(n - 1), Cleans);
  }

  lemma {:induction false} OverStays(w: World, n: nat)
    requires w.phase.Over?
    ensures Run(w, Removals(n)) == w
  {
    if n > 0 {
      OverStays(w, n - 1);
      OneMoreRemoval(w, n);
    }
  }

  /** With nobody else at work from the failure on, the steps of the cleanup together are `Cleaned`. */
  lemma CleanupLeftAlone(w: World)
    requires Inv(w) && w.phase.Stopped? && |w.book.owned| >= 2
    ensures Run(w, [Checks] + Removals(|w.book.owned|)).disk.fs == Cleaned(w.disk.fs, ClaimOf(w))
  {
    FirstThenRest(w, Checks, Removals(|w.book.owned|));
    ClaimRecordsAll(w);
    CheckedIsCleaned(w);
  }

  lemma CheckedIsCleaned(w: World)
    requires w.phase.Stopped? && |w.book.owned| >= 2 && AllOwned(ClaimOf(w)) == w.book.owned
    ensures Run(Check(w), Removals(|w.book.owned|)).disk.fs == Cleaned(w.disk.fs, ClaimOf(w))
  {
    if IsClaimed(w.disk.fs, ClaimOf(w)) && MarkerStands(w.disk.fs, ClaimOf(w)) {
      RemovalsAre(Check(w), |w.book.owned|);
      CleanedIs(w.disk.fs, ClaimOf(w));
    } else {
      OverStays(Check(w), |w.book.owned|);
    }
  }

  /** `n` entries, each created and recorded, with inodes issued in a row. */
  function Alone(next: nat, n: nat): seq<Event>
    decreases n
  {
    if n == 0 then [] else [Creates(next), Records] + Alone(next + 1, n - 1)
  }

  lemma {:induction false} StoppedWritesNothing(w: World, next: nat, n: nat)
    requires w.phase.Stopped?
    ensures Run(w, Alone(next, n)) == w
    decreases n
  {
    if n > 0 {
      EntryThenRest(w, next, n);
      StoppedWritesNothing(w, next + 1, n - 1);
    }
  }

  lemma EntryThenRest(w: World, next: nat, n: nat)
    requires n > 0
    ensures Run(w, Alone(next, n)) == Run(Step(Step(w, Creates(next)), Records), Alone(next + 1, n - 1))
  {
    TwoSteps(w, Creates(next), Records, Alone(next + 1, n - 1));
  }

  lemma TwoSteps(w: World, a: Event, b: Event, rest: seq<Event>)
    ensures Run(w, [a, b] + rest) == Run(Step(Step(w, a), b), rest)
  {
    RunOne(w, a);
    RunSnoc(w, [a], b);
    assert [a] + [b] == [a, b];
    RunJoins(w, [a, b], rest);
  }

  /** What `Written` makes of the rest of the package from here. */
  function RestWritten(w: World, next: nat): (Tree, nat, seq<Owned>, bool)
    requires |w.book.owned| <= |w.plan|
  {
    Written(w.disk.fs, next, w.plan[|w.book.owned|..], w.book.owned)
  }

  /** One entry handled: it failed where `Written` stops, or `Written` goes on behind it. */
  ghost predicate EntryHandled(w: World, w': World, next: nat)
    requires |w.book.owned| < |w.plan|
  {
    && w'.plan == w.plan && !w'.made
    && (w'.phase.Stopped? ==> IsWritten(w', RestWritten(w, next)))
    && (!w'.phase.Stopped? ==>
          && w'.phase.Writing? && |w'.book.owned| == |w.book.owned| + 1
          && RestWritten(w, next) == RestWritten(w', next + 1))
  }

  lemma EntryAlone(w: World, next: nat)
    requires w.phase.Writing? && !w.made && |w.book.owned| < |w.plan|
    ensures EntryHandled(w, Step(Step(w, Creates(next)), Records), next)
  {
    var rest := w.plan[|w.book.owned|..];
    WrittenStep(w.disk.fs, next, rest, w.book.owned);
    assert rest[0] == w.plan[|w.book.owned|] && rest[1..] == w.plan[|w.book.owned| + 1..];
  }

  ghost predicate IsWritten(w: World, written: (Tree, nat, seq<Owned>, bool))
  {
    w.disk.fs == written.0 && w.book.owned == written.2 && (w.phase.Stopped? <==> !written.3)
  }

  /** With nobody else at work, creating and recording entry by entry is `Written`. */
  lemma {:induction false} UncontestedIsWritten(w: World, next: nat, n: nat)
    requires w.phase.Writing? && !w.made && |w.book.owned| + n == |w.plan|
    ensures IsWritten(Run(w, Alone(next, n)), RestWritten(w, next))
    decreases n, 1
  {
    if n == 0 {
      assert w.plan[|w.book.owned|..] == [];
    } else {
      var w' := Step(Step(w, Creates(next)), Records);
      EntryThenRest(w, next, n);
      EntryAlone(w, next);
      if w'.phase.Stopped? { StoppedIsWritten(w, w', next, n); } else { WritingIsWritten(w, w', next, n); }
    }
  }

  lemma StoppedIsWritten(w: World, w': World, next: nat, n: nat)
    requires n > 0 && |w.book.owned| < |w.plan| && EntryHandled(w, w', next) && w'.phase.Stopped?
    ensures IsWritten(Run(w', Alone(next + 1, n - 1)), RestWritten(w, next))
  {
    StoppedWritesNothing(w', next + 1, n - 1);
  }

  lemma {:induction false} WritingIsWritten(w: World, w': World, next: nat, n: nat)
    requires n > 0 && |w.book.owned| + n == |w.plan| && EntryHandled(w, w', next) && !w'.phase.Stopped?
    ensures IsWritten(Run(w', Alone(next + 1, n - 1)), RestWritten(w, next))
    decreases n, 0
  {
    UncontestedIsWritten(w', next + 1, n - 1);
  }
}
