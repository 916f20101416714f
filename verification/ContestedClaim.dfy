/** A claim filled and rolled back while other writers change the tree between any two of its steps.

    Other writers may do anything at all to the tree, also below the claim, also to entries of the claim;
    only an inode, once issued, is never issued again, and is of one kind for good.  An entry is created in one
    step and recorded in another, which takes what it then finds at the path. */
module ContestedClaim {

  import opened ClaimRollback

  // ---------------------------------------------------------------------------------------
  // Steps of the claim and of the others
  // ---------------------------------------------------------------------------------------

  datatype Kind = Directory | Regular | Symbolic

  function KindOf(n: Node): Kind { if n.Dir? then Directory else if n.File? then Regular else Symbolic }

  function Wanted(directory: bool): Kind { if directory then Directory else Regular }

  /** The tree, the inodes issued so far with their kinds, and those issued to entries the claim created. */
  datatype Disk = Disk(fs: Tree, kinds: map<nat, Kind>, mine: set<nat>)

  /** What was recorded, the root first.  `found` (the tree each record was made in) and `home` (the tree in which
      the root was new) are history. */
  datatype Book = Book(owned: seq<Owned>, found: seq<Tree>, home: Tree)

  /** `Cleaning(left)` has the first `left` records to go, last first. */
  datatype Phase = Writing | Stopped | Cleaning(left: nat) | Over

  /** `made` says that the next entry of the plan is created and not yet recorded. */
  datatype World = World(plan: seq<Entry>, disk: Disk, book: Book, made: bool, phase: Phase)

  /** `Fails` is a failure for a reason outside the tree.  `Foreign` is all that others did in between: the tree they
      leave, and the inodes newly issued to them.  `Checks` is the look at root and marker before the cleanup, `Cleans`
      its next removal, `RemovesRoot` the rollback of a claim whose marker was never recorded. */
  datatype Event =
    | Creates(inode: nat)
    | Records
    | Fails
    | Foreign(fs: Tree, born: map<nat, Kind>)
    | Checks
    | Cleans
    | RemovesRoot

  /** The nodes of a tree are of the kinds their inodes were issued with. */
  ghost predicate Fits(fs: Tree, kinds: map<nat, Kind>)
  {
    forall p :: p in fs ==> fs[p].inode in kinds && kinds[fs[p].inode] == KindOf(fs[p])
  }

  /** The root and the marker come first; the marker is a file in the root. */
  ghost predicate PlanFits(plan: seq<Entry>)
  {
    && |plan| >= 2 && plan[0].path != [] && plan[0].directory
    && |plan[1].path| == |plan[0].path| + 1 && plan[0].path <= plan[1].path && !plan[1].directory
  }

  function Start(before: Tree, kinds: map<nat, Kind>, plan: seq<Entry>): World
  {
    World(plan, Disk(before, kinds, {}), Book([], [], map[]), false, Writing)
  }

  function Stop(w: World): World { w.(phase := Stopped) }

  function Create(w: World, inode: nat): World
  {
    var n := |w.book.owned|;
    if !w.phase.Writing? || w.made || n >= |w.plan| then w
    else if w.plan[n].path == [] || !CanCreate(w.disk.fs, w.plan[n].path) then Stop(w)
    else
      var e := w.plan[n];
      var fs := w.disk.fs[e.path := MakeNode(inode, e.content, e.directory)];
      w.(disk := Disk(fs, w.disk.kinds[inode := Wanted(e.directory)], w.disk.mine + {inode}),
         book := if n == 0 then w.book.(home := fs) else w.book,
         made := true)
  }

  /** Takes the identity of whatever is at the path.  Only the root may be of any kind. */
  function Record(w: World): World
  {
    var n := |w.book.owned|;
    if !w.phase.Writing? || !w.made || n >= |w.plan| then w
    else
      var e, fs := w.plan[n], w.disk.fs;
      if e.path !in fs || (n > 0 && KindOf(fs[e.path]) != Wanted(e.directory)) then Stop(w)
      else
        w.(book := w.book.(owned := w.book.owned + [Owned(e.path, fs[e.path].inode, e.directory)],
                           found := w.book.found + [fs]),
           made := false)
  }

  /** The claim of a run that has got past its marker. */
  function ClaimOf(w: World): Claim
    requires |w.book.owned| >= 2
  {
    var owned := w.book.owned;
    Claim(owned[0].path, owned[0].inode, owned[1].path, if |w.plan| > 1 then w.plan[1].content else "", owned[1..])
  }

  function Check(w: World): World
  {
    if !w.phase.Stopped? || |w.book.owned| < 2 then w
    else if !IsClaimed(w.disk.fs, ClaimOf(w)) || !MarkerStands(w.disk.fs, ClaimOf(w)) then w.(phase := Over)
    else w.(phase := Cleaning(|w.book.owned|))
  }

  function Clean(w: World): World
  {
    if !w.phase.Cleaning? || !(0 < w.phase.left <= |w.book.owned|) then w
    else
      w.(disk := w.disk.(fs := RemoveOwned(w.disk.fs, w.book.owned[w.phase.left - 1])),
         phase := Cleaning(w.phase.left - 1))
  }

  /** The directory at the path goes if it is empty, whosever it is. */
  function RemoveUnclaimed(fs: Tree, root: Path): Tree
  {
    if root in fs && fs[root].Dir? && !HasChild(fs, root) then fs - {root} else fs
  }

  predicate RootMade(w: World) { w.made || w.book.owned != [] }

  function RemoveRoot(w: World): World
  {
    if !w.phase.Stopped? || |w.book.owned| >= 2 || !RootMade(w) || w.plan == [] then w
    else w.(disk := w.disk.(fs := RemoveUnclaimed(w.disk.fs, w.plan[0].path)), phase := Over)
  }

  function Step(w: World, e: Event): World
  {
    match e
    case Creates(inode) => Create(w, inode)
    case Records => Record(w)
    case Fails => if w.phase.Writing? then Stop(w) else w
    case Foreign(fs, born) => w.(disk := w.disk.(fs := fs, kinds := w.disk.kinds + born))
    case Checks => Check(w)
    case Cleans => Clean(w)
    case RemovesRoot => RemoveRoot(w)
  }

  /** An inode is issued once.  Others leave a tree of nodes that were issued, to whomever. */
  ghost predicate Possible(w: World, e: Event)
  {
    match e
    case Creates(inode) => inode !in w.disk.kinds
    case Foreign(fs, born) => IsTree(fs) && born.Keys !! w.disk.kinds.Keys && Fits(fs, w.disk.kinds + born)
    case _ => true
  }

  function Run(w: World, events: seq<Event>): World
  {
    if events == [] then w else Step(Run(w, events[..|events| - 1]), events[|events| - 1])
  }

  ghost predicate PossibleRun(w: World, events: seq<Event>)
  {
    events == []
    || (&& PossibleRun(w, events[..|events| - 1])
        && Possible(Run(w, events[..|events| - 1]), events[|events| - 1]))
  }

  lemma RunSnoc(w: World, events: seq<Event>, e: Event)
    ensures Run(w, events + [e]) == Step(Run(w, events), e)
    ensures PossibleRun(w, events + [e]) <==> PossibleRun(w, events) && Possible(Run(w, events), e)
  {
    assert (events + [e])[..|events|] == events;
  }

  lemma RunOne(w: World, e: Event)
    ensures Run(w, [e]) == Step(w, e)
    ensures PossibleRun(w, [e]) <==> Possible(w, e)
  {
    RunSnoc(w, [], e);
    assert [] + [e] == [e];
  }

  /** Running `a` and then `b` is running both. */
  ghost predicate Joins(w: World, a: seq<Event>, b: seq<Event>)
  {
    && Run(w, a + b) == Run(Run(w, a), b)
    && (PossibleRun(w, a + b) <==> PossibleRun(w, a) && PossibleRun(Run(w, a), b))
  }

  lemma JoinsSnoc(w: World, a: seq<Event>, b: seq<Event>, e: Event)
    requires Joins(w, a, b)
    ensures Joins(w, a, b + [e])
  {
    assert a + (b + [e]) == a + b + [e];
    RunSnoc(w, a + b, e);
    RunSnoc(Run(w, a), b, e);
  }

  lemma {:induction false} RunJoins(w: World, a: seq<Event>, b: seq<Event>)
    ensures Joins(w, a, b)
  {
    if b == [] {
      assert a + b == a;
    } else {
      RunJoins(w, a, b[..|b| - 1]);
      JoinsSnoc(w, a, b[..|b| - 1], b[|b| - 1]);
      assert b[..|b| - 1] + [b[|b| - 1]] == b;
    }
  }

  lemma FirstThenRest(w: World, e: Event, rest: seq<Event>)
    ensures Run(w, [e] + rest) == Run(Step(w, e), rest)
    ensures PossibleRun(w, [e] + rest) <==> Possible(w, e) && PossibleRun(Step(w, e), rest)
  {
    RunOne(w, e);
    RunJoins(w, [e], rest);
  }

  lemma {:induction false} PlanStays(w: World, events: seq<Event>)
    ensures Run(w, events).plan == w.plan
  {
    if events != [] { PlanStays(w, events[..|events| - 1]); }
  }

  // ---------------------------------------------------------------------------------------
  // What every step keeps
  // ---------------------------------------------------------------------------------------

  /** Record `k`: a node that was at the entry's path, in a tree that was there. */
  ghost predicate RecordFits(plan: seq<Entry>, kinds: map<nat, Kind>, book: Book, k: nat)
    requires k < |book.owned| == |book.found| <= |plan|
  {
    var o, fs := book.owned[k], book.found[k];
    && o.path == plan[k].path && o.directory == plan[k].directory
    && IsTree(fs) && Fits(fs, kinds)
    && o.path in fs && fs[o.path].inode == o.inode
    && (k > 0 ==> KindOf(fs[o.path]) == Wanted(o.directory))
  }

  /** The tree in which the root was new: a directory with nothing in it. */
  ghost predicate HomeFits(home: Tree, root: Path, kinds: map<nat, Kind>)
  {
    IsTree(home) && Fits(home, kinds) && root in home && home[root].Dir? && forall q :: q in home ==> !(root < q)
  }

  ghost predicate DiskFits(d: Disk) { IsTree(d.fs) && Fits(d.fs, d.kinds) && d.mine <= d.kinds.Keys }

  ghost predicate BookFits(w: World)
  {
    && |w.book.owned| == |w.book.found| <= |w.plan|
    && (forall k: nat | k < |w.book.owned| :: RecordFits(w.plan, w.disk.kinds, w.book, k))
    && (w.made ==> |w.book.owned| < |w.plan|)
    && (RootMade(w) ==> HomeFits(w.book.home, w.plan[0].path, w.disk.kinds))
    && (w.phase.Cleaning? ==> w.phase.left <= |w.book.owned|)
  }

  ghost predicate Inv(w: World) { PlanFits(w.plan) && DiskFits(w.disk) && BookFits(w) }

  lemma RemovalKeepsTree(fs: Tree, p: Path)
    requires IsTree(fs) && !(p in fs && fs[p].Dir? && HasChild(fs, p))
    ensures IsTree(fs - {p})
  {
    forall q | q in fs - {p} && q != []
      ensures InDirectory(fs - {p}, q)
    {
      assert InDirectory(fs, q);
      assert q[..|q| - 1] == p ==> p <= q && |q| == |p| + 1;
    }
  }

  /** More inodes issued, nothing else: what fitted fits. */
  lemma KindsGrow(w: World, w': World)
    requires BookFits(w) && w'.plan == w.plan && w'.book == w.book && w'.made == w.made
    requires forall i :: i in w.disk.kinds ==> i in w'.disk.kinds && w'.disk.kinds[i] == w.disk.kinds[i]
    requires w'.phase.Cleaning? ==> w'.phase.left <= |w.book.owned|
    ensures BookFits(w')
  {
    forall k: nat | k < |w.book.owned|
      ensures RecordFits(w.plan, w'.disk.kinds, w.book, k)
    {
      assert RecordFits(w.plan, w.disk.kinds, w.book, k);
    }
  }

  lemma CreateKeepsDisk(d: Disk, e: Entry, inode: nat)
    requires DiskFits(d) && inode !in d.kinds && e.path != [] && CanCreate(d.fs, e.path)
    ensures DiskFits(Disk(d.fs[e.path := MakeNode(inode, e.content, e.directory)], d.kinds[inode := Wanted(e.directory)],
                          d.mine + {inode}))
  {
    StaysTree(d.fs, e.path, MakeNode(inode, e.content, e.directory));
  }

  lemma RootStartsHome(fs: Tree, root: Path, inode: nat, kinds: map<nat, Kind>)
    requires IsTree(fs) && root != [] && CanCreate(fs, root)
    requires Fits(fs[root := Dir(inode)], kinds) && IsTree(fs[root := Dir(inode)])
    ensures HomeFits(fs[root := Dir(inode)], root, kinds)
  {
    NothingBelow(fs, root);
  }

  lemma CreateKeepsInv(w: World, inode: nat)
    requires Inv(w) && inode !in w.disk.kinds
    ensures Inv(Create(w, inode))
  {
    var n, w' := |w.book.owned|, Create(w, inode);
    if w.phase.Writing? && !w.made && n < |w.plan| {
      var e := w.plan[n];
      if e.path != [] && CanCreate(w.disk.fs, e.path) {
        CreateKeepsDisk(w.disk, e, inode);
        if n == 0 {
          RootStartsHome(w.disk.fs, e.path, inode, w'.disk.kinds);
        } else {
          KindsGrow(w, w'.(made := false));
        }
      }
    }
  }

  lemma RecordKeepsInv(w: World)
    requires Inv(w)
    ensures Inv(Record(w))
  {
    var w' := Record(w);
    forall k: nat | k < |w'.book.owned|
      ensures RecordFits(w.plan, w.disk.kinds, w'.book, k)
    {
      if k < |w.book.owned| { assert RecordFits(w.plan, w.disk.kinds, w.book, k); }
    }
  }

  lemma ForeignKeepsInv(w: World, fs: Tree, born: map<nat, Kind>)
    requires Inv(w) && Possible(w, Foreign(fs, born))
    ensures Inv(Step(w, Foreign(fs, born)))
  {
    KindsGrow(w, Step(w, Foreign(fs, born)));
  }

  lemma CleanKeepsInv(w: World)
    requires Inv(w)
    ensures Inv(Clean(w))
  {
    if w.phase.Cleaning? && 0 < w.phase.left {
      var e := w.book.owned[w.phase.left - 1];
      if SameOwned(w.disk.fs, e) && (e.directory ==> !HasChild(w.disk.fs, e.path)) {
        RemovalKeepsTree(w.disk.fs, e.path);
      }
    }
    KindsGrow(w, Clean(w));
  }

  lemma RemoveRootKeepsInv(w: World)
    requires Inv(w)
    ensures Inv(RemoveRoot(w))
  {
    var root := w.plan[0].path;
    if root in w.disk.fs && w.disk.fs[root].Dir? && !HasChild(w.disk.fs, root) { RemovalKeepsTree(w.disk.fs, root); }
    KindsGrow(w, RemoveRoot(w));
  }

  lemma StepKeepsInv(w: World, e: Event)
    requires Inv(w) && Possible(w, e)
    ensures Inv(Step(w, e))
  {
    match e
    case Creates(inode) => CreateKeepsInv(w, inode);
    case Records => RecordKeepsInv(w);
    case Fails => KindsGrow(w, Step(w, e));
    case Foreign(fs, born) => ForeignKeepsInv(w, fs, born);
    case Checks => KindsGrow(w, Check(w));
    case Cleans => CleanKeepsInv(w);
    case RemovesRoot => RemoveRootKeepsInv(w);
  }

  lemma {:induction false} EveryRunKeepsInv(w: World, events: seq<Event>)
    requires Inv(w) && PossibleRun(w, events)
    ensures Inv(Run(w, events))
  {
    if events != [] {
      EveryRunKeepsInv(w, events[..|events| - 1]);
      StepKeepsInv(Run(w, events[..|events| - 1]), events[|events| - 1]);
    }
  }

  // ---------------------------------------------------------------------------------------
  // Whose nodes go
  // ---------------------------------------------------------------------------------------

  /** A step leaves every node that is not the claim's where it is. */
  ghost predicate Spares(w: World, e: Event)
  {
    forall p :: p in w.disk.fs && w.disk.fs[p].inode !in w.disk.mine ==>
      p in Step(w, e).disk.fs && Step(w, e).disk.fs[p] == w.disk.fs[p]
  }

  /** Every record is of a node the claim created. */
  ghost predicate RecordIsMine(w: World)
  {
    forall k :: 0 <= k < |w.book.owned| ==> w.book.owned[k].inode in w.disk.mine
  }

  /** The same, read off the events: what each record found at its path, the claim had created. */
  ghost predicate FoundOwn(start: World, events: seq<Event>)
  {
    events == []
    || (&& FoundOwn(start, events[..|events| - 1])
        && var w := Run(start, events[..|events| - 1]);
           events[|events| - 1].Records? && |Record(w).book.owned| > |w.book.owned| ==>
             w.disk.fs[w.plan[|w.book.owned|].path].inode in w.disk.mine)
  }

  /** An inode that is not the claim's never becomes it. */
  lemma StepKeepsOwners(w: World, e: Event)
    requires Inv(w) && Possible(w, e)
    ensures w.disk.mine <= Step(w, e).disk.mine && Step(w, e).disk.mine * w.disk.kinds.Keys == w.disk.mine
  {
  }

  lemma RecordedIsIssued(w: World, k: nat)
    requires Inv(w) && k < |w.book.owned|
    ensures w.book.owned[k].inode in w.disk.kinds
  {
    assert RecordFits(w.plan, w.disk.kinds, w.book, k);
  }

  lemma StepKeepsRecord(w: World, e: Event)
    requires Inv(w) && Possible(w, e)
    ensures !(e.Records? && |Record(w).book.owned| > |w.book.owned|) ==>
      (RecordIsMine(Step(w, e)) <==> RecordIsMine(w))
    ensures e.Records? && |Record(w).book.owned| > |w.book.owned| ==>
      (RecordIsMine(Step(w, e)) <==>
        RecordIsMine(w) && w.disk.fs[w.plan[|w.book.owned|].path].inode in w.disk.mine)
  {
    StepKeepsOwners(w, e);
    forall k: nat | k < |w.book.owned|
      ensures w.book.owned[k].inode in Step(w, e).disk.mine <==> w.book.owned[k].inode in w.disk.mine
    {
      RecordedIsIssued(w, k);
    }
    var w' := Step(w, e);
    assert forall k :: 0 <= k < |w.book.owned| ==> w'.book.owned[k] == w.book.owned[k];
    if e.Records? && |w'.book.owned| > |w.book.owned| {
      assert w'.book.owned[|w.book.owned|].inode == w.disk.fs[w.plan[|w.book.owned|].path].inode;
    }
  }

  lemma {:induction false} RecordIsMineMeans(before: Tree, kinds: map<nat, Kind>, plan: seq<Entry>, events: seq<Event>)
    requires IsTree(before) && Fits(before, kinds) && PlanFits(plan)
    requires PossibleRun(Start(before, kinds, plan), events)
    ensures RecordIsMine(Run(Start(before, kinds, plan), events)) <==> FoundOwn(Start(before, kinds, plan), events)
  {
    if events != [] {
      var start, before', e := Start(before, kinds, plan), events[..|events| - 1], events[|events| - 1];
      RecordIsMineMeans(before, kinds, plan, before');
      EveryRunKeepsInv(start, before');
      StepKeepsRecord(Run(start, before'), e);
    }
  }

  /** Where every record found an entry of the claim, each step of the cleanup spares the nodes of others, whatever
      they do between any two steps. */
  lemma OnlyOwnNodesRemoved(before: Tree, kinds: map<nat, Kind>, plan: seq<Entry>, events: seq<Event>)
    requires IsTree(before) && Fits(before, kinds) && PlanFits(plan)
    requires PossibleRun(Start(before, kinds, plan), events) && FoundOwn(Start(before, kinds, plan), events)
    ensures Spares(Run(Start(before, kinds, plan), events), Cleans)
  {
    RecordIsMineMeans(before, kinds, plan, events);
    MineSpares(Run(Start(before, kinds, plan), events));
  }

  lemma MineSpares(w: World)
    requires RecordIsMine(w)
    ensures Spares(w, Cleans)
  {
    if w.phase.Cleaning? && 0 < w.phase.left <= |w.book.owned| {
      assert w.book.owned[w.phase.left - 1].inode in w.disk.mine;
    }
  }
}
