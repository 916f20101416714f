/** Exactly when the rollback of a contested claim spares the nodes of others, and runs in which it does not. */
module RollbackSafety {

  import opened ClaimRollback
  import opened ContestedClaim

  // ---------------------------------------------------------------------------------------
  // Exactly when the rollback is safe
  // ---------------------------------------------------------------------------------------

  /** Whatever happens from here on, no step of the rollback takes a node of others. */
  ghost predicate Safe(w: World)
  {
    forall more: seq<Event> | PossibleRun(w, more) :: Spares(Run(w, more), Cleans) && Spares(Run(w, more), RemovesRoot)
  }

  /** Before the marker is recorded: the root was never made.  Behind it: the claim recorded its own entries only, or
      for its root something that is no directory, which the look before the cleanup never accepts. */
  ghost predicate Harmless(w: World)
  {
    if |w.book.owned| < 2 then !RootMade(w) else !RootIsDirectory(w) || RecordIsMine(w)
  }

  ghost predicate RootIsDirectory(w: World)
    requires w.book.owned != []
  {
    w.book.owned[0].inode in w.disk.kinds && w.disk.kinds[w.book.owned[0].inode] == Directory
  }

  /** What no step changes once the writes have stopped. */
  ghost predicate Behind(w: World, w': World)
  {
    && w'.plan == w.plan && w'.book == w.book && w'.made == w.made && w'.disk.mine == w.disk.mine
    && (forall i :: i in w.disk.kinds ==> i in w'.disk.kinds && w'.disk.kinds[i] == w.disk.kinds[i])
    && !w'.phase.Writing?
    && (w'.phase.Cleaning? ==> |w.book.owned| >= 2 && RootIsDirectory(w'))
  }

  lemma StepStaysBehind(w: World, w': World, e: Event)
    requires Behind(w, w') && Inv(w') && Possible(w', e)
    ensures Behind(w, Step(w', e))
  {
    if e.Checks? && w'.phase.Stopped? && Check(w').phase.Cleaning? {
      var root := w'.book.owned[0].path;
      assert IsClaimed(w'.disk.fs, ClaimOf(w'));
      assert w'.disk.fs[root].inode in w'.disk.kinds && w'.disk.kinds[w'.disk.fs[root].inode] == KindOf(w'.disk.fs[root]);
    }
  }

  lemma {:induction false} RunStaysBehind(w: World, more: seq<Event>)
    requires Inv(w) && w.phase.Stopped? && PossibleRun(w, more)
    ensures Behind(w, Run(w, more))
  {
    if more != [] {
      var front := more[..|more| - 1];
      RunStaysBehind(w, front);
      EveryRunKeepsInv(w, front);
      StepStaysBehind(w, Run(w, front), more[|more| - 1]);
    }
  }

  lemma HarmlessSpares(w: World, w': World)
    requires Inv(w) && Behind(w, w') && Harmless(w)
    ensures Spares(w', Cleans) && Spares(w', RemovesRoot)
  {
    if |w.book.owned| >= 2 && w'.phase.Cleaning? {
      RecordedIsIssued(w, 0);
      MineSpares(w');
    }
  }

  // Where the rollback is not harmless, a continuation that loses a node of others.

  lemma Takes(w: World, e: Event, p: Path)
    requires p in w.disk.fs && w.disk.fs[p].inode !in w.disk.mine && p !in Step(w, e).disk.fs
    ensures !Spares(w, e)
  {
  }

  lemma Losing(w: World, more: seq<Event>, e: Event)
    requires PossibleRun(w, more) && (e.Cleans? || e.RemovesRoot?) && !Spares(Run(w, more), e)
    ensures !Safe(w)
  {
  }

  lemma {:induction false} FreshNumber(s: set<nat>) returns (n: nat)
    ensures forall i :: i in s ==> i < n
    decreases |s|
  {
    if s == {} {
      n := 0;
    } else {
      var x :| x in s;
      var m := FreshNumber(s - {x});
      n := if m <= x then x + 1 else m;
      assert s == (s - {x}) + {x};
    }
  }

  /** A node exchanged for one of its kind leaves a tree. */
  lemma ExchangeKeepsTree(fs: Tree, kinds: map<nat, Kind>, p: Path, node: Node)
    requires IsTree(fs) && Fits(fs, kinds) && p in fs && KindOf(node) == KindOf(fs[p])
    requires node.inode in kinds && kinds[node.inode] == KindOf(node)
    ensures IsTree(fs[p := node]) && Fits(fs[p := node], kinds)
  {
    var fs' := fs[p := node];
    forall q | q in fs' && q != []
      ensures InDirectory(fs', q)
    {
      assert InDirectory(fs, q);
      assert q in fs;
    }
  }

  lemma UnclaimedLoses(w: World)
    requires Inv(w) && w.phase.Stopped? && |w.book.owned| < 2 && RootMade(w)
    ensures !Safe(w)
  {
    var root := w.plan[0].path;
    var other := FreshNumber(w.disk.kinds.Keys);
    assert other !in w.disk.kinds;
    var e := Foreign(w.book.home[root := Dir(other)], map[other := Directory]);
    EmptyRootIsPossible(w.book.home, w.disk.kinds, root, other);
    RunOne(w, e);
    Takes(Step(w, e), RemovesRoot, root);
    Losing(w, [e], RemovesRoot);
  }

  lemma EmptyRootIsPossible(home: Tree, kinds: map<nat, Kind>, root: Path, other: nat)
    requires HomeFits(home, root, kinds) && other !in kinds
    ensures var fs := home[root := Dir(other)];
      IsTree(fs) && Fits(fs, kinds + map[other := Directory]) && !HasChild(fs, root)
  {
    assert Fits(home, kinds + map[other := Directory]);
    ExchangeKeepsTree(home, kinds + map[other := Directory], root, Dir(other));
    assert forall q :: q in home ==> !(root < q);
  }

  /** Only the tree and the phase are different. */
  ghost predicate Differs(w: World, w': World, phase: Phase)
  {
    && w'.plan == w.plan && w'.book == w.book && w'.made == w.made && w'.phase == phase
    && w'.disk.kinds == w.disk.kinds && w'.disk.mine == w.disk.mine
  }

  /** `n` removals in a row. */
  function Removals(n: nat): seq<Event> { if n == 0 then [] else Removals(n - 1) + [Cleans] }

  lemma {:induction false} RemovalsGo(w: World, n: nat)
    requires w.phase.Cleaning? && n <= w.phase.left <= |w.book.owned|
    ensures PossibleRun(w, Removals(n)) && Differs(w, Run(w, Removals(n)), Cleaning(w.phase.left - n))
  {
    if n > 0 {
      RemovalsGo(w, n - 1);
      RunSnoc(w, Removals(n - 1), Cleans);
    }
  }

  /** A tree in which root and marker stand as recorded. */
  function Inviting(w: World): Tree
    requires |w.book.owned| == |w.book.found| >= 2 && |w.plan| >= 2
  {
    var o := w.book.owned;
    w.book.found[1][o[0].path := Dir(o[0].inode)][o[1].path := File(o[1].inode, w.plan[1].content)]
  }

  lemma InvitingIsPossible(w: World)
    requires Inv(w) && |w.book.owned| >= 2 && RootIsDirectory(w)
    ensures IsTree(Inviting(w)) && Fits(Inviting(w), w.disk.kinds)
  {
    var o, fs, kinds := w.book.owned, w.book.found[1], w.disk.kinds;
    assert RecordFits(w.plan, kinds, w.book, 0) && RecordFits(w.plan, kinds, w.book, 1);
    var root, marker := o[0].path, o[1].path;
    assert marker[..|marker| - 1] == root;
    assert InDirectory(fs, marker);
    ExchangeKeepsTree(fs, kinds, root, Dir(o[0].inode));
    ExchangeKeepsTree(fs[root := Dir(o[0].inode)], kinds, marker, File(o[1].inode, w.plan[1].content));
  }

  /** The cleanup begins, and has got down to record `k`. */
  lemma CleaningReaches(w: World, k: nat) returns (more: seq<Event>)
    requires Inv(w) && w.phase.Stopped? && k < |w.book.owned| && 2 <= |w.book.owned| && RootIsDirectory(w)
    ensures PossibleRun(w, more) && Differs(w, Run(w, more), Cleaning(k + 1))
  {
    var first := CleaningBegins(w);
    CleaningGoesOn(w, first, k);
    more := first + Removals(|w.book.owned| - 1 - k);
  }

  lemma CleaningGoesOn(w: World, first: seq<Event>, k: nat)
    requires PossibleRun(w, first) && Differs(w, Run(w, first), Cleaning(|w.book.owned|)) && k < |w.book.owned|
    ensures var more := first + Removals(|w.book.owned| - 1 - k);
      PossibleRun(w, more) && Differs(w, Run(w, more), Cleaning(k + 1))
  {
    RemovalsGo(Run(w, first), |w.book.owned| - 1 - k);
    DiffersJoins(w, first, Removals(|w.book.owned| - 1 - k), Cleaning(k + 1));
  }

  lemma DiffersJoins(w: World, a: seq<Event>, b: seq<Event>, phase: Phase)
    requires PossibleRun(w, a) && Differs(w, Run(w, a), Run(w, a).phase)
    requires PossibleRun(Run(w, a), b) && Differs(Run(w, a), Run(Run(w, a), b), phase)
    ensures PossibleRun(w, a + b) && Differs(w, Run(w, a + b), phase)
  {
    RunJoins(w, a, b);
  }

  lemma CleaningBegins(w: World) returns (more: seq<Event>)
    requires Inv(w) && w.phase.Stopped? && |w.book.owned| >= 2 && RootIsDirectory(w)
    ensures PossibleRun(w, more) && Differs(w, Run(w, more), Cleaning(|w.book.owned|))
  {
    InvitingIsPossible(w);
    var e := Foreign(Inviting(w), map[]);
    NobodyBorn(w, Inviting(w));
    InvitationTaken(w, Step(w, e));
    RunOne(w, e);
    RunSnoc(w, [e], Checks);
    more := [e] + [Checks];
  }

  lemma NobodyBorn(w: World, fs: Tree)
    requires IsTree(fs) && Fits(fs, w.disk.kinds)
    ensures Possible(w, Foreign(fs, map[])) && Step(w, Foreign(fs, map[])) == w.(disk := w.disk.(fs := fs))
  {
    assert w.disk.kinds + map[] == w.disk.kinds;
  }

  lemma InvitationTaken(w: World, w': World)
    requires Inv(w) && w.phase.Stopped? && |w.book.owned| >= 2
    requires w' == w.(disk := w.disk.(fs := Inviting(w)))
    ensures Check(w') == w'.(phase := Cleaning(|w.book.owned|))
  {
    var o := w.book.owned;
    assert RecordFits(w.plan, w.disk.kinds, w.book, 0) && RecordFits(w.plan, w.disk.kinds, w.book, 1);
    assert o[0].path != o[1].path && !o[1].directory;
    StandingIsAccepted(w');
  }

  lemma StandingIsAccepted(w: World)
    requires w.phase.Stopped? && |w.book.owned| >= 2 && |w.plan| >= 2 && !w.book.owned[1].directory
    requires var root, marker, fs := w.book.owned[0], w.book.owned[1], w.disk.fs;
      && root.path in fs && fs[root.path] == Dir(root.inode)
      && marker.path in fs && fs[marker.path] == File(marker.inode, w.plan[1].content)
    ensures Check(w) == w.(phase := Cleaning(|w.book.owned|))
  {
    assert ClaimOf(w).owned[0] == w.book.owned[1];
  }

  /** A tree without what lies below a path. */
  function Pruned(fs: Tree, p: Path): Tree { map q | q in fs && !(p < q) :: fs[q] }

  lemma PrunedIsTree(fs: Tree, kinds: map<nat, Kind>, p: Path)
    requires IsTree(fs) && Fits(fs, kinds) && p in fs
    ensures IsTree(Pruned(fs, p)) && Fits(Pruned(fs, p), kinds) && !HasChild(Pruned(fs, p), p)
    ensures p in Pruned(fs, p) && Pruned(fs, p)[p] == fs[p]
  {
    forall q | q in Pruned(fs, p) && q != []
      ensures InDirectory(Pruned(fs, p), q)
    {
      assert InDirectory(fs, q);
      assert p < q[..|q| - 1] ==> p < q;
    }
  }

  /** A record of another's node, put back just before its turn. */
  lemma RecordLoses(w: World, k: nat)
    requires Inv(w) && w.phase.Stopped? && k < |w.book.owned| && 2 <= |w.book.owned| && RootIsDirectory(w)
    requires w.book.owned[k].inode !in w.disk.mine
    ensures !Safe(w)
  {
    var before := CleaningReaches(w, k);
    PutBack(w, k);
    LosesAt(w, before, Pruned(w.book.found[k], w.book.owned[k].path), k);
  }

  lemma TurnTakes(w: World, k: nat)
    requires k < |w.book.owned| && w.phase == Cleaning(k + 1)
    requires var o, fs := w.book.owned[k], w.disk.fs;
      o.path in fs && fs[o.path].inode !in w.disk.mine && o.path !in RemoveOwned(fs, o)
    ensures !Spares(w, Cleans)
  {
    Takes(w, Cleans, w.book.owned[k].path);
  }

  lemma LosesAt(w: World, before: seq<Event>, fs: Tree, k: nat)
    requires PossibleRun(w, before) && k < |w.book.owned| && Differs(w, Run(w, before), Cleaning(k + 1))
    requires IsTree(fs) && Fits(fs, w.disk.kinds)
    requires var o := w.book.owned[k];
      o.path in fs && fs[o.path].inode !in w.disk.mine && o.path !in RemoveOwned(fs, o)
    ensures !Safe(w)
  {
    var e := Foreign(fs, map[]);
    NobodyBorn(Run(w, before), fs);
    RunSnoc(w, before, e);
    TurnTakes(Run(w, before + [e]), k);
    Losing(w, before + [e], Cleans);
  }

  /** The tree of the record's time, without what lies below its path: the record is removed from it. */
  lemma PutBack(w: World, k: nat)
    requires Inv(w) && k < |w.book.owned| && RootIsDirectory(w)
    ensures var o, fs := w.book.owned[k], Pruned(w.book.found[k], w.book.owned[k].path);
      && IsTree(fs) && Fits(fs, w.disk.kinds)
      && o.path in fs && fs[o.path].inode == o.inode && o.path !in RemoveOwned(fs, o)
  {
    var o := w.book.owned[k];
    assert RecordFits(w.plan, w.disk.kinds, w.book, k);
    PrunedIsTree(w.book.found[k], w.disk.kinds, o.path);
  }

  /** Once the writes have stopped, whenever and however: no continuation, whatever others do in it, has a step of the
      rollback take a node of theirs, exactly when the stopped state is harmless. */
  lemma SafeExactly(before: Tree, kinds: map<nat, Kind>, plan: seq<Entry>, events: seq<Event>)
    requires IsTree(before) && Fits(before, kinds) && PlanFits(plan)
    requires PossibleRun(Start(before, kinds, plan), events) && Run(Start(before, kinds, plan), events).phase.Stopped?
    ensures var w := Run(Start(before, kinds, plan), events);
      && (Safe(w) <==> Harmless(w))
      && (RecordIsMine(w) <==> FoundOwn(Start(before, kinds, plan), events))
  {
    EveryRunKeepsInv(Start(before, kinds, plan), events);
    RecordIsMineMeans(before, kinds, plan, events);
    StoppedIsSafeExactly(Run(Start(before, kinds, plan), events));
  }

  lemma StoppedIsSafeExactly(w: World)
    requires Inv(w) && w.phase.Stopped?
    ensures Safe(w) <==> Harmless(w)
  {
    if Harmless(w) {
      forall more | PossibleRun(w, more)
        ensures Spares(Run(w, more), Cleans) && Spares(Run(w, more), RemovesRoot)
      {
        RunStaysBehind(w, more);
        HarmlessSpares(w, Run(w, more));
      }
    } else if |w.book.owned| < 2 {
      UnclaimedLoses(w);
    } else {
      var k :| 0 <= k < |w.book.owned| && w.book.owned[k].inode !in w.disk.mine;
      RecordLoses(w, k);
    }
  }

  // ---------------------------------------------------------------------------------------
  // Runs in which a node of others goes
  // ---------------------------------------------------------------------------------------

  /** The root, made and recorded with nobody in between. */
  function Rooted(before: Tree, kinds: map<nat, Kind>, plan: seq<Entry>, r: nat): World
    requires plan != []
  {
    var root := plan[0].path;
    World(plan, Disk(before[root := Dir(r)], kinds[r := Directory], {r}),
          Book([Owned(root, r, true)], [before[root := Dir(r)]], before[root := Dir(r)]), false, Writing)
  }

  lemma RootIsRecorded(before: Tree, kinds: map<nat, Kind>, plan: seq<Entry>, r: nat)
    requires PlanFits(plan) && CanCreate(before, plan[0].path) && r !in kinds
    ensures var start, events := Start(before, kinds, plan), [Creates(r), Records];
      PossibleRun(start, events) && Run(start, events) == Rooted(before, kinds, plan, r)
  {
    var start := Start(before, kinds, plan);
    RunOne(start, Creates(r));
    RunSnoc(start, [Creates(r)], Records);
    assert [Creates(r)] + [Records] == [Creates(r), Records];
  }

  /** The tree with another's file in the marker's place. */
  function Exchanged(before: Tree, plan: seq<Entry>, r: nat, other: nat): Tree
    requires |plan| >= 2
  {
    before[plan[0].path := Dir(r)][plan[1].path := File(other, plan[1].content)]
  }

  lemma NewNodeFits(fs: Tree, kinds: map<nat, Kind>, p: Path, node: Node)
    requires Fits(fs, kinds) && node.inode !in kinds
    ensures Fits(fs[p := node], kinds[node.inode := KindOf(node)])
  {
  }

  lemma OneMoreKind(fs: Tree, kinds: map<nat, Kind>, i: nat, kind: Kind)
    requires Fits(fs, kinds) && i !in kinds
    ensures Fits(fs, kinds[i := kind])
  {
  }

  lemma ExchangedFits(before: Tree, kinds: map<nat, Kind>, plan: seq<Entry>, r: nat, m: nat, other: nat)
    requires IsTree(before) && Fits(before, kinds) && PlanFits(plan) && CanCreate(before, plan[0].path)
    requires r !in kinds && m !in kinds && other !in kinds && r != m && r != other && m != other
    ensures CanCreate(before[plan[0].path := Dir(r)], plan[1].path)
    ensures IsTree(Exchanged(before, plan, r, other))
    ensures Fits(Exchanged(before, plan, r, other), kinds[r := Directory][m := Regular] + map[other := Regular])
  {
    var fs, node := before[plan[0].path := Dir(r)], File(other, plan[1].content);
    MarkerCanBeMade(before, plan, r);
    StaysTree(fs, plan[1].path, node);
    NewNodeFits(before, kinds, plan[0].path, Dir(r));
    OneMoreKind(fs, kinds[r := Directory], m, Regular);
    var kinds' := kinds[r := Directory][m := Regular];
    NewNodeFits(fs, kinds', plan[1].path, node);
    assert kinds'[other := Regular] == kinds' + map[other := Regular];
  }

  lemma MarkerCanBeMade(before: Tree, plan: seq<Entry>, r: nat)
    requires IsTree(before) && PlanFits(plan) && CanCreate(before, plan[0].path)
    ensures IsTree(before[plan[0].path := Dir(r)]) && CanCreate(before[plan[0].path := Dir(r)], plan[1].path)
  {
    NothingBelow(before, plan[0].path);
    StaysTree(before, plan[0].path, Dir(r));
    assert plan[1].path[..|plan[1].path| - 1] == plan[0].path;
  }

  /** The events of the run below, from the marker on. */
  function ExchangeScript(before: Tree, plan: seq<Entry>, r: nat, m: nat, other: nat): seq<Event>
    requires |plan| >= 2
  {
    [Creates(m), Foreign(Exchanged(before, plan, r, other), map[other := Regular]), Records, Fails, Checks]
  }

  /** The marker made, exchanged and recorded. */
  lemma ExchangeIsRecorded(before: Tree, kinds: map<nat, Kind>, plan: seq<Entry>, r: nat, m: nat, other: nat)
    requires IsTree(before) && Fits(before, kinds) && PlanFits(plan) && CanCreate(before, plan[0].path)
    requires r !in kinds && m !in kinds && other !in kinds && r != m && r != other && m != other
    ensures var w := Rooted(before, kinds, plan, r);
      var e := Foreign(Exchanged(before, plan, r, other), map[other := Regular]);
      && Possible(Step(w, Creates(m)), e)
      && var w' := Step(Step(Step(w, Creates(m)), e), Records);
         && w'.phase.Writing? && w'.plan == plan && w'.disk.mine == {r, m} && w'.disk.fs == e.fs
         && w'.book.owned == [Owned(plan[0].path, r, true), Owned(plan[1].path, other, false)]
  {
    ExchangedFits(before, kinds, plan, r, m, other);
    var w := Rooted(before, kinds, plan, r);
    var w1 := Step(w, Creates(m));
    assert w1.disk.kinds == kinds[r := Directory][m := Regular] && w1.disk.mine == {r, m} && w1.made;
  }

  /** Stopped with the exchanged file in the marker's place, it is accepted. */
  lemma ExchangeIsAccepted(w: World, before: Tree, plan: seq<Entry>, r: nat, other: nat)
    requires PlanFits(plan) && w.phase.Writing? && w.plan == plan && w.disk.fs == Exchanged(before, plan, r, other)
    requires w.book.owned == [Owned(plan[0].path, r, true), Owned(plan[1].path, other, false)]
    ensures var w' := Step(Step(w, Fails), Checks);
      w'.phase == Cleaning(2) && w'.disk == w.disk && w'.book == w.book
  {
    var stopped := Step(w, Fails);
    assert ClaimOf(stopped).owned[0] == w.book.owned[1] && plan[0].path != plan[1].path;
  }

  lemma FiveSteps(w: World, a: Event, b: Event, c: Event, d: Event, e: Event)
    ensures Run(w, [a, b, c, d, e]) == Step(Step(Step(Step(Step(w, a), b), c), d), e)
    ensures Possible(w, a) && Possible(Step(w, a), b) && Possible(Step(Step(w, a), b), c)
            && Possible(Step(Step(Step(w, a), b), c), d) && Possible(Step(Step(Step(Step(w, a), b), c), d), e)
            ==> PossibleRun(w, [a, b, c, d, e])
  {
    RunOne(w, a);
    RunSnoc(w, [a], b);
    RunSnoc(w, [a] + [b], c);
    RunSnoc(w, [a] + [b] + [c], d);
    RunSnoc(w, [a] + [b] + [c] + [d], e);
    assert [a] + [b] + [c] + [d] + [e] == [a, b, c, d, e];
  }

  lemma ScriptGoes(before: Tree, kinds: map<nat, Kind>, plan: seq<Entry>, r: nat, m: nat, other: nat)
    requires IsTree(before) && Fits(before, kinds) && PlanFits(plan) && CanCreate(before, plan[0].path)
    requires r !in kinds && m !in kinds && other !in kinds && r != m && r != other && m != other
    ensures var w, script := Rooted(before, kinds, plan, r), ExchangeScript(before, plan, r, m, other);
      var w' := Run(w, script);
      && PossibleRun(w, script) && w'.phase == Cleaning(2) && w'.disk.mine == {r, m}
      && w'.disk.fs == Exchanged(before, plan, r, other)
      && w'.book.owned == [Owned(plan[0].path, r, true), Owned(plan[1].path, other, false)]
  {
    var w := Rooted(before, kinds, plan, r);
    var e := Foreign(Exchanged(before, plan, r, other), map[other := Regular]);
    ExchangeIsRecorded(before, kinds, plan, r, m, other);
    ExchangeIsAccepted(Step(Step(Step(w, Creates(m)), e), Records), before, plan, r, other);
    FiveSteps(w, Creates(m), e, Records, Fails, Checks);
  }

  /** From the start of a run: another writer exchanges the marker between its creation and its recording for a file
      of its own with the same text; the record takes that file's inode, the look before the cleanup accepts it, and
      the cleanup removes it. */
  lemma RecordTakesOthers(before: Tree, kinds: map<nat, Kind>, plan: seq<Entry>, r: nat, m: nat, other: nat)
    requires IsTree(before) && Fits(before, kinds) && PlanFits(plan) && CanCreate(before, plan[0].path)
    requires r !in kinds && m !in kinds && other !in kinds && r != m && r != other && m != other
    ensures var events := [Creates(r), Records] + ExchangeScript(before, plan, r, m, other);
      var w := Run(Start(before, kinds, plan), events);
      && PossibleRun(Start(before, kinds, plan), events)
      && plan[1].path in w.disk.fs && w.disk.fs[plan[1].path].inode == other && other !in w.disk.mine
      && plan[1].path !in Step(w, Cleans).disk.fs
  {
    RootIsRecorded(before, kinds, plan, r);
    ScriptGoes(before, kinds, plan, r, m, other);
    RunJoins(Start(before, kinds, plan), [Creates(r), Records], ExchangeScript(before, plan, r, m, other));
    MarkerGoes(Run(Rooted(before, kinds, plan, r), ExchangeScript(before, plan, r, m, other)), before, plan, r, other);
  }

  lemma MarkerGoes(w: World, before: Tree, plan: seq<Entry>, r: nat, other: nat)
    requires |plan| >= 2 && w.phase == Cleaning(2) && w.disk.fs == Exchanged(before, plan, r, other)
    requires w.book.owned == [Owned(plan[0].path, r, true), Owned(plan[1].path, other, false)]
    ensures plan[1].path in w.disk.fs && w.disk.fs[plan[1].path].inode == other
    ensures plan[1].path !in Step(w, Cleans).disk.fs
  {
  }

  /** An entry exchanged for another one of the claim's own is harmless: what is recorded is the claim's. */
  lemma ExchangeForOwn(w: World, fs: Tree)
    requires Inv(w) && RecordIsMine(w) && Possible(w, Foreign(fs, map[]))
    requires w.phase.Writing? && w.made
    requires var p := w.plan[|w.book.owned|].path; p in fs ==> fs[p].inode in w.disk.mine
    ensures RecordIsMine(Step(Step(w, Foreign(fs, map[])), Records))
  {
  }

  // Before the marker is recorded.

  /** What is at the root is an empty directory that is not the claim's. */
  ghost predicate OthersEmptyRoot(w: World)
    requires w.plan != []
  {
    var root, fs := w.plan[0].path, w.disk.fs;
    root in fs && fs[root].Dir? && !HasChild(fs, root) && fs[root].inode !in w.disk.mine
  }

  /** Others left it there, after the claim had made its root. */
  ghost predicate LeftByOthers(start: World, events: seq<Event>, root: Path, node: Node)
  {
    exists n :: 0 <= n < |events| && events[n].Foreign? && RootMade(Run(start, events[..n]))
                && root in events[n].fs && events[n].fs[root] == node
  }

  lemma LeftEarlier(start: World, events: seq<Event>, e: Event, root: Path, node: Node)
    requires LeftByOthers(start, events, root, node)
    ensures LeftByOthers(start, events + [e], root, node)
  {
    var n :| 0 <= n < |events| && events[n].Foreign? && RootMade(Run(start, events[..n]))
             && root in events[n].fs && events[n].fs[root] == node;
    assert (events + [e])[n] == events[n] && (events + [e])[..n] == events[..n];
  }

  /** The claim has its root, not yet its marker, and at the root is a node of others. */
  ghost predicate OthersAtRoot(w: World)
    requires w.plan != []
  {
    && RootMade(w) && |w.book.owned| < 2 && !w.phase.Cleaning?
    && w.plan[0].path in w.disk.fs && w.disk.fs[w.plan[0].path].inode !in w.disk.mine
  }

  /** Only a change of others puts one there. */
  lemma OthersStay(w: World, e: Event)
    requires Inv(w) && Possible(w, e) && !e.Foreign? && Step(w, e).plan == w.plan && OthersAtRoot(Step(w, e))
    ensures OthersAtRoot(w) && Step(w, e).disk.fs[w.plan[0].path] == w.disk.fs[w.plan[0].path]
  {
    if e.Creates? { OthersStayBehindCreate(w, e.inode); }
  }

  lemma OthersStayBehindCreate(w: World, inode: nat)
    requires Inv(w) && inode !in w.disk.kinds && OthersAtRoot(Create(w, inode))
    ensures OthersAtRoot(w) && Create(w, inode).disk.fs[w.plan[0].path] == w.disk.fs[w.plan[0].path]
  {
    var root, marker := w.plan[0].path, w.plan[1].path;
    assert root != marker;
  }

  lemma {:induction false} OthersCame(start: World, events: seq<Event>)
    requires Inv(start) && !RootMade(start) && PossibleRun(start, events)
    ensures var w := Run(start, events);
      w.plan == start.plan
      && (OthersAtRoot(w) ==> LeftByOthers(start, events, w.plan[0].path, w.disk.fs[w.plan[0].path]))
  {
    PlanStays(start, events);
    if events != [] && OthersAtRoot(Run(start, events)) {
      var front, e := events[..|events| - 1], events[|events| - 1];
      OthersCame(start, front);
      EveryRunKeepsInv(start, front);
      assert front + [e] == events;
      OthersCameLast(start, front, e);
    }
  }

  lemma OthersCameLast(start: World, front: seq<Event>, e: Event)
    requires var w := Run(start, front);
      && Inv(w) && Possible(w, e) && w.plan == start.plan && Step(w, e).plan == start.plan
      && OthersAtRoot(Step(w, e))
      && (OthersAtRoot(w) ==> LeftByOthers(start, front, w.plan[0].path, w.disk.fs[w.plan[0].path]))
    ensures LeftByOthers(start, front + [e], start.plan[0].path, Step(Run(start, front), e).disk.fs[start.plan[0].path])
  {
    var w := Run(start, front);
    if e.Foreign? {
      assert (front + [e])[|front|] == e && (front + [e])[..|front|] == front;
    } else {
      OthersStay(w, e);
      LeftEarlier(start, front, e, w.plan[0].path, w.disk.fs[w.plan[0].path]);
    }
  }

  /** The rollback of an unclaimed root takes a node of others exactly when an empty directory of theirs is at its path;
      and such a one was left there by a change of theirs after the root was made. */
  lemma UnclaimedRollback(before: Tree, kinds: map<nat, Kind>, plan: seq<Entry>, events: seq<Event>)
    requires IsTree(before) && Fits(before, kinds) && PlanFits(plan)
    requires PossibleRun(Start(before, kinds, plan), events)
    requires var w := Run(Start(before, kinds, plan), events);
      w.phase.Stopped? && |w.book.owned| < 2 && RootMade(w)
    ensures var w := Run(Start(before, kinds, plan), events);
      && w.plan == plan
      && (!Spares(w, RemovesRoot) <==> OthersEmptyRoot(w))
      && (OthersEmptyRoot(w) ==>
            LeftByOthers(Start(before, kinds, plan), events, plan[0].path, w.disk.fs[plan[0].path]))
  {
    OthersCame(Start(before, kinds, plan), events);
    EmptyRootGoes(Run(Start(before, kinds, plan), events));
  }

  lemma EmptyRootGoes(w: World)
    requires w.plan != [] && w.phase.Stopped? && |w.book.owned| < 2 && RootMade(w)
    ensures !Spares(w, RemovesRoot) <==> OthersEmptyRoot(w)
  {
    if OthersEmptyRoot(w) { Takes(w, RemovesRoot, w.plan[0].path); }
  }

  /** Such a run: another writer exchanges the root before it is recorded, and the claim fails. */
  lemma UnclaimedRollbackTakesOthers(before: Tree, kinds: map<nat, Kind>, plan: seq<Entry>, r: nat, other: nat)
    requires IsTree(before) && Fits(before, kinds) && PlanFits(plan) && CanCreate(before, plan[0].path)
    requires r !in kinds && other !in kinds && r != other
    ensures var events := [Creates(r), Foreign(before[plan[0].path := Dir(other)], map[other := Directory]), Fails];
      var w := Run(Start(before, kinds, plan), events);
      && PossibleRun(Start(before, kinds, plan), events) && plan[0].path in w.disk.fs
      && w.disk.fs[plan[0].path].inode == other && other !in w.disk.mine
      && plan[0].path !in Step(w, RemovesRoot).disk.fs
  {
    var start := Start(before, kinds, plan);
    var e := Foreign(before[plan[0].path := Dir(other)], map[other := Directory]);
    ExchangedRootStands(before, kinds, plan, r, other);
    ThreeSteps(start, Creates(r), e, Fails);
    OthersRootGoes(Step(Step(Step(start, Creates(r)), e), Fails), before, other);
  }

  /** The root made and exchanged, and the claim failed. */
  lemma ExchangedRootStands(before: Tree, kinds: map<nat, Kind>, plan: seq<Entry>, r: nat, other: nat)
    requires IsTree(before) && Fits(before, kinds) && PlanFits(plan) && CanCreate(before, plan[0].path)
    requires r !in kinds && other !in kinds && r != other
    ensures var start, e := Start(before, kinds, plan),
                            Foreign(before[plan[0].path := Dir(other)], map[other := Directory]);
      && Possible(start, Creates(r)) && Possible(Step(start, Creates(r)), e)
      && var w := Step(Step(Step(start, Creates(r)), e), Fails);
         && w.phase.Stopped? && w.made && w.book.owned == [] && w.plan == plan && w.disk.fs == e.fs && w.disk.mine == {r}
         && !HasChild(e.fs, plan[0].path)
  {
    OthersRootFits(before, kinds, plan[0].path, r, other);
    assert Step(Start(before, kinds, plan), Creates(r)).disk.kinds == kinds[r := Directory];
  }

  lemma OthersRootGoes(w: World, before: Tree, other: nat)
    requires w.phase.Stopped? && w.made && w.book.owned == [] && w.plan != []
    requires w.disk.fs == before[w.plan[0].path := Dir(other)] && !HasChild(w.disk.fs, w.plan[0].path)
    ensures w.plan[0].path in w.disk.fs && w.disk.fs[w.plan[0].path].inode == other
    ensures w.plan[0].path !in Step(w, RemovesRoot).disk.fs
  {
  }

  lemma ThreeSteps(w: World, a: Event, b: Event, c: Event)
    ensures Run(w, [a, b, c]) == Step(Step(Step(w, a), b), c)
    ensures Possible(w, a) && Possible(Step(w, a), b) && Possible(Step(Step(w, a), b), c) ==> PossibleRun(w, [a, b, c])
  {
    RunOne(w, a);
    RunSnoc(w, [a], b);
    RunSnoc(w, [a] + [b], c);
    assert [a] + [b] + [c] == [a, b, c];
  }

  lemma OthersRootFits(before: Tree, kinds: map<nat, Kind>, root: Path, r: nat, other: nat)
    requires IsTree(before) && Fits(before, kinds) && root != [] && CanCreate(before, root)
    requires r !in kinds && other !in kinds && r != other
    ensures var fs, born := before[root := Dir(other)], map[other := Directory];
      IsTree(fs) && Fits(fs, kinds[r := Directory] + born) && !HasChild(fs, root)
  {
    StaysTree(before, root, Dir(other));
    NothingBelow(before, root);
    OneMoreKind(before, kinds, r, Directory);
    NewNodeFits(before, kinds[r := Directory], root, Dir(other));
    assert kinds[r := Directory][other := Directory] == kinds[r := Directory] + map[other := Directory];
  }
}
