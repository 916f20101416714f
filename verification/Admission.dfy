/** The admission controller of the HTTP server: a bounded number of active requests, a bounded
    queue of waiting ones, and a shutdown that drains both.

    `State` is the controller together with its history; `Arrive`, `Drop`, `Finish` and
    `Shutdown` are what its closures do to it; `Controller` does the same in place. */
module Admission {

  type Id = nat

  datatype Limits = Limits(maxConcurrent: int, maxQueued: int)

  ghost predicate ValidLimits(c: Limits) { 1 <= c.maxConcurrent && 0 <= c.maxQueued }

  /** `dead` holds the requests whose socket is aborted or destroyed.  The rest is history:
      `holders` were admitted and have not released, `enqueued` lists every request that ever had
      to wait, `log` every settled admission in order, `woken` every idle waiter that was woken. */
  datatype State = State(
    active: int,
    stopping: bool,
    queue: seq<Id>,
    idle: seq<Id>,
    dead: set<Id>,
    holders: set<Id>,
    enqueued: seq<Id>,
    log: seq<(Id, bool)>,
    woken: seq<Id>)

  const INITIAL := State(0, false, [], [], {}, {}, [], [], [])

  // ---------------------------------------------------------------------------------------
  // What each closure does
  // ---------------------------------------------------------------------------------------

  function Settle(s: State, id: Id, admitted: bool): State
  {
    s.(log := s.log + [(id, admitted)])
  }

  function Admit(s: State, id: Id): State
  {
    Settle(s, id, true).(active := s.active + 1, holders := s.holders + {id})
  }

  function Arrive(c: Limits, s: State, id: Id): State
  {
    if s.stopping then Settle(s, id, false)
    else if s.active < c.maxConcurrent then Admit(s, id)
    else if |s.queue| >= c.maxQueued then Settle(s, id, false)
    else s.(queue := s.queue + [id], enqueued := s.enqueued + [id])
  }

  function Without(ids: seq<Id>, id: Id): seq<Id>
  {
    if ids == [] then []
    else if ids[0] == id then ids[1..]
    else [ids[0]] + Without(ids[1..], id)
  }

  /** Where the first one is, if there is one. */
  lemma {:induction false} WithoutFirst(ids: seq<Id>, id: Id, index: nat)
    requires index <= |ids| && id !in ids[..index] && (index < |ids| ==> ids[index] == id)
    ensures Without(ids, id) == if index < |ids| then ids[..index] + ids[index + 1..] else ids
    ensures index < |ids| <==> id in ids
  {
    if index == 0 {
      assert ids != [] ==> ids[..0] + ids[1..] == ids[1..];
    } else {
      var first, rest := ids[0], ids[1..];
      assert first in ids[..index];
      assert id !in rest[..index - 1] by {
        assert forall k :: 0 <= k < index - 1 ==> rest[k] == ids[..index][k + 1];
      }
      WithoutFirst(rest, id, index - 1);
      assert Without(ids, id) == [first] + Without(rest, id);
      assert ids == [first] + rest && [first] + rest[..index - 1] == ids[..index];
      if index < |ids| { assert rest[index..] == ids[index + 1..]; }
    }
  }

  function Drop(s: State, id: Id): State
  {
    if id in s.queue then Settle(s.(queue := Without(s.queue, id)), id, false) else s
  }

  function NotifyIfIdle(s: State): State
  {
    if s.active != 0 then s else s.(woken := s.woken + s.idle, idle := [])
  }

  function Pump(c: Limits, s: State): State
    decreases |s.queue|
  {
    if s.stopping || s.active >= c.maxConcurrent || s.queue == [] then NotifyIfIdle(s)
    else
      var w, s' := s.queue[0], s.(queue := s.queue[1..]);
      Pump(c, if w in s.dead then Settle(s', w, false) else Admit(s', w))
  }

  function Finish(c: Limits, s: State, id: Id): State
  {
    Pump(c, s.(active := s.active - 1, holders := s.holders - {id}))
  }

  function SettleAll(s: State, ids: seq<Id>): State
    decreases |ids|
  {
    if ids == [] then s else SettleAll(Settle(s, ids[0], false), ids[1..])
  }

  function WaitForIdle(s: State, waiter: Id): State
  {
    if s.active == 0 then s.(woken := s.woken + [waiter]) else s.(idle := s.idle + [waiter])
  }

  /** A second shutdown returns the first one's promise and changes nothing. */
  function Shutdown(s: State, waiter: Id): State
  {
    if s.stopping then s
    else WaitForIdle(SettleAll(s.(stopping := true, queue := []), s.queue), waiter)
  }

  // ---------------------------------------------------------------------------------------
  // The controller itself
  // ---------------------------------------------------------------------------------------

  datatype Ticket = Granted | Stopping503 | Capacity429 | Queued

  class Controller {
    const limits: Limits
    var active: int
    var stopping: bool
    var queue: seq<Id>
    var idleWaiters: seq<Id>
    var dead: set<Id>
    ghost var holders: set<Id>
    ghost var enqueued: seq<Id>
    ghost var log: seq<(Id, bool)>
    ghost var woken: seq<Id>

    ghost function Model(): State
      reads this
    {
      State(active, stopping, queue, idleWaiters, dead, holders, enqueued, log, woken)
    }

    constructor (limits: Limits)
      ensures this.limits == limits && Model() == INITIAL
    {
      this.limits := limits;
      active, stopping, queue, idleWaiters, dead := 0, false, [], [], {};
      holders, enqueued, log, woken := {}, [], [], [];
    }

    method Acquire(id: Id) returns (ticket: Ticket)
      modifies this
      ensures Model() == Arrive(limits, old(Model()), id)
      ensures ticket.Granted? <==> log == old(log) + [(id, true)]
      ensures ticket.Stopping503? || ticket.Capacity429? <==> log == old(log) + [(id, false)]
      ensures ticket.Queued? <==> enqueued == old(enqueued) + [id]
      ensures ticket.Stopping503? <==> old(stopping)
    {
      assert (log + [(id, true)])[|log|] != (log + [(id, false)])[|log|];
      if stopping {
        log := log + [(id, false)];
        return Stopping503;
      }
      if active < limits.maxConcurrent {
        active := active + 1;
        holders, log := holders + {id}, log + [(id, true)];
        return Granted;
      }
      if |queue| >= limits.maxQueued {
        log := log + [(id, false)];
        return Capacity429;
      }
      queue := queue + [id];
      enqueued := enqueued + [id];
      return Queued;
    }

    method RemoveQueuedWaiter(id: Id)
      modifies this
      ensures Model() == Drop(old(Model()), id)
    {
      var index := 0;
      while index < |queue| && queue[index] != id
        invariant 0 <= index <= |queue|
        invariant id !in queue[..index]
      {
        index := index + 1;
      }
      WithoutFirst(queue, id, index);
      if index == |queue| { return; }
      queue := queue[..index] + queue[index + 1..];
      log := log + [(id, false)];
    }

    method NotifyWhenIdle()
      modifies this
      ensures Model() == NotifyIfIdle(old(Model()))
    {
      if active != 0 { return; }
      woken := woken + idleWaiters;
      idleWaiters := [];
    }

    method PumpQueue()
      modifies this
      ensures Model() == Pump(limits, old(Model()))
    {
      while !stopping && active < limits.maxConcurrent && |queue| > 0
        invariant Pump(limits, Model()) == Pump(limits, old(Model()))
        decreases |queue|
      {
        var waiter := queue[0];
        queue := queue[1..];
        if waiter in dead {
          log := log + [(waiter, false)];
          continue;
        }
        active := active + 1;
        holders, log := holders + {waiter}, log + [(waiter, true)];
      }
      NotifyWhenIdle();
    }

    method Release(id: Id)
      modifies this
      ensures Model() == Finish(limits, old(Model()), id)
    {
      active := active - 1;
      holders := holders - {id};
      PumpQueue();
    }

    method ShutDown(waiter: Id)
      modifies this
      ensures Model() == Shutdown(old(Model()), waiter)
    {
      if stopping { return; }
      stopping := true;
      var drained := queue;
      queue := [];
      ghost var target := SettleAll(Model(), drained);
      var i := 0;
      while i < |drained|
        invariant 0 <= i <= |drained|
        invariant SettleAll(Model(), drained[i..]) == target
        invariant active == old(active)
      {
        assert drained[i..][1..] == drained[i + 1..];
        log := log + [(drained[i], false)];
        i := i + 1;
      }
      if active == 0 {
        woken := woken + [waiter];
      } else {
        idleWaiters := idleWaiters + [waiter];
      }
    }

    /** The environment: a socket goes away. */
    method MarkDead(id: Id)
      modifies this
      ensures Model() == old(Model()).(dead := old(dead) + {id})
    {
      dead := dead + {id};
    }
  }

  // ---------------------------------------------------------------------------------------
  // Runs
  // ---------------------------------------------------------------------------------------

  datatype Event =
    | Arrives(id: Id)
    | Dies(id: Id)
    | Dropped(id: Id)
    | Finishes(id: Id)
    | ShutsDown(waiter: Id)

  ghost predicate Settled(log: seq<(Id, bool)>, id: Id) { (id, true) in log || (id, false) in log }

  /** A request arrives once; only an admitted request that still holds its slot releases it. */
  ghost predicate Enabled(s: State, e: Event)
  {
    match e
    case Arrives(id) => !Settled(s.log, id) && id !in s.enqueued
    case Finishes(id) => id in s.holders
    case _ => true
  }

  ghost function Step(c: Limits, s: State, e: Event): State
  {
    if !Enabled(s, e) then s
    else match e
      case Arrives(id) => Arrive(c, s, id)
      case Dies(id) => s.(dead := s.dead + {id})
      case Dropped(id) => Drop(s, id)
      case Finishes(id) => Finish(c, s, id)
      case ShutsDown(waiter) => Shutdown(s, waiter)
  }

  ghost function Run(c: Limits, events: seq<Event>): State
  {
    if events == [] then INITIAL
    else Step(c, Run(c, events[..|events| - 1]), events[|events| - 1])
  }

  // ---------------------------------------------------------------------------------------
  // The invariant
  // ---------------------------------------------------------------------------------------

  ghost predicate NoRepeats(ids: seq<Id>) { forall i, j :: 0 <= i < j < |ids| ==> ids[i] != ids[j] }

  ghost predicate SettledOnce(log: seq<(Id, bool)>)
  {
    forall p, q :: 0 <= p < q < |log| ==> log[p].0 != log[q].0
  }

  /** The requests of `enqueued` that are not settled yet, in order. */
  ghost function Pending(enqueued: seq<Id>, log: seq<(Id, bool)>): seq<Id>
  {
    if enqueued == [] then []
    else
      (if Settled(log, enqueued[0]) then [] else [enqueued[0]])
      + Pending(enqueued[1..], log)
  }

  /** Position `q` of the log admits a queued request only after everything queued before it was settled. */
  ghost predicate InOrder(enqueued: seq<Id>, log: seq<(Id, bool)>, i: nat, j: nat, q: nat)
    requires i < j < |enqueued| && q < |log|
  {
    log[q] == (enqueued[j], true) ==> exists p :: 0 <= p < q && log[p].0 == enqueued[i]
  }

  ghost predicate Fifo(enqueued: seq<Id>, log: seq<(Id, bool)>)
  {
    forall i, j, q :: 0 <= i < j < |enqueued| && 0 <= q < |log| ==> InOrder(enqueued, log, i, j, q)
  }

  /** What holds even in the middle of `pump`. */
  ghost predicate Core(c: Limits, s: State)
  {
    && ValidLimits(c)
    && 0 <= s.active == |s.holders| <= c.maxConcurrent
    && |s.queue| <= c.maxQueued
    && (s.stopping ==> s.queue == [])
    && |s.idle| + |s.woken| == (if s.stopping then 1 else 0)
    && NoRepeats(s.enqueued)
    && SettledOnce(s.log)
    && s.queue == Pending(s.enqueued, s.log)
    && (forall id :: id in s.holders ==> (id, true) in s.log)
    && Fifo(s.enqueued, s.log)
  }

  ghost predicate Inv(c: Limits, s: State)
  {
    && Core(c, s)
    && (!s.stopping && s.queue != [] ==> s.active == c.maxConcurrent)
    && (s.idle != [] ==> s.active > 0)
  }

  // ---- facts about Pending ----

  lemma {:induction false} PendingMembers(enqueued: seq<Id>, log: seq<(Id, bool)>)
    ensures forall id :: id in Pending(enqueued, log) <==>
              id in enqueued && !Settled(log, id)
  {
    if enqueued != [] {
      var rest := Pending(enqueued[1..], log);
      PendingMembers(enqueued[1..], log);
      assert forall id :: id in enqueued <==> id == enqueued[0] || id in enqueued[1..];
    }
  }

  lemma {:induction false} WithoutAbsent(ids: seq<Id>, id: Id)
    requires id !in ids
    ensures Without(ids, id) == ids
  {
    if ids != [] { WithoutAbsent(ids[1..], id); }
  }

  lemma SettledGrows(log: seq<(Id, bool)>, id: Id, admitted: bool, other: Id)
    ensures Settled(log + [(id, admitted)], other) <==> Settled(log, other) || other == id
  {
    assert (log + [(id, admitted)])[|log|] == (id, admitted);
  }

  /** Settling one request takes it out of the pending ones and leaves the order of the others. */
  lemma {:induction false} PendingAfterSettling(enqueued: seq<Id>, log: seq<(Id, bool)>, id: Id, admitted: bool)
    requires NoRepeats(enqueued)
    ensures Pending(enqueued, log + [(id, admitted)]) == Without(Pending(enqueued, log), id)
  {
    if enqueued == [] { return; }
    var head, rest := enqueued[0], Pending(enqueued[1..], log);
    PendingAfterSettling(enqueued[1..], log, id, admitted);
    SettledGrows(log, id, admitted, head);
    if head == id {
      PendingMembers(enqueued[1..], log);
      assert id !in enqueued[1..];
      WithoutAbsent(rest, id);
    }
    assert ([head] + rest)[1..] == rest;
    assert Pending(enqueued, log) == if Settled(log, head) then rest else [head] + rest;
  }

  lemma {:induction false} PendingAppend(enqueued: seq<Id>, log: seq<(Id, bool)>, id: Id)
    requires !Settled(log, id)
    ensures Pending(enqueued + [id], log) == Pending(enqueued, log) + [id]
  {
    if enqueued == [] {
      assert [id][1..] == [];
    } else {
      assert (enqueued + [id])[1..] == enqueued[1..] + [id];
      PendingAppend(enqueued[1..], log, id);
    }
  }

  /** Everything queued before the first pending request is settled. */
  lemma {:induction false} BeforeFirstPending(enqueued: seq<Id>, log: seq<(Id, bool)>, i: nat, j: nat)
    requires NoRepeats(enqueued) && i < j < |enqueued|
    requires Pending(enqueued, log) != [] && Pending(enqueued, log)[0] == enqueued[j]
    ensures exists p :: 0 <= p < |log| && log[p].0 == enqueued[i]
  {
    var head := enqueued[0];
    if Settled(log, head) {
      if i == 0 {
        var b := (head, true) in log;
        assert (head, b) in log;
        var p :| 0 <= p < |log| && log[p] == (head, b);
        assert log[p].0 == enqueued[i];
      } else {
        assert enqueued[1..][i - 1] == enqueued[i] && enqueued[1..][j - 1] == enqueued[j];
        BeforeFirstPending(enqueued[1..], log, i - 1, j - 1);
      }
    }
  }

  // ---- preservation ----

  lemma LogGrows(s: State, id: Id, admitted: bool)
    requires SettledOnce(s.log) && !Settled(s.log, id)
    ensures SettledOnce(s.log + [(id, admitted)])
  {
    var log := s.log + [(id, admitted)];
    forall p, q | 0 <= p < q < |log| ensures log[p].0 != log[q].0 {
      assert s.log[p] in s.log;
      assert s.log[p] == (s.log[p].0, s.log[p].1);
      assert if s.log[p].1 then (s.log[p].0, true) in s.log else (s.log[p].0, false) in s.log;
    }
  }

  lemma FifoGrows(enqueued: seq<Id>, log: seq<(Id, bool)>, entry: (Id, bool))
    requires Fifo(enqueued, log) && NoRepeats(enqueued)
    requires entry.1 && entry.0 in enqueued ==>
               Pending(enqueued, log) != [] && Pending(enqueued, log)[0] == entry.0
    ensures Fifo(enqueued, log + [entry])
  {
    var log' := log + [entry];
    forall i, j, q | 0 <= i < j < |enqueued| && 0 <= q < |log'| ensures InOrder(enqueued, log', i, j, q) {
      if log'[q] == (enqueued[j], true) {
        if q < |log| {
          assert InOrder(enqueued, log, i, j, q);
          var p :| 0 <= p < q && log[p].0 == enqueued[i];
          assert log'[p].0 == enqueued[i];
        } else {
          BeforeFirstPending(enqueued, log, i, j);
          var p :| 0 <= p < |log| && log[p].0 == enqueued[i];
          assert log'[p].0 == enqueued[i];
        }
      }
    }
  }

  /** Refusing a request, queued or not. */
  lemma RefuseKeepsCore(c: Limits, s: State, id: Id)
    requires Core(c, s)
    requires !Settled(s.log, id)
    ensures Core(c, Settle(s.(queue := Without(s.queue, id)), id, false))
  {
    var log := s.log + [(id, false)];
    assert SettledOnce(log) by { LogGrows(s, id, false); }
    assert Fifo(s.enqueued, log) by { FifoGrows(s.enqueued, s.log, (id, false)); }
    PendingAfterSettling(s.enqueued, s.log, id, false);
    WithoutShorter(s.queue, id);
  }

  /** Admitting a request that never queued, or the head of the queue. */
  lemma AdmitKeepsCore(c: Limits, s: State, id: Id)
    requires Core(c, s) && s.active < c.maxConcurrent
    requires !Settled(s.log, id)
    requires id !in s.enqueued || (s.queue != [] && s.queue[0] == id)
    ensures Core(c, Admit(s.(queue := Without(s.queue, id)), id))
  {
    var log := s.log + [(id, true)];
    assert SettledOnce(log) by { LogGrows(s, id, true); }
    assert Fifo(s.enqueued, log) by { FifoGrows(s.enqueued, s.log, (id, true)); }
    PendingAfterSettling(s.enqueued, s.log, id, true);
    WithoutShorter(s.queue, id);
    assert id !in s.holders;
    assert log[|s.log|] == (id, true);
  }

  lemma {:induction false} WithoutShorter(ids: seq<Id>, id: Id)
    ensures |Without(ids, id)| <= |ids|
    ensures id in ids ==> |Without(ids, id)| == |ids| - 1
  {
    if ids != [] { WithoutShorter(ids[1..], id); }
  }

  lemma {:induction false} PumpRestores(c: Limits, s: State)
    requires Core(c, s)
    ensures Inv(c, Pump(c, s))
    decreases |s.queue|
  {
    if !(s.stopping || s.active >= c.maxConcurrent || s.queue == []) {
      var w, s' := s.queue[0], s.(queue := s.queue[1..]);
      PendingMembers(s.enqueued, s.log);
      assert w in s.queue;
      assert Without(s.queue, w) == s.queue[1..];
      if w in s.dead { RefuseKeepsCore(c, s, w); } else { AdmitKeepsCore(c, s, w); }
      PumpRestores(c, if w in s.dead then Settle(s', w, false) else Admit(s', w));
    }
  }

  lemma {:induction false} SettleAllKeeps(c: Limits, s: State, ids: seq<Id>)
    requires Core(c, s) && ids == s.queue
    ensures var s' := SettleAll(s.(queue := []), ids);
            Core(c, s') && s' == s.(queue := [], log := s'.log)
    decreases |ids|
  {
    if ids != [] {
      PendingMembers(s.enqueued, s.log);
      assert ids[0] in s.queue;
      RefuseKeepsCore(c, s, ids[0]);
      var s1 := Settle(s.(queue := ids[1..]), ids[0], false);
      SettleAllKeeps(c, s1, ids[1..]);
      assert s1.(queue := []) == Settle(s.(queue := []), ids[0], false);
    }
  }

  lemma SettleAllStops(s: State, ids: seq<Id>)
    ensures SettleAll(s.(stopping := true), ids) == SettleAll(s, ids).(stopping := true)
    decreases |ids|
  {
  }

  lemma ArriveKeepsInv(c: Limits, s: State, id: Id)
    requires Inv(c, s) && Enabled(s, Arrives(id))
    ensures Inv(c, Arrive(c, s, id))
  {
    PendingMembers(s.enqueued, s.log);
    WithoutAbsent(s.queue, id);
    if s.stopping || (s.active >= c.maxConcurrent && |s.queue| >= c.maxQueued) {
      RefuseKeepsCore(c, s, id);
    } else if s.active < c.maxConcurrent {
      AdmitKeepsCore(c, s, id);
    } else {
      PendingAppend(s.enqueued, s.log, id);
      var enqueued := s.enqueued + [id];
      forall i, j, q | 0 <= i < j < |enqueued| && 0 <= q < |s.log| ensures InOrder(enqueued, s.log, i, j, q) {
        assert s.log[q] in s.log;
        if j < |s.enqueued| { assert InOrder(s.enqueued, s.log, i, j, q); }
      }
    }
  }

  lemma DropKeepsInv(c: Limits, s: State, id: Id)
    requires Inv(c, s)
    ensures Inv(c, Drop(s, id))
  {
    if id in s.queue {
      PendingMembers(s.enqueued, s.log);
      RefuseKeepsCore(c, s, id);
      WithoutShorter(s.queue, id);
    }
  }

  lemma ShutdownKeepsInv(c: Limits, s: State, waiter: Id)
    requires Inv(c, s) && Enabled(s, ShutsDown(waiter))
    ensures Inv(c, Shutdown(s, waiter))
  {
    if !s.stopping {
      SettleAllKeeps(c, s, s.queue);
      SettleAllStops(s.(queue := []), s.queue);
      assert s.(stopping := true, queue := []) == s.(queue := []).(stopping := true);
    }
  }

  lemma StepKeepsInv(c: Limits, s: State, e: Event)
    requires Inv(c, s)
    ensures Inv(c, Step(c, s, e))
  {
    if !Enabled(s, e) { return; }
    match e
    case Arrives(id) => ArriveKeepsInv(c, s, id);
    case Dies(id) =>
    case Dropped(id) => DropKeepsInv(c, s, id);
    case Finishes(id) =>
      PumpRestores(c, s.(active := s.active - 1, holders := s.holders - {id}));
    case ShutsDown(waiter) => ShutdownKeepsInv(c, s, waiter);
  }

  // ---------------------------------------------------------------------------------------
  // What every run guarantees
  // ---------------------------------------------------------------------------------------

  lemma {:induction false} EveryRunKeepsInv(c: Limits, events: seq<Event>)
    requires ValidLimits(c)
    ensures Inv(c, Run(c, events))
  {
    if events != [] {
      EveryRunKeepsInv(c, events[..|events| - 1]);
      StepKeepsInv(c, Run(c, events[..|events| - 1]), events[|events| - 1]);
    }
  }

  /** A request that finds others waiting is never admitted at once: it waits behind them or is refused. */
  lemma NoOvertaking(c: Limits, events: seq<Event>, id: Id)
    requires ValidLimits(c)
    requires Run(c, events).queue != [] && Enabled(Run(c, events), Arrives(id))
    ensures var s, s' := Run(c, events), Run(c, events + [Arrives(id)]);
            && s'.active == s.active && s'.holders == s.holders
            && (s'.queue == s.queue + [id] || (s'.queue == s.queue && (id, false) in s'.log))
  {
    EveryRunKeepsInv(c, events);
    assert (events + [Arrives(id)])[..|events|] == events;
    var log := Run(c, events).log + [(id, false)];
    assert log[|log| - 1] == (id, false);
  }

  /** Queued requests are admitted in the order they arrived, each request is settled at most once,
      and a queued request is either still waiting or settled, never both. */
  lemma FirstInFirstOut(c: Limits, events: seq<Event>)
    requires ValidLimits(c)
    ensures var s := Run(c, events);
            && (forall p, q :: 0 <= p < q < |s.log| ==> s.log[p].0 != s.log[q].0)
            && (forall id :: id in s.enqueued ==> (id in s.queue <==> !Settled(s.log, id)))
            && (forall i, j, p, q | 0 <= i < j < |s.enqueued| && 0 <= p < |s.log| && 0 <= q < |s.log| ::
                  s.log[p] == (s.enqueued[i], true) && s.log[q] == (s.enqueued[j], true) ==> p < q)
  {
    EveryRunKeepsInv(c, events);
    var s := Run(c, events);
    PendingMembers(s.enqueued, s.log);
    forall i, j, p, q | 0 <= i < j < |s.enqueued| && 0 <= p < |s.log| && 0 <= q < |s.log|
        && s.log[p] == (s.enqueued[i], true) && s.log[q] == (s.enqueued[j], true)
      ensures p < q
    {
      assert InOrder(s.enqueued, s.log, i, j, q);
      var r :| 0 <= r < q && s.log[r].0 == s.enqueued[i];
      assert r == p;
    }
  }

  /** While the server runs, every release settles the head of the queue; if the head is alive it is
      admitted in the releasing request's place. */
  lemma ReleaseServesHead(c: Limits, events: seq<Event>, h: Id)
    requires ValidLimits(c)
    requires var s := Run(c, events); !s.stopping && s.queue != [] && h in s.holders
    ensures var s, s' := Run(c, events), Run(c, events + [Finishes(h)]);
            && (s.queue[0], s.queue[0] !in s.dead) in s'.log
            && (s.queue[0] !in s.dead ==> s'.active == s.active && s'.queue == s.queue[1..])
  {
    EveryRunKeepsInv(c, events);
    assert (events + [Finishes(h)])[..|events|] == events;
    FinishServesHead(c, Run(c, events), h);
  }

  lemma FinishServesHead(c: Limits, s: State, h: Id)
    requires Inv(c, s) && !s.stopping && s.queue != [] && h in s.holders
    ensures var s' := Finish(c, s, h);
            && (s.queue[0], s.queue[0] !in s.dead) in s'.log
            && (s.queue[0] !in s.dead ==> s'.active == s.active && s'.queue == s.queue[1..])
  {
    var s0 := s.(active := s.active - 1, holders := s.holders - {h});
    var w := s.queue[0];
    var s1 := s0.(queue := s.queue[1..]);
    var s2 := if w in s.dead then Settle(s1, w, false) else Admit(s1, w);
    assert s2.log[|s.log|] == (w, w !in s.dead);
    PumpOnlyAppends(c, s2);
    assert Pump(c, s0) == Pump(c, s2);
  }

  lemma {:induction false} PumpOnlyAppends(c: Limits, s: State)
    ensures s.log <= Pump(c, s).log
    ensures s.active >= c.maxConcurrent ==>
              Pump(c, s).active == s.active && Pump(c, s).queue == s.queue
    decreases |s.queue|
  {
    if !(s.stopping || s.active >= c.maxConcurrent || s.queue == []) {
      var w, s' := s.queue[0], s.(queue := s.queue[1..]);
      PumpOnlyAppends(c, if w in s.dead then Settle(s', w, false) else Admit(s', w));
    }
  }

  /** Once stopping, for ever: the queue is empty, nothing is admitted, `active` never grows. */
  lemma {:induction false} StopIsFinal(c: Limits, before: seq<Event>, after: seq<Event>)
    requires ValidLimits(c) && Run(c, before).stopping
    ensures var s, s' := Run(c, before), Run(c, before + after);
            && s'.stopping && s'.queue == []
            && s'.active <= s.active && s'.holders <= s.holders
    decreases |after|
  {
    EveryRunKeepsInv(c, before);
    if after == [] {
      assert before + after == before;
    } else {
      var init, last := after[..|after| - 1], after[|after| - 1];
      StopIsFinal(c, before, init);
      EveryRunKeepsInv(c, before + init);
      assert (before + after)[..|before + after| - 1] == before + init;
      assert (before + after)[|before + after| - 1] == last;
    }
  }

  /** The shutdown's idle waiter is registered once, waits only while a request is active, and is
      woken exactly when the last active request has released. */
  lemma ShutdownDrains(c: Limits, events: seq<Event>)
    requires ValidLimits(c) && Run(c, events).stopping
    ensures var s := Run(c, events);
            && (s.active == 0 <==> |s.woken| == 1)
            && (s.active > 0 <==> |s.idle| == 1)
            && (s.active == 0 <==> s.holders == {})
  {
    EveryRunKeepsInv(c, events);
    IdleWhileActive(c, events);
    var s := Run(c, events);
    if s.active == 0 {
      assert |s.holders| == 0;
    }
  }

  /** A waiter woken at shutdown stays the only one: nothing becomes active again. */
  lemma {:induction false} IdleWhileActive(c: Limits, events: seq<Event>)
    requires ValidLimits(c)
    ensures Run(c, events).woken != [] ==> Run(c, events).active == 0
  {
    if events != [] {
      var init, last := events[..|events| - 1], events[|events| - 1];
      IdleWhileActive(c, init);
      EveryRunKeepsInv(c, init);
      var s := Run(c, init);
      match last
      case Finishes(id) =>
        if Enabled(s, last) {
          PumpWakesIdle(c, s.(active := s.active - 1, holders := s.holders - {id}));
        }
      case ShutsDown(waiter) =>
        if !s.stopping {
          SettleAllKeeps(c, s, s.queue);
          SettleAllStops(s.(queue := []), s.queue);
          assert s.(stopping := true, queue := []) == s.(queue := []).(stopping := true);
        }
      case _ =>
    }
  }

  lemma {:induction false} PumpWakesIdle(c: Limits, s: State)
    requires s.woken == [] && (s.idle != [] ==> s.stopping)
    ensures Pump(c, s).woken != [] ==> Pump(c, s).active == 0
    decreases |s.queue|
  {
    if !(s.stopping || s.active >= c.maxConcurrent || s.queue == []) {
      var w, s' := s.queue[0], s.(queue := s.queue[1..]);
      PumpWakesIdle(c, if w in s.dead then Settle(s', w, false) else Admit(s', w));
    }
  }
}
