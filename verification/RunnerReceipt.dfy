/** The one-shot runner: metering events linked into a hash chain, and the receipt that summarises
    them.

    The digest is an arbitrary function of an event's body, the clock an arbitrary sequence of
    readings, and lease state, host events and callbacks are whatever the environment makes them. */
module RunnerReceipt {

  import opened Options

  const MAX_SAFE := 0x1F_FFFF_FFFF_FFFF
  const MAX_EVENTS := 1024
  const LEASE_SAFETY_MARGIN := 5_000
  const MAX_CLOCK_SKEW := 30_000
  /** `sha256:` and 64 zeros. */
  const GENESIS: string := "sha256:" + Zeros(64)

  function Zeros(n: nat): string { if n == 0 then [] else ['0'] + Zeros(n - 1) }

  // ---------------------------------------------------------------------------------------
  // Events
  // ---------------------------------------------------------------------------------------

  /** A usage figure as a host reports it. */
  datatype Figure = Absent | Number(n: int) | NotANumber

  datatype HostEvent =
    | RunStarted
    | Delta(characters: nat)
    | ToolStarted(tool: string)
    | ToolCompleted(tool: string, isError: bool)
    | ApprovalRequired(tool: string)
    | Usage(input: Figure, output: Figure, total: Figure)
    | RunCompleted
    | RunFailed(code: string, retryable: bool)

  /** What is retained of a host event; `kind` in `Body` is its type. */
  datatype Data =
    | Nothing
    | Characters(n: nat)
    | Tool(name: string)
    | ToolDone(isError: bool, name: string)
    | Tokens(input: int, output: int, total: int)
    | Failure(code: string, retryable: bool)

  datatype Kind = KStarted | KDelta | KToolStarted | KToolCompleted | KApproval | KUsage | KCompleted | KFailed

  datatype Body = Body(sequence: nat, timestamp: int, kind: Kind, data: Data, previous: string)

  datatype Event = Event(body: Body, digest: string)

  type Hash = Body -> string

  predicate IsNameStart(c: char) { 'a' <= c <= 'z' }

  predicate IsNameChar(c: char)
  {
    IsNameStart(c) || '0' <= c <= '9' || c == '.' || c == '_' || c == '-'
  }

  function ActionName(value: string): string
  {
    if 1 <= |value| <= 128 && IsNameStart(value[0]) && forall i :: 1 <= i < |value| ==> IsNameChar(value[i])
    then value else "unknown"
  }

  predicate Counts(f: Figure) { f.Absent? || (f.Number? && 0 <= f.n <= MAX_SAFE) }

  function Counted(f: Figure): int { if f.Number? then f.n else 0 }

  function KindOf(e: HostEvent): Kind
  {
    match e
    case RunStarted => KStarted
    case Delta(_) => KDelta
    case ToolStarted(_) => KToolStarted
    case ToolCompleted(_, _) => KToolCompleted
    case ApprovalRequired(_) => KApproval
    case Usage(_, _, _) => KUsage
    case RunCompleted => KCompleted
    case RunFailed(_, _) => KFailed
  }

  /** `normalizedEventData`; a malformed usage figure has none. */
  function Normalized(e: HostEvent): Option<Data>
  {
    match e
    case RunStarted => Some(Nothing)
    case RunCompleted => Some(Nothing)
    case Delta(characters) => Some(Characters(characters))
    case ToolStarted(tool) => Some(Tool(ActionName(tool)))
    case ToolCompleted(tool, isError) => Some(ToolDone(isError, ActionName(tool)))
    case ApprovalRequired(tool) => Some(Tool(ActionName(tool)))
    case Usage(input, output, total) =>
      if Counts(input) && Counts(output) && Counts(total)
      then Some(Tokens(Counted(input), Counted(output), Counted(total))) else None
    case RunFailed(code, retryable) => Some(Failure(ActionName(code), retryable))
  }

  // ---------------------------------------------------------------------------------------
  // The ledger
  // ---------------------------------------------------------------------------------------

  /** One reading of the clock source; `Broken` throws, is no date, or is not finite. */
  datatype Reading = At(milliseconds: int) | Broken

  /** How the lease is checked before an event: by the shared lease state, or on the runner's clock. */
  datatype LeaseCheck = Shared(active: bool) | OwnClock(reading: Reading)

  /** `actions` lists the map of action counts in insertion order. */
  datatype Ledger = Ledger(
    clock: Option<int>,
    events: seq<Event>,
    previousDigest: string,
    inputTokens: int,
    outputTokens: int,
    actions: seq<(string, int)>)

  const EMPTY := Ledger(None, [], GENESIS, 0, 0, [])

  predicate Accepts(clock: Option<int>, r: Reading)
  {
    r.At? && (clock.Some? ==> clock.value <= r.milliseconds)
  }

  function Lookup(actions: seq<(string, int)>, name: string): int
  {
    if actions == [] then 0
    else if actions[0].0 == name then actions[0].1
    else Lookup(actions[1..], name)
  }

  function SetCount(actions: seq<(string, int)>, name: string, count: int): seq<(string, int)>
  {
    if actions == [] then [(name, count)]
    else if actions[0].0 == name then [(name, count)] + actions[1..]
    else [actions[0]] + SetCount(actions[1..], name, count)
  }

  datatype Delivery = Delivery(event: HostEvent, lease: LeaseCheck, stamp: Reading, callbackFails: bool)

  /** The runner's own codes; `HostCode` is what an adapter reports. */
  datatype Code =
    | ClockInvalid
    | LeaseExpired
    | LeaseDeadlineReached
    | TaskNotYetValid
    | TaskExpired
    | EventLimitExceeded
    | StreamFailed
    | ExecutionFailed
    | HostCode(text: string)

  datatype Verdict = Appended | CallbackFailed | Rejected(code: Code)

  function AfterLeaseCheck(l: Ledger, lease: LeaseCheck): Ledger
  {
    if lease.OwnClock? && Accepts(l.clock, lease.reading) then l.(clock := Some(lease.reading.milliseconds)) else l
  }

  function LeaseProblem(l: Ledger, lease: LeaseCheck, leaseExpiresAt: int): Option<Code>
  {
    match lease
    case Shared(active) => if active then None else Some(LeaseExpired)
    case OwnClock(reading) =>
      if !Accepts(l.clock, reading) then Some(ClockInvalid)
      else if reading.milliseconds >= leaseExpiresAt - LEASE_SAFETY_MARGIN then Some(LeaseExpired)
      else None
  }

  /** `addChecked`, on sums of safe integers. */
  predicate AddFits(left: int, right: int) { 0 <= left + right <= MAX_SAFE }

  predicate TokensFit(l: Ledger, e: HostEvent)
  {
    e.Usage? ==>
      && Counts(e.input) && AddFits(l.inputTokens, Counted(e.input))
      && Counts(e.output) && AddFits(l.outputTokens, Counted(e.output))
  }

  predicate ActionFits(l: Ledger, e: HostEvent)
  {
    e.ToolCompleted? ==> AddFits(Lookup(l.actions, ActionName(e.tool)), 1)
  }

  function Grown(h: Hash, l: Ledger, e: HostEvent, at: int, data: Data): Ledger
  {
    var body := Body(|l.events| + 1, at, KindOf(e), data, l.previousDigest);
    var event := Event(body, h(body));
    Ledger(
      Some(at),
      l.events + [event],
      event.digest,
      if e.Usage? then l.inputTokens + Counted(e.input) else l.inputTokens,
      if e.Usage? then l.outputTokens + Counted(e.output) else l.outputTokens,
      if e.ToolCompleted? then SetCount(l.actions, ActionName(e.tool), Lookup(l.actions, ActionName(e.tool)) + 1)
      else l.actions)
  }

  /** `appendEvent`: the ledger afterwards, and what the host loop is told. */
  function Append(h: Hash, l: Ledger, d: Delivery, leaseExpiresAt: int): (Ledger, Verdict)
  {
    var l1 := AfterLeaseCheck(l, d.lease);
    var problem := LeaseProblem(l, d.lease, leaseExpiresAt);
    if problem.Some? then (l1, Rejected(problem.value))
    else if |l1.events| >= MAX_EVENTS || !TokensFit(l1, d.event) || !ActionFits(l1, d.event) then
      (l1, Rejected(EventLimitExceeded))
    else if !Accepts(l1.clock, d.stamp) then (l1, Rejected(ClockInvalid))
    else
      var at := d.stamp.milliseconds;
      match Normalized(d.event)
      case None => (l1.(clock := Some(at)), Rejected(EventLimitExceeded))
      case Some(data) =>
        (Grown(h, l1, d.event, at, data), if d.callbackFails then CallbackFailed else Appended)
  }

  // ---------------------------------------------------------------------------------------
  // What the chain says
  // ---------------------------------------------------------------------------------------

  function LastDigest(events: seq<Event>): string
  {
    if events == [] then GENESIS else events[|events| - 1].digest
  }

  /** Sequence numbers from one, genesis first, each link the digest of the event before. */
  ghost predicate Chain(h: Hash, events: seq<Event>)
  {
    forall k :: 0 <= k < |events| ==> Linked(h, events, k)
  }

  ghost predicate Linked(h: Hash, events: seq<Event>, k: nat)
    requires k < |events|
  {
    && events[k].body.sequence == k + 1
    && events[k].body.previous == LastDigest(events[..k])
    && events[k].digest == h(events[k].body)
  }

  function InputOf(e: Event): int { if e.body.data.Tokens? then e.body.data.input else 0 }

  function OutputOf(e: Event): int { if e.body.data.Tokens? then e.body.data.output else 0 }

  function SumInput(events: seq<Event>): int
  {
    if events == [] then 0 else SumInput(events[..|events| - 1]) + InputOf(events[|events| - 1])
  }

  function SumOutput(events: seq<Event>): int
  {
    if events == [] then 0 else SumOutput(events[..|events| - 1]) + OutputOf(events[|events| - 1])
  }

  predicate Completes(e: Event, name: string) { e.body.data.ToolDone? && e.body.data.name == name }

  function CompletedTools(events: seq<Event>, name: string): nat
  {
    if events == [] then 0
    else CompletedTools(events[..|events| - 1], name) + (if Completes(events[|events| - 1], name) then 1 else 0)
  }

  ghost predicate DistinctNames(actions: seq<(string, int)>)
  {
    forall i, j :: 0 <= i < j < |actions| ==> actions[i].0 != actions[j].0
  }

  ghost predicate TimesGrow(events: seq<Event>)
  {
    forall i, j :: 0 <= i < j < |events| ==> events[i].body.timestamp <= events[j].body.timestamp
  }

  ghost predicate LedgerInv(h: Hash, l: Ledger)
  {
    && Chain(h, l.events)
    && |l.events| <= MAX_EVENTS
    && l.previousDigest == LastDigest(l.events)
    && l.inputTokens == SumInput(l.events) && 0 <= l.inputTokens <= MAX_SAFE
    && l.outputTokens == SumOutput(l.events) && 0 <= l.outputTokens <= MAX_SAFE
    && CountsMatch(l.actions, l.events)
    && TimesGrow(l.events)
    && NotAfter(l.events, l.clock)
  }

  ghost predicate CountsMatch(actions: seq<(string, int)>, events: seq<Event>)
  {
    && DistinctNames(actions)
    && (forall i :: 0 <= i < |actions| ==> actions[i].1 > 0)
    && (forall name :: Lookup(actions, name) == CompletedTools(events, name))
  }

  ghost predicate NotAfter(events: seq<Event>, clock: Option<int>)
  {
    forall k :: 0 <= k < |events| ==> clock.Some? && events[k].body.timestamp <= clock.value
  }

  // ---- the map of counts ----

  lemma {:induction false} SetThenLookup(actions: seq<(string, int)>, name: string, count: int, other: string)
    ensures Lookup(SetCount(actions, name, count), other) == if other == name then count else Lookup(actions, other)
  {
    if actions != [] && actions[0].0 != name {
      SetThenLookup(actions[1..], name, count, other);
      assert SetCount(actions, name, count)[1..] == SetCount(actions[1..], name, count);
    }
  }

  lemma {:induction false} SetAvoids(actions: seq<(string, int)>, name: string, count: int, other: string)
    requires name != other && forall i :: 0 <= i < |actions| ==> actions[i].0 != other
    ensures forall i :: 0 <= i < |SetCount(actions, name, count)| ==> SetCount(actions, name, count)[i].0 != other
  {
    if actions != [] && actions[0].0 != name { SetAvoids(actions[1..], name, count, other); }
  }

  lemma {:induction false} SetKeepsDistinct(actions: seq<(string, int)>, name: string, count: int)
    requires DistinctNames(actions) && count > 0
    requires forall i :: 0 <= i < |actions| ==> actions[i].1 > 0
    ensures DistinctNames(SetCount(actions, name, count))
    ensures forall i :: 0 <= i < |SetCount(actions, name, count)| ==> SetCount(actions, name, count)[i].1 > 0
  {
    if actions != [] && actions[0].0 != name {
      SetKeepsDistinct(actions[1..], name, count);
      SetAvoids(actions[1..], name, count, actions[0].0);
    }
  }

  // ---- one event ----

  lemma ChainGrows(h: Hash, events: seq<Event>, event: Event)
    requires Chain(h, events)
    requires event.body.sequence == |events| + 1 && event.body.previous == LastDigest(events)
    requires event.digest == h(event.body)
    ensures Chain(h, events + [event])
  {
    var grown := events + [event];
    forall k | 0 <= k < |grown| ensures Linked(h, grown, k) {
      assert grown[..k] == events[..k];
      if k < |events| { assert Linked(h, events, k); } else { assert events[..k] == events; }
    }
  }

  lemma TotalsGrow(events: seq<Event>, event: Event, name: string)
    ensures SumInput(events + [event]) == SumInput(events) + InputOf(event)
    ensures SumOutput(events + [event]) == SumOutput(events) + OutputOf(event)
    ensures CompletedTools(events + [event], name)
         == CompletedTools(events, name) + (if Completes(event, name) then 1 else 0)
  {
    assert (events + [event])[..|events|] == events;
  }

  lemma CountsGrow(actions: seq<(string, int)>, events: seq<Event>, event: Event)
    requires CountsMatch(actions, events) && !event.body.data.ToolDone?
    ensures CountsMatch(actions, events + [event])
  {
    forall name
      ensures Lookup(actions, name) == CompletedTools(events + [event], name)
    {
      TotalsGrow(events, event, name);
    }
  }

  lemma CountGrows(actions: seq<(string, int)>, events: seq<Event>, event: Event, name: string)
    requires CountsMatch(actions, events) && event.body.data.ToolDone? && event.body.data.name == name
    ensures CountsMatch(SetCount(actions, name, Lookup(actions, name) + 1), events + [event])
  {
    var count := Lookup(actions, name) + 1;
    SetKeepsDistinct(actions, name, count);
    forall other
      ensures Lookup(SetCount(actions, name, count), other) == CompletedTools(events + [event], other)
    {
      SetThenLookup(actions, name, count, other);
      TotalsGrow(events, event, other);
    }
  }

  lemma TimesGrowBy(events: seq<Event>, event: Event, clock: Option<int>)
    requires TimesGrow(events) && NotAfter(events, clock)
    requires clock.Some? ==> clock.value <= event.body.timestamp
    ensures TimesGrow(events + [event]) && NotAfter(events + [event], Some(event.body.timestamp))
  {
  }

  lemma GrownKeepsInv(h: Hash, l: Ledger, e: HostEvent, at: int, data: Data)
    requires LedgerInv(h, l) && |l.events| < MAX_EVENTS && TokensFit(l, e) && Normalized(e) == Some(data)
    requires l.clock.Some? ==> l.clock.value <= at
    ensures LedgerInv(h, Grown(h, l, e, at, data))
  {
    ChainOfGrown(h, l, e, at, data);
    CountsOfGrown(h, l, e, at, data);
    TokensGrow(h, l, e, at, data);
    TimesOfGrown(h, l, e, at, data);
  }

  lemma ChainOfGrown(h: Hash, l: Ledger, e: HostEvent, at: int, data: Data)
    requires Chain(h, l.events) && l.previousDigest == LastDigest(l.events)
    ensures var l' := Grown(h, l, e, at, data); Chain(h, l'.events) && l'.previousDigest == LastDigest(l'.events)
  {
    var l' := Grown(h, l, e, at, data);
    ChainGrows(h, l.events, l'.events[|l.events|]);
  }

  lemma CountsOfGrown(h: Hash, l: Ledger, e: HostEvent, at: int, data: Data)
    requires CountsMatch(l.actions, l.events) && Normalized(e) == Some(data)
    ensures var l' := Grown(h, l, e, at, data); CountsMatch(l'.actions, l'.events)
  {
    var event := Grown(h, l, e, at, data).events[|l.events|];
    if e.ToolCompleted? {
      CountGrows(l.actions, l.events, event, ActionName(e.tool));
    } else {
      CountsGrow(l.actions, l.events, event);
    }
  }

  lemma TimesOfGrown(h: Hash, l: Ledger, e: HostEvent, at: int, data: Data)
    requires TimesGrow(l.events) && NotAfter(l.events, l.clock) && (l.clock.Some? ==> l.clock.value <= at)
    ensures var l' := Grown(h, l, e, at, data); TimesGrow(l'.events) && NotAfter(l'.events, l'.clock)
  {
    TimesGrowBy(l.events, Grown(h, l, e, at, data).events[|l.events|], l.clock);
  }

  lemma TokensGrow(h: Hash, l: Ledger, e: HostEvent, at: int, data: Data)
    requires l.inputTokens == SumInput(l.events) && 0 <= l.inputTokens <= MAX_SAFE
    requires l.outputTokens == SumOutput(l.events) && 0 <= l.outputTokens <= MAX_SAFE
    requires TokensFit(l, e) && Normalized(e) == Some(data)
    ensures var l' := Grown(h, l, e, at, data);
      && l'.inputTokens == SumInput(l'.events) && 0 <= l'.inputTokens <= MAX_SAFE
      && l'.outputTokens == SumOutput(l'.events) && 0 <= l'.outputTokens <= MAX_SAFE
  {
    var l' := Grown(h, l, e, at, data);
    TotalsGrow(l.events, l'.events[|l.events|], "");
  }

  /** A delivery that is rejected changes nothing but the clock; any other adds one event with the
      normalised data, even if the caller's callback fails afterwards. */
  lemma AppendAddsOneOrNothing(h: Hash, l: Ledger, d: Delivery, leaseExpiresAt: int)
    ensures var (l', verdict) := Append(h, l, d, leaseExpiresAt);
            if verdict.Rejected? then l' == l.(clock := l'.clock)
            else
              && |l'.events| == |l.events| + 1 && l.events <= l'.events
              && l'.clock == Some(l'.events[|l.events|].body.timestamp)
              && l'.events[|l.events|].body.kind == KindOf(d.event)
              && Normalized(d.event) == Some(l'.events[|l.events|].body.data)
  {
  }

  lemma AppendMovesClock(h: Hash, l: Ledger, d: Delivery, leaseExpiresAt: int)
    ensures var l' := Append(h, l, d, leaseExpiresAt).0;
            l.clock.Some? ==> l'.clock.Some? && l.clock.value <= l'.clock.value
  {
  }

  /** Every delivery keeps the chain and its totals. */
  lemma AppendKeepsInv(h: Hash, l: Ledger, d: Delivery, leaseExpiresAt: int)
    requires LedgerInv(h, l)
    ensures LedgerInv(h, Append(h, l, d, leaseExpiresAt).0)
  {
    var l1 := AfterLeaseCheck(l, d.lease);
    assert NotAfter(l1.events, l1.clock);
    assert LedgerInv(h, l1);
    var (l', verdict) := Append(h, l, d, leaseExpiresAt);
    if verdict.Rejected? {
      assert Accepts(l1.clock, d.stamp) ==> NotAfter(l1.events, Some(d.stamp.milliseconds));
    } else {
      GrownKeepsInv(h, l1, d.event, d.stamp.milliseconds, Normalized(d.event).value);
    }
  }

  /** A ledger in order whose clock and events are not before `from`. */
  ghost predicate Since(h: Hash, l: Ledger, from: int)
  {
    && LedgerInv(h, l) && l.clock.Some? && l.clock.value >= from
    && forall k :: 0 <= k < |l.events| ==> from <= l.events[k].body.timestamp
  }

  lemma AppendStaysSince(h: Hash, l: Ledger, d: Delivery, leaseExpiresAt: int, from: int)
    requires Since(h, l, from)
    ensures var (l', verdict) := Append(h, l, d, leaseExpiresAt);
      Since(h, l', from) && |l'.events| == |l.events| + if verdict.Rejected? then 0 else 1
  {
    AppendKeepsInv(h, l, d, leaseExpiresAt);
    AppendAddsOneOrNothing(h, l, d, leaseExpiresAt);
    AppendMovesClock(h, l, d, leaseExpiresAt);
    var l' := Append(h, l, d, leaseExpiresAt).0;
    if |l'.events| > |l.events| { assert l'.events == l.events + [l'.events[|l.events|]]; }
  }

  // ---------------------------------------------------------------------------------------
  // The final digest determines the whole chain
  // ---------------------------------------------------------------------------------------

  ghost predicate CollisionFree(h: Hash)
  {
    && (forall a, b :: h(a) == h(b) ==> a == b)
    && (forall a :: h(a) != GENESIS)
  }

  /** A chain without its last event is a chain, and the last event is linked to it. */
  lemma ChainShortens(h: Hash, events: seq<Event>)
    requires Chain(h, events) && events != []
    ensures var before, last := events[..|events| - 1], events[|events| - 1];
      Chain(h, before) && last.body.previous == LastDigest(before) && last.digest == h(last.body)
  {
    var before := events[..|events| - 1];
    assert Linked(h, events, |events| - 1);
    forall k | 0 <= k < |before|
      ensures Linked(h, before, k)
    {
      assert Linked(h, events, k) && events[..k] == before[..k];
    }
  }

  /** If digests do not collide, two chains with the same final digest are the same chain: no event
      of a receipted run can be altered, dropped, reordered or added. */
  lemma {:induction false} FinalDigestFixesChain(h: Hash, xs: seq<Event>, ys: seq<Event>)
    requires CollisionFree(h) && Chain(h, xs) && Chain(h, ys)
    requires LastDigest(xs) == LastDigest(ys)
    ensures xs == ys
  {
    if xs != [] { ChainShortens(h, xs); }
    if ys != [] { ChainShortens(h, ys); }
    if xs != [] && ys != [] {
      var x, y := xs[|xs| - 1], ys[|ys| - 1];
      SameBody(h, x, y);
      FinalDigestFixesChain(h, xs[..|xs| - 1], ys[..|ys| - 1]);
      assert xs == xs[..|xs| - 1] + [x] && ys == ys[..|ys| - 1] + [y];
    }
  }

  lemma SameBody(h: Hash, x: Event, y: Event)
    requires CollisionFree(h) && x.digest == h(x.body) && y.digest == h(y.body) && x.digest == y.digest
    ensures x == y
  {
  }

  // ---------------------------------------------------------------------------------------
  // Action counts of the receipt
  // ---------------------------------------------------------------------------------------

  predicate Below(a: string, b: string)
  {
    b != [] && (a == [] || a[0] < b[0] || (a[0] == b[0] && Below(a[1..], b[1..])))
  }

  lemma {:induction false} BelowTotal(a: string, b: string)
    ensures Below(a, b) || Below(b, a) || a == b
  {
    if a != [] && b != [] {
      BelowTotal(a[1..], b[1..]);
      assert a == [a[0]] + a[1..] && b == [b[0]] + b[1..];
    }
  }

  lemma {:induction false} BelowTransitive(a: string, b: string, c: string)
    requires Below(a, b) && Below(b, c)
    ensures Below(a, c)
  {
    if a != [] && b[0] == a[0] && c[0] == b[0] {
      BelowTransitive(a[1..], b[1..], c[1..]);
    }
  }

  function Insert(e: (string, int), sorted: seq<(string, int)>): seq<(string, int)>
  {
    if sorted == [] || Below(e.0, sorted[0].0) then [e] + sorted
    else [sorted[0]] + Insert(e, sorted[1..])
  }

  /** `[...actions].sort(byName)` */
  function SortByName(actions: seq<(string, int)>): seq<(string, int)>
  {
    if actions == [] then [] else Insert(actions[0], SortByName(actions[1..]))
  }

  ghost predicate StrictlySorted(actions: seq<(string, int)>)
  {
    forall i, j :: 0 <= i < j < |actions| ==> Below(actions[i].0, actions[j].0)
  }

  lemma {:induction false} InsertSorted(e: (string, int), sorted: seq<(string, int)>)
    requires StrictlySorted(sorted)
    requires forall i :: 0 <= i < |sorted| ==> sorted[i].0 != e.0
    ensures StrictlySorted(Insert(e, sorted))
    ensures multiset(Insert(e, sorted)) == multiset(sorted) + multiset{e}
  {
    if sorted == [] { return; }
    assert sorted == [sorted[0]] + sorted[1..];
    if Below(e.0, sorted[0].0) {
      forall j | 1 <= j < |sorted| ensures Below(e.0, sorted[j].0) {
        BelowTransitive(e.0, sorted[0].0, sorted[j].0);
      }
    } else {
      BelowTotal(e.0, sorted[0].0);
      InsertSorted(e, sorted[1..]);
      AllBelow(sorted[0].0, e, sorted[1..]);
    }
  }

  lemma AllBelow(name: string, e: (string, int), sorted: seq<(string, int)>)
    requires Below(name, e.0) && forall i :: 0 <= i < |sorted| ==> Below(name, sorted[i].0)
    ensures forall k :: 0 <= k < |Insert(e, sorted)| ==> Below(name, Insert(e, sorted)[k].0)
  {
    if sorted != [] && !Below(e.0, sorted[0].0) { AllBelow(name, e, sorted[1..]); }
  }

  lemma {:induction false} SortSorts(actions: seq<(string, int)>)
    requires DistinctNames(actions)
    ensures StrictlySorted(SortByName(actions))
    ensures multiset(SortByName(actions)) == multiset(actions)
  {
    if actions == [] { return; }
    assert actions == [actions[0]] + actions[1..];
    SortSorts(actions[1..]);
    var rest := SortByName(actions[1..]);
    forall i | 0 <= i < |rest| ensures rest[i].0 != actions[0].0 {
      assert rest[i] in multiset(rest);
      assert rest[i] in actions[1..];
    }
    InsertSorted(actions[0], rest);
  }

  lemma {:induction false} LookupListed(actions: seq<(string, int)>, e: (string, int))
    requires DistinctNames(actions) && (forall i :: 0 <= i < |actions| ==> actions[i].1 > 0)
    ensures e in actions <==> e.1 > 0 && Lookup(actions, e.0) == e.1
  {
    if actions != [] {
      LookupListed(actions[1..], e);
      assert e in actions <==> e == actions[0] || e in actions[1..];
    }
  }

  /** The receipt's action list: strictly sorted by name, and listing exactly the names that were
      completed, each with the number of its completions. */
  ghost predicate ActionSummary(actions: seq<(string, int)>, events: seq<Event>)
  {
    && StrictlySorted(actions)
    && forall name, count: int :: (name, count) in actions <==> count > 0 && CompletedTools(events, name) == count
  }

  lemma SummaryOfLedger(h: Hash, l: Ledger)
    requires LedgerInv(h, l)
    ensures ActionSummary(SortByName(l.actions), l.events)
  {
    SortSorts(l.actions);
    var sorted := SortByName(l.actions);
    forall name, count: int
      ensures (name, count) in sorted <==> count > 0 && CompletedTools(l.events, name) == count
    {
      LookupListed(l.actions, (name, count));
      assert (name, count) in sorted <==> (name, count) in multiset(sorted);
    }
  }

  // ---------------------------------------------------------------------------------------
  // One execution
  // ---------------------------------------------------------------------------------------

  datatype Outcome = OutputReady | FailedWith(code: Code) | CancelledByRunner(reason: Code)

  /** How the package and input checks before the run end. */
  datatype Prepared = Ready | Unusable(code: Code)

  /** Everything the environment decides during one execution: clock readings, lease state, host
      events in order, the host's verdict, aborts.  `leaseShared` says a lease state was supplied. */
  datatype Environment = Environment(
    issuedAt: int,
    expiresAt: int,
    leaseExpiresAt: int,
    leaseShared: bool,
    accepted: Reading,
    leaseActive: bool,
    claimed: Reading,
    prepared: Prepared,
    runStart: Reading,
    currentLeaseExpiry: int,
    deliveries: seq<Delivery>,
    hostResult: Outcome,
    abortedDuringRun: bool,
    completed: Reading,
    finalLeaseExpiry: int,
    abortedAtEnd: bool)

  datatype Receipt = Receipt(
    startedAt: int,
    completedAt: int,
    eventCount: nat,
    finalEventDigest: string,
    inputTokens: int,
    outputTokens: int,
    duration: int,
    actions: seq<(string, int)>,
    outcome: Outcome)

  datatype Execution = Rejection(code: Code) | Receipted(receipt: Receipt)

  class Runner {
    const hash: Hash
    var clock: Option<int>
    var events: seq<Event>
    var previousDigest: string
    var inputTokens: int
    var outputTokens: int
    var actions: seq<(string, int)>

    ghost function Model(): Ledger
      reads this
    {
      Ledger(clock, events, previousDigest, inputTokens, outputTokens, actions)
    }

    constructor (hash: Hash)
      ensures this.hash == hash && Model() == EMPTY
    {
      this.hash := hash;
      clock, events, previousDigest, inputTokens, outputTokens, actions := None, [], GENESIS, 0, 0, [];
    }

    /** `monotonicClock`: a reading below an earlier one is refused. */
    method Now(reading: Reading) returns (now: Option<int>)
      modifies this`clock
      ensures if Accepts(old(clock), reading) then now == clock == Some(reading.milliseconds)
              else now == None && clock == old(clock)
    {
      if reading.Broken? || (clock.Some? && reading.milliseconds < clock.value) {
        return None;
      }
      clock := Some(reading.milliseconds);
      return clock;
    }

    method AppendEvent(d: Delivery, leaseExpiresAt: int) returns (verdict: Verdict)
      modifies this
      ensures (Model(), verdict) == Append(hash, old(Model()), d, leaseExpiresAt)
    {
      match d.lease {
        case Shared(active) =>
          if !active { return Rejected(LeaseExpired); }
        case OwnClock(reading) =>
          var now := Now(reading);
          if now.None? { return Rejected(ClockInvalid); }
          if now.value >= leaseExpiresAt - LEASE_SAFETY_MARGIN { return Rejected(LeaseExpired); }
      }
      if |events| >= MAX_EVENTS { return Rejected(EventLimitExceeded); }
      var nextInput, nextOutput := inputTokens, outputTokens;
      if d.event.Usage? {
        if !Counts(d.event.input) || !AddFits(inputTokens, Counted(d.event.input)) {
          return Rejected(EventLimitExceeded);
        }
        nextInput := inputTokens + Counted(d.event.input);
        if !Counts(d.event.output) || !AddFits(outputTokens, Counted(d.event.output)) {
          return Rejected(EventLimitExceeded);
        }
        nextOutput := outputTokens + Counted(d.event.output);
      }
      var nextActions := actions;
      if d.event.ToolCompleted? {
        var name := ActionName(d.event.tool);
        if !AddFits(Lookup(actions, name), 1) { return Rejected(EventLimitExceeded); }
        nextActions := SetCount(actions, name, Lookup(actions, name) + 1);
      }
      var now := Now(d.stamp);
      if now.None? { return Rejected(ClockInvalid); }
      var data := Normalized(d.event);
      if data.None? { return Rejected(EventLimitExceeded); }
      var body := Body(|events| + 1, now.value, KindOf(d.event), data.value, previousDigest);
      var event := Event(body, hash(body));
      events := events + [event];
      previousDigest := event.digest;
      inputTokens, outputTokens := nextInput, nextOutput;
      actions := nextActions;
      return if d.callbackFails then CallbackFailed else Appended;
    }

    /** The run itself: events are delivered until one is refused. */
    method Deliver(e: Environment, ghost from: int) returns (outcome: Outcome)
      requires LedgerInv(hash, Model()) && events == [] && clock.Some? && clock.value >= from
      modifies this
      ensures LedgerInv(hash, Model()) && clock.Some? && clock.value >= from
      ensures forall k :: 0 <= k < |events| ==> from <= events[k].body.timestamp
      ensures outcome.OutputReady? ==> |events| == |e.deliveries| && !e.abortedDuringRun
    {
      var i := 0;
      while i < |e.deliveries|
        invariant 0 <= i <= |e.deliveries|
        invariant Since(hash, Model(), from) && |events| == i
      {
        AppendStaysSince(hash, Model(), e.deliveries[i], e.leaseExpiresAt, from);
        var verdict := AppendEvent(e.deliveries[i], e.leaseExpiresAt);
        if !verdict.Appended? {
          return FailedWith(StreamFailed);
        }
        i := i + 1;
      }
      return if e.abortedDuringRun then CancelledByRunner(LeaseDeadlineReached) else e.hostResult;
    }

    method Execute(e: Environment) returns (x: Execution)
      requires Model() == EMPTY
      modifies this
      ensures LedgerInv(hash, Model())
      ensures x.Receipted? ==> Honest(hash, events, e, x.receipt)
    {
      var accepted := Now(e.accepted);
      if accepted.None? { return Rejection(ClockInvalid); }
      if e.issuedAt > accepted.value + MAX_CLOCK_SKEW { return Rejection(TaskNotYetValid); }
      if accepted.value >= e.expiresAt { return Rejection(TaskExpired); }
      if (if e.leaseShared then !e.leaseActive else accepted.value >= e.leaseExpiresAt - LEASE_SAFETY_MARGIN) {
        return Rejection(LeaseExpired);
      }
      var claimed := Now(e.claimed);
      if claimed.None? { return Rejection(ClockInvalid); }
      var startedAt := claimed.value;
      var outcome := FailedWith(ExecutionFailed);
      if e.prepared.Unusable? {
        outcome := FailedWith(e.prepared.code);
      } else {
        var start := Now(e.runStart);
        if start.None? {
          outcome := FailedWith(ClockInvalid);
        } else {
          startedAt := start.value;
          var leaseEnd := (if e.leaseShared then e.currentLeaseExpiry else e.leaseExpiresAt) - LEASE_SAFETY_MARGIN;
          var deadline := if e.expiresAt < leaseEnd then e.expiresAt else leaseEnd;
          if startedAt >= deadline {
            outcome := CancelledByRunner(LeaseExpired);
          } else {
            outcome := Deliver(e, startedAt);
          }
        }
      }
      x := Settle(e, startedAt, outcome);
    }

    /** Reads the clock once more and builds the receipt. */
    method Settle(e: Environment, startedAt: int, reported: Outcome) returns (x: Execution)
      requires LedgerInv(hash, Model()) && clock.Some? && startedAt <= clock.value
      requires forall k :: 0 <= k < |events| ==> startedAt <= events[k].body.timestamp
      requires reported.OutputReady? ==> |events| == |e.deliveries| && !e.abortedDuringRun
      modifies this`clock
      ensures LedgerInv(hash, Model())
      ensures x.Receipted? ==> Honest(hash, events, e, x.receipt)
    {
      var outcome := reported;
      assert forall now: int :: clock.value <= now ==> NotAfter(events, Some(now));
      SummaryOfLedger(hash, Model());
      var completed := Now(e.completed);
      if completed.None? { return Rejection(ClockInvalid); }
      var completedAt := completed.value;
      if completedAt >= e.expiresAt { return Rejection(TaskExpired); }
      if completedAt >= LeaseEnd(e) { return Rejection(LeaseExpired); }
      if (e.leaseShared && e.abortedAtEnd) || completedAt >= LeaseEnd(e) - LEASE_SAFETY_MARGIN {
        outcome := CancelledByRunner(LeaseDeadlineReached);
      }
      return Receipted(Receipt(
        startedAt, completedAt, |events|, previousDigest, inputTokens, outputTokens,
        if completedAt - startedAt < 0 then 0 else completedAt - startedAt,
        SortByName(actions), outcome));
    }
  }

  function LeaseEnd(e: Environment): int
  {
    if e.leaseShared then e.finalLeaseExpiry else e.leaseExpiresAt
  }

  /** What every receipt says of the events it covers and of the clock. */
  ghost predicate Honest(h: Hash, events: seq<Event>, e: Environment, r: Receipt)
  {
    && Chain(h, events)
    && r.eventCount == |events| && r.finalEventDigest == LastDigest(events)
    && r.inputTokens == SumInput(events) && r.outputTokens == SumOutput(events)
    && ActionSummary(r.actions, events)
    && r.startedAt <= r.completedAt && r.duration == r.completedAt - r.startedAt
    && (forall k :: 0 <= k < |events| ==> r.startedAt <= events[k].body.timestamp <= r.completedAt)
    && TimesGrow(events)
    && r.completedAt < e.expiresAt && r.completedAt < LeaseEnd(e)
    && (r.outcome.OutputReady? ==>
          && r.completedAt < LeaseEnd(e) - LEASE_SAFETY_MARGIN
          && !(e.leaseShared && e.abortedAtEnd) && !e.abortedDuringRun
          && |events| == |e.deliveries|)
  }
}
