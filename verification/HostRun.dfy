/** The host event loop: it turns whatever event stream a host produces into at most one trusted result.

    The host, the publication handler, the digests, the schema compiler and the abort signal are answers the
    method is handed.  The stream is what the host produced so far: a run that has read it all without an end
    is still running. */
module HostRun {

  import opened Options

  // ---------------------------------------------------------------------------------------
  // What a host may say
  // ---------------------------------------------------------------------------------------

  /** Fields that are not of the expected type are `None`. */
  datatype HostError = HostError(code: Option<string>, messageLength: Option<nat>, retryable: Option<bool>)

  datatype Kind =
    | Ordinary(name: string)
    | RunCompleted(output: Option<string>)
    | RunFailed(error: Option<HostError>)

  datatype Timestamp = Timestamp(isString: bool, parses: bool)

  datatype Event = Event(runId: string, timestamp: Timestamp, kind: Kind)

  /** How an operation settles when it races the abort signal. */
  datatype Answer = Resolved | Rejected | Aborted

  /** One turn of the race between the iterator and the abort signal; `answer` is how the handler takes the
      event, should it be published.  `NoObject` is a value whose fields cannot be read. */
  datatype Item = Next(event: Event, answer: Answer) | NoObject | StreamError | Done | Abort

  datatype Preflight = Throws | Settled(answer: Answer, valid: bool)

  datatype Setup = Setup(
    firstDigest: bool,
    inputSchemaCompiles: bool,
    inputAccepted: bool,
    registered: bool,
    runnable: Option<bool>,
    created: bool,
    inputIsJson: bool,
    aborted: bool,
    preflight: Preflight,
    compatible: bool,
    secondDigest: bool)

  datatype Check = Accepted | Mismatch | CannotCheck

  datatype Finish = Finish(digest: bool, schema: string -> Check, answer: Answer)

  /** The codes of this component, and what a host reports in its own `run.failed`: a reader of the printed
      code alone cannot tell a reported one from an equal one of ours. */
  datatype Code =
    | DigestMismatch
    | InputSchemaInvalid
    | InputSchemaMismatch
    | NotRegistered
    | ResolutionFailed
    | NotRunnable
    | InputNotJson
    | HostCancelled
    | PreflightFailed
    | PreflightInvalid
    | Incompatible
    | StreamFailed
    | ContractViolated
    | HandlerFailed
    | OutputSchemaMismatch
    | OutputSchemaInvalid
    | Reported(code: string)

  datatype Result = Completed(output: string) | Failed(code: Code, retryable: bool)

  datatype Effect = Digest(ok: bool) | Published(event: Event) | Cancelled | Returned | Disposed

  // ---------------------------------------------------------------------------------------
  // Terminal events
  // ---------------------------------------------------------------------------------------

  predicate IsCodeChar(c: char) { 'a' <= c <= 'z' || '0' <= c <= '9' || c == '.' || c == '_' || c == '-' }

  /** `^[a-z0-9][a-z0-9._-]{0,127}$` */
  predicate IsCode(s: string)
  {
    && 0 < |s| <= 128
    && ('a' <= s[0] <= 'z' || '0' <= s[0] <= '9')
    && forall i :: 0 <= i < |s| ==> IsCodeChar(s[i])
  }

  predicate Ours(e: Event, runId: string) { e.runId == runId && e.timestamp.parses }

  predicate Terminal(e: Event) { !e.kind.Ordinary? }

  predicate ValidTerminal(e: Event, runId: string)
  {
    && Ours(e, runId) && e.timestamp.isString
    && match e.kind
       case Ordinary(_) => false
       case RunCompleted(output) => output.Some?
       case RunFailed(error) =>
         && error.Some?
         && error.value.code.Some? && IsCode(error.value.code.value)
         && error.value.messageLength.Some? && error.value.messageLength.value <= 2000
         && error.value.retryable.Some?
  }

  // ---------------------------------------------------------------------------------------
  // What a stream amounts to
  // ---------------------------------------------------------------------------------------

  /** A non-terminal event of this run that was published. */
  predicate Passed(item: Item, runId: string)
  {
    item.Next? && Ours(item.event, runId) && !Terminal(item.event) && item.answer == Resolved
  }

  /** `n` events passed, then one valid terminal event, then nothing. */
  ghost predicate EndsAt(stream: seq<Item>, runId: string, n: nat)
  {
    && n + 1 < |stream|
    && (forall i :: 0 <= i < n ==> Passed(stream[i], runId))
    && stream[n].Next? && ValidTerminal(stream[n].event, runId)
    && stream[n + 1] == Done
  }

  ghost predicate CompletesAt(stream: seq<Item>, runId: string, n: nat, output: string)
  {
    EndsAt(stream, runId, n) && stream[n].event.kind == RunCompleted(Some(output))
  }

  /** The trusted stream: non-terminal events, one valid `run.completed` with this output, the end. */
  ghost predicate Completes(stream: seq<Item>, runId: string, output: string)
  {
    exists n: nat :: CompletesAt(stream, runId, n, output)
  }

  /** `n` events passed, and the next item is not one that may follow. */
  ghost predicate StopsAt(stream: seq<Item>, runId: string, n: nat)
  {
    n < |stream| && (forall i :: 0 <= i < n ==> Passed(stream[i], runId))
    && !Passed(stream[n], runId) && !(stream[n].Next? && ValidTerminal(stream[n].event, runId))
  }

  /** `n` events passed, then a valid terminal event, and then something other than the end. */
  ghost predicate OverrunsAt(stream: seq<Item>, runId: string, n: nat)
  {
    && n + 1 < |stream|
    && (forall i :: 0 <= i < n ==> Passed(stream[i], runId))
    && stream[n].Next? && ValidTerminal(stream[n].event, runId)
    && stream[n + 1] != Done
  }

  /** The result when `item` broke the stream off; `last` says that a terminal event was already in. */
  function BrokenBy(item: Item, runId: string, last: bool): Result
  {
    match item
    case Abort => CANCELLED
    case StreamError => STREAM_FAILED
    case NoObject => STREAM_FAILED
    case Done => CONTRACT_VIOLATED
    case Next(event, answer) =>
      if last || !Ours(event, runId) || Terminal(event) then CONTRACT_VIOLATED
      else if answer == Aborted then CANCELLED
      else STREAM_FAILED
  }

  const CANCELLED := Failed(HostCancelled, true)
  const STREAM_FAILED := Failed(StreamFailed, true)
  const CONTRACT_VIOLATED := Failed(ContractViolated, false)
  const DIGEST_MISMATCH := Failed(DigestMismatch, false)
  const HANDLER_FAILED := Failed(HandlerFailed, true)

  predicate Passes(s: Setup)
  {
    && s.firstDigest && s.inputSchemaCompiles && s.inputAccepted && s.registered && s.runnable == Some(true)
    && s.created && s.inputIsJson && !s.aborted && s.preflight == Settled(Resolved, true) && s.compatible
    && s.secondDigest
  }

  /** The adapter exists from `create` on, and is then disposed of. */
  predicate Creates(s: Setup)
  {
    && s.firstDigest && s.inputSchemaCompiles && s.inputAccepted && s.registered && s.runnable == Some(true)
    && s.created
  }

  function Publications(trace: seq<Effect>): seq<Event>
  {
    if trace == [] then []
    else
      var before, e := Publications(trace[..|trace| - 1]), trace[|trace| - 1];
      if e.Published? then before + [e.event] else before
  }

  /** The events of a stream up to its first item that is none. */
  function Events(stream: seq<Item>): seq<Event>
  {
    if stream == [] || !stream[0].Next? then [] else [stream[0].event] + Events(stream[1..])
  }

  lemma {:induction false} EventsOf(stream: seq<Item>, n: nat)
    requires n <= |stream| && forall i :: 0 <= i < n ==> stream[i].Next?
    ensures |Events(stream)| >= n && forall i :: 0 <= i < n ==> Events(stream)[i] == stream[i].event
  {
    if n > 0 {
      EventsOf(stream[1..], n - 1);
      forall i | 0 < i < n
        ensures Events(stream)[i] == stream[i].event
      {
        assert Events(stream)[i] == Events(stream[1..])[i - 1];
        assert stream[1..][i - 1] == stream[i];
      }
    }
  }

  /** How often the rest was done. */
  datatype Tally = Tally(matched: nat, mismatched: nat, cancelled: nat, disposed: nat)

  function Add(t: Tally, e: Effect): Tally
  {
    match e
    case Digest(ok) => if ok then t.(matched := t.matched + 1) else t.(mismatched := t.mismatched + 1)
    case Cancelled => t.(cancelled := t.cancelled + 1)
    case Disposed => t.(disposed := t.disposed + 1)
    case _ => t
  }

  function Tallied(trace: seq<Effect>): Tally
  {
    if trace == [] then Tally(0, 0, 0, 0) else Add(Tallied(trace[..|trace| - 1]), trace[|trace| - 1])
  }

  lemma Extend(trace: seq<Effect>, e: Effect)
    ensures Publications(trace + [e]) == Publications(trace) + if e.Published? then [e.event] else []
    ensures Tallied(trace + [e]) == Add(Tallied(trace), e)
  {
    assert (trace + [e])[..|trace|] == trace;
  }

  /** What was published is, in order, an initial stretch of what the host said. */
  ghost predicate Faithful(trace: seq<Effect>, stream: seq<Item>)
  {
    Publications(trace) <= Events(stream)
  }

  /** A `run.completed` is published only behind three matching digests and none that failed, for a stream
      that ended well, with an output the schema accepts. */
  ghost predicate Guarded(trace: seq<Effect>, k: nat, stream: seq<Item>, runId: string, finish: Finish)
    requires k < |trace|
  {
    Completing(trace[k]) ==>
      && Tallied(trace[..k]).matched == 3 && Tallied(trace[..k]).mismatched == 0
      && exists n: nat, output: string ::
           CompletesAt(stream, runId, n, output) && stream[n].event == trace[k].event
           && finish.schema(output) == Accepted
  }

  predicate Completing(e: Effect) { e.Published? && e.event.kind.RunCompleted? }

  ghost predicate NoCompletion(trace: seq<Effect>)
  {
    forall k :: 0 <= k < |trace| ==> !Completing(trace[k])
  }

  // ---------------------------------------------------------------------------------------
  // The phases of a run
  // ---------------------------------------------------------------------------------------

  /** Everything before the host is run: the failure, if any, and what was done. */
  method Prepare(setup: Setup) returns (failure: Option<Result>, trace: seq<Effect>)
    ensures failure == None <==> Passes(setup)
    ensures failure.Some? ==> failure.value.Failed? && !failure.value.code.Reported?
    ensures Publications(trace) == [] && NoCompletion(trace)
    ensures Tallied(trace).disposed == 0 && (failure == None ==> Tallied(trace) == Tally(2, 0, 0, 0))
    ensures Tallied(trace).mismatched == if failure == Some(DIGEST_MISMATCH) then 1 else 0
    ensures Tallied(trace).cancelled == if failure == Some(CANCELLED) then 1 else 0
  {
    Extend([], Digest(setup.firstDigest));
    assert [] + [Digest(setup.firstDigest)] == [Digest(setup.firstDigest)];
    trace := [Digest(setup.firstDigest)];
    if !setup.firstDigest { return Some(DIGEST_MISMATCH), trace; }
    if !setup.inputSchemaCompiles { return Some(Failed(InputSchemaInvalid, false)), trace; }
    if !setup.inputAccepted { return Some(Failed(InputSchemaMismatch, false)), trace; }
    if !setup.registered { return Some(Failed(NotRegistered, false)), trace; }
    if setup.runnable.None? { return Some(Failed(ResolutionFailed, false)), trace; }
    if !setup.runnable.value { return Some(Failed(NotRunnable, false)), trace; }
    if !setup.created { return Some(Failed(ResolutionFailed, false)), trace; }
    if !setup.inputIsJson { return Some(Failed(InputNotJson, false)), trace; }
    Extend(trace, Cancelled);
    if setup.aborted { return Some(CANCELLED), trace + [Cancelled]; }
    if setup.preflight.Throws? { return Some(Failed(PreflightFailed, true)), trace; }
    if setup.preflight.answer == Aborted { return Some(CANCELLED), trace + [Cancelled]; }
    if setup.preflight.answer == Rejected { return Some(Failed(PreflightFailed, true)), trace; }
    if !setup.preflight.valid { return Some(Failed(PreflightInvalid, false)), trace; }
    if !setup.compatible { return Some(Failed(Incompatible, false)), trace; }
    Extend(trace, Digest(setup.secondDigest));
    trace := trace + [Digest(setup.secondDigest)];
    if !setup.secondDigest { return Some(DIGEST_MISMATCH), trace; }
    failure := None;
  }

  /** What the event loop leaves: still reading, broken off with a result, or ended after a terminal event. */
  datatype Left = Reading | Broken(result: Result) | Ended(terminal: Event)

  /** Where the loop left the stream: `passed` events passed before. */
  ghost predicate LeftAt(left: Left, stream: seq<Item>, runId: string, passed: nat)
  {
    match left
    case Reading =>
      && passed <= |stream| && (forall i :: 0 <= i < passed ==> Passed(stream[i], runId))
      && (passed == |stream|
          || (passed + 1 == |stream| && stream[passed].Next? && ValidTerminal(stream[passed].event, runId)))
    case Ended(terminal) => EndsAt(stream, runId, passed) && stream[passed].event == terminal
    case Broken(result) =>
      || (StopsAt(stream, runId, passed) && result == BrokenBy(stream[passed], runId, false))
      || (OverrunsAt(stream, runId, passed) && result == BrokenBy(stream[passed + 1], runId, true))
  }

  /** Published are the events that passed, and the one whose handler refused, if that broke the stream off. */
  ghost predicate PublishedBy(left: Left, stream: seq<Item>, runId: string, passed: nat, events: seq<Event>)
  {
    && passed <= |events| <= |Events(stream)| && events == Events(stream)[..|events|]
    && (|events| == passed
        || (&& |events| == passed + 1 <= |stream| && left.Broken? && stream[passed].Next?
            && Ours(events[passed], runId) && !Terminal(events[passed]) && stream[passed].answer != Resolved))
  }

  ghost predicate ReadTo(left: Left, stream: seq<Item>, runId: string, passed: nat, trace: seq<Effect>)
  {
    && LeftAt(left, stream, runId, passed)
    && PublishedBy(left, stream, runId, passed, Publications(trace)) && NoCompletion(trace)
    && Tallied(trace) == Tally(2, 0, if left.Broken? && stream[passed] != Done then 1 else 0, 0)
  }

  /** Halfway through the loop. */
  ghost predicate Going(stream: seq<Item>, runId: string, i: nat, terminal: Option<Event>, passed: nat, trace: seq<Effect>)
  {
    && passed <= i <= |stream| && passed <= |Events(stream)|
    && (forall k :: 0 <= k < passed ==> Passed(stream[k], runId))
    && (terminal == None ==> i == passed)
    && (terminal.Some? ==>
          i == passed + 1 && stream[passed].Next? && stream[passed].event == terminal.value
          && ValidTerminal(terminal.value, runId))
    && Publications(trace) == Events(stream)[..passed] && NoCompletion(trace)
    && Tallied(trace) == Tally(2, 0, 0, 0)
  }

  /** An item that breaks the stream off before anything is published for it. */
  lemma BreaksOff(stream: seq<Item>, runId: string, i: nat, terminal: Option<Event>, passed: nat, trace: seq<Effect>)
    requires Going(stream, runId, i, terminal, passed, trace) && i < |stream| && stream[i] != Done
    requires terminal == None ==>
      !stream[i].Next? || !Ours(stream[i].event, runId)
      || (Terminal(stream[i].event) && !ValidTerminal(stream[i].event, runId))
    ensures ReadTo(Broken(BrokenBy(stream[i], runId, terminal.Some?)), stream, runId, passed, trace + [Cancelled])
    ensures ReadTo(Broken(BrokenBy(stream[i], runId, terminal.Some?)), stream, runId, passed,
                   trace + [Cancelled] + [Returned])
  {
    Extend(trace, Cancelled);
    Extend(trace + [Cancelled], Returned);
    assert OverrunsAt(stream, runId, passed) || StopsAt(stream, runId, passed);
  }

  /** An event whose handler refuses it. */
  lemma Refused(stream: seq<Item>, runId: string, i: nat, passed: nat, trace: seq<Effect>)
    requires Going(stream, runId, i, None, passed, trace) && i < |stream| && stream[i].Next?
    requires Ours(stream[i].event, runId) && !Terminal(stream[i].event) && stream[i].answer != Resolved
    ensures var trace' := trace + [Published(stream[i].event)] + [Cancelled];
      ReadTo(Broken(BrokenBy(stream[i], runId, false)), stream, runId, passed, trace')
      && ReadTo(Broken(BrokenBy(stream[i], runId, false)), stream, runId, passed, trace' + [Returned])
  {
    var e := Published(stream[i].event);
    EventsOf(stream, i + 1);
    Extend(trace, e);
    Extend(trace + [e], Cancelled);
    Extend(trace + [e] + [Cancelled], Returned);
    assert StopsAt(stream, runId, passed);
  }

  lemma Goes(stream: seq<Item>, runId: string, i: nat, passed: nat, trace: seq<Effect>)
    requires Going(stream, runId, i, None, passed, trace) && i < |stream| && Passed(stream[i], runId)
    ensures Going(stream, runId, i + 1, None, passed + 1, trace + [Published(stream[i].event)])
  {
    EventsOf(stream, i + 1);
    Extend(trace, Published(stream[i].event));
  }

  /** The loop: every event is published before the next is asked for; a terminal one is held back. */
  method Read(stream: seq<Item>, runId: string, before: seq<Effect>)
    returns (left: Left, passed: nat, trace: seq<Effect>)
    requires Publications(before) == [] && NoCompletion(before) && Tallied(before) == Tally(2, 0, 0, 0)
    ensures ReadTo(left, stream, runId, passed, trace)
  {
    var i := 0;
    var terminal: Option<Event> := None;
    trace, passed := before, 0;
    while i < |stream|
      invariant Going(stream, runId, i, terminal, passed, trace)
    {
      var item := stream[i];
      if item.Done? {
        return if terminal == None then Broken(CONTRACT_VIOLATED) else Ended(terminal.value), passed, trace;
      }
      if item.Abort? {
        BreaksOff(stream, runId, i, terminal, passed, trace);
        return Broken(CANCELLED), passed, trace + [Cancelled] + [Returned];
      }
      if item.StreamError? || item.NoObject? {
        BreaksOff(stream, runId, i, terminal, passed, trace);
        return Broken(STREAM_FAILED), passed, trace + [Cancelled];
      }
      if !Ours(item.event, runId) || terminal.Some?
         || (Terminal(item.event) && !ValidTerminal(item.event, runId))
      {
        BreaksOff(stream, runId, i, terminal, passed, trace);
        return Broken(CONTRACT_VIOLATED), passed, trace + [Cancelled];
      }
      if Terminal(item.event) {
        terminal := Some(item.event);
      } else {
        if item.answer != Resolved {
          Refused(stream, runId, i, passed, trace);
          trace := trace + [Published(item.event)] + [Cancelled];
          if item.answer == Aborted { return Broken(CANCELLED), passed, trace + [Returned]; }
          return Broken(STREAM_FAILED), passed, trace;
        }
        Goes(stream, runId, i, passed, trace);
        trace := trace + [Published(item.event)];
        passed := passed + 1;
      }
      i := i + 1;
    }
    left := Reading;
  }

  /** What follows a stream that ended with `terminal`: the third digest; for a completion, the schema; then
      its publication. */
  ghost predicate Concluded(terminal: Event, finish: Finish, result: Result, trace: seq<Effect>)
  {
    && (forall output ::
          result == Completed(output) <==>
            terminal.kind == RunCompleted(Some(output)) && finish.digest && finish.schema(output) == Accepted
            && finish.answer == Resolved)
    && (|| trace == [Digest(finish.digest)]
        || (&& trace == [Digest(true), Published(terminal)] + (if result == CANCELLED then [Cancelled] else [])
            && finish.digest
            && (terminal.kind.RunCompleted? ==>
                  terminal.kind.output.Some? && finish.schema(terminal.kind.output.value) == Accepted)))
    && (result.Completed? ==> |trace| == 2)
    && (result.Failed? && result.code.Reported? ==>
          && |trace| == 2 && terminal.kind.RunFailed? && terminal.kind.error.Some?
          && terminal.kind.error.value.code == Some(result.code.code)
          && terminal.kind.error.value.retryable == Some(result.retryable))
  }

  method Conclude(terminal: Event, runId: string, finish: Finish) returns (result: Result, trace: seq<Effect>)
    requires ValidTerminal(terminal, runId)
    ensures Concluded(terminal, finish, result, trace)
  {
    trace := [Digest(finish.digest)];
    if !finish.digest { return DIGEST_MISMATCH, trace; }
    match terminal.kind {
      case RunFailed(error) =>
        trace := trace + [Published(terminal)];
        if finish.answer == Aborted { return CANCELLED, trace + [Cancelled]; }
        if finish.answer == Rejected { return HANDLER_FAILED, trace; }
        result := Failed(Reported(error.value.code.value), error.value.retryable.value);
      case RunCompleted(output) =>
        var check := finish.schema(output.value);
        if check == Mismatch { return Failed(OutputSchemaMismatch, false), trace; }
        if check == CannotCheck { return Failed(OutputSchemaInvalid, false), trace; }
        trace := trace + [Published(terminal)];
        if finish.answer == Aborted { return CANCELLED, trace + [Cancelled]; }
        if finish.answer == Rejected { return HANDLER_FAILED, trace; }
        result := Completed(output.value);
    }
  }

  // ---------------------------------------------------------------------------------------
  // The whole run
  // ---------------------------------------------------------------------------------------

  /** The loop leaves a stream in only one way. */
  lemma LeftOnce(left: Left, stream: seq<Item>, runId: string, passed: nat, n: nat)
    requires LeftAt(left, stream, runId, passed)
    ensures EndsAt(stream, runId, n) ==> n == passed && left.Ended?
    ensures StopsAt(stream, runId, n) ==> n == passed && left == Broken(BrokenBy(stream[n], runId, false))
    ensures OverrunsAt(stream, runId, n) ==> n == passed && left == Broken(BrokenBy(stream[n + 1], runId, true))
  {
    assert forall k :: 0 <= k < passed ==> Passed(stream[k], runId);
    if EndsAt(stream, runId, n) || StopsAt(stream, runId, n) || OverrunsAt(stream, runId, n) {
      assert !Passed(stream[n], runId);
      if n < passed { assert false; }
      if passed < n { assert false; }
    }
  }

  lemma EventsUpTo(stream: seq<Item>, runId: string, n: nat)
    requires EndsAt(stream, runId, n)
    ensures |Events(stream)| == n + 1 && Events(stream)[n] == stream[n].event
  {
    EventsOf(stream, n + 1);
    EventsBounded(stream, n + 1);
  }

  lemma {:induction false} EventsBounded(stream: seq<Item>, n: nat)
    requires n < |stream| && !stream[n].Next?
    ensures |Events(stream)| <= n
  {
    if n > 0 { EventsBounded(stream[1..], n - 1); }
  }

  ghost predicate CompletedOnly(result: Option<Result>, stream: seq<Item>, runId: string, setup: Setup, finish: Finish)
  {
    forall output ::
      result == Some(Completed(output)) <==>
        Passes(setup) && Completes(stream, runId, output) && finish.digest && finish.schema(output) == Accepted
        && finish.answer == Resolved
  }

  /** Every way in which a stream can break off, with its result. */
  ghost predicate BrokenAsSaid(result: Option<Result>, stream: seq<Item>, runId: string)
  {
    forall n: nat ::
      && (StopsAt(stream, runId, n) ==> result == Some(BrokenBy(stream[n], runId, false)))
      && (OverrunsAt(stream, runId, n) ==> result == Some(BrokenBy(stream[n + 1], runId, true)))
  }

  ghost predicate ReportedByHost(result: Result, stream: seq<Item>, runId: string)
  {
    result.Failed? && result.code.Reported? ==>
      exists n: nat ::
        && EndsAt(stream, runId, n) && stream[n].event.kind.RunFailed?
        && stream[n].event.kind.error.value.code == Some(result.code.code)
        && stream[n].event.kind.error.value.retryable == Some(result.retryable)
  }

  ghost predicate AllGuarded(trace: seq<Effect>, stream: seq<Item>, runId: string, finish: Finish)
  {
    forall k: nat | k < |trace| :: Guarded(trace, k, stream, runId, finish)
  }

  lemma NoneToGuard(trace: seq<Effect>, stream: seq<Item>, runId: string, finish: Finish)
    requires NoCompletion(trace)
    ensures AllGuarded(trace, stream, runId, finish)
  {
    forall k: nat | k < |trace|
      ensures Guarded(trace, k, stream, runId, finish)
    {
      assert !Completing(trace[k]);
    }
  }

  /** A completion published right behind the third digest. */
  lemma GuardedBehind(before: seq<Effect>, after: seq<Effect>, stream: seq<Item>, runId: string, n: nat, finish: Finish)
    requires NoCompletion(before) && EndsAt(stream, runId, n)
    requires after != [] && after[0] == Published(stream[n].event)
    requires forall k :: 1 <= k < |after| ==> !after[k].Published?
    requires stream[n].event.kind.RunCompleted? ==>
      Tallied(before).matched == 3 && Tallied(before).mismatched == 0
      && finish.schema(stream[n].event.kind.output.value) == Accepted
    ensures AllGuarded(before + after, stream, runId, finish)
  {
    var trace := before + after;
    forall k: nat | k < |trace|
      ensures Guarded(trace, k, stream, runId, finish)
    {
      if k < |before| {
        assert trace[k] == before[k] && !Completing(before[k]);
      } else {
        assert trace[k] == after[k - |before|];
        if k == |before| {
          assert trace[..k] == before;
          if stream[n].event.kind.RunCompleted? {
            assert CompletesAt(stream, runId, n, stream[n].event.kind.output.value);
          }
        }
      }
    }
  }

  lemma DisposalGuarded(trace: seq<Effect>, stream: seq<Item>, runId: string, finish: Finish)
    requires AllGuarded(trace, stream, runId, finish)
    ensures AllGuarded(trace + [Disposed], stream, runId, finish)
  {
    forall k: nat | k < |trace + [Disposed]|
      ensures Guarded(trace + [Disposed], k, stream, runId, finish)
    {
      if k < |trace| {
        assert (trace + [Disposed])[..k] == trace[..k];
        assert Guarded(trace, k, stream, runId, finish);
      }
    }
  }

  /** Nothing in the stream so far ends it. */
  ghost predicate Unended(stream: seq<Item>, runId: string)
  {
    forall n: nat :: !EndsAt(stream, runId, n) && !StopsAt(stream, runId, n) && !OverrunsAt(stream, runId, n)
  }

  /** What is promised of a run that got past the preparations. */
  ghost predicate Sound(result: Option<Result>, trace: seq<Effect>, runId: string, setup: Setup, stream: seq<Item>,
                        finish: Finish)
  {
    && CompletedOnly(result, stream, runId, setup, finish)
    && BrokenAsSaid(result, stream, runId)
    && (result.Some? ==> ReportedByHost(result.value, stream, runId))
    && (result == None <==> Unended(stream, runId))
    && Faithful(trace, stream) && AllGuarded(trace, stream, runId, finish)
    && Tallied(trace).disposed == 0 && Tallied(trace).cancelled <= 1
    && (result.Some? && result.value.Completed? ==>
          Publications(trace) == Events(stream) && Tallied(trace) == Tally(3, 0, 0, 0))
  }

  lemma LeftAlways(left: Left, stream: seq<Item>, runId: string, passed: nat)
    requires LeftAt(left, stream, runId, passed)
    ensures forall n: nat ::
      && (EndsAt(stream, runId, n) ==> n == passed && left.Ended?)
      && (StopsAt(stream, runId, n) ==> left == Broken(BrokenBy(stream[n], runId, false)))
      && (OverrunsAt(stream, runId, n) ==> left == Broken(BrokenBy(stream[n + 1], runId, true)))
  {
    forall n: nat
      ensures EndsAt(stream, runId, n) ==> n == passed && left.Ended?
      ensures StopsAt(stream, runId, n) ==> left == Broken(BrokenBy(stream[n], runId, false))
      ensures OverrunsAt(stream, runId, n) ==> left == Broken(BrokenBy(stream[n + 1], runId, true))
    {
      LeftOnce(left, stream, runId, passed, n);
    }
  }

  lemma NoCompletionJoins(a: seq<Effect>, b: seq<Effect>)
    requires NoCompletion(a) && NoCompletion(b)
    ensures NoCompletion(a + b)
  {
  }

  lemma Harmless(trace: seq<Effect>, runId: string, stream: seq<Item>, finish: Finish)
    requires Publications(trace) <= Events(stream) && NoCompletion(trace)
    requires Tallied(trace).disposed == 0 && Tallied(trace).cancelled <= 1
    ensures TraceHolds(trace, runId, stream, finish)
  {
    NoneToGuard(trace, stream, runId, finish);
  }

  lemma NotEndedResult(left: Left, passed: nat, runId: string, stream: seq<Item>)
    requires LeftAt(left, stream, runId, passed) && !left.Ended?
    ensures var result := if left.Reading? then None else Some(left.result);
      && BrokenAsSaid(result, stream, runId)
      && (forall output :: !Completes(stream, runId, output))
      && (result == None <==> Unended(stream, runId))
      && (result.Some? ==> result.value.Failed? && !result.value.code.Reported?)
  {
    LeftAlways(left, stream, runId, passed);
    assert left.Broken? ==> StopsAt(stream, runId, passed) || OverrunsAt(stream, runId, passed);
  }

  lemma NotEnded(left: Left, passed: nat, trace: seq<Effect>, runId: string, setup: Setup, stream: seq<Item>,
                 finish: Finish)
    requires ReadTo(left, stream, runId, passed, trace) && !left.Ended?
    ensures Sound(if left.Reading? then None else Some(left.result), trace, runId, setup, stream, finish)
  {
    Harmless(trace, runId, stream, finish);
    NotEndedResult(left, passed, runId, stream);
  }

  ghost predicate TraceHolds(trace: seq<Effect>, runId: string, stream: seq<Item>, finish: Finish)
  {
    && Faithful(trace, stream) && AllGuarded(trace, stream, runId, finish)
    && Tallied(trace).disposed == 0 && Tallied(trace).cancelled <= 1
  }

  /** The trace of a run whose stream ended, up to the third digest. */
  lemma EndsUnpublished(before: seq<Effect>, passed: nat, runId: string, stream: seq<Item>, finish: Finish)
    requires EndsAt(stream, runId, passed) && passed <= |Events(stream)|
    requires Publications(before) == Events(stream)[..passed] && NoCompletion(before)
    requires Tallied(before) == Tally(2, 0, 0, 0)
    ensures var third := before + [Digest(finish.digest)];
      && TraceHolds(third, runId, stream, finish) && NoCompletion(third)
      && Publications(third) + [stream[passed].event] == Events(stream)
      && Tallied(third) == Tally(if finish.digest then 3 else 2, if finish.digest then 0 else 1, 0, 0)
  {
    EventsUpTo(stream, runId, passed);
    Extend(before, Digest(finish.digest));
    NoCompletionJoins(before, [Digest(finish.digest)]);
    Harmless(before + [Digest(finish.digest)], runId, stream, finish);
  }

  lemma EndsPublished(third: seq<Effect>, rest: seq<Effect>, passed: nat, runId: string, stream: seq<Item>,
                      finish: Finish)
    requires EndsAt(stream, runId, passed) && NoCompletion(third)
    requires Publications(third) + [stream[passed].event] == Events(stream) && Tallied(third) == Tally(3, 0, 0, 0)
    requires rest == [Published(stream[passed].event)] || rest == [Published(stream[passed].event), Cancelled]
    requires stream[passed].event.kind.RunCompleted? ==>
      finish.schema(stream[passed].event.kind.output.value) == Accepted
    ensures TraceHolds(third + rest, runId, stream, finish)
    ensures |rest| == 1 ==> Publications(third + rest) == Events(stream) && Tallied(third + rest) == Tally(3, 0, 0, 0)
  {
    var published := Published(stream[passed].event);
    Extend(third, published);
    if |rest| == 2 {
      Extend(third + [published], Cancelled);
      assert third + rest == third + [published] + [Cancelled];
    }
    GuardedBehind(third, rest, stream, runId, passed, finish);
  }

  lemma EndTrace(passed: nat, trace: seq<Effect>, result: Result, after: seq<Effect>, runId: string,
                 stream: seq<Item>, finish: Finish)
    requires EndsAt(stream, runId, passed)
    requires ReadTo(Ended(stream[passed].event), stream, runId, passed, trace)
    requires Concluded(stream[passed].event, finish, result, after)
    ensures TraceHolds(trace + after, runId, stream, finish)
    ensures |after| == 2 ==>
      Publications(trace + after) == Events(stream) && Tallied(trace + after) == Tally(3, 0, 0, 0)
  {
    var third := trace + [Digest(finish.digest)];
    var rest := RestOf(stream[passed].event, finish, result, after);
    EndsUnpublished(trace, passed, runId, stream, finish);
    TraceJoins(trace, [Digest(finish.digest)], rest);
    if rest == [] {
      assert third + rest == third;
    } else {
      EndsPublished(third, rest, passed, runId, stream, finish);
    }
  }

  lemma TraceJoins(a: seq<Effect>, b: seq<Effect>, c: seq<Effect>)
    ensures a + (b + c) == a + b + c
  {
  }

  /** What was done behind the third digest: nothing, or the publication and perhaps a cancellation. */
  lemma RestOf(terminal: Event, finish: Finish, result: Result, after: seq<Effect>) returns (rest: seq<Effect>)
    requires Concluded(terminal, finish, result, after)
    ensures after == [Digest(finish.digest)] + rest
    ensures rest == [] || rest == [Published(terminal)] || rest == [Published(terminal), Cancelled]
    ensures rest != [] ==>
      finish.digest
      && (terminal.kind.RunCompleted? ==>
            terminal.kind.output.Some? && finish.schema(terminal.kind.output.value) == Accepted)
  {
    rest := after[1..];
  }

  lemma EndedWell(passed: nat, trace: seq<Effect>, result: Result, after: seq<Effect>, runId: string, setup: Setup,
                  stream: seq<Item>, finish: Finish)
    requires Passes(setup) && EndsAt(stream, runId, passed)
    requires ReadTo(Ended(stream[passed].event), stream, runId, passed, trace)
    requires Concluded(stream[passed].event, finish, result, after)
    ensures Sound(Some(result), trace + after, runId, setup, stream, finish)
  {
    EndTrace(passed, trace, result, after, runId, stream, finish);
    LeftAlways(Ended(stream[passed].event), stream, runId, passed);
    forall output
      ensures Completes(stream, runId, output) <==> stream[passed].event.kind == RunCompleted(Some(output))
    {
      if stream[passed].event.kind == RunCompleted(Some(output)) {
        assert CompletesAt(stream, runId, passed, output);
      }
    }
  }

  /** The run: preparations, the loop, the conclusion; whatever happens, an adapter that was created is
      disposed of, last and once.  `None`: still running. */
  method RunEmployeePackage(runId: string, setup: Setup, stream: seq<Item>, finish: Finish)
    returns (result: Option<Result>, trace: seq<Effect>)
    ensures CompletedOnly(result, stream, runId, setup, finish)
    ensures Passes(setup) ==> BrokenAsSaid(result, stream, runId)
    ensures result == None <==> Passes(setup) && Unended(stream, runId)
    ensures result.Some? ==> ReportedByHost(result.value, stream, runId)
    ensures Faithful(trace, stream) && AllGuarded(trace, stream, runId, finish)
    ensures result.Some? && result.value.Completed? ==>
      Publications(trace) == Events(stream) && Tallied(trace) == Tally(3, 0, 0, 1)
    ensures Tallied(trace).cancelled <= 1
    ensures Tallied(trace).disposed == if result.Some? && Creates(setup) then 1 else 0
    ensures result.Some? && Creates(setup) ==> trace != [] && trace[|trace| - 1] == Disposed
  {
    var failure;
    failure, trace := Prepare(setup);
    if failure == None {
      var left, passed;
      left, passed, trace := Read(stream, runId, trace);
      if !left.Ended? {
        NotEnded(left, passed, trace, runId, setup, stream, finish);
        result := if left.Reading? then None else Some(left.result);
      } else {
        var end, after := Conclude(left.terminal, runId, finish);
        EndedWell(passed, trace, end, after, runId, setup, stream, finish);
        trace := trace + after;
        result := Some(end);
      }
    } else {
      NoneToGuard(trace, stream, runId, finish);
      result := failure;
    }
    if result.Some? && Creates(setup) {
      Extend(trace, Disposed);
      DisposalGuarded(trace, stream, runId, finish);
      trace := trace + [Disposed];
    }
  }
}
