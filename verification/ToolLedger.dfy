/** The stream loop of the Qoder adapter, with its ledger of started and completed tool calls.

    One message of the child's output is checked as a whole before any of it is entered or yielded.  Between
    any two yields the run may be stopped (abort, cancellation, deadline, an output limit). */
module ToolLedger {

  import opened Options

  // ---------------------------------------------------------------------------------------
  // Messages
  // ---------------------------------------------------------------------------------------

  /** A field that is not a string is `None`; `NotRecord` is a block that is no object. */
  datatype Block = NotRecord | ToolUse(id: Option<string>, name: Option<string>) | Text(text: Option<string>) | Other

  datatype Reply = BadReply | ToolResult(id: Option<string>, isError: bool) | OtherReply

  datatype Body =
    | Delta(text: Option<string>)
    | NoDelta
    | Assistant(blocks: Option<seq<Block>>)
    | User(replies: Option<seq<Reply>>)
    | Final(isError: bool, success: bool, code: string, text: Option<string>)
    | Unknown

  /** A line of output, as far as the loop looks at it. */
  datatype Line =
    | Blank
    | TooLong
    | NotJson
    | NotEvent
    | InitializeResponse(ok: bool)
    | ControlRequest
    | KeepAlive
    | Init(policyOk: bool, session: Option<string>, fingerprint: string)
    | Message(session: Option<string>, body: Body)

  /** Why a run is stopped, besides a fault in the protocol. */
  datatype Reason = Aborted | Cancelled | Deadline | StdoutLimit | StderrLimit

  /** What may come in between: a stop, or the child's input breaking. */
  datatype Cause = Stops(reason: Reason) | StdinBreaks

  /** A cause that strikes while the event at index `at` of a message is being yielded. */
  datatype Interrupt = Interrupt(at: nat, cause: Cause)

  datatype Fault =
    | InvalidJson
    | InvalidEvent
    | InitializeResponseInvalid
    | UnexpectedControlRequest
    | DuplicateResult
    | EventAfterResult
    | PolicyMismatch
    | SessionIdMissing
    | DuplicateInit
    | ResultBeforeInit(code: string)
    | InitRequired
    | SessionMismatch
    | InvalidTextDelta
    | InvalidAssistant
    | InvalidAssistantBlock
    | ToolMismatch
    | DuplicateToolCall
    | SensitiveToolCallId
    | InvalidAssistantText
    | InvalidUser
    | InvalidUserBlock
    | UnknownToolResult
    | StdinFailed

  datatype HostEvent =
    | RunStarted
    | ToolStarted(id: string, name: string)
    | ToolCompleted(id: string, name: string, isError: bool)

  /** What the run was asked for: the tools it may use, and the test for call ids that hold the secret. */
  datatype Request = Request(tools: set<string>, sensitive: string -> bool)

  // ---------------------------------------------------------------------------------------
  // Checking a message as a whole
  // ---------------------------------------------------------------------------------------

  datatype Checked<+T> = Rejected(fault: Fault) | Pending(events: T)

  /** `events`, and then what is pending; a fault rejects them all. */
  function Before(events: seq<HostEvent>, checked: Checked<seq<HostEvent>>): Checked<seq<HostEvent>>
  {
    if checked.Pending? then Pending(events + checked.events) else checked
  }

  /** The calls a list of blocks starts, besides the known ones. */
  function Starts(r: Request, known: map<string, string>, blocks: seq<Block>): Checked<seq<HostEvent>>
    decreases |blocks|
  {
    if blocks == [] then Pending([])
    else
      match blocks[0]
      case ToolUse(id, name) =>
        if id.None? || name.None? || name.value !in r.tools then Rejected(ToolMismatch)
        else if id.value in known then Rejected(DuplicateToolCall)
        else if r.sensitive(id.value) then Rejected(SensitiveToolCallId)
        else Before([ToolStarted(id.value, name.value)], Starts(r, known[id.value := name.value], blocks[1..]))
      case _ => Starts(r, known, blocks[1..])
  }

  /** The calls a list of replies completes, besides the completed ones. */
  function Completions(known: map<string, string>, completed: set<string>, replies: seq<Reply>): Checked<seq<HostEvent>>
    decreases |replies|
  {
    if replies == [] then Pending([])
    else
      match replies[0]
      case BadReply => Rejected(InvalidUserBlock)
      case OtherReply => Completions(known, completed, replies[1..])
      case ToolResult(id, isError) =>
        if id.None? || id.value !in known || id.value in completed then Rejected(UnknownToolResult)
        else
          Before([ToolCompleted(id.value, known[id.value], isError)],
                 Completions(known, completed + {id.value}, replies[1..]))
  }

  predicate CompletedIn(events: seq<HostEvent>, id: string)
  {
    exists k :: 0 <= k < |events| && events[k].ToolCompleted? && events[k].id == id
  }

  predicate StartsWith(text: string, prefix: string) { prefix <= text }

  /** The text a message adds: each block's text, without the snapshot it repeats. */
  function Texts(blocks: seq<Block>, snapshot: string, pending: string): Checked<(string, string)>
  {
    if blocks == [] then Pending((snapshot, pending))
    else if !blocks[0].Text? then Texts(blocks[1..], snapshot, pending)
    else if blocks[0].text.None? then Rejected(InvalidAssistantText)
    else
      var text := blocks[0].text.value;
      var delta := if StartsWith(text, snapshot) then text[|snapshot|..] else text;
      Texts(blocks[1..], text, pending + delta)
  }

  // ---------------------------------------------------------------------------------------
  // The loop
  // ---------------------------------------------------------------------------------------

  const MAX_EVENTS := 10000

  /** The ledger, and what was yielded so far. */
  datatype Book = Book(toolNames: map<string, string>, completed: set<string>, out: seq<HostEvent>)

  /** The run is stopped by a protocol fault or by any other reason. */
  datatype Halt = Halt(fault: Option<Fault>, reason: Option<Reason>)

  datatype Handshake = Handshake(
    initSeen: bool,
    responseSeen: bool,
    promptSubmitted: bool,
    stdinError: bool,
    session: string,
    fingerprint: string)

  datatype Prose = Prose(sawPartial: bool, snapshot: string, text: string)

  datatype State = State(
    book: Book,
    halt: Halt,
    hand: Handshake,
    prose: Prose,
    result: Option<Body>,
    eventCount: nat)

  const INITIAL :=
    State(Book(map[], {}, []), Halt(None, None), Handshake(false, false, false, false, "", ""), Prose(false, "", ""),
          None, 0)

  predicate Stopped(s: State) { s.halt.fault.Some? || s.halt.reason.Some? }

  function ProtocolFailure(s: State, fault: Fault): State
  {
    if s.halt.fault.Some? then s else s.(halt := s.halt.(fault := Some(fault)))
  }

  function Stop(s: State, reason: Reason): State
  {
    if Stopped(s) then s else s.(halt := s.halt.(reason := Some(reason)))
  }

  function Strike(s: State, cause: Cause): State
  {
    match cause
    case Stops(reason) => Stop(s, reason)
    case StdinBreaks => ProtocolFailure(s.(hand := s.hand.(stdinError := true)), StdinFailed)
  }

  function SubmitPrompt(s: State): State
  {
    if s.hand.promptSubmitted || s.hand.stdinError || Stopped(s) then s else s.(hand := s.hand.(promptSubmitted := true))
  }

  function MaybeSubmitPrompt(s: State): State
  {
    if s.hand.initSeen && s.hand.responseSeen then SubmitPrompt(s) else s
  }

  /** Yields the events of one message, as far as no cause strikes. */
  function Yielded(s: State, events: seq<HostEvent>, interrupt: Option<Interrupt>): State
  {
    if interrupt.Some? && interrupt.value.at < |events|
    then Strike(s.(book := s.book.(out := s.book.out + events[..interrupt.value.at + 1])), interrupt.value.cause)
    else s.(book := s.book.(out := s.book.out + events))
  }

  function Entered(known: map<string, string>, events: seq<HostEvent>): map<string, string>
    decreases |events|
  {
    if events == [] then known
    else if events[0].ToolStarted? then Entered(known[events[0].id := events[0].name], events[1..])
    else Entered(known, events[1..])
  }

  function Ids(events: seq<HostEvent>): set<string>
  {
    set k | 0 <= k < |events| && events[k].ToolCompleted? :: events[k].id
  }

  function OnInit(s: State, policyOk: bool, session: Option<string>, fingerprint: string, interrupt: Option<Interrupt>)
    : State
  {
    var announced := session.Some? && session.value != "";
    if !announced then ProtocolFailure(s, SessionIdMissing)
    else if !policyOk then ProtocolFailure(s, PolicyMismatch)
    else if s.hand.initSeen then
      if fingerprint != s.hand.fingerprint then ProtocolFailure(s, DuplicateInit) else s
    else
      var hand := s.hand.(initSeen := true, fingerprint := fingerprint, session := session.value);
      var s' := MaybeSubmitPrompt(s.(hand := hand));
      if Stopped(s') then s' else Yielded(s', [RunStarted], interrupt)
  }

  /** A rejected message enters nothing; a pending one is entered whole, and then yielded. */
  function Begin(s: State, checked: Checked<seq<HostEvent>>, interrupt: Option<Interrupt>): State
  {
    match checked
    case Rejected(fault) => ProtocolFailure(s, fault)
    case Pending(events) => Yielded(s.(book := s.book.(toolNames := Entered(s.book.toolNames, events))), events, interrupt)
  }

  function Complete(s: State, checked: Checked<seq<HostEvent>>, interrupt: Option<Interrupt>): State
  {
    match checked
    case Rejected(fault) => ProtocolFailure(s, fault)
    case Pending(events) => Yielded(s.(book := s.book.(completed := s.book.completed + Ids(events))), events, interrupt)
  }

  function OnAssistant(r: Request, s: State, blocks: Option<seq<Block>>, interrupt: Option<Interrupt>): State
  {
    if blocks.None? then ProtocolFailure(s, InvalidAssistant)
    else if NotRecord in blocks.value then ProtocolFailure(s, InvalidAssistantBlock)
    else if HasToolUse(blocks.value) then
      Begin(s, Starts(r, s.book.toolNames, blocks.value), interrupt)
    else if s.prose.sawPartial then s
    else
      match Texts(blocks.value, s.prose.snapshot, "")
      case Rejected(fault) => ProtocolFailure(s, fault)
      case Pending(texts) => s.(prose := s.prose.(snapshot := texts.0, text := s.prose.text + texts.1))
  }

  predicate HasToolUse(blocks: seq<Block>) { exists k :: 0 <= k < |blocks| && blocks[k].ToolUse? }

  function OnUser(s: State, replies: Option<seq<Reply>>, interrupt: Option<Interrupt>): State
  {
    if replies.None? then ProtocolFailure(s, InvalidUser)
    else Complete(s, Completions(s.book.toolNames, s.book.completed, replies.value), interrupt)
  }

  function OnMessage(r: Request, s: State, session: Option<string>, body: Body, interrupt: Option<Interrupt>): State
  {
    if s.result.Some? && !body.Unknown? then
      ProtocolFailure(s, if body.Final? then DuplicateResult else EventAfterResult)
    else if body.Final? && !s.hand.initSeen then ProtocolFailure(s.(result := Some(body)), ResultBeforeInit(body.code))
    else if !body.Unknown? && !s.hand.initSeen then ProtocolFailure(s, InitRequired)
    else if s.hand.initSeen && session.Some? && session.value != s.hand.session then ProtocolFailure(s, SessionMismatch)
    else
      match body
      case Delta(text) =>
        if text.None? then ProtocolFailure(s, InvalidTextDelta)
        else s.(prose := s.prose.(sawPartial := true, text := s.prose.text + text.value))
      case NoDelta => s
      case Assistant(blocks) => OnAssistant(r, s, blocks, interrupt)
      case User(replies) => OnUser(s, replies, interrupt)
      case Final(_, _, _, _) => s.(result := Some(body))
      case Unknown => s
  }

  /** Lines that are looked into: the run goes on, and the limits on lines and events hold. */
  predicate Considered(s: State, line: Line)
  {
    !Stopped(s) && !line.Blank? && !line.TooLong? && s.eventCount < MAX_EVENTS
  }

  function Unread(s: State, line: Line): State
  {
    if Stopped(s) || line.Blank? then s
    else if line.TooLong? then Stop(s, StdoutLimit)
    else Stop(s.(eventCount := s.eventCount + 1), StdoutLimit)
  }

  /** One line; `during` strikes while the workspace of an announcement is looked up. */
  function OnLine(r: Request, s: State, line: Line, during: Option<Cause>, interrupt: Option<Interrupt>): State
  {
    if Considered(s, line) then OnConsidered(r, s, line, during, interrupt) else Unread(s, line)
  }

  function OnConsidered(r: Request, s: State, line: Line, during: Option<Cause>, interrupt: Option<Interrupt>): State
  {
    OnCounted(r, s.(eventCount := s.eventCount + 1), line, during, interrupt)
  }

  function OnCounted(r: Request, s: State, line: Line, during: Option<Cause>, interrupt: Option<Interrupt>): State
  {
    match line
    case NotJson => ProtocolFailure(s, InvalidJson)
    case NotEvent => ProtocolFailure(s, InvalidEvent)
    case InitializeResponse(ok) =>
      if !ok || s.hand.responseSeen then ProtocolFailure(s, InitializeResponseInvalid)
      else MaybeSubmitPrompt(s.(hand := s.hand.(responseSeen := true)))
    case ControlRequest => ProtocolFailure(s, UnexpectedControlRequest)
    case Init(policyOk, session, fingerprint) =>
      OnInit(if during.Some? then Strike(s, during.value) else s, policyOk, session, fingerprint, interrupt)
    case Message(session, body) => OnMessage(r, s, session, body, interrupt)
    case Blank => s
    case TooLong => s
    case KeepAlive => s
  }

  datatype Event =
    | Reads(line: Line, during: Option<Cause>, interrupt: Option<Interrupt>)
    | Strikes(cause: Cause)
    | GraceEnds

  function Step(r: Request, s: State, e: Event): State
  {
    match e
    case Reads(line, during, interrupt) => OnLine(r, s, line, during, interrupt)
    case Strikes(cause) => Strike(s, cause)
    case GraceEnds => SubmitPrompt(s)
  }

  function Run(r: Request, events: seq<Event>): State
  {
    if events == [] then INITIAL else Step(r, Run(r, events[..|events| - 1]), events[|events| - 1])
  }

  // ---------------------------------------------------------------------------------------
  // The end of a run
  // ---------------------------------------------------------------------------------------

  datatype Close = Close(spawnError: bool, exitOk: bool, outputOk: bool, cleanedUp: bool)

  datatype Verdict =
    | SpawnFailed
    | RunCancelled
    | DeadlineExceeded
    | StdoutLimitExceeded
    | StderrLimitExceeded
    | ProtocolBroken(fault: Fault)
    | ProcessFailed
    | NoResponse
    | InitMissing
    | InitializeResponseMissing
    | PromptNotSubmitted
    | ResultMissing
    | ExecutionFailed
    | ToolResultMissing
    | ResultTextMissing
    | OutputInvalid
    | CleanupFailed
    | RunCompleted

  function Decide(s: State, close: Close): Verdict
  {
    if !close.cleanedUp then CleanupFailed
    else if close.spawnError then SpawnFailed
    else if s.halt.reason.Some? then
      match s.halt.reason.value
      case Aborted => RunCancelled
      case Cancelled => RunCancelled
      case Deadline => DeadlineExceeded
      case StdoutLimit => StdoutLimitExceeded
      case StderrLimit => StderrLimitExceeded
    else if s.halt.fault.Some? then ProtocolBroken(s.halt.fault.value)
    else if s.hand.stdinError then ProtocolBroken(StdinFailed)
    else if !close.exitOk then ProcessFailed
    else if s.eventCount == 0 then NoResponse
    else if !s.hand.initSeen then InitMissing
    else if !s.hand.responseSeen then InitializeResponseMissing
    else if !s.hand.promptSubmitted then PromptNotSubmitted
    else if s.result.None? then ResultMissing
    else if !s.result.value.Final? || s.result.value.isError || !s.result.value.success then ExecutionFailed
    else if |s.book.toolNames| != |s.book.completed| then ToolResultMissing
    else if s.result.value.text.None? then ResultTextMissing
    else if !close.outputOk then OutputInvalid
    else RunCompleted
  }

  // ---------------------------------------------------------------------------------------
  // What every step keeps
  // ---------------------------------------------------------------------------------------

  ghost predicate OneStartPerCall(out: seq<HostEvent>)
  {
    forall i, j :: 0 <= i < j < |out| && out[i].ToolStarted? && out[j].ToolStarted? ==> out[i].id != out[j].id
  }

  ghost predicate OneCompletionPerCall(out: seq<HostEvent>)
  {
    forall i, j :: 0 <= i < j < |out| && out[i].ToolCompleted? && out[j].ToolCompleted? ==> out[i].id != out[j].id
  }

  /** The completion at `j` has its start, of the same tool, before it. */
  ghost predicate Begun(out: seq<HostEvent>, j: nat)
    requires j < |out|
  {
    out[j].ToolCompleted? ==> exists i :: 0 <= i < j && out[i] == ToolStarted(out[j].id, out[j].name)
  }

  ghost predicate Ordered(out: seq<HostEvent>)
  {
    && OneStartPerCall(out) && OneCompletionPerCall(out)
    && (forall j: nat | j < |out| :: Begun(out, j))
  }

  /** What is yielded is in the ledger. */
  ghost predicate Booked(out: seq<HostEvent>, toolNames: map<string, string>, completed: set<string>)
  {
    && completed <= toolNames.Keys
    && (forall k :: 0 <= k < |out| && out[k].ToolStarted? ==> out[k].id in toolNames && toolNames[out[k].id] == out[k].name)
    && (forall k :: 0 <= k < |out| && out[k].ToolCompleted? ==> out[k].id in completed)
  }

  /** What is in the ledger is yielded. */
  ghost predicate Told(out: seq<HostEvent>, toolNames: map<string, string>, completed: set<string>)
  {
    && (forall id :: id in toolNames ==> ToolStarted(id, toolNames[id]) in out)
    && (forall id :: id in completed ==> CompletedIn(out, id))
  }

  ghost predicate Inv(s: State)
  {
    && Ordered(s.book.out) && Booked(s.book.out, s.book.toolNames, s.book.completed)
    && (!Stopped(s) ==> Told(s.book.out, s.book.toolNames, s.book.completed))
  }

  // ---------------------------------------------------------------------------------------
  // The tool traffic, as the child wrote it and as it was yielded
  // ---------------------------------------------------------------------------------------

  /** A call begun or answered. */
  datatype Mark = Called(id: string) | Answered(id: string)

  function MarksOf(events: seq<HostEvent>): seq<Mark>
  {
    if events == [] then []
    else
      var before := MarksOf(events[..|events| - 1]);
      match events[|events| - 1]
      case RunStarted => before
      case ToolStarted(id, _) => before + [Called(id)]
      case ToolCompleted(id, _, _) => before + [Answered(id)]
  }

  function BlockMarks(blocks: seq<Block>): seq<Mark>
  {
    if blocks == [] then []
    else if blocks[0].ToolUse? && blocks[0].id.Some? then [Called(blocks[0].id.value)] + BlockMarks(blocks[1..])
    else BlockMarks(blocks[1..])
  }

  function ReplyMarks(replies: seq<Reply>): seq<Mark>
  {
    if replies == [] then []
    else if replies[0].ToolResult? && replies[0].id.Some? then [Answered(replies[0].id.value)] + ReplyMarks(replies[1..])
    else ReplyMarks(replies[1..])
  }

  function LineMarks(line: Line): seq<Mark>
  {
    match line
    case Message(_, Assistant(Some(blocks))) => BlockMarks(blocks)
    case Message(_, User(Some(replies))) => ReplyMarks(replies)
    case _ => []
  }

  /** Every call and answer the child wrote, in order. */
  function Traffic(events: seq<Event>): seq<Mark>
  {
    if events == [] then []
    else
      var before, e := Traffic(events[..|events| - 1]), events[|events| - 1];
      if e.Reads? then before + LineMarks(e.line) else before
  }

  lemma MarksSnoc(events: seq<HostEvent>, e: HostEvent)
    ensures MarksOf(events + [e]) == MarksOf(events) + MarksOf([e])
  {
    assert (events + [e])[..|events|] == events && [e][..0] == [];
  }

  lemma {:induction false} MarksJoin(a: seq<HostEvent>, b: seq<HostEvent>)
    ensures MarksOf(a + b) == MarksOf(a) + MarksOf(b)
  {
    if b == [] {
      assert a + b == a;
    } else {
      var before, e := b[..|b| - 1], b[|b| - 1];
      MarksJoin(a, before);
      MarksSnoc(a + before, e);
      MarksSnoc(before, e);
      assert before + [e] == b && a + before + [e] == a + b;
    }
  }

  lemma {:induction false} StartsMark(r: Request, known: map<string, string>, blocks: seq<Block>)
    ensures var checked := Starts(r, known, blocks); checked.Pending? ==> MarksOf(checked.events) == BlockMarks(blocks)
    decreases |blocks|
  {
    if blocks != [] {
      if blocks[0].ToolUse? {
        var id, name := blocks[0].id, blocks[0].name;
        if id.Some? && name.Some? {
          StartsMark(r, known[id.value := name.value], blocks[1..]);
          MarksCons(ToolStarted(id.value, name.value), Starts(r, known[id.value := name.value], blocks[1..]));
        }
      } else {
        StartsMark(r, known, blocks[1..]);
      }
    }
  }

  lemma MarksCons(e: HostEvent, rest: Checked<seq<HostEvent>>)
    ensures rest.Pending? ==> MarksOf(Before([e], rest).events) == MarksOf([e]) + MarksOf(rest.events)
    ensures e.ToolStarted? ==> MarksOf([e]) == [Called(e.id)]
    ensures e.ToolCompleted? ==> MarksOf([e]) == [Answered(e.id)]
  {
    if rest.Pending? { MarksJoin([e], rest.events); }
    assert [e][..0] == [];
  }

  lemma {:induction false} CompletionsMark(known: map<string, string>, completed: set<string>, replies: seq<Reply>)
    ensures var checked := Completions(known, completed, replies);
      checked.Pending? ==> MarksOf(checked.events) == ReplyMarks(replies)
    decreases |replies|
  {
    if replies != [] {
      match replies[0]
      case BadReply =>
      case OtherReply => CompletionsMark(known, completed, replies[1..]);
      case ToolResult(id, isError) =>
        if id.Some? && id.value in known {
          CompletionsMark(known, completed + {id.value}, replies[1..]);
          MarksCons(ToolCompleted(id.value, known[id.value], isError),
                    Completions(known, completed + {id.value}, replies[1..]));
        }
    }
  }

  /** No tool use, no marks. */
  lemma {:induction false} ProseHasNoMarks(blocks: seq<Block>)
    requires !HasToolUse(blocks)
    ensures BlockMarks(blocks) == []
  {
    if blocks != [] {
      assert forall k :: 0 <= k < |blocks[1..]| ==> blocks[1..][k] == blocks[k + 1];
      ProseHasNoMarks(blocks[1..]);
    }
  }

  // ---------------------------------------------------------------------------------------
  // What a checked message holds
  // ---------------------------------------------------------------------------------------

  ghost predicate FreshStarts(events: seq<HostEvent>, known: map<string, string>)
  {
    && OneStartPerCall(events)
    && (forall k :: 0 <= k < |events| ==> events[k].ToolStarted? && events[k].id !in known)
  }

  lemma {:induction false} StartsAreFresh(r: Request, known: map<string, string>, blocks: seq<Block>)
    ensures Starts(r, known, blocks).Pending? ==> FreshStarts(Starts(r, known, blocks).events, known)
    decreases |blocks|
  {
    if blocks != [] {
      if blocks[0].ToolUse? {
        var id, name := blocks[0].id, blocks[0].name;
        if id.Some? && name.Some? && id.value !in known {
          StartsAreFresh(r, known[id.value := name.value], blocks[1..]);
          var rest := Starts(r, known[id.value := name.value], blocks[1..]);
          if rest.Pending? { OneMoreStart(known, id.value, name.value, rest.events); }
        }
      } else {
        StartsAreFresh(r, known, blocks[1..]);
      }
    }
  }

  lemma OneMoreStart(known: map<string, string>, id: string, name: string, rest: seq<HostEvent>)
    requires id !in known && FreshStarts(rest, known[id := name])
    ensures FreshStarts([ToolStarted(id, name)] + rest, known)
  {
    var all := [ToolStarted(id, name)] + rest;
    assert forall k :: 0 < k < |all| ==> all[k] == rest[k - 1] && all[k].id != id;
  }

  ghost predicate FreshCompletions(events: seq<HostEvent>, known: map<string, string>, completed: set<string>)
  {
    && OneCompletionPerCall(events)
    && (forall k :: 0 <= k < |events| ==>
          events[k].ToolCompleted? && events[k].id in known && events[k].id !in completed
          && events[k].name == known[events[k].id])
  }

  lemma {:induction false} CompletionsAreFresh(known: map<string, string>, completed: set<string>, replies: seq<Reply>)
    ensures Completions(known, completed, replies).Pending? ==>
      FreshCompletions(Completions(known, completed, replies).events, known, completed)
    decreases |replies|
  {
    if replies != [] {
      match replies[0]
      case BadReply =>
      case OtherReply => CompletionsAreFresh(known, completed, replies[1..]);
      case ToolResult(id, isError) =>
        if id.Some? && id.value in known && id.value !in completed {
          CompletionsAreFresh(known, completed + {id.value}, replies[1..]);
          var rest := Completions(known, completed + {id.value}, replies[1..]);
          if rest.Pending? { OneMoreCompletion(known, completed, id.value, isError, rest.events); }
        }
    }
  }

  lemma OneMoreCompletion(known: map<string, string>, completed: set<string>, id: string, isError: bool,
                          rest: seq<HostEvent>)
    requires id in known && id !in completed && FreshCompletions(rest, known, completed + {id})
    ensures FreshCompletions([ToolCompleted(id, known[id], isError)] + rest, known, completed)
  {
    var all := [ToolCompleted(id, known[id], isError)] + rest;
    assert forall k :: 0 < k < |all| ==> all[k] == rest[k - 1] && all[k].id != id;
  }

  lemma {:induction false} EnteredHolds(known: map<string, string>, events: seq<HostEvent>)
    requires FreshStarts(events, known)
    ensures var names := Entered(known, events);
      && (forall id :: id in known ==> id in names && names[id] == known[id])
      && (forall k :: 0 <= k < |events| ==> events[k].id in names && names[events[k].id] == events[k].name)
      && (forall id :: id in names && id !in known ==> ToolStarted(id, names[id]) in events)
    decreases |events|
  {
    if events != [] {
      var e, rest := events[0], events[1..];
      var known' := known[e.id := e.name];
      assert FreshStarts(rest, known') by {
        assert forall k :: 0 <= k < |rest| ==> rest[k] == events[k + 1];
      }
      EnteredHolds(known', rest);
      assert events == [e] + rest;
    }
  }

  lemma BegunStays(out: seq<HostEvent>, more: seq<HostEvent>, j: nat)
    requires j < |out| && Begun(out, j)
    ensures Begun(out + more, j)
  {
    var all := out + more;
    assert all[j] == out[j];
    if out[j].ToolCompleted? {
      var i :| 0 <= i < j && out[i] == ToolStarted(out[j].id, out[j].name);
      assert all[i] == out[i];
    }
  }

  lemma StartsKeepOrder(out: seq<HostEvent>, names: map<string, string>, completed: set<string>, events: seq<HostEvent>)
    requires Ordered(out) && Booked(out, names, completed) && FreshStarts(events, names)
    ensures Ordered(out + events)
  {
    var all := out + events;
    forall j: nat | j < |all|
      ensures Begun(all, j)
    {
      if j < |out| { BegunStays(out, events, j); }
    }
  }

  lemma CompletionsKeepOrder(out: seq<HostEvent>, names: map<string, string>, completed: set<string>, events: seq<HostEvent>)
    requires Ordered(out) && Booked(out, names, completed) && Told(out, names, completed)
    requires FreshCompletions(events, names, completed)
    ensures Ordered(out + events)
  {
    var all := out + events;
    forall j: nat | j < |all|
      ensures Begun(all, j)
    {
      if j < |out| {
        BegunStays(out, events, j);
      } else {
        var e := events[j - |out|];
        var i :| 0 <= i < |out| && out[i] == ToolStarted(e.id, names[e.id]);
        assert all[i] == out[i] && all[j] == e;
      }
    }
  }

  lemma CompletedStays(out: seq<HostEvent>, more: seq<HostEvent>, id: string)
    requires CompletedIn(out, id)
    ensures CompletedIn(out + more, id)
  {
    var k :| 0 <= k < |out| && out[k].ToolCompleted? && out[k].id == id;
    assert (out + more)[k] == out[k];
  }

  /** A part of the starts may be all that is yielded; the names are entered all. */
  lemma StartsBook(out: seq<HostEvent>, names: map<string, string>, completed: set<string>, events: seq<HostEvent>, n: nat)
    requires Booked(out, names, completed) && FreshStarts(events, names) && n <= |events|
    ensures Booked(out + events[..n], Entered(names, events), completed)
  {
    EnteredHolds(names, events);
  }

  lemma StartsTell(out: seq<HostEvent>, names: map<string, string>, completed: set<string>, events: seq<HostEvent>)
    requires Told(out, names, completed) && FreshStarts(events, names)
    ensures Told(out + events, Entered(names, events), completed)
  {
    EnteredHolds(names, events);
    forall id | id in completed
      ensures CompletedIn(out + events, id)
    {
      CompletedStays(out, events, id);
    }
  }

  lemma CompletionsBook(out: seq<HostEvent>, names: map<string, string>, completed: set<string>, events: seq<HostEvent>,
                        n: nat)
    requires Booked(out, names, completed) && FreshCompletions(events, names, completed) && n <= |events|
    ensures Booked(out + events[..n], names, completed + Ids(events))
  {
  }

  lemma CompletionsTell(out: seq<HostEvent>, names: map<string, string>, completed: set<string>, events: seq<HostEvent>)
    requires Told(out, names, completed)
    ensures Told(out + events, names, completed + Ids(events))
  {
    forall id | id in completed + Ids(events)
      ensures CompletedIn(out + events, id)
    {
      if id in completed {
        CompletedStays(out, events, id);
      } else {
        var k :| 0 <= k < |events| && events[k].ToolCompleted? && events[k].id == id;
        assert (out + events)[|out| + k] == events[k];
      }
    }
  }

  lemma StartedKeeps(out: seq<HostEvent>, names: map<string, string>, completed: set<string>)
    requires Ordered(out) && Booked(out, names, completed)
    ensures Ordered(out + [RunStarted]) && Booked(out + [RunStarted], names, completed)
    ensures Told(out, names, completed) ==> Told(out + [RunStarted], names, completed)
  {
    forall j: nat | j < |out|
      ensures Begun(out + [RunStarted], j)
    {
      BegunStays(out, [RunStarted], j);
    }
    forall id | CompletedIn(out, id)
      ensures CompletedIn(out + [RunStarted], id)
    {
      CompletedStays(out, [RunStarted], id);
    }
  }

  // Every step is one of four changes to the ledger and the yields.

  datatype Change =
    | Nothing
    | Announced
    | Begins(events: seq<HostEvent>, n: nat)
    | Completes(events: seq<HostEvent>, n: nat)

  function EventsOf(c: Change): seq<HostEvent>
  {
    match c
    case Begins(events, _) => events
    case Completes(events, _) => events
    case _ => []
  }

  /** What a change yields when nothing stops it is the traffic `marks`. */
  predicate Tells(s': State, c: Change, marks: seq<Mark>)
  {
    !Stopped(s') ==> MarksOf(EventsOf(c)) == marks
  }

  ghost predicate Changes(s: State, s': State, c: Change)
  {
    && (Stopped(s) ==> Stopped(s') && c == Nothing)
    && match c
       case Nothing => s'.book == s.book
       case Announced => s'.book == s.book.(out := s.book.out + [RunStarted])
       case Begins(events, n) =>
         && FreshStarts(events, s.book.toolNames) && n <= |events| && (n < |events| ==> Stopped(s'))
         && s'.book.out == s.book.out + events[..n] && s'.book.toolNames == Entered(s.book.toolNames, events)
         && s'.book.completed == s.book.completed
       case Completes(events, n) =>
         && FreshCompletions(events, s.book.toolNames, s.book.completed) && n <= |events| && (n < |events| ==> Stopped(s'))
         && s'.book.out == s.book.out + events[..n] && s'.book.toolNames == s.book.toolNames
         && s'.book.completed == s.book.completed + Ids(events)
  }

  lemma BeginsKeep(s: State, s': State, events: seq<HostEvent>, n: nat)
    requires Inv(s) && Changes(s, s', Begins(events, n))
    ensures Inv(s')
  {
    StartsKeepOrder(s.book.out, s.book.toolNames, s.book.completed, events[..n]);
    StartsBook(s.book.out, s.book.toolNames, s.book.completed, events, n);
    if n == |events| {
      assert events[..n] == events;
      StartsTell(s.book.out, s.book.toolNames, s.book.completed, events);
    }
  }

  lemma CompletesKeep(s: State, s': State, events: seq<HostEvent>, n: nat)
    requires Inv(s) && Changes(s, s', Completes(events, n))
    ensures Inv(s')
  {
    CompletionsKeepOrder(s.book.out, s.book.toolNames, s.book.completed, events[..n]);
    CompletionsBook(s.book.out, s.book.toolNames, s.book.completed, events, n);
    if n == |events| {
      assert events[..n] == events;
      CompletionsTell(s.book.out, s.book.toolNames, s.book.completed, events);
    }
  }

  lemma ChangeKeepsInv(s: State, s': State, c: Change)
    requires Inv(s) && Changes(s, s', c)
    ensures Inv(s')
  {
    match c
    case Nothing =>
    case Announced => StartedKeeps(s.book.out, s.book.toolNames, s.book.completed);
    case Begins(events, n) => BeginsKeep(s, s', events, n);
    case Completes(events, n) => CompletesKeep(s, s', events, n);
  }

  function Count(events: seq<HostEvent>, interrupt: Option<Interrupt>): nat
  {
    if interrupt.Some? && interrupt.value.at < |events| then interrupt.value.at + 1 else |events|
  }

  lemma YieldedIs(s: State, events: seq<HostEvent>, interrupt: Option<Interrupt>)
    ensures var s', n := Yielded(s, events, interrupt), Count(events, interrupt);
      && s'.book == s.book.(out := s.book.out + events[..n])
      && (n < |events| ==> Stopped(s'))
  {
    assert events[..|events|] == events;
  }

  lemma BeginChanges(s: State, checked: Checked<seq<HostEvent>>, interrupt: Option<Interrupt>) returns (c: Change)
    requires !Stopped(s) && (checked.Pending? ==> FreshStarts(checked.events, s.book.toolNames))
    ensures Changes(s, Begin(s, checked, interrupt), c)
    ensures checked.Pending? ==> EventsOf(c) == checked.events
    ensures checked.Rejected? ==> Stopped(Begin(s, checked, interrupt))
  {
    c := Nothing;
    if checked.Pending? {
      YieldedIs(s.(book := s.book.(toolNames := Entered(s.book.toolNames, checked.events))), checked.events, interrupt);
      c := Begins(checked.events, Count(checked.events, interrupt));
    }
  }

  lemma CompleteChanges(s: State, checked: Checked<seq<HostEvent>>, interrupt: Option<Interrupt>) returns (c: Change)
    requires !Stopped(s) && (checked.Pending? ==> FreshCompletions(checked.events, s.book.toolNames, s.book.completed))
    ensures Changes(s, Complete(s, checked, interrupt), c)
    ensures checked.Pending? ==> EventsOf(c) == checked.events
    ensures checked.Rejected? ==> Stopped(Complete(s, checked, interrupt))
  {
    c := Nothing;
    if checked.Pending? {
      YieldedIs(s.(book := s.book.(completed := s.book.completed + Ids(checked.events))), checked.events, interrupt);
      c := Completes(checked.events, Count(checked.events, interrupt));
    }
  }

  lemma AssistantChanges(r: Request, s: State, blocks: Option<seq<Block>>, interrupt: Option<Interrupt>) returns (c: Change)
    requires !Stopped(s)
    ensures Changes(s, OnAssistant(r, s, blocks, interrupt), c)
    ensures Tells(OnAssistant(r, s, blocks, interrupt), c, if blocks.Some? then BlockMarks(blocks.value) else [])
  {
    c := Nothing;
    if blocks.Some? && NotRecord !in blocks.value && HasToolUse(blocks.value) {
      StartsAreFresh(r, s.book.toolNames, blocks.value);
      StartsMark(r, s.book.toolNames, blocks.value);
      c := BeginChanges(s, Starts(r, s.book.toolNames, blocks.value), interrupt);
    } else if blocks.Some? && NotRecord !in blocks.value {
      ProseHasNoMarks(blocks.value);
    }
  }

  lemma UserChanges(s: State, replies: Option<seq<Reply>>, interrupt: Option<Interrupt>) returns (c: Change)
    requires !Stopped(s)
    ensures Changes(s, OnUser(s, replies, interrupt), c)
    ensures Tells(OnUser(s, replies, interrupt), c, if replies.Some? then ReplyMarks(replies.value) else [])
  {
    c := Nothing;
    if replies.Some? {
      CompletionsAreFresh(s.book.toolNames, s.book.completed, replies.value);
      CompletionsMark(s.book.toolNames, s.book.completed, replies.value);
      c := CompleteChanges(s, Completions(s.book.toolNames, s.book.completed, replies.value), interrupt);
    }
  }

  lemma MessageChanges(r: Request, s: State, session: Option<string>, body: Body, interrupt: Option<Interrupt>)
    returns (c: Change)
    requires !Stopped(s)
    ensures Changes(s, OnMessage(r, s, session, body, interrupt), c)
    ensures Tells(OnMessage(r, s, session, body, interrupt), c, LineMarks(Message(session, body)))
  {
    c := Nothing;
    if s.result.None? && s.hand.initSeen && (session.None? || session.value == s.hand.session) {
      if body.Assistant? { c := AssistantChanges(r, s, body.blocks, interrupt); }
      if body.User? { c := UserChanges(s, body.replies, interrupt); }
    }
  }

  lemma InitChanges(s: State, policyOk: bool, session: Option<string>, fingerprint: string, interrupt: Option<Interrupt>)
    returns (c: Change)
    ensures Changes(s, OnInit(s, policyOk, session, fingerprint, interrupt), c) && EventsOf(c) == []
  {
    assert [RunStarted][..1] == [RunStarted];
    c := if OnInit(s, policyOk, session, fingerprint, interrupt).book == s.book then Nothing else Announced;
  }

  lemma CountedChanges(r: Request, s: State, line: Line, during: Option<Cause>, interrupt: Option<Interrupt>)
    returns (c: Change)
    requires !Stopped(s)
    ensures Changes(s, OnCounted(r, s, line, during, interrupt), c)
    ensures Tells(OnCounted(r, s, line, during, interrupt), c, LineMarks(line))
  {
    c := Nothing;
    if line.Init? {
      var struck := if during.Some? then Strike(s, during.value) else s;
      c := InitChanges(struck, line.policyOk, line.session, line.fingerprint, interrupt);
    } else if line.Message? {
      c := MessageChanges(r, s, line.session, line.body, interrupt);
    }
  }

  lemma Recounted(s: State, s': State, n: nat, c: Change)
    requires Changes(s.(eventCount := n), s', c)
    ensures Changes(s, s', c)
  {
  }

  lemma LineIs(r: Request, s: State, line: Line, during: Option<Cause>, interrupt: Option<Interrupt>)
    ensures var s' := OnLine(r, s, line, during, interrupt);
      if Considered(s, line)
      then s' == OnCounted(r, s.(eventCount := s.eventCount + 1), line, during, interrupt)
      else && s'.book == s.book
           && (Stopped(s) ==> Stopped(s')) && (line.Message? ==> Stopped(s'))
  {
  }

  lemma LineChanges(r: Request, s: State, line: Line, during: Option<Cause>, interrupt: Option<Interrupt>)
    returns (c: Change)
    ensures Changes(s, OnLine(r, s, line, during, interrupt), c)
    ensures Tells(OnLine(r, s, line, during, interrupt), c, LineMarks(line))
  {
    LineIs(r, s, line, during, interrupt);
    if Considered(s, line) {
      var counted := s.(eventCount := s.eventCount + 1);
      c := CountedChanges(r, counted, line, during, interrupt);
      Recounted(s, OnLine(r, s, line, during, interrupt), s.eventCount + 1, c);
    } else {
      c := Nothing;
    }
  }

  lemma StepChanges(r: Request, s: State, e: Event) returns (c: Change)
    ensures Changes(s, Step(r, s, e), c)
    ensures Tells(Step(r, s, e), c, if e.Reads? then LineMarks(e.line) else [])
  {
    c := Nothing;
    if e.Reads? { c := LineChanges(r, s, e.line, e.during, e.interrupt); }
  }

  lemma {:induction false} EveryRunKeepsInv(r: Request, events: seq<Event>)
    ensures Inv(Run(r, events))
  {
    if events != [] {
      var before, e := Run(r, events[..|events| - 1]), events[|events| - 1];
      EveryRunKeepsInv(r, events[..|events| - 1]);
      var c := StepChanges(r, before, e);
      ChangeKeepsInv(before, Step(r, before, e), c);
    }
  }

  // ---------------------------------------------------------------------------------------
  // Whole runs
  // ---------------------------------------------------------------------------------------

  /** While a run is not stopped, the tool events yielded are the child's tool traffic: no call and no answer
      is lost, added or reordered. */
  lemma {:induction false} YieldsAreTheTraffic(r: Request, events: seq<Event>)
    ensures !Stopped(Run(r, events)) ==> MarksOf(Run(r, events).book.out) == Traffic(events)
  {
    if events != [] {
      var before, e := Run(r, events[..|events| - 1]), events[|events| - 1];
      YieldsAreTheTraffic(r, events[..|events| - 1]);
      var c := StepChanges(r, before, e);
      if !Stopped(Step(r, before, e)) { MarksGrow(before, Step(r, before, e), c); }
    }
  }

  lemma MarksGrow(s: State, s': State, c: Change)
    requires Changes(s, s', c) && !Stopped(s')
    ensures MarksOf(s'.book.out) == MarksOf(s.book.out) + MarksOf(EventsOf(c))
  {
    match c
    case Nothing =>
    case Announced => MarksSnoc(s.book.out, RunStarted);
    case Begins(events, n) =>
      assert events[..|events|] == events;
      MarksJoin(s.book.out, events);
    case Completes(events, n) =>
      assert events[..|events|] == events;
      MarksJoin(s.book.out, events);
  }

  /** Started and completed calls correspond one to one, by id and tool, each start before its completion. */
  ghost predicate Paired(out: seq<HostEvent>)
  {
    && Ordered(out)
    && forall i: nat | i < |out| :: Answers(out, i)
  }

  ghost predicate Answers(out: seq<HostEvent>, i: nat)
    requires i < |out|
  {
    out[i].ToolStarted? ==>
      exists j :: i < j < |out| && out[j].ToolCompleted? && out[j].id == out[i].id && out[j].name == out[i].name
  }

  lemma FullLedgerIsPaired(out: seq<HostEvent>, names: map<string, string>, completed: set<string>)
    requires Ordered(out) && Booked(out, names, completed) && Told(out, names, completed)
    requires |names| == |completed|
    ensures Paired(out)
  {
    SameSize(completed, names.Keys);
    forall i: nat | i < |out|
      ensures Answers(out, i)
    {
      if out[i].ToolStarted? {
        assert CompletedIn(out, out[i].id);
        var j :| 0 <= j < |out| && out[j].ToolCompleted? && out[j].id == out[i].id;
        assert Begun(out, j);
        var k :| 0 <= k < j && out[k] == ToolStarted(out[j].id, out[j].name);
        assert k == i;
      }
    }
  }

  lemma SameSize<T>(a: set<T>, b: set<T>)
    requires a <= b && |a| == |b|
    ensures a == b
  {
    assert b == a + (b - a);
    assert |b| == |a| + |b - a|;
  }

  lemma CompletedMeans(s: State, close: Close)
    requires Decide(s, close) == RunCompleted
    ensures !Stopped(s) && close.exitOk && s.result.Some? && s.result.value.Final? && s.result.value.text.Some?
    ensures |s.book.toolNames| == |s.book.completed|
  {
  }

  /** A completed run: it was never stopped, the child ended well, every yielded call is answered and every
      answer belongs to a call, and these are exactly the calls and answers the child wrote. */
  lemma CompletedRunsPairTools(r: Request, events: seq<Event>, close: Close)
    requires Decide(Run(r, events), close) == RunCompleted
    ensures var s := Run(r, events);
      && !Stopped(s) && close.exitOk && s.result.Some? && s.result.value.Final? && s.result.value.text.Some?
      && Paired(s.book.out)
      && MarksOf(s.book.out) == Traffic(events)
  {
    EveryRunKeepsInv(r, events);
    YieldsAreTheTraffic(r, events);
    CompletedMeans(Run(r, events), close);
    var b := Run(r, events).book;
    FullLedgerIsPaired(b.out, b.toolNames, b.completed);
  }

  /** Where a started call stays open, the run does not complete. */
  lemma OpenCallsFail(r: Request, events: seq<Event>, close: Close, id: string)
    requires id in Run(r, events).book.toolNames && id !in Run(r, events).book.completed
    ensures Decide(Run(r, events), close) != RunCompleted
  {
    EveryRunKeepsInv(r, events);
    var b := Run(r, events).book;
    if |b.toolNames| == |b.completed| { SameSize(b.completed, b.toolNames.Keys); }
  }

  /** A line that is itself at fault leaves ledger, yields and text as they were; and once stopped, nothing
      is entered or yielded again. */
  lemma RejectedLineAddsNothing(r: Request, s: State, line: Line)
    requires !Stopped(s)
    ensures var s' := OnLine(r, s, line, None, None);
      Stopped(s') ==> s'.book == s.book && s'.prose == s.prose
  {
    LineIs(r, s, line, None, None);
  }

  lemma {:induction false} StoppedStays(r: Request, events: seq<Event>, n: nat)
    requires n <= |events| && Stopped(Run(r, events[..n]))
    ensures Stopped(Run(r, events)) && Run(r, events).book == Run(r, events[..n]).book
  {
    if n < |events| {
      var before := events[..|events| - 1];
      assert before[..n] == events[..n];
      StoppedStays(r, before, n);
      var c := StepChanges(r, Run(r, before), events[|events| - 1]);
    } else {
      assert events[..n] == events;
    }
  }

  // ---------------------------------------------------------------------------------------
  // The loop in place
  // ---------------------------------------------------------------------------------------

  class StreamLoop {
    const request: Request
    var toolNames: map<string, string>
    var completedTools: set<string>
    var out: seq<HostEvent>
    var halt: Halt
    var hand: Handshake
    var prose: Prose
    var resultEvent: Option<Body>
    var eventCount: nat

    ghost function Model(): State
      reads this
    {
      State(Book(toolNames, completedTools, out), halt, hand, prose, resultEvent, eventCount)
    }

    constructor (request: Request)
      ensures this.request == request && Model() == INITIAL
    {
      this.request := request;
      toolNames, completedTools, out := map[], {}, [];
      halt, hand := Halt(None, None), Handshake(false, false, false, false, "", "");
      prose, resultEvent, eventCount := Prose(false, "", ""), None, 0;
    }

    method Fail(fault: Fault)
      modifies this`halt
      ensures Model() == ProtocolFailure(old(Model()), fault)
    {
      if halt.fault.None? { halt := halt.(fault := Some(fault)); }
    }

    method Halted() returns (stopped: bool)
      ensures stopped == Stopped(Model())
    {
      stopped := halt.fault.Some? || halt.reason.Some?;
    }

    method StopFor(reason: Reason)
      modifies this`halt
      ensures Model() == Stop(old(Model()), reason)
    {
      var stopped := Halted();
      if !stopped { halt := halt.(reason := Some(reason)); }
    }

    method StrikeWith(cause: Cause)
      modifies this`halt, this`hand
      ensures Model() == Strike(old(Model()), cause)
    {
      match cause {
        case Stops(reason) => StopFor(reason);
        case StdinBreaks =>
          hand := hand.(stdinError := true);
          Fail(StdinFailed);
      }
    }

    method Submit()
      modifies this`hand
      ensures Model() == SubmitPrompt(old(Model()))
    {
      var stopped := Halted();
      if !hand.promptSubmitted && !hand.stdinError && !stopped { hand := hand.(promptSubmitted := true); }
    }

    method MaybeSubmit()
      modifies this`hand
      ensures Model() == MaybeSubmitPrompt(old(Model()))
    {
      if hand.initSeen && hand.responseSeen { Submit(); }
    }

    /** Yields one by one; a cause may strike while an event is out. */
    method YieldAll(events: seq<HostEvent>, interrupt: Option<Interrupt>)
      requires !Stopped(Model())
      modifies this`out, this`halt, this`hand
      ensures Model() == Yielded(old(Model()), events, interrupt)
    {
      var k := 0;
      var stopped := false;
      assert out == out + events[..0];
      while k < |events| && !stopped
        invariant 0 <= k <= |events|
        invariant out == old(out) + events[..k]
        invariant stopped == Stopped(Model())
        invariant toolNames == old(toolNames) && completedTools == old(completedTools) && prose == old(prose)
        invariant resultEvent == old(resultEvent) && eventCount == old(eventCount)
        invariant if interrupt.Some? && interrupt.value.at < k
                  then && k == interrupt.value.at + 1
                       && Model() == Strike(old(Model()).(book := Model().book), interrupt.value.cause)
                  else halt == old(halt) && hand == old(hand)
      {
        assert events[..k] + [events[k]] == events[..k + 1];
        out := out + [events[k]];
        if interrupt.Some? && interrupt.value.at == k {
          assert Model() == old(Model()).(book := Book(toolNames, completedTools, out));
          StrikeWith(interrupt.value.cause);
        }
        k := k + 1;
        stopped := Halted();
      }
      assert events[..|events|] == events;
    }

    /** The calls of an assistant message, collected before any is entered. */
    method CollectStarts(blocks: seq<Block>) returns (checked: Checked<seq<HostEvent>>)
      ensures checked == Starts(request, toolNames, blocks)
    {
      var i, pending, pendingToolNames := 0, [], map[];
      ghost var known := toolNames;
      assert blocks[0..] == blocks && toolNames + map[] == toolNames;
      BeforeNothing(Starts(request, toolNames, blocks));
      while i < |blocks|
        invariant 0 <= i <= |blocks|
        invariant Starts(request, toolNames, blocks) == Before(pending, Starts(request, known, blocks[i..]))
        invariant known == toolNames + pendingToolNames
      {
        var block := blocks[i];
        assert blocks[i..][0] == block && blocks[i..][1..] == blocks[i + 1..];
        if block.ToolUse? {
          if block.id.None? || block.name.None? || block.name.value !in request.tools { return Rejected(ToolMismatch); }
          var id, name := block.id.value, block.name.value;
          if id in toolNames || id in pendingToolNames { return Rejected(DuplicateToolCall); }
          if request.sensitive(id) { return Rejected(SensitiveToolCallId); }
          known := known[id := name];
          BeforeJoins(pending, [ToolStarted(id, name)], Starts(request, known, blocks[i + 1..]));
          pendingToolNames := pendingToolNames[id := name];
          pending := pending + [ToolStarted(id, name)];
        }
        i := i + 1;
      }
      assert pending + [] == pending;
      checked := Pending(pending);
    }

    /** The answers of a user message, collected before any is entered. */
    method CollectCompletions(replies: seq<Reply>) returns (checked: Checked<seq<HostEvent>>)
      ensures checked == Completions(toolNames, completedTools, replies)
    {
      var i, pending, pendingCompleted := 0, [], {};
      assert replies[0..] == replies && completedTools + {} == completedTools;
      BeforeNothing(Completions(toolNames, completedTools, replies));
      while i < |replies|
        invariant 0 <= i <= |replies|
        invariant Completions(toolNames, completedTools, replies)
               == Before(pending, Completions(toolNames, completedTools + pendingCompleted, replies[i..]))
      {
        var reply := replies[i];
        assert replies[i..][0] == reply && replies[i..][1..] == replies[i + 1..];
        if reply.BadReply? { return Rejected(InvalidUserBlock); }
        if reply.ToolResult? {
          if reply.id.None? || reply.id.value !in toolNames || reply.id.value in completedTools
             || reply.id.value in pendingCompleted
          {
            return Rejected(UnknownToolResult);
          }
          var e := ToolCompleted(reply.id.value, toolNames[reply.id.value], reply.isError);
          assert completedTools + pendingCompleted + {e.id} == completedTools + (pendingCompleted + {e.id});
          BeforeJoins(pending, [e],
                      Completions(toolNames, completedTools + pendingCompleted + {e.id}, replies[i + 1..]));
          pendingCompleted, pending := pendingCompleted + {e.id}, pending + [e];
        }
        i := i + 1;
      }
      assert pending + [] == pending;
      checked := Pending(pending);
    }

    method CollectTexts(blocks: seq<Block>) returns (checked: Checked<(string, string)>)
      ensures checked == Texts(blocks, prose.snapshot, "")
    {
      var i, snapshot, pending := 0, prose.snapshot, "";
      assert blocks[0..] == blocks;
      while i < |blocks|
        invariant 0 <= i <= |blocks|
        invariant Texts(blocks, prose.snapshot, "") == Texts(blocks[i..], snapshot, pending)
      {
        var block := blocks[i];
        assert blocks[i..][0] == block && blocks[i..][1..] == blocks[i + 1..];
        if block.Text? {
          if block.text.None? { return Rejected(InvalidAssistantText); }
          var text := block.text.value;
          pending := pending + if StartsWith(text, snapshot) then text[|snapshot|..] else text;
          snapshot := text;
        }
        i := i + 1;
      }
      checked := Pending((snapshot, pending));
    }

    method HandleAssistant(blocks: Option<seq<Block>>, interrupt: Option<Interrupt>)
      requires !Stopped(Model())
      modifies this
      ensures Model() == OnAssistant(request, old(Model()), blocks, interrupt)
    {
      if blocks.None? { Fail(InvalidAssistant); return; }
      if NotRecord in blocks.value { Fail(InvalidAssistantBlock); return; }
      if HasToolUse(blocks.value) {
        var checked := CollectStarts(blocks.value);
        if checked.Rejected? { Fail(checked.fault); return; }
        Enter(checked.events);
        YieldAll(checked.events, interrupt);
      } else if !prose.sawPartial {
        var checked := CollectTexts(blocks.value);
        if checked.Rejected? { Fail(checked.fault); return; }
        prose := prose.(snapshot := checked.events.0, text := prose.text + checked.events.1);
      }
    }

    method Enter(events: seq<HostEvent>)
      modifies this`toolNames
      ensures toolNames == Entered(old(toolNames), events)
    {
      var k := 0;
      assert events[0..] == events;
      while k < |events|
        invariant 0 <= k <= |events| && Entered(old(toolNames), events) == Entered(toolNames, events[k..])
      {
        assert events[k..][0] == events[k] && events[k..][1..] == events[k + 1..];
        if events[k].ToolStarted? { toolNames := toolNames[events[k].id := events[k].name]; }
        k := k + 1;
      }
    }

    method HandleUser(replies: Option<seq<Reply>>, interrupt: Option<Interrupt>)
      requires !Stopped(Model())
      modifies this
      ensures Model() == OnUser(old(Model()), replies, interrupt)
    {
      if replies.None? { Fail(InvalidUser); return; }
      var checked := CollectCompletions(replies.value);
      if checked.Rejected? { Fail(checked.fault); return; }
      completedTools := completedTools + Ids(checked.events);
      YieldAll(checked.events, interrupt);
    }

    method HandleInit(policyOk: bool, session: Option<string>, fingerprint: string, interrupt: Option<Interrupt>)
      modifies this
      ensures Model() == OnInit(old(Model()), policyOk, session, fingerprint, interrupt)
    {
      if session.None? || session.value == "" { Fail(SessionIdMissing); return; }
      if !policyOk { Fail(PolicyMismatch); return; }
      if hand.initSeen {
        if fingerprint != hand.fingerprint { Fail(DuplicateInit); }
        return;
      }
      hand := hand.(initSeen := true, fingerprint := fingerprint, session := session.value);
      MaybeSubmit();
      var stopped := Halted();
      if !stopped { YieldAll([RunStarted], interrupt); }
    }

    method HandleMessage(session: Option<string>, body: Body, interrupt: Option<Interrupt>)
      requires !Stopped(Model())
      modifies this
      ensures Model() == OnMessage(request, old(Model()), session, body, interrupt)
    {
      if resultEvent.Some? && !body.Unknown? {
        Fail(if body.Final? then DuplicateResult else EventAfterResult);
      } else if body.Final? && !hand.initSeen {
        resultEvent := Some(body);
        Fail(ResultBeforeInit(body.code));
      } else if !body.Unknown? && !hand.initSeen {
        Fail(InitRequired);
      } else if hand.initSeen && session.Some? && session.value != hand.session {
        Fail(SessionMismatch);
      } else {
        match body {
          case Delta(text) =>
            if text.None? { Fail(InvalidTextDelta); return; }
            prose := prose.(sawPartial := true, text := prose.text + text.value);
          case Assistant(blocks) => HandleAssistant(blocks, interrupt);
          case User(replies) => HandleUser(replies, interrupt);
          case Final(_, _, _, _) => resultEvent := Some(body);
          case NoDelta =>
          case Unknown =>
        }
      }
    }

    /** A line that is not looked into; at a limit it stops the run. */
    method Skip(line: Line)
      requires !Considered(Model(), line)
      modifies this`halt, this`eventCount
      ensures Model() == Unread(old(Model()), line)
    {
      var stopped := Halted();
      if stopped || line.Blank? { return; }
      if !line.TooLong? { eventCount := eventCount + 1; }
      StopFor(StdoutLimit);
    }

    method ReadLine(line: Line, during: Option<Cause>, interrupt: Option<Interrupt>)
      modifies this
      ensures Model() == OnLine(request, old(Model()), line, during, interrupt)
    {
      var stopped := Halted();
      if stopped || line.Blank? || line.TooLong? || eventCount >= MAX_EVENTS {
        Skip(line);
      } else {
        HandleConsidered(line, during, interrupt);
      }
    }

    method HandleConsidered(line: Line, during: Option<Cause>, interrupt: Option<Interrupt>)
      requires !Stopped(Model())
      modifies this
      ensures Model() == OnConsidered(request, old(Model()), line, during, interrupt)
    {
      eventCount := eventCount + 1;
      match line {
        case NotJson => Fail(InvalidJson);
        case NotEvent => Fail(InvalidEvent);
        case InitializeResponse(ok) =>
          if !ok || hand.responseSeen { Fail(InitializeResponseInvalid); return; }
          hand := hand.(responseSeen := true);
          MaybeSubmit();
        case ControlRequest => Fail(UnexpectedControlRequest);
        case Init(policyOk, session, fingerprint) =>
          if during.Some? { StrikeWith(during.value); }
          HandleInit(policyOk, session, fingerprint, interrupt);
        case Message(session, body) => HandleMessage(session, body, interrupt);
        case Blank =>
        case TooLong =>
        case KeepAlive =>
      }
    }
  }

  lemma BeforeNothing(checked: Checked<seq<HostEvent>>)
    ensures Before([], checked) == checked
  {
    if checked.Pending? { assert [] + checked.events == checked.events; }
  }

  lemma BeforeJoins(a: seq<HostEvent>, b: seq<HostEvent>, checked: Checked<seq<HostEvent>>)
    ensures Before(a + b, checked) == Before(a, Before(b, checked))
  {
    if checked.Pending? { assert a + b + checked.events == a + (b + checked.events); }
  }
}
