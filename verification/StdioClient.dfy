/** The client of an external agent host on its standard streams: newline framing over arbitrary
    chunks, demultiplexing by exchange id, one queue per run with a single wake-up, and the contract
    that a run ends with exactly one terminal event.

    Ids are their sequence numbers.  Parsing a line is an arbitrary function; the host is whatever
    sends the chunks. */
module StdioClient {

  import opened Options
  import opened Framing

  /** The codes of this client; `HostCode` is what a host reports. */
  datatype Code =
    | BadFraming
    | StreamFailed
    | EventInvalid
    | HostError
    | OutputSchemaMismatch
    | ContractViolated
    | HostCode(text: string)

  datatype HostEvent = Progress(text: string) | Completed(output: string) | RunFailed(code: Code)

  datatype Message = EventFor(id: nat, event: HostEvent) | ResponseTo(id: nat, ok: bool) | Other(id: nat)

  type Parser = string -> Option<Message>

  // ---------------------------------------------------------------------------------------
  // One stream
  // ---------------------------------------------------------------------------------------

  /** What a reader is given.  `arrived` is history: how many messages had come for the stream by then. */
  datatype Delivery = Got(message: Message) | Failed(code: Code, arrived: nat) | Ended

  /** A run's queue; `waiting` is the pending `notify`.  `arrived` and `out` are history: how many messages came,
      and what the reader was given so far. */
  datatype Stream = Stream(
    queue: seq<Message>,
    waiting: bool,
    closed: bool,
    failure: Option<Code>,
    arrived: nat,
    out: seq<Delivery>)

  const NEW_STREAM := Stream([], false, false, None, 0, [])

  function Take(c: Stream): Stream
  {
    if c.queue != [] then c.(queue := c.queue[1..], out := c.out + [Got(c.queue[0])])
    else if c.failure.Some? then c.(out := c.out + [Failed(c.failure.value, c.arrived)])
    else c.(out := c.out + [Ended])
  }

  /** `nextMessage` */
  function Next(c: Stream): Stream
  {
    if c.queue != [] || c.failure.Some? || c.closed then Take(c) else c.(waiting := true)
  }

  function Wake(c: Stream): Stream
  {
    if c.waiting then Take(c.(waiting := false)) else c
  }

  function Push(c: Stream, m: Message): Stream { Wake(c.(queue := c.queue + [m], arrived := c.arrived + 1)) }

  function Fail(c: Stream, code: Code): Stream
  {
    Wake(c.(failure := if c.failure.Some? then c.failure else Some(code), closed := true))
  }

  function Gots(out: seq<Delivery>): seq<Message>
  {
    if out == [] then []
    else if out[|out| - 1].Got? then Gots(out[..|out| - 1]) + [out[|out| - 1].message]
    else Gots(out[..|out| - 1])
  }

  lemma GotsSnoc(out: seq<Delivery>, d: Delivery)
    ensures Gots(out + [d]) == if d.Got? then Gots(out) + [d.message] else Gots(out)
  {
    assert (out + [d])[..|out|] == out;
  }

  /** A failure is given only when every message that had come was given before. */
  ghost predicate FailuresLast(out: seq<Delivery>)
  {
    forall i :: 0 <= i < |out| && out[i].Failed? ==> |Gots(out[..i])| == out[i].arrived
  }

  lemma FailuresLastSnoc(out: seq<Delivery>, d: Delivery)
    requires FailuresLast(out) && (d.Failed? ==> |Gots(out)| == d.arrived)
    ensures FailuresLast(out + [d])
  {
    var all := out + [d];
    forall i | 0 <= i < |all| && all[i].Failed?
      ensures |Gots(all[..i])| == all[i].arrived
    {
      assert all[..i] == out[..i];
      assert out[..|out|] == out;
    }
  }

  /** What the reader was given, followed by what is queued, is what was addressed to the stream; a
      reader only waits when there is nothing to give it; a stream closes only with a failure, so the
      end without a terminal is never delivered. */
  ghost predicate StreamInv(c: Stream, addressed: seq<Message>)
  {
    && Gots(c.out) + c.queue == addressed
    && (c.waiting ==> c.queue == [] && c.failure.None?)
    && (c.closed <==> c.failure.Some?)
    && Ended !in c.out
    && c.arrived == |addressed| && FailuresLast(c.out)
  }

  lemma TakeKeeps(c: Stream, addressed: seq<Message>)
    requires StreamInv(c, addressed) && (c.queue != [] || c.failure.Some?)
    ensures StreamInv(Take(c), addressed)
  {
    if c.queue != [] {
      GotsSnoc(c.out, Got(c.queue[0]));
      FailuresLastSnoc(c.out, Got(c.queue[0]));
      assert Gots(c.out) + [c.queue[0]] + c.queue[1..] == Gots(c.out) + c.queue;
    } else {
      var failed := Failed(c.failure.value, c.arrived);
      GotsSnoc(c.out, failed);
      FailuresLastSnoc(c.out, failed);
    }
  }

  lemma NextKeeps(c: Stream, addressed: seq<Message>)
    requires StreamInv(c, addressed)
    ensures StreamInv(Next(c), addressed)
  {
    if c.queue != [] || c.failure.Some? { TakeKeeps(c, addressed); }
  }

  lemma PushKeeps(c: Stream, m: Message, addressed: seq<Message>)
    requires StreamInv(c, addressed)
    ensures StreamInv(Push(c, m), addressed + [m])
  {
    var c' := c.(queue := c.queue + [m], arrived := c.arrived + 1, waiting := false);
    assert Gots(c.out) + (c.queue + [m]) == Gots(c.out) + c.queue + [m];
    TakeKeeps(c', addressed + [m]);
  }

  lemma FailKeeps(c: Stream, code: Code, addressed: seq<Message>)
    requires StreamInv(c, addressed)
    ensures StreamInv(Fail(c, code), addressed)
  {
    var c' := c.(failure := if c.failure.Some? then c.failure else Some(code), closed := true, waiting := false);
    TakeKeeps(c', addressed);
  }

  // ---------------------------------------------------------------------------------------
  // The client
  // ---------------------------------------------------------------------------------------

  /** The demultiplexer; `lines` (dispatched so far), `began` (how many had been dispatched when a run
      opened its stream) and `answers` are history. */
  datatype Mux = Mux(
    sequence: nat,
    pending: set<nat>,
    streams: map<nat, Stream>,
    answers: seq<Message>,
    lines: seq<string>,
    began: map<nat, nat>)

  /** `text` is everything received. */
  datatype State = State(carry: string, text: string, mux: Mux)

  const INITIAL := State([], [], Mux(0, {}, map[], [], [], map[]))

  function FailAll(streams: map<nat, Stream>, code: Code): map<nat, Stream>
  {
    map id | id in streams :: Fail(streams[id], code)
  }

  function Dispatch(parse: Parser, x: Mux, line: string): Mux
  {
    var x' := x.(lines := x.lines + [line]);
    match parse(line)
    case None => x'.(streams := FailAll(x.streams, BadFraming))
    case Some(m) =>
      if m.ResponseTo? && m.id in x.pending then x'.(pending := x.pending - {m.id}, answers := x.answers + [m])
      else if m.id in x.streams then x'.(streams := x.streams[m.id := Push(x.streams[m.id], m)])
      else x'.(streams := FailAll(x.streams, StreamFailed))
  }

  function DispatchAll(parse: Parser, x: Mux, lines: seq<string>): Mux
    decreases |lines|
  {
    if lines == [] then x else DispatchAll(parse, Dispatch(parse, x, lines[0]), lines[1..])
  }

  function Consume(parse: Parser, s: State, chunk: string): State
  {
    var split := Split(s.carry, chunk);
    State(split.1, s.text + chunk, DispatchAll(parse, s.mux, split.0))
  }

  class Client {
    const parse: Parser
    var stdoutCarry: string
    var sequence: nat
    var pending: set<nat>
    var streams: map<nat, Stream>
    ghost var answers: seq<Message>
    ghost var text: string
    ghost var lines: seq<string>
    ghost var began: map<nat, nat>

    ghost function Demux(): Mux
      reads this
    {
      Mux(sequence, pending, streams, answers, lines, began)
    }

    ghost function Model(): State
      reads this
    {
      State(stdoutCarry, text, Demux())
    }

    constructor (parse: Parser)
      ensures this.parse == parse && Model() == INITIAL
    {
      this.parse := parse;
      stdoutCarry, sequence, pending, streams := [], 0, {}, map[];
      answers, text, lines, began := [], [], [], map[];
    }

    method ConsumeStdout(chunk: string)
      requires '\n' !in stdoutCarry
      modifies this
      ensures Model() == Consume(parse, old(Model()), chunk)
      ensures '\n' !in stdoutCarry
    {
      SplitCarried(stdoutCarry, chunk);
      stdoutCarry := stdoutCarry + chunk;
      text := text + chunk;
      DispatchCompleteLines();
    }

    method DispatchCompleteLines()
      modifies this`stdoutCarry, this`streams, this`pending, this`answers, this`lines
      ensures Demux() == DispatchAll(parse, old(Demux()), Split([], old(stdoutCarry)).0)
      ensures stdoutCarry == Split([], old(stdoutCarry)).1 && '\n' !in stdoutCarry
    {
      ghost var target := DispatchAll(parse, Demux(), Split([], stdoutCarry).0);
      var newline := IndexOfNewline(stdoutCarry);
      while newline < |stdoutCarry|
        invariant 0 <= newline <= |stdoutCarry| && '\n' !in stdoutCarry[..newline]
        invariant newline < |stdoutCarry| ==> stdoutCarry[newline] == '\n'
        invariant Split([], stdoutCarry).1 == Split([], old(stdoutCarry)).1
        invariant DispatchAll(parse, Demux(), Split([], stdoutCarry).0) == target
        decreases |stdoutCarry|
      {
        var line := stdoutCarry[..newline];
        FirstLine([], stdoutCarry, newline);
        assert [] + line == line;
        ghost var rest := Split([], stdoutCarry[newline + 1..]).0;
        assert ([line] + rest)[1..] == rest;
        stdoutCarry := stdoutCarry[newline + 1..];
        DispatchLine(line);
        newline := IndexOfNewline(stdoutCarry);
      }
      assert stdoutCarry[..newline] == stdoutCarry;
      NoNewline([], stdoutCarry);
      assert [] + stdoutCarry == stdoutCarry;
    }

    method DispatchLine(line: string)
      modifies this`streams, this`pending, this`answers, this`lines
      ensures Demux() == Dispatch(parse, old(Demux()), line)
    {
      lines := lines + [line];
      var message := parse(line);
      if message.None? {
        streams := FailAll(streams, BadFraming);
        return;
      }
      var m := message.value;
      if m.ResponseTo? && m.id in pending {
        pending := pending - {m.id};
        answers := answers + [m];
        return;
      }
      if m.id in streams {
        streams := streams[m.id := Push(streams[m.id], m)];
        return;
      }
      streams := FailAll(streams, StreamFailed);
    }

    /** `nextId` and the registration of the waiter. */
    method OpenExchange() returns (id: nat)
      modifies this`sequence, this`pending
      ensures Demux() == Exchange(old(Demux())) && id == sequence
    {
      sequence := sequence + 1;
      id := sequence;
      pending := pending + {id};
    }

    /** A reader asks for its next message; it asks again only after it was answered. */
    method NextMessage(id: nat)
      requires id in streams && !streams[id].waiting
      modifies this`streams
      ensures Demux() == Act(old(Demux()), Reads(id))
    {
      streams := streams[id := Next(streams[id])];
    }

    method FailStream(id: nat, code: Code)
      modifies this`streams
      ensures Demux() == Act(old(Demux()), Fails(id, code))
    {
      if id !in streams { return; }
      streams := streams[id := Fail(streams[id], code)];
    }

    method OpenRun() returns (id: nat)
      modifies this`sequence, this`streams, this`began
      ensures Demux() == Open(old(Demux())) && id == sequence
    {
      sequence := sequence + 1;
      id := sequence;
      streams := streams[id := NEW_STREAM];
      began := began[id := |lines|];
    }
  }

  lemma SplitCarried(carry: string, chunk: string)
    requires '\n' !in carry
    ensures Split([], carry + chunk) == Split(carry, chunk)
  {
    NoNewline([], carry);
    SplitOver([], carry, chunk);
    assert [] + carry == carry;
    assert [] + Split(carry, chunk).0 == Split(carry, chunk).0;
  }

  method IndexOfNewline(s: string) returns (n: nat)
    ensures n <= |s| && '\n' !in s[..n] && (n < |s| ==> s[n] == '\n')
  {
    n := 0;
    while n < |s| && s[n] != '\n'
      invariant n <= |s| && '\n' !in s[..n]
    {
      n := n + 1;
    }
  }

  function Exchange(x: Mux): Mux
  {
    x.(sequence := x.sequence + 1, pending := x.pending + {x.sequence + 1})
  }

  function Open(x: Mux): Mux
  {
    x.(sequence := x.sequence + 1,
       streams := x.streams[x.sequence + 1 := NEW_STREAM],
       began := x.began[x.sequence + 1 := |x.lines|])
  }

  // ---------------------------------------------------------------------------------------
  // Runs of the client
  // ---------------------------------------------------------------------------------------

  /** `Reads` is a call of `nextMessage`, `Closes` the end of a run, `Expires` a timed-out exchange. */
  datatype Action =
    | Receives(chunk: string)
    | OpensExchange
    | OpensRun
    | Reads(id: nat)
    | Fails(id: nat, code: Code)
    | FailsAll(code: Code)
    | Closes(id: nat)
    | Expires(id: nat)

  /** Everything but reception, on the demultiplexer. */
  function Act(x: Mux, a: Action): Mux
  {
    match a
    case Receives(_) => x
    case OpensExchange => Exchange(x)
    case OpensRun => Open(x)
    case Reads(id) =>
      if id in x.streams && !x.streams[id].waiting then x.(streams := x.streams[id := Next(x.streams[id])]) else x
    case Fails(id, code) =>
      if id in x.streams then x.(streams := x.streams[id := Fail(x.streams[id], code)]) else x
    case FailsAll(code) => x.(streams := FailAll(x.streams, code))
    case Closes(id) => x.(streams := x.streams - {id})
    case Expires(id) => x.(pending := x.pending - {id})
  }

  function Step(parse: Parser, s: State, a: Action): State
  {
    if a.Receives? then Consume(parse, s, a.chunk) else s.(mux := Act(s.mux, a))
  }

  function Run(parse: Parser, actions: seq<Action>): State
  {
    if actions == [] then INITIAL
    else Step(parse, Run(parse, actions[..|actions| - 1]), actions[|actions| - 1])
  }

  /** The messages of `lines` that carry the id, in order. */
  function AddressedTo(parse: Parser, lines: seq<string>, id: nat): seq<Message>
  {
    if lines == [] then []
    else
      var m := parse(lines[|lines| - 1]);
      AddressedTo(parse, lines[..|lines| - 1], id) + if m.Some? && m.value.id == id then [m.value] else []
  }

  ghost predicate StreamFits(parse: Parser, x: Mux, id: nat)
    requires id in x.streams
  {
    && id <= x.sequence && id !in x.pending
    && id in x.began && x.began[id] <= |x.lines|
    && StreamInv(x.streams[id], AddressedTo(parse, x.lines[x.began[id]..], id))
  }

  ghost predicate StreamsFit(parse: Parser, x: Mux)
  {
    && (forall id :: id in x.streams ==> StreamFits(parse, x, id))
    && (forall id :: id in x.pending ==> id <= x.sequence)
  }

  ghost predicate Inv(parse: Parser, s: State)
  {
    StreamsFit(parse, s.mux) && Split([], s.text) == (s.mux.lines, s.carry)
  }

  lemma AddressedGrows(parse: Parser, lines: seq<string>, line: string, from: nat, id: nat)
    requires from <= |lines|
    ensures var m := parse(line);
            AddressedTo(parse, (lines + [line])[from..], id) == AddressedTo(parse, lines[from..], id)
              + if m.Some? && m.value.id == id then [m.value] else []
  {
    assert (lines + [line])[from..] == lines[from..] + [line];
    assert (lines[from..] + [line])[..|lines| - from] == lines[from..];
  }

  lemma DispatchKeeps(parse: Parser, x: Mux, line: string)
    requires StreamsFit(parse, x)
    ensures StreamsFit(parse, Dispatch(parse, x, line))
  {
    var x', m := Dispatch(parse, x, line), parse(line);
    forall id | id in x'.streams ensures StreamFits(parse, x', id) {
      assert StreamFits(parse, x, id);
      AddressedGrows(parse, x.lines, line, x.began[id], id);
      var before := AddressedTo(parse, x.lines[x.began[id]..], id);
      if m.None? || (m.value.id !in x.streams && !(m.value.ResponseTo? && m.value.id in x.pending)) {
        FailKeeps(x.streams[id], if m.None? then BadFraming else StreamFailed, before);
      } else if m.value.id == id {
        PushKeeps(x.streams[id], m.value, before);
      }
    }
  }

  lemma {:induction false} DispatchAllKeeps(parse: Parser, x: Mux, lines: seq<string>)
    requires StreamsFit(parse, x)
    ensures var x' := DispatchAll(parse, x, lines);
            StreamsFit(parse, x') && x'.lines == x.lines + lines
    decreases |lines|
  {
    if lines != [] {
      var x' := Dispatch(parse, x, lines[0]);
      DispatchKeeps(parse, x, lines[0]);
      DispatchAllKeeps(parse, x', lines[1..]);
      assert x'.lines + lines[1..] == x.lines + lines by {
        assert [lines[0]] + lines[1..] == lines;
      }
    }
  }

  /** A stream that only took or failed in between. */
  lemma StreamActKeeps(parse: Parser, x: Mux, a: Action, id: nat)
    requires id in x.streams && StreamFits(parse, x, id) && id in Act(x, a).streams
    ensures Act(x, a).streams[id] == x.streams[id]
            || (a.Reads? && Act(x, a).streams[id] == Next(x.streams[id]))
            || ((a.Fails? || a.FailsAll?) && Act(x, a).streams[id] == Fail(x.streams[id], a.code))
    ensures StreamInv(Act(x, a).streams[id], AddressedTo(parse, x.lines[x.began[id]..], id))
  {
    var c, addressed := x.streams[id], AddressedTo(parse, x.lines[x.began[id]..], id);
    if a.Reads? { NextKeeps(c, addressed); }
    if a.Fails? || a.FailsAll? { FailKeeps(c, a.code, addressed); }
  }

  /** A stream that was there before still fits; one opened just now has nothing addressed to it. */
  lemma ActKeepsStream(parse: Parser, x: Mux, a: Action, id: nat)
    requires StreamsFit(parse, x) && id in Act(x, a).streams
    ensures StreamFits(parse, Act(x, a), id)
  {
    if id in x.streams {
      assert StreamFits(parse, x, id);
      StreamActKeeps(parse, x, a, id);
    } else {
      assert x.lines[|x.lines|..] == [];
    }
  }

  lemma ActKeepsPending(x: Mux, a: Action)
    requires forall id :: id in x.pending ==> id <= x.sequence
    ensures forall id :: id in Act(x, a).pending ==> id <= Act(x, a).sequence
  {
  }

  lemma ActKeeps(parse: Parser, x: Mux, a: Action)
    requires StreamsFit(parse, x)
    ensures StreamsFit(parse, Act(x, a))
  {
    ActKeepsPending(x, a);
    AllFit(parse, x, a, Act(x, a));
  }

  lemma AllFit(parse: Parser, x: Mux, a: Action, x': Mux)
    requires StreamsFit(parse, x) && x' == Act(x, a) && forall id :: id in x'.pending ==> id <= x'.sequence
    ensures StreamsFit(parse, x')
  {
    forall id | id in x'.streams ensures StreamFits(parse, x', id) {
      ActKeepsStream(parse, x, a, id);
    }
  }

  lemma StepKeepsInv(parse: Parser, s: State, a: Action)
    requires Inv(parse, s)
    ensures Inv(parse, Step(parse, s, a))
  {
    if a.Receives? {
      SplitOver([], s.text, a.chunk);
      DispatchAllKeeps(parse, s.mux, Split(s.carry, a.chunk).0);
    } else {
      ActKeeps(parse, s.mux, a);
    }
  }

  lemma {:induction false} EveryRunKeepsInv(parse: Parser, actions: seq<Action>)
    ensures Inv(parse, Run(parse, actions))
  {
    if actions != [] {
      EveryRunKeepsInv(parse, actions[..|actions| - 1]);
      StepKeepsInv(parse, Run(parse, actions[..|actions| - 1]), actions[|actions| - 1]);
    }
  }

  function Received(actions: seq<Action>): string
  {
    if actions == [] then []
    else
      var last := actions[|actions| - 1];
      Received(actions[..|actions| - 1]) + if last.Receives? then last.chunk else []
  }

  lemma {:induction false} TextIsReceived(parse: Parser, actions: seq<Action>)
    ensures Run(parse, actions).text == Received(actions)
  {
    if actions != [] {
      TextIsReceived(parse, actions[..|actions| - 1]);
    }
  }

  /** For every chunking of the output and every interleaving with reads, failures and other exchanges:
      what a run has read, followed by what is still queued for it, is exactly the messages addressed to
      it in the newline-split output since it opened, in order. */
  lemma NothingLostOrReordered(parse: Parser, actions: seq<Action>, id: nat)
    requires id in Run(parse, actions).mux.streams
    ensures var x := Run(parse, actions).mux;
            && id in x.began && x.began[id] <= |Split([], Received(actions)).0|
            && Gots(x.streams[id].out) + x.streams[id].queue
               == AddressedTo(parse, Split([], Received(actions)).0[x.began[id]..], id)
  {
    EveryRunKeepsInv(parse, actions);
    TextIsReceived(parse, actions);
    assert StreamFits(parse, Run(parse, actions).mux, id);
  }

  lemma {:induction false} GotsGrow(out: seq<Delivery>, n: nat)
    requires n <= |out|
    ensures Gots(out[..n]) <= Gots(out)
  {
    if n < |out| {
      var before := out[..|out| - 1];
      GotsGrow(before, n);
      assert before[..n] == out[..n];
    } else {
      assert out[..n] == out;
    }
  }

  /** In every run: a reader that waits has nothing to read, so no wake-up is lost; when a failure is delivered,
      all messages that had come for the stream by then have been delivered before it; and an exchange never
      shares its id with a run. */
  lemma WakeUpsAndFailures(parse: Parser, actions: seq<Action>, id: nat, i: nat)
    requires id in Run(parse, actions).mux.streams
    ensures var x := Run(parse, actions).mux;
            var c := x.streams[id];
            && id in x.began && x.began[id] <= |x.lines|
            && var addressed := AddressedTo(parse, x.lines[x.began[id]..], id);
            && id !in x.pending && id <= x.sequence
            && (c.waiting ==> c.queue == [] && c.failure.None? && !c.closed)
            && Ended !in c.out
            && c.arrived == |addressed|
            && (i < |c.out| && c.out[i].Failed? ==>
                  c.out[i].arrived <= |addressed| && Gots(c.out[..i]) == addressed[..c.out[i].arrived])
  {
    EveryRunKeepsInv(parse, actions);
    var x := Run(parse, actions).mux;
    assert StreamFits(parse, x, id);
    var c := x.streams[id];
    if i < |c.out| { GotsGrow(c.out, i); }
  }

  // ---------------------------------------------------------------------------------------
  // The terminal contract
  // ---------------------------------------------------------------------------------------

  /** How a run's generator stands: returned, threw, or still wants a message. */
  datatype RunEnd = Returned | Threw(code: Code) | Suspended

  predicate IsTerminal(e: HostEvent) { !e.Progress? }

  /** The terminal output is replaced, never echoed, if it does not match the run's output schema. */
  function Shown(schema: Option<string -> bool>, e: HostEvent): HostEvent
  {
    if e.Completed? && schema.Some? && !schema.value(e.output)
    then RunFailed(OutputSchemaMismatch) else e
  }

  /** Some non-terminal events and then one terminal one. */
  ghost predicate OneTerminal(shown: seq<HostEvent>)
  {
    && shown != [] && IsTerminal(shown[|shown| - 1])
    && forall i :: 0 <= i < |shown| - 1 ==> !IsTerminal(shown[i])
  }

  ghost predicate NoTerminal(shown: seq<HostEvent>)
  {
    forall i :: 0 <= i < |shown| ==> !IsTerminal(shown[i])
  }

  /** The yielded events are the events of the inbox, in order, each as it is shown. */
  ghost predicate YieldsInbox(inbox: seq<Delivery>, schema: Option<string -> bool>, shown: seq<HostEvent>)
  {
    && |shown| <= |inbox|
    && forall i :: 0 <= i < |shown| ==>
         inbox[i].Got? && inbox[i].message.EventFor? && shown[i] == Shown(schema, inbox[i].message.event)
  }

  /** The body of `run` over the deliveries of its stream.  `valid` is the wire validation of events. */
  method RunStream(inbox: seq<Delivery>, valid: HostEvent -> bool, schema: Option<string -> bool>)
    returns (shown: seq<HostEvent>, end: RunEnd)
    ensures YieldsInbox(inbox, schema, shown)
    ensures NoTerminal(shown) || OneTerminal(shown)
    ensures end.Returned? ==> OneTerminal(shown) && |shown| < |inbox|
    ensures end.Returned? && inbox[|shown|] != Ended ==>
              inbox[|shown|].Got? && inbox[|shown|].message.ResponseTo? && inbox[|shown|].message.ok
    ensures end.Suspended? ==> |shown| == |inbox|
  {
    shown := [];
    var sawTerminal := false;
    var i := 0;
    while i < |inbox|
      invariant 0 <= i <= |inbox| && |shown| == i
      invariant YieldsInbox(inbox, schema, shown)
      invariant if sawTerminal then OneTerminal(shown) else NoTerminal(shown)
    {
      if inbox[i].Failed? {
        return shown, Threw(inbox[i].code);
      }
      if inbox[i].Ended? {
        if !sawTerminal { return shown, Threw(ContractViolated); }
        return shown, Returned;
      }
      var message := inbox[i].message;
      if message.EventFor? {
        if sawTerminal { return shown, Threw(ContractViolated); }
        if !valid(message.event) { return shown, Threw(EventInvalid); }
        if message.event.Completed? && schema.Some? && !schema.value(message.event.output) {
          shown := shown + [RunFailed(OutputSchemaMismatch)];
          sawTerminal := true;
        } else {
          shown := shown + [message.event];
          if message.event.Completed? || message.event.RunFailed? { sawTerminal := true; }
        }
        i := i + 1;
        continue;
      }
      if !message.ResponseTo? { return shown, Threw(StreamFailed); }
      if !message.ok { return shown, Threw(HostError); }
      if !sawTerminal { return shown, Threw(ContractViolated); }
      return shown, Returned;
    }
    return shown, Suspended;
  }

  lemma {:induction false} GotsOf(out: seq<Delivery>, n: nat)
    requires n <= |out| && forall i :: 0 <= i < n ==> out[i].Got?
    ensures n <= |Gots(out)| <= |out| && forall i :: 0 <= i < n ==> Gots(out)[i] == out[i].message
  {
    if n < |out| {
      GotsOf(out[..|out| - 1], n);
    } else if n > 0 {
      GotsOf(out[..n - 1], n - 1);
    }
  }

  /** The whole way from the host's output to the run's caller: for every chunking and interleaving, the events a
      run shows are, one by one and in order, the first messages the host addressed to it since it opened. */
  lemma ShownIsAddressed(parse: Parser, actions: seq<Action>, id: nat, schema: Option<string -> bool>,
                         shown: seq<HostEvent>)
    requires id in Run(parse, actions).mux.streams
    requires YieldsInbox(Run(parse, actions).mux.streams[id].out, schema, shown)
    ensures var x := Run(parse, actions).mux;
            && id in x.began && x.began[id] <= |Split([], Received(actions)).0|
            && var addressed := AddressedTo(parse, Split([], Received(actions)).0[x.began[id]..], id);
            && |shown| <= |addressed|
            && forall i :: 0 <= i < |shown| ==>
                 addressed[i].EventFor? && shown[i] == Shown(schema, addressed[i].event)
  {
    NothingLostOrReordered(parse, actions, id);
    GotsOf(Run(parse, actions).mux.streams[id].out, |shown|);
  }
}
