/** Interactive prompts on standard input: lines arrive in arbitrary chunks, questions are asked at
    arbitrary moments, and each question gets the next line.

    Standard input is a sequence of characters; `Bytes` is its length in UTF-8. */
module PromptQueue {

  import opened Options
  import opened Framing

  const MAX_INPUT_BYTES := 64 * 1024
  const MAX_ANSWER_BYTES := 4 * 1024
  const MAX_QUEUED := 64

  function CharBytes(c: char): nat
  {
    if (c as int) < 0x80 then 1 else if (c as int) < 0x800 then 2 else if (c as int) < 0x10000 then 3 else 4
  }

  function Bytes(s: string): nat
  {
    if s == [] then 0 else CharBytes(s[0]) + Bytes(s[1..])
  }

  // ---------------------------------------------------------------------------------------
  // Lines
  // ---------------------------------------------------------------------------------------

  /** A carriage return in front of a newline belongs to the separator. */
  function Stripped(line: string): string
  {
    if line != [] && line[|line| - 1] == '\r' then line[..|line| - 1] else line
  }

  function AllStripped(lines: seq<string>): seq<string>
  {
    seq(|lines|, i requires 0 <= i < |lines| => Stripped(lines[i]))
  }

  /** `text.split(/\r?\n/)`: the pieces before the last, and the last. */
  function SplitLines(text: string): (seq<string>, string)
  {
    var split := Split([], text);
    (AllStripped(split.0), split.1)
  }

  /** Splitting what was left of the input together with a new chunk adds exactly the lines that the
      chunk completes, even if it is cut between the two characters of a separator. */
  lemma SplitLinesOver(text: string, chunk: string)
    ensures var before := SplitLines(text);
            var more := SplitLines(before.1 + chunk);
            SplitLines(text + chunk) == (before.0 + more.0, more.1)
  {
    var carry := Split([], text).1;
    SplitOver([], text, chunk);
    CarryHasNoNewline([], text);
    NoNewline([], carry);
    SplitOver([], carry, chunk);
    assert [] + carry == carry;
    assert [] + Split(carry, chunk).0 == Split(carry, chunk).0;
    assert AllStripped(Split([], text).0 + Split(carry, chunk).0)
        == AllStripped(Split([], text).0) + AllStripped(Split(carry, chunk).0);
  }

  // ---------------------------------------------------------------------------------------
  // The queue
  // ---------------------------------------------------------------------------------------

  /** `deploy_prompt_input_limit_exceeded`, `deploy_prompt_input_closed`. */
  datatype Code = LimitExceeded | InputClosed

  datatype Outcome = Answered(line: string) | Refused(code: Code)

  /** Lines that wait for a question, and questions, by number, that wait for a line.  `asked` and `log` are
      history: the number of questions, and how each was settled, in order. */
  datatype Desk = Desk(queued: seq<string>, waiters: seq<nat>, asked: nat, log: seq<(nat, Outcome)>)

  /** `received` is history: the input so far. */
  datatype Input = Input(remainder: string, bytes: nat, received: string)

  /** `gone` says that standard input ended while nobody listened. */
  datatype Life = Life(listening: bool, ended: bool, failure: Option<Code>, gone: bool)

  datatype State = State(desk: Desk, input: Input, life: Life)

  const INITIAL := State(Desk([], [], 0, []), Input([], 0, []), Life(false, false, None, false))

  /** The first waiting question gets the first queued line. */
  function Serve(d: Desk): Desk
    requires d.queued != [] && d.waiters != []
  {
    d.(queued := d.queued[1..], waiters := d.waiters[1..], log := d.log + [(d.waiters[0], Answered(d.queued[0]))])
  }

  function Drain(d: Desk): Desk
    decreases |d.queued|
  {
    if d.queued == [] || d.waiters == [] then d else Drain(Serve(d))
  }

  function Refuse(d: Desk, code: Code): Desk
    requires d.waiters != []
  {
    d.(waiters := d.waiters[1..], log := d.log + [(d.waiters[0], Refused(code))])
  }

  function RefuseAll(d: Desk, code: Code): Desk
    decreases |d.waiters|
  {
    if d.waiters == [] then d else RefuseAll(Refuse(d, code), code)
  }

  function FailInput(s: State, code: Code): State
  {
    var failure := if s.life.failure.Some? then s.life.failure.value else code;
    State(RefuseAll(s.desk.(queued := []), failure), s.input.(remainder := []),
          s.life.(listening := false, ended := true, failure := Some(failure)))
  }

  predicate FitsAnswers(lines: seq<string>)
  {
    forall i :: 0 <= i < |lines| ==> Bytes(lines[i]) <= MAX_ANSWER_BYTES
  }

  function Collect(s: State, chunk: string): State
  {
    var counted := s.input.(bytes := s.input.bytes + Bytes(chunk), received := s.input.received + chunk);
    var split := SplitLines(s.input.remainder + chunk);
    if counted.bytes > MAX_INPUT_BYTES then FailInput(s.(input := counted), LimitExceeded)
    else if Bytes(split.1) > MAX_ANSWER_BYTES || !FitsAnswers(split.0) || |s.desk.queued| + |split.0| > MAX_QUEUED then
      FailInput(s.(input := counted.(remainder := split.1)), LimitExceeded)
    else
      s.(desk := Drain(s.desk.(queued := s.desk.queued + split.0)), input := counted.(remainder := split.1))
  }

  function Finish(s: State): State
  {
    var rest := s.input.remainder;
    if rest != [] && (Bytes(rest) > MAX_ANSWER_BYTES || |s.desk.queued| >= MAX_QUEUED) then FailInput(s, LimitExceeded)
    else
      var queued := if rest != [] then s.desk.queued + [rest] else s.desk.queued;
      State(RefuseAll(Drain(s.desk.(queued := queued)), InputClosed), s.input.(remainder := []),
            s.life.(listening := false, ended := true))
  }

  function Ask(s: State): State
  {
    var d := s.desk.(asked := s.desk.asked + 1, waiters := s.desk.waiters + [s.desk.asked]);
    if s.life.failure.Some? then s.(desk := Settle(s.desk, Refused(s.life.failure.value)))
    else if s.desk.queued != [] then
      s.(desk := Settle(s.desk, Answered(s.desk.queued[0])).(queued := s.desk.queued[1..]))
    else if s.life.ended || s.life.gone then s.(desk := Settle(s.desk, Refused(InputClosed)))
    else s.(desk := d, life := s.life.(listening := true))
  }

  /** A question settled as it is asked. */
  function Settle(d: Desk, outcome: Outcome): Desk { d.(asked := d.asked + 1, log := d.log + [(d.asked, outcome)]) }

  class PromptInput {
    var queuedAnswers: seq<string>
    var answerWaiters: seq<nat>
    var inputRemainder: string
    var inputBytes: nat
    var inputListening: bool
    var inputEnded: bool
    var inputFailure: Option<Code>
    var readableEnded: bool
    var asked: nat
    ghost var log: seq<(nat, Outcome)>
    ghost var received: string

    ghost function Seats(): Desk
      reads this
    {
      Desk(queuedAnswers, answerWaiters, asked, log)
    }

    ghost function Model(): State
      reads this
    {
      State(Seats(), Input(inputRemainder, inputBytes, received),
            Life(inputListening, inputEnded, inputFailure, readableEnded))
    }

    constructor ()
      ensures Model() == INITIAL
    {
      queuedAnswers, answerWaiters, inputRemainder, inputBytes := [], [], [], 0;
      inputListening, inputEnded, inputFailure, readableEnded := false, false, None, false;
      asked, log, received := 0, [], [];
    }

    method DrainAnswers()
      modifies this`queuedAnswers, this`answerWaiters, this`log
      ensures Seats() == Drain(old(Seats()))
    {
      while |queuedAnswers| > 0 && |answerWaiters| > 0
        invariant Drain(Seats()) == Drain(old(Seats()))
        decreases |queuedAnswers|
      {
        log := log + [(answerWaiters[0], Answered(queuedAnswers[0]))];
        answerWaiters := answerWaiters[1..];
        queuedAnswers := queuedAnswers[1..];
      }
    }

    method RejectWaiters(code: Code)
      modifies this`answerWaiters, this`log
      ensures Seats() == RefuseAll(old(Seats()), code)
    {
      while |answerWaiters| > 0
        invariant RefuseAll(Seats(), code) == RefuseAll(old(Seats()), code)
        decreases |answerWaiters|
      {
        log := log + [(answerWaiters[0], Refused(code))];
        answerWaiters := answerWaiters[1..];
      }
    }

    method FailPromptInput(code: Code)
      modifies this
      ensures Model() == FailInput(old(Model()), code)
    {
      if inputFailure.None? { inputFailure := Some(code); }
      inputListening := false;
      inputEnded := true;
      inputRemainder := [];
      queuedAnswers := [];
      RejectWaiters(inputFailure.value);
    }

    method CollectInput(chunk: string)
      modifies this
      ensures Model() == Collect(old(Model()), chunk)
    {
      inputBytes := inputBytes + Bytes(chunk);
      received := received + chunk;
      if inputBytes > MAX_INPUT_BYTES {
        FailPromptInput(LimitExceeded);
        return;
      }
      inputRemainder := inputRemainder + chunk;
      var split := SplitLines(inputRemainder);
      inputRemainder := split.1;
      if Bytes(inputRemainder) > MAX_ANSWER_BYTES || !FitsAnswers(split.0) || |queuedAnswers| + |split.0| > MAX_QUEUED {
        FailPromptInput(LimitExceeded);
        return;
      }
      queuedAnswers := queuedAnswers + split.0;
      DrainAnswers();
    }

    method FinishInput()
      modifies this
      ensures Model() == Finish(old(Model()))
    {
      if inputRemainder != [] {
        if Bytes(inputRemainder) > MAX_ANSWER_BYTES || |queuedAnswers| >= MAX_QUEUED {
          FailPromptInput(LimitExceeded);
          return;
        }
        queuedAnswers := queuedAnswers + [inputRemainder];
      }
      inputRemainder := [];
      inputEnded := true;
      DrainAnswers();
      RejectWaiters(InputClosed);
      inputListening := false;
    }

    method Question()
      modifies this
      ensures Model() == Ask(old(Model()))
    {
      var id := asked;
      asked := asked + 1;
      if inputFailure.Some? {
        log := log + [(id, Refused(inputFailure.value))];
        return;
      }
      if |queuedAnswers| > 0 {
        log := log + [(id, Answered(queuedAnswers[0]))];
        queuedAnswers := queuedAnswers[1..];
        return;
      }
      if inputEnded || readableEnded {
        log := log + [(id, Refused(InputClosed))];
        return;
      }
      answerWaiters := answerWaiters + [id];
      inputListening := true;
    }
  }

  // ---------------------------------------------------------------------------------------
  // Runs
  // ---------------------------------------------------------------------------------------

  datatype Event = Arrives(chunk: string) | EndsInput | Vanishes | Asks

  /** Input only reaches the handlers while they are registered. */
  function Step(s: State, e: Event): State
  {
    match e
    case Arrives(chunk) => if s.life.listening then Collect(s, chunk) else s
    case EndsInput => if s.life.listening then Finish(s) else s
    case Vanishes => if s.life.listening then s else s.(life := s.life.(gone := true))
    case Asks => Ask(s)
  }

  function Run(events: seq<Event>): State
  {
    if events == [] then INITIAL else Step(Run(events[..|events| - 1]), events[|events| - 1])
  }

  /** The lines of the input so far; at its end an unterminated non-empty line counts too. */
  function LinesOf(received: string, ended: bool): seq<string>
  {
    var split := SplitLines(received);
    if ended && split.1 != [] then split.0 + [split.1] else split.0
  }

  // ---------------------------------------------------------------------------------------
  // The desk: questions and lines meet in order
  // ---------------------------------------------------------------------------------------

  /** Settled questions are the first ones, waiting ones the next, in order. */
  ghost predicate Numbered(d: Desk)
  {
    && |d.log| + |d.waiters| == d.asked
    && (forall k :: 0 <= k < |d.log| ==> d.log[k].0 == k)
    && (forall k :: 0 <= k < |d.waiters| ==> d.waiters[k] == |d.log| + k)
  }

  /** The first `n` questions got the first `n` lines; the others settled were refused. */
  ghost predicate Served(log: seq<(nat, Outcome)>, lines: seq<string>, n: nat)
  {
    && n <= |log| && n <= |lines|
    && (forall k :: 0 <= k < n ==> log[k].1 == Answered(lines[k]))
    && (forall k :: n <= k < |log| ==> log[k].1.Refused?)
  }

  /** What is queued are the lines that no question got yet. */
  ghost predicate Fits(d: Desk, lines: seq<string>)
  {
    && Numbered(d) && |d.queued| <= |lines|
    && d.queued == lines[|lines| - |d.queued|..]
    && Served(d.log, lines, |lines| - |d.queued|)
  }

  /** No question was refused: as many were answered as lines are gone. */
  ghost predicate AllServed(d: Desk, lines: seq<string>) { |d.log| + |d.queued| == |lines| }

  lemma NumberedSnoc(d: Desk, outcome: Outcome)
    requires Numbered(d) && d.waiters != []
    ensures Numbered(d.(waiters := d.waiters[1..], log := d.log + [(d.waiters[0], outcome)]))
  {
    assert d.waiters[0] == |d.log| + 0;
  }

  lemma ServeFits(d: Desk, lines: seq<string>)
    requires Fits(d, lines) && AllServed(d, lines) && d.queued != [] && d.waiters != []
    ensures Fits(Serve(d), lines) && AllServed(Serve(d), lines)
  {
    NumberedSnoc(d, Answered(d.queued[0]));
    assert d.queued[0] == lines[|d.log|];
    assert d.queued[1..] == lines[|d.log| + 1..];
  }

  lemma {:induction false} DrainFits(d: Desk, lines: seq<string>)
    requires Fits(d, lines) && AllServed(d, lines)
    ensures Fits(Drain(d), lines) && AllServed(Drain(d), lines) && Drain(d).asked == d.asked
    ensures Drain(d).queued == [] || Drain(d).waiters == []
    decreases |d.queued|
  {
    if d.queued != [] && d.waiters != [] {
      ServeFits(d, lines);
      DrainFits(Serve(d), lines);
    }
  }

  lemma {:induction false} RefuseAllFits(d: Desk, lines: seq<string>, code: Code)
    requires Fits(d, lines) && (d.queued == [] || d.waiters == [])
    ensures var d' := RefuseAll(d, code);
      Fits(d', lines) && d'.waiters == [] && d'.asked == d.asked && d'.queued == d.queued && (d.queued != [] ==> d' == d)
    decreases |d.waiters|
  {
    if d.waiters != [] {
      NumberedSnoc(d, Refused(code));
      RefuseAllFits(Refuse(d, code), lines, code);
    }
  }

  /** The answers given are the first lines. */
  ghost predicate AnswersAreLines(log: seq<(nat, Outcome)>, lines: seq<string>)
  {
    forall k :: 0 <= k < |log| && log[k].1.Answered? ==> k < |lines| && log[k].1.line == lines[k]
  }

  lemma {:induction false} RefuseAllBreaks(d: Desk, lines: seq<string>, code: Code)
    requires Numbered(d) && AnswersAreLines(d.log, lines)
    ensures var d' := RefuseAll(d, code);
      Numbered(d') && AnswersAreLines(d'.log, lines) && d'.waiters == [] && d'.queued == d.queued
    decreases |d.waiters|
  {
    if d.waiters != [] {
      NumberedSnoc(d, Refused(code));
      RefuseAllBreaks(Refuse(d, code), lines, code);
    }
  }

  lemma MoreLinesFit(d: Desk, lines: seq<string>, more: seq<string>)
    requires Fits(d, lines) && AllServed(d, lines)
    ensures Fits(d.(queued := d.queued + more), lines + more) && AllServed(d.(queued := d.queued + more), lines + more)
  {
    assert (lines + more)[|d.log|..] == lines[|d.log|..] + more;
  }

  // ---------------------------------------------------------------------------------------
  // What every step keeps
  // ---------------------------------------------------------------------------------------

  ghost predicate Healthy(s: State)
  {
    var lines := LinesOf(s.input.received, s.life.ended);
    && Fits(s.desk, lines)
    && (s.desk.queued == [] || s.desk.waiters == [])
    && (!s.life.ended ==> s.input.remainder == SplitLines(s.input.received).1)
    && (s.life.ended || s.life.gone ==> s.desk.waiters == [] && !s.life.listening)
    && (!s.life.ended && !s.life.gone ==> AllServed(s.desk, lines))
    && (s.desk.queued != [] ==> AllServed(s.desk, lines))
    && (!s.life.listening ==> s.desk.waiters == [])
  }

  /** After a failure: nothing waits or is queued, and the answers given are lines of the input in order. */
  ghost predicate Broken(s: State)
  {
    && s.desk.queued == [] && s.desk.waiters == [] && s.life.ended && !s.life.listening
    && Numbered(s.desk) && AnswersAreLines(s.desk.log, SplitLines(s.input.received).0)
  }

  ghost predicate Inv(s: State) { if s.life.failure.None? then Healthy(s) else Broken(s) }

  lemma FailBreaks(s: State, code: Code)
    requires s.life.failure.None? && Numbered(s.desk) && AnswersAreLines(s.desk.log, SplitLines(s.input.received).0)
    ensures Broken(FailInput(s, code)) && FailInput(s, code).life.failure == Some(code)
  {
    RefuseAllBreaks(s.desk.(queued := []), SplitLines(s.input.received).0, code);
  }

  lemma AnswersStay(log: seq<(nat, Outcome)>, lines: seq<string>, more: seq<string>, n: nat)
    requires Served(log, lines, n)
    ensures AnswersAreLines(log, lines + more)
  {
  }

  /** What a chunk does to the lines of the input. */
  lemma ChunkAddsLines(s: State, chunk: string)
    requires Healthy(s) && s.life.listening
    ensures var more := SplitLines(s.input.remainder + chunk);
      && LinesOf(s.input.received + chunk, false) == LinesOf(s.input.received, false) + more.0
      && SplitLines(s.input.received + chunk).1 == more.1
  {
    SplitLinesOver(s.input.received, chunk);
  }

  lemma CollectFails(s: State, chunk: string, input: Input)
    requires Healthy(s) && s.life.failure.None? && s.life.listening && input.received == s.input.received + chunk
    ensures Inv(FailInput(s.(input := input), LimitExceeded))
  {
    ChunkAddsLines(s, chunk);
    var lines := LinesOf(s.input.received, false);
    AnswersStay(s.desk.log, lines, SplitLines(s.input.remainder + chunk).0, |lines| - |s.desk.queued|);
    FailBreaks(s.(input := input), LimitExceeded);
  }

  lemma CollectKeeps(s: State, chunk: string)
    requires Healthy(s) && s.life.failure.None? && s.life.listening
    ensures Inv(Collect(s, chunk))
  {
    var counted := s.input.(bytes := s.input.bytes + Bytes(chunk), received := s.input.received + chunk);
    var more := SplitLines(s.input.remainder + chunk);
    CollectFails(s, chunk, counted);
    CollectFails(s, chunk, counted.(remainder := more.1));
    ChunkAddsLines(s, chunk);
    MoreLinesFit(s.desk, LinesOf(s.input.received, false), more.0);
    DrainFits(s.desk.(queued := s.desk.queued + more.0), LinesOf(s.input.received + chunk, false));
  }

  lemma FinishKeeps(s: State)
    requires Healthy(s) && s.life.failure.None? && s.life.listening
    ensures Inv(Finish(s))
  {
    var lines, rest := LinesOf(s.input.received, false), s.input.remainder;
    if rest != [] && (Bytes(rest) > MAX_ANSWER_BYTES || |s.desk.queued| >= MAX_QUEUED) {
      AnswersStay(s.desk.log, lines, [], |lines| - |s.desk.queued|);
      assert lines + [] == lines;
      FailBreaks(s, LimitExceeded);
    } else {
      LastLineFits(s.desk, lines, rest);
      var d := Drain(s.desk.(queued := if rest != [] then s.desk.queued + [rest] else s.desk.queued));
      RefuseAllFits(d, LinesOf(s.input.received, true), InputClosed);
    }
  }

  lemma LastLineFits(d: Desk, lines: seq<string>, rest: string)
    requires Fits(d, lines) && AllServed(d, lines)
    ensures var all := if rest != [] then lines + [rest] else lines;
      var d' := Drain(d.(queued := if rest != [] then d.queued + [rest] else d.queued));
      Fits(d', all) && AllServed(d', all) && (d'.queued == [] || d'.waiters == [])
  {
    if rest != [] {
      MoreLinesFit(d, lines, [rest]);
      DrainFits(d.(queued := d.queued + [rest]), lines + [rest]);
    } else {
      DrainFits(d, lines);
    }
  }

  lemma AskFits(d: Desk, lines: seq<string>)
    requires Fits(d, lines) && AllServed(d, lines) && d.queued != [] && d.waiters == []
    ensures var d' := Settle(d, Answered(d.queued[0])).(queued := d.queued[1..]); Fits(d', lines) && AllServed(d', lines)
  {
    assert d.queued[0] == lines[|d.log|];
    assert d.queued[1..] == lines[|d.log| + 1..];
  }

  lemma AskRefusedFits(d: Desk, lines: seq<string>, code: Code)
    requires Fits(d, lines) && d.queued == [] && d.waiters == []
    ensures Fits(Settle(d, Refused(code)), lines)
  {
  }

  lemma AskWaitsFits(d: Desk, lines: seq<string>)
    requires Fits(d, lines)
    ensures Fits(d.(asked := d.asked + 1, waiters := d.waiters + [d.asked]), lines)
  {
  }

  lemma AskKeeps(s: State)
    requires Healthy(s) && s.life.failure.None?
    ensures Healthy(Ask(s))
  {
    var lines := LinesOf(s.input.received, s.life.ended);
    if s.desk.queued != [] {
      AskFits(s.desk, lines);
    } else if s.life.ended || s.life.gone {
      AskRefusedFits(s.desk, lines, InputClosed);
    } else {
      AskWaitsFits(s.desk, lines);
    }
  }

  lemma BrokenAsks(s: State)
    requires Broken(s) && s.life.failure.Some?
    ensures Broken(Ask(s))
  {
  }

  lemma StepKeepsInv(s: State, e: Event)
    requires Inv(s)
    ensures Inv(Step(s, e))
  {
    match e
    case Arrives(chunk) => if s.life.listening { CollectKeeps(s, chunk); }
    case EndsInput => if s.life.listening { FinishKeeps(s); }
    case Vanishes =>
    case Asks => if s.life.failure.None? { AskKeeps(s); } else { BrokenAsks(s); }
  }

  lemma {:induction false} EveryRunKeepsInv(events: seq<Event>)
    ensures Inv(Run(events))
  {
    if events != [] {
      EveryRunKeepsInv(events[..|events| - 1]);
      StepKeepsInv(Run(events[..|events| - 1]), events[|events| - 1]);
    }
  }

  // ---------------------------------------------------------------------------------------
  // What questions get
  // ---------------------------------------------------------------------------------------

  /** As long as no input limit is exceeded: question `k` gets line `k` of the whole input, whatever the
      chunks and whenever it was asked.  A question without a line is still waiting, or was refused
      because the input has ended; no question waits while a line is queued. */
  lemma LinesInOrder(events: seq<Event>, k: nat)
    requires Run(events).life.failure.None? && k < Run(events).desk.asked
    ensures var s := Run(events);
            var d, lines := s.desk, LinesOf(s.input.received, s.life.ended);
            && (d.queued == [] || d.waiters == [])
            && (k < |d.log| ==> d.log[k].0 == k)
            && (k < |lines| ==> k < |d.log| && d.log[k].1 == Answered(lines[k]))
            && (k >= |lines| ==>
                  if k < |d.log| then d.log[k].1.Refused? && (s.life.ended || s.life.gone)
                  else !s.life.ended && k - |d.log| < |d.waiters| && d.waiters[k - |d.log|] == k)
  {
    EveryRunKeepsInv(events);
    var d := Run(events).desk;
    if k >= |d.log| { assert d.waiters[k - |d.log|] == k; }
  }

  /** Every question is settled at most once, in the order of asking, and after the end of input or a
      failure none is left waiting. */
  lemma EveryQuestionSettled(events: seq<Event>)
    ensures var d, life := Run(events).desk, Run(events).life;
            && (forall k :: 0 <= k < |d.log| ==> d.log[k].0 == k)
            && |d.log| + |d.waiters| == d.asked
            && (life.ended || life.failure.Some? ==> |d.log| == d.asked && d.waiters == [])
  {
    EveryRunKeepsInv(events);
  }

  // ---------------------------------------------------------------------------------------
  // The limits, read off the events
  // ---------------------------------------------------------------------------------------

  function Text(events: seq<Event>): string
  {
    if events == [] then []
    else
      var before, e := Text(events[..|events| - 1]), events[|events| - 1];
      if e.Arrives? then before + e.chunk else before
  }

  function Asked(events: seq<Event>): nat
  {
    if events == [] then 0 else Asked(events[..|events| - 1]) + if events[|events| - 1].Asks? then 1 else 0
  }

  /** The lines of `text` beyond one for each question. */
  function Waiting(text: string, asked: nat): nat
  {
    var lines := |LinesOf(text, false)|;
    if lines <= asked then 0 else lines - asked
  }

  /** What an event may bring behind `text` and `asked` questions: 64 KiB in all, 4 KiB for each line and for the
      rest behind it (its carriage return included), 64 lines that no question asked before has claimed. */
  predicate Allowed(text: string, asked: nat, e: Event)
  {
    match e
    case Arrives(chunk) =>
      var more := SplitLines(SplitLines(text).1 + chunk);
      && Bytes(text + chunk) <= MAX_INPUT_BYTES
      && Bytes(more.1) <= MAX_ANSWER_BYTES && FitsAnswers(more.0)
      && Waiting(text, asked) + |more.0| <= MAX_QUEUED
    case EndsInput =>
      var rest := SplitLines(text).1;
      rest == [] || (Bytes(rest) <= MAX_ANSWER_BYTES && Waiting(text, asked) < MAX_QUEUED)
    case _ => true
  }

  predicate WithinLimits(events: seq<Event>)
  {
    events == []
    || (&& WithinLimits(events[..|events| - 1])
        && Allowed(Text(events[..|events| - 1]), Asked(events[..|events| - 1]), events[|events| - 1]))
  }

  /** Input reaches the program only while its handlers are registered; until then the stream holds it. */
  predicate Delivered(events: seq<Event>)
  {
    events == []
    || (&& Delivered(events[..|events| - 1])
        && (events[|events| - 1].Arrives? || events[|events| - 1].EndsInput? ==>
              Run(events[..|events| - 1]).life.listening || Run(events[..|events| - 1]).life.failure.Some?))
  }

  lemma {:induction false} BytesJoin(a: string, b: string)
    ensures Bytes(a + b) == Bytes(a) + Bytes(b)
  {
    if a == [] {
      assert a + b == b;
    } else {
      assert (a + b)[1..] == a[1..] + b;
      BytesJoin(a[1..], b);
    }
  }

  /** The counters of a run without failure are those of its events. */
  ghost predicate Counts(s: State, text: string, asked: nat)
  {
    s.input.received == text && s.input.bytes == Bytes(text) && s.desk.asked == asked
  }

  lemma {:induction false} DrainKeepsAsked(d: Desk)
    ensures Drain(d).asked == d.asked
    decreases |d.queued|
  {
    if d.queued != [] && d.waiters != [] { DrainKeepsAsked(Serve(d)); }
  }

  lemma {:induction false} RefuseAllKeepsAsked(d: Desk, code: Code)
    ensures RefuseAll(d, code).asked == d.asked
    decreases |d.waiters|
  {
    if d.waiters != [] { RefuseAllKeepsAsked(Refuse(d, code), code); }
  }

  /** While listening, the lines queued are those no question has claimed. */
  lemma QueuedAreWaiting(s: State)
    requires Healthy(s) && s.life.listening
    ensures |s.desk.queued| == Waiting(s.input.received, s.desk.asked)
  {
  }

  /** An event in a healthy state fails the input exactly when it is not allowed. */
  lemma StepFailsBeyondLimits(s: State, e: Event, text: string, asked: nat)
    requires Healthy(s) && s.life.failure.None? && Counts(s, text, asked)
    requires e.Arrives? || e.EndsInput? ==> s.life.listening
    ensures Step(s, e).life.failure.None? <==> Allowed(text, asked, e)
    ensures Step(s, e).life.failure.None? ==>
      Counts(Step(s, e), if e.Arrives? then text + e.chunk else text, if e.Asks? then asked + 1 else asked)
  {
    match e
    case Arrives(chunk) =>
      BytesJoin(text, chunk);
      QueuedAreWaiting(s);
      DrainKeepsAsked(s.desk.(queued := s.desk.queued + SplitLines(s.input.remainder + chunk).0));
    case EndsInput =>
      QueuedAreWaiting(s);
      var rest := s.input.remainder;
      var d := s.desk.(queued := if rest != [] then s.desk.queued + [rest] else s.desk.queued);
      DrainKeepsAsked(d);
      RefuseAllKeepsAsked(Drain(d), InputClosed);
    case Vanishes =>
    case Asks =>
  }

  /** A failure stays. */
  lemma FailureStays(s: State, e: Event)
    requires s.life.failure.Some? && Broken(s)
    ensures Step(s, e).life.failure.Some?
  {
  }

  /** The input fails exactly when an event goes beyond the limits; so within them every question gets its line. */
  lemma {:induction false} LimitsDecide(events: seq<Event>)
    requires Delivered(events)
    ensures Run(events).life.failure.None? <==> WithinLimits(events)
    ensures WithinLimits(events) ==> Counts(Run(events), Text(events), Asked(events))
  {
    if events != [] {
      var before, e := events[..|events| - 1], events[|events| - 1];
      LimitsDecide(before);
      EveryRunKeepsInv(before);
      if Run(before).life.failure.None? {
        StepFailsBeyondLimits(Run(before), e, Text(before), Asked(before));
      } else {
        FailureStays(Run(before), e);
      }
    }
  }

  /** Within the limits: question `k` gets line `k` of the whole text, as soon as both are there. */
  lemma EveryLineAnswers(events: seq<Event>, k: nat)
    requires Delivered(events) && WithinLimits(events)
    requires k < Asked(events) && k < |LinesOf(Text(events), Run(events).life.ended)|
    ensures var d := Run(events).desk;
      k < |d.log| && d.log[k] == (k, Answered(LinesOf(Text(events), Run(events).life.ended)[k]))
  {
    LimitsDecide(events);
    LinesInOrder(events, k);
  }
}
