/** The parent's side of the HTTP activation handshake: store, prepare, store, commit, activate,
    listen, each phase after the exact acknowledgement of the one before; with an abort possible at
    any point and a child that may say anything.

    The parent is a step machine.  Its events are what the child says, how the lock, the state store
    and the channel answer, timers, and the caller's calls of `cleanup`, `finalize` and `release`. */
module Activation {

  import opened Options

  // ---------------------------------------------------------------------------------------
  // Messages
  // ---------------------------------------------------------------------------------------

  /** The literals of the protocol, and anything else as text. */
  datatype Key = Type | PhaseKey | StateDigest | Other(name: string)

  datatype AckPhase = Prepared | Authorized | ReadyToListen | Listening | Detached | Released

  datatype Atom = AwaitingActivation | ActivationAck | AckOf(phase: AckPhase) | Text(text: string)

  type Msg = map<Key, Atom>

  /** `exactRuntimeMessage`: as many keys, and each expected key with its value. */
  predicate Exact(message: Msg, expected: Msg)
  {
    |message| == |expected| && forall k :: k in expected ==> k in message && message[k] == expected[k]
  }

  /** An exact message is the expected one: nothing missing, nothing added, nothing changed. */
  lemma ExactIsEqual(message: Msg, expected: Msg)
    ensures Exact(message, expected) <==> message == expected
  {
    if Exact(message, expected) {
      assert expected.Keys <= message.Keys;
      assert |expected.Keys| == |expected| && |message.Keys| == |message|;
      SameSize(expected.Keys, message.Keys);
    }
  }

  lemma SameSize<T>(a: set<T>, b: set<T>)
    requires a <= b && |a| == |b|
    ensures a == b
  {
    assert |b| == |a| + |b - a| by {
      assert b == a + (b - a);
    }
  }

  function Hello(tuple: Msg): Msg
  {
    map[Type := AwaitingActivation] + tuple
  }

  function Ack(tuple: Msg, phase: AckPhase, digest: string): Msg
  {
    map[Type := ActivationAck, PhaseKey := AckOf(phase), StateDigest := Text(digest)] + tuple
  }

  predicate IsHex(c: char) { '0' <= c <= '9' || 'a' <= c <= 'f' }

  predicate IsDigest(s: string) { |s| == 64 && forall i :: 0 <= i < |s| ==> IsHex(s[i]) }

  // ---------------------------------------------------------------------------------------
  // The machine
  // ---------------------------------------------------------------------------------------

  datatype Phase = Prepare | Commit | Activate | Listen | Detach | Release

  const PHASES: seq<Phase> := [Prepare, Commit, Activate, Listen]

  function PhaseAt(k: nat): (p: Phase)
    requires k < 4
    ensures p == PHASES[k]
  {
    if k == 0 then Prepare else if k == 1 then Commit else if k == 2 then Activate else Listen
  }

  predicate Activates(p: Phase) { p != Detach && p != Release }

  /** What acknowledges phase `k`. */
  function AckName(k: nat): AckPhase
  {
    if k == 0 then Prepared else if k == 1 then Authorized else if k == 2 then ReadyToListen else Listening
  }

  /** `http_process_state_write_failed`, `http_process_activation_failed`, `http_readiness_failed`,
      `deploy_interrupted`. */
  datatype Code = StateWriteFailed | ActivationFailed | ReadinessFailed | Interrupted

  datatype Outcome = Ready | Failed(code: Code) | CleanupUnverified

  datatype Effect =
    | Stored(authorized: bool, digest: string)
    | Sent(phase: Phase, digest: string)
    | Heard(message: Msg)
    | Signalled
    | ExitSeen

  /** A listener for one expected message; it is lost on exit, disconnect, abort or timeout. */
  datatype Wait = NoWait | Armed(expected: Msg) | Arrived | Lost

  /** `Locking(k)` precedes phase `k`, or the probing when `k` is 4. */
  datatype Pc =
    | Storing(authorized: bool)
    | AwaitingHello
    | Locking(k: nat)
    | Sending(k: nat)
    | AwaitingAck(k: nat)
    | Probing(busy: bool)
    | CleaningUp(code: Code)
    | Done(outcome: Outcome)

  /** The memoised termination of the child. */
  datatype Termination = NotBegun | CheckingLock | Killing(hard: bool) | Ended(gone: bool)

  /** The memoised `finalize` and `release`. */
  datatype Call = Idle | CallLocking | CallSending | CallAwaiting | CallRelocking | CallDone(ok: bool)

  datatype Side = Side(call: Call, digest: string, wait: Wait)

  datatype Flow = Flow(pc: Pc, wait: Wait, prepared: string, committed: string)

  datatype Life = Life(aborted: bool, exited: bool, termination: Termination, releaseSent: bool)

  datatype Sides = Sides(finalization: Side, leaseRelease: Side)

  datatype State = State(tuple: Msg, flow: Flow, life: Life, sides: Sides, log: seq<Effect>)

  datatype Event =
    | StoreReturns(stored: Option<string>)
    | LockReturns(ok: bool)
    | SendReturns(ok: bool)
    | Says(message: Msg)
    | WaitEnds
    | SideWaitEnds(release: bool)
    | Exits
    | Aborts
    | Continues
    | ProbeReturns(ready: Option<bool>)
    | Deadline
    | TerminationLock(ok: bool)
    | TerminationTimer
    | CallsCleanup
    | CallsFinalize(digest: string)
    | CallsRelease(digest: string)
    | SideLock(release: bool, ok: bool)
    | SideSent(release: bool, ok: bool)
    | SideContinues(release: bool)

  const IDLE := Side(Idle, "", NoWait)

  /** The child has a pid; the listener for its request is armed, unless the signal was aborted already. */
  function Started(tuple: Msg, aborted: bool): State
  {
    var wait := if aborted then Lost else Armed(Hello(tuple));
    State(tuple, Flow(Storing(false), wait, "", ""), Life(aborted, false, NotBegun, false), Sides(IDLE, IDLE), [])
  }

  function Goto(s: State, pc: Pc, wait: Wait): State { s.(flow := s.flow.(pc := pc, wait := wait)) }

  function Ending(s: State, termination: Termination): State { s.(life := s.life.(termination := termination)) }

  function Log(s: State, e: Effect): State { s.(log := s.log + [e]) }

  function DigestOf(s: State, k: nat): string { if k == 0 then s.flow.prepared else s.flow.committed }

  /** `cleanup()`: nothing once the release is out; otherwise begin terminating, once. */
  function Cleanup(s: State): State
  {
    if s.life.releaseSent || s.life.termination != NotBegun then s else Ending(s, CheckingLock)
  }

  function GiveUp(s: State, code: Code): State { Cleanup(Goto(s, CleaningUp(code), NoWait)) }

  function Hear(w: Wait, m: Msg): Wait { if w.Armed? && Exact(m, w.expected) then Arrived else w }

  function Lose(w: Wait): Wait { if w.Armed? then Lost else w }

  function LoseAll(s: State): State
  {
    s.(flow := s.flow.(wait := Lose(s.flow.wait)),
       sides := Sides(s.sides.finalization.(wait := Lose(s.sides.finalization.wait)),
                      s.sides.leaseRelease.(wait := Lose(s.sides.leaseRelease.wait))))
  }

  /** The code returned after clean-up: an abort by then shows, except behind a failed state write. */
  function Reported(code: Code, aborted: bool): Code
  {
    if aborted && code != StateWriteFailed then Interrupted else code
  }

  function OnStored(s: State, stored: Option<string>): State
  {
    if !s.flow.pc.Storing? then s
    else if stored.None? || !IsDigest(stored.value) then GiveUp(s, StateWriteFailed)
    else if !s.flow.pc.authorized then
      Log(s.(flow := s.flow.(pc := AwaitingHello, prepared := stored.value)), Stored(false, stored.value))
    else
      Log(s.(flow := s.flow.(pc := Locking(1), committed := stored.value)), Stored(true, stored.value))
  }

  /** With the lock owned, listen for the acknowledgement and send. */
  function OnLock(s: State, ok: bool): State
  {
    if !s.flow.pc.Locking? then s
    else if !ok then GiveUp(s, StateWriteFailed)
    else if s.flow.pc.k >= 4 then Goto(s, Probing(false), s.flow.wait)
    else
      var k, digest := s.flow.pc.k, DigestOf(s, s.flow.pc.k);
      var wait := if s.life.aborted then Lost else Armed(Ack(s.tuple, AckName(k), digest));
      Log(Goto(s, Sending(k), wait), Sent(PhaseAt(k), digest))
  }

  function OnSent(s: State, ok: bool): State
  {
    if !s.flow.pc.Sending? then s
    else if ok then Goto(s, AwaitingAck(s.flow.pc.k), s.flow.wait) else GiveUp(s, StateWriteFailed)
  }

  function OnMessage(s: State, m: Msg): State
  {
    Log(s.(flow := s.flow.(wait := Hear(s.flow.wait, m)),
           sides := Sides(s.sides.finalization.(wait := Hear(s.sides.finalization.wait, m)),
                          s.sides.leaseRelease.(wait := Hear(s.sides.leaseRelease.wait, m)))), Heard(m))
  }

  function OnExit(s: State): State
  {
    if s.life.exited then s
    else
      var termination := if s.life.termination.Killing? then Ended(true) else s.life.termination;
      Log(LoseAll(s).(life := s.life.(exited := true, termination := termination)), ExitSeen)
  }

  /** The abort listener is gone once a result is returned. */
  function OnAbort(s: State): State
  {
    var s' := LoseAll(s).(life := s.life.(aborted := true));
    if s.flow.pc.Done? then s' else Cleanup(s')
  }

  function OnProbe(s: State, ready: Option<bool>): State
  {
    if s.flow.pc != Probing(true) then s
    else if ready.None? then GiveUp(s, ReadinessFailed)
    else Goto(s, if ready.value then Done(Ready) else Probing(false), s.flow.wait)
  }

  function OnDeadline(s: State): State
  {
    if s.flow.pc != Probing(false) then s else GiveUp(s, ReadinessFailed)
  }

  function OnTerminationLock(s: State, ok: bool): State
  {
    if !s.life.termination.CheckingLock? then s
    else if !ok then Ending(s, Ended(false))
    else if s.life.exited then Ending(s, Ended(true))
    else Log(Ending(s, Killing(false)), Signalled)
  }

  function OnTerminationTimer(s: State): State
  {
    if !s.life.termination.Killing? then s
    else if !s.life.termination.hard then Log(Ending(s, Killing(true)), Signalled)
    else Ending(s, Ended(s.life.exited))
  }

  function SideOf(s: State, release: bool): Side { if release then s.sides.leaseRelease else s.sides.finalization }

  function OnSideLock(s: State, release: bool, ok: bool): State
  {
    var side := SideOf(s, release);
    if side.call.CallRelocking? then SetSide(s, release, side.(call := CallDone(ok)))
    else if !side.call.CallLocking? then s
    else if !ok then SetSide(s, release, side.(call := CallDone(false)))
    else
      var expected := Ack(s.tuple, if release then Released else Detached, side.digest);
      Log(SetSide(s, release, side.(call := CallSending, wait := if s.life.aborted then Lost else Armed(expected))),
          Sent(if release then Release else Detach, side.digest))
  }

  function OnSideSent(s: State, release: bool, ok: bool): State
  {
    var side := SideOf(s, release);
    if !side.call.CallSending? then s
    else if !ok then SetSide(s, release, side.(call := CallDone(false)))
    else SetSide(s, release, side.(call := CallAwaiting)).(life := s.life.(releaseSent := s.life.releaseSent || release))
  }

  function OnSideWaitEnds(s: State, release: bool): State
  {
    var side := SideOf(s, release);
    SetSide(s, release, side.(wait := Lose(side.wait)))
  }

  function OnSideContinues(s: State, release: bool): State
  {
    var side := SideOf(s, release);
    if !side.call.CallAwaiting? || side.wait.Armed? || side.wait.NoWait? then s
    else if side.wait.Lost? || s.life.aborted then SetSide(s, release, side.(call := CallDone(false)))
    else SetSide(s, release, side.(call := CallRelocking))
  }

  function OnCleanup(s: State): State
  {
    if s.flow.pc == Done(Ready) || s.flow.pc == Done(CleanupUnverified) then Cleanup(s) else s
  }

  function OnSideCall(s: State, release: bool, digest: string): State
  {
    if s.flow.pc == Done(Ready) then SetSide(s, release, Begin(s, SideOf(s, release), digest)) else s
  }

  function Step(s: State, e: Event): State
  {
    match e
    case StoreReturns(stored) => OnStored(s, stored)
    case LockReturns(ok) => OnLock(s, ok)
    case SendReturns(ok) => OnSent(s, ok)
    case Says(m) => OnMessage(s, m)
    case WaitEnds => Goto(s, s.flow.pc, Lose(s.flow.wait))
    case SideWaitEnds(release) => OnSideWaitEnds(s, release)
    case Exits => OnExit(s)
    case Aborts => OnAbort(s)
    case Continues => Continue(s)
    case ProbeReturns(ready) => OnProbe(s, ready)
    case Deadline => OnDeadline(s)
    case TerminationLock(ok) => OnTerminationLock(s, ok)
    case TerminationTimer => OnTerminationTimer(s)
    case CallsCleanup => OnCleanup(s)
    case CallsFinalize(digest) => OnSideCall(s, false, digest)
    case CallsRelease(digest) => OnSideCall(s, true, digest)
    case SideLock(release, ok) => OnSideLock(s, release, ok)
    case SideSent(release, ok) => OnSideSent(s, release, ok)
    case SideContinues(release) => OnSideContinues(s, release)
  }

  function SetSide(s: State, release: bool, side: Side): State
  {
    s.(sides := if release then s.sides.(leaseRelease := side) else s.sides.(finalization := side))
  }

  function Begin(s: State, side: Side, digest: string): Side
  {
    if !side.call.Idle? then side
    else if !IsDigest(digest) || s.life.aborted then side.(call := CallDone(false))
    else Side(CallLocking, digest, NoWait)
  }

  /** A pending await of the main flow resumes. */
  function Continue(s: State): State
  {
    match s.flow.pc
    case AwaitingHello =>
      if s.flow.wait.Arrived? && !s.life.aborted then Goto(s, Locking(0), NoWait)
      else if s.flow.wait.Armed? then s
      else GiveUp(s, ActivationFailed)
    case AwaitingAck(k) =>
      if s.flow.wait.Arrived? && !s.life.aborted then
        Goto(s, if k == 0 then Storing(true) else Locking(k + 1), NoWait)
      else if s.flow.wait.Armed? then s
      else GiveUp(s, StateWriteFailed)
    case Probing(busy) =>
      if busy then s
      else if s.life.exited || s.life.aborted then GiveUp(s, ReadinessFailed)
      else Goto(s, Probing(true), s.flow.wait)
    case CleaningUp(code) =>
      if !s.life.termination.Ended? then s
      else
        var failed := Failed(Reported(code, s.life.aborted));
        Goto(s, Done(if s.life.termination.gone then failed else CleanupUnverified), s.flow.wait)
    case _ => s
  }

  function Run(s: State, events: seq<Event>): State
  {
    if events == [] then s else Step(Run(s, events[..|events| - 1]), events[|events| - 1])
  }

  // ---------------------------------------------------------------------------------------
  // The protocol, as an automaton over the log
  // ---------------------------------------------------------------------------------------

  /** `sent` phases went out so far; `acked` says the last of them was acknowledged, exactly and for the
      digest it was sent with; `ok` that everything happened in order. */
  datatype Track = Track(
    ok: bool,
    sent: nat,
    prepared: Option<string>,
    committed: Option<string>,
    hello: bool,
    acked: bool)

  function Digest(t: Track, k: nat): Option<string> { if k == 0 then t.prepared else t.committed }

  function Observe(tuple: Msg, t: Track, e: Effect): Track
  {
    match e
    case Stored(authorized, digest) =>
      if !authorized then t.(ok := t.ok && t.sent == 0, prepared := Some(digest))
      else t.(ok := t.ok && t.sent == 1 && t.acked, committed := Some(digest))
    case Sent(phase, digest) =>
      if phase == Detach || phase == Release then t.(ok := t.ok && t.sent == 4 && t.acked)
      else
        t.(ok := && t.ok && t.sent < 4 && phase == PhaseAt(t.sent)
                 && Digest(t, t.sent) == Some(digest) && (if t.sent == 0 then t.hello else t.acked),
           sent := t.sent + 1,
           acked := false)
    case Heard(m) =>
      t.(hello := t.hello || m == Hello(tuple),
         acked := t.acked || (t.sent > 0 && Digest(t, t.sent - 1).Some?
                              && m == Ack(tuple, AckName(t.sent - 1), Digest(t, t.sent - 1).value)))
    case Signalled => t
    case ExitSeen => t
  }

  const NOTHING_YET := Track(true, 0, None, None, false, false)

  /** Prepared is stored before `prepare` is sent, authorized is stored after `prepare` was acknowledged and
      before `commit` is sent; the phases go out once each, in order, each after the acknowledgement of
      the one before. */
  function Follow(tuple: Msg, log: seq<Effect>): Track
  {
    if log == [] then NOTHING_YET else Observe(tuple, Follow(tuple, log[..|log| - 1]), log[|log| - 1])
  }

  lemma FollowSnoc(tuple: Msg, log: seq<Effect>, e: Effect)
    ensures Follow(tuple, log + [e]) == Observe(tuple, Follow(tuple, log), e)
  {
    assert (log + [e])[..|log|] == log;
  }

  function CountOf(log: seq<Effect>, phase: Phase): nat
  {
    if log == [] then 0
    else CountOf(log[..|log| - 1], phase) + if log[|log| - 1].Sent? && log[|log| - 1].phase == phase then 1 else 0
  }

  // ---------------------------------------------------------------------------------------
  // What every step keeps
  // ---------------------------------------------------------------------------------------

  ghost predicate PcFits(s: State, t: Track)
  {
    match s.flow.pc
    case Storing(authorized) => t.sent == (if authorized then 1 else 0) && (authorized ==> t.acked)
    case AwaitingHello => t.sent == 0 && t.prepared == Some(s.flow.prepared)
    case Locking(k) =>
      && t.sent == k <= 4 && (k == 0 ==> t.hello) && (k > 0 ==> t.acked)
      && Digest(t, k) == Some(DigestOf(s, k))
    case Sending(k) => t.sent == k + 1 <= 4 && Digest(t, k) == Some(DigestOf(s, k))
    case AwaitingAck(k) => t.sent == k + 1 <= 4 && Digest(t, k) == Some(DigestOf(s, k))
    case Probing(_) => t.sent == 4 && t.acked
    case CleaningUp(_) => s.life.termination != NotBegun
    case Done(Ready) => t.sent == 4 && t.acked
    case Done(Failed(_)) => s.life.exited
    case Done(CleanupUnverified) => true
  }

  ghost predicate WaitFits(s: State, t: Track)
  {
    && (s.flow.pc == Storing(false) || s.flow.pc.AwaitingHello? ==>
          (s.flow.wait.Armed? ==> s.flow.wait.expected == Hello(s.tuple)) && (s.flow.wait.Arrived? ==> t.hello))
    && (s.flow.pc.Sending? || s.flow.pc.AwaitingAck? ==>
          && (s.flow.wait.Armed? ==> s.flow.wait.expected == Ack(s.tuple, AckName(s.flow.pc.k), DigestOf(s, s.flow.pc.k)))
          && (s.flow.wait.Arrived? ==> t.acked))
  }

  predicate Unsent(call: Call) { call.Idle? || call.CallLocking? }

  /** What the log says, as far as the invariant reads it. */
  datatype Seen = Seen(track: Track, detaches: nat, releases: nat, exit: bool)

  function See(tuple: Msg, w: Seen, e: Effect): Seen
  {
    Seen(Observe(tuple, w.track, e),
         w.detaches + (if e.Sent? && e.phase == Detach then 1 else 0),
         w.releases + (if e.Sent? && e.phase == Release then 1 else 0),
         w.exit || e == ExitSeen)
  }

  ghost function SeenIn(tuple: Msg, log: seq<Effect>): Seen
  {
    Seen(Follow(tuple, log), CountOf(log, Detach), CountOf(log, Release), ExitSeen in log)
  }

  lemma SeeSnoc(tuple: Msg, log: seq<Effect>, e: Effect)
    ensures SeenIn(tuple, log + [e]) == See(tuple, SeenIn(tuple, log), e)
  {
    FollowSnoc(tuple, log, e);
    assert (log + [e])[..|log|] == log;
  }

  ghost predicate SidesFit(s: State, w: Seen)
  {
    && (s.flow.pc != Done(Ready) ==> s.sides.finalization == IDLE && s.sides.leaseRelease == IDLE)
    && (s.life.releaseSent ==> !Unsent(s.sides.leaseRelease.call))
    && w.detaches <= 1 && (Unsent(s.sides.finalization.call) ==> w.detaches == 0)
    && w.releases <= 1 && (Unsent(s.sides.leaseRelease.call) ==> w.releases == 0)
  }

  ghost predicate Fits(s: State, w: Seen)
  {
    && w.track.ok
    && PcFits(s, w.track)
    && WaitFits(s, w.track)
    && SidesFit(s, w)
    && s.life.exited == w.exit
    && (s.life.termination == Ended(true) ==> s.life.exited)
  }

  ghost predicate Inv(s: State) { Fits(s, SeenIn(s.tuple, s.log)) }

  /** `s'` logs one effect more than `s`, or none, and fits what is then seen. */
  ghost predicate Kept(s: State, s': State, w: Seen)
  {
    && s'.tuple == s.tuple
    && (|| (s'.log == s.log && Fits(s', w))
        || (s'.log != [] && s'.log[..|s'.log| - 1] == s.log && Fits(s', See(s.tuple, w, s'.log[|s'.log| - 1]))))
  }

  lemma GiveUpKeeps(s: State, code: Code, w: Seen)
    requires Fits(s, w) && !s.flow.pc.Done?
    ensures Kept(s, GiveUp(s, code), w)
  {
  }

  lemma StoreKeeps(s: State, stored: Option<string>, w: Seen)
    requires Fits(s, w)
    ensures Kept(s, OnStored(s, stored), w)
  {
    if s.flow.pc.Storing? && (stored.None? || !IsDigest(stored.value)) {
      GiveUpKeeps(s, StateWriteFailed, w);
    }
  }

  lemma LockKeeps(s: State, ok: bool, w: Seen)
    requires Fits(s, w)
    ensures Kept(s, OnLock(s, ok), w)
  {
    if s.flow.pc.Locking? && !ok {
      GiveUpKeeps(s, StateWriteFailed, w);
    }
  }

  lemma SentKeeps(s: State, ok: bool, w: Seen)
    requires Fits(s, w)
    ensures Kept(s, OnSent(s, ok), w)
  {
  }

  /** The listener fires only for the message that the automaton takes for its acknowledgement. */
  lemma Hears(s: State, m: Msg, w: Seen)
    requires PcFits(s, w.track) && WaitFits(s, w.track)
    ensures WaitFits(OnMessage(s, m), Observe(s.tuple, w.track, Heard(m)))
  {
    if s.flow.wait.Armed? { ExactIsEqual(m, s.flow.wait.expected); }
  }

  lemma HearingFits(s: State, m: Msg, w: Seen)
    requires Fits(s, w)
    ensures Fits(OnMessage(s, m), See(s.tuple, w, Heard(m)))
  {
    Hears(s, m, w);
    HearingKeepsPc(s, m, w.track);
  }

  lemma HearingKeepsPc(s: State, m: Msg, t: Track)
    requires PcFits(s, t)
    ensures PcFits(OnMessage(s, m), Observe(s.tuple, t, Heard(m)))
  {
    var t' := Observe(s.tuple, t, Heard(m));
    assert t'.sent == t.sent && (t.acked ==> t'.acked) && (t.hello ==> t'.hello);
    assert t'.prepared == t.prepared && t'.committed == t.committed;
  }

  lemma MessageKeeps(s: State, m: Msg, w: Seen)
    requires Fits(s, w)
    ensures Kept(s, OnMessage(s, m), w)
  {
    HearingFits(s, m, w);
    assert OnMessage(s, m).log[..|s.log|] == s.log;
  }

  lemma ExitKeeps(s: State, w: Seen)
    requires Fits(s, w)
    ensures Kept(s, OnExit(s), w)
  {
  }

  lemma LossKeeps(s: State, w: Seen)
    requires Fits(s, w)
    ensures Kept(s, LoseAll(s), w) && Kept(s, OnAbort(s), w)
  {
  }

  lemma GiveUpsKeep(s: State, w: Seen)
    requires Fits(s, w) && !s.flow.pc.Done?
    ensures forall code :: Kept(s, GiveUp(s, code), w)
  {
    forall code
      ensures Kept(s, GiveUp(s, code), w)
    {
      GiveUpKeeps(s, code, w);
    }
  }

  lemma ContinueKeeps(s: State, w: Seen)
    requires Fits(s, w)
    ensures Kept(s, Continue(s), w)
  {
    if !s.flow.pc.Done? { GiveUpsKeep(s, w); }
  }

  lemma ProbingKeeps(s: State, ready: Option<bool>, w: Seen)
    requires Fits(s, w)
    ensures Kept(s, OnProbe(s, ready), w) && Kept(s, OnDeadline(s), w)
  {
  }

  lemma TerminationMoves(s: State, termination: Termination, log: seq<Effect>, w: Seen)
    requires Fits(s, w) && termination != NotBegun && (termination == Ended(true) ==> s.life.exited)
    ensures Fits(Ending(s, termination).(log := log), w)
  {
  }

  lemma TerminationLockKeeps(s: State, ok: bool, w: Seen)
    requires Fits(s, w)
    ensures Kept(s, OnTerminationLock(s, ok), w)
  {
  }

  lemma TerminationTimerKeeps(s: State, w: Seen)
    requires Fits(s, w)
    ensures Kept(s, OnTerminationTimer(s), w)
  {
    var s' := OnTerminationTimer(s);
    assert See(s.tuple, w, Signalled) == w;
    assert (s.log + [Signalled])[..|s.log|] == s.log;
    if s.life.termination.Killing? { TerminationMoves(s, s'.life.termination, s'.log, w); }
  }

  lemma CleanupKeeps(s: State, w: Seen)
    requires Fits(s, w)
    ensures Kept(s, OnCleanup(s), w)
  {
  }

  /** Only the side calls are different. */
  lemma SidesMove(s: State, sides: Sides, w: Seen)
    requires Fits(s, w) && SidesFit(s.(sides := sides), w)
    ensures Fits(s.(sides := sides), w)
  {
  }

  /** Only the side calls are different, and detach or release is sent. */
  lemma SideSends(s: State, sides: Sides, phase: Phase, digest: string, w: Seen)
    requires Fits(s, w) && s.flow.pc == Done(Ready) && !Activates(phase)
    requires SidesFit(s.(sides := sides), See(s.tuple, w, Sent(phase, digest)))
    ensures Fits(Log(s.(sides := sides), Sent(phase, digest)), See(s.tuple, w, Sent(phase, digest)))
  {
  }

  lemma SideLockSends(s: State, release: bool, w: Seen)
    requires Fits(s, w) && SideOf(s, release).call.CallLocking?
    ensures Kept(s, OnSideLock(s, release, true), w)
  {
    var s', phase, digest := OnSideLock(s, release, true), if release then Release else Detach, SideOf(s, release).digest;
    SideSends(s, s'.sides, phase, digest, w);
    assert s' == Log(s.(sides := s'.sides), Sent(phase, digest));
    assert s'.log[..|s.log|] == s.log;
  }

  lemma SideLockKeeps(s: State, release: bool, ok: bool, w: Seen)
    requires Fits(s, w)
    ensures Kept(s, OnSideLock(s, release, ok), w)
  {
    if ok && SideOf(s, release).call.CallLocking? {
      SideLockSends(s, release, w);
    } else {
      SidesMove(s, OnSideLock(s, release, ok).sides, w);
    }
  }

  lemma SideSentKeeps(s: State, release: bool, ok: bool, w: Seen)
    requires Fits(s, w)
    ensures Kept(s, OnSideSent(s, release, ok), w)
  {
  }

  lemma SideContinuesKeeps(s: State, release: bool, w: Seen)
    requires Fits(s, w)
    ensures Kept(s, OnSideContinues(s, release), w) && Kept(s, OnSideWaitEnds(s, release), w)
  {
  }

  lemma SideCallKeeps(s: State, release: bool, digest: string, w: Seen)
    requires Fits(s, w)
    ensures Kept(s, OnSideCall(s, release, digest), w)
  {
  }

  predicate OfSides(e: Event)
  {
    e.CallsFinalize? || e.CallsRelease? || e.SideLock? || e.SideSent? || e.SideContinues? || e.SideWaitEnds?
  }

  lemma SideBeginsKeeps(s: State, e: Event, w: Seen)
    requires Fits(s, w) && (e.CallsFinalize? || e.CallsRelease? || e.SideLock?)
    ensures Kept(s, Step(s, e), w)
  {
    match e
    case CallsFinalize(digest) => SideCallKeeps(s, false, digest, w);
    case CallsRelease(digest) => SideCallKeeps(s, true, digest, w);
    case SideLock(release, ok) => SideLockKeeps(s, release, ok, w);
  }

  lemma SideGoesOnKeeps(s: State, e: Event, w: Seen)
    requires Fits(s, w) && (e.SideSent? || e.SideContinues? || e.SideWaitEnds?)
    ensures Kept(s, Step(s, e), w)
  {
    match e
    case SideSent(release, ok) => SideSentKeeps(s, release, ok, w);
    case SideContinues(release) => SideContinuesKeeps(s, release, w);
    case SideWaitEnds(release) => SideContinuesKeeps(s, release, w);
  }

  lemma StepKeeps(s: State, e: Event, w: Seen)
    requires Fits(s, w)
    ensures Kept(s, Step(s, e), w)
  {
    match e
    case StoreReturns(stored) => StoreKeeps(s, stored, w);
    case LockReturns(ok) => LockKeeps(s, ok, w);
    case SendReturns(ok) => SentKeeps(s, ok, w);
    case Says(m) => MessageKeeps(s, m, w);
    case WaitEnds => LossKeeps(s, w);
    case Exits => ExitKeeps(s, w);
    case Aborts => LossKeeps(s, w);
    case Continues => ContinueKeeps(s, w);
    case ProbeReturns(ready) => ProbingKeeps(s, ready, w);
    case Deadline => ProbingKeeps(s, None, w);
    case TerminationLock(ok) => TerminationLockKeeps(s, ok, w);
    case TerminationTimer => TerminationTimerKeeps(s, w);
    case CallsCleanup => CleanupKeeps(s, w);
    case _ =>
      if e.CallsFinalize? || e.CallsRelease? || e.SideLock? { SideBeginsKeeps(s, e, w); } else { SideGoesOnKeeps(s, e, w); }
  }

  lemma KeptIsInv(s: State, s': State)
    requires Kept(s, s', SeenIn(s.tuple, s.log))
    ensures Inv(s')
  {
    if s'.log != [] && s'.log[..|s'.log| - 1] == s.log {
      assert s'.log == s.log + [s'.log[|s'.log| - 1]];
      SeeSnoc(s.tuple, s.log, s'.log[|s'.log| - 1]);
    }
  }

  lemma StepKeepsInv(s: State, e: Event)
    requires Inv(s)
    ensures Inv(Step(s, e)) && Step(s, e).tuple == s.tuple
  {
    StepKeeps(s, e, SeenIn(s.tuple, s.log));
    KeptIsInv(s, Step(s, e));
  }

  lemma {:induction false} EveryRunKeepsInv(tuple: Msg, aborted: bool, events: seq<Event>)
    ensures var s := Run(Started(tuple, aborted), events); Inv(s) && s.tuple == tuple
  {
    if events != [] {
      EveryRunKeepsInv(tuple, aborted, events[..|events| - 1]);
      StepKeepsInv(Run(Started(tuple, aborted), events[..|events| - 1]), events[|events| - 1]);
    }
  }

  // ---------------------------------------------------------------------------------------
  // What the automaton means for the log
  // ---------------------------------------------------------------------------------------

  /** The activation phases sent, in the order they were sent. */
  function Phases(log: seq<Effect>): seq<Phase>
  {
    if log == [] then []
    else
      var before, e := Phases(log[..|log| - 1]), log[|log| - 1];
      if e.Sent? && Activates(e.phase) then before + [e.phase] else before
  }

  /** Phase `k` was sent and, later, acknowledged for the very digest it was sent with. */
  ghost predicate Answered(tuple: Msg, log: seq<Effect>, k: nat)
    requires k < 4
  {
    exists i, j :: 0 <= i < j < |log| && log[i].Sent? && log[i].phase == PhaseAt(k)
                   && log[j] == Heard(Ack(tuple, AckName(k), log[i].digest))
  }

  lemma AnsweredStays(tuple: Msg, log: seq<Effect>, e: Effect, k: nat)
    requires k < 4 && Answered(tuple, log, k)
    ensures Answered(tuple, log + [e], k)
  {
    var i, j :| 0 <= i < j < |log| && log[i].Sent? && log[i].phase == PhaseAt(k)
                && log[j] == Heard(Ack(tuple, AckName(k), log[i].digest));
    assert (log + [e])[i] == log[i] && (log + [e])[j] == log[j];
  }

  /** Phase `k` is in the log with the digest the automaton holds for it. */
  ghost predicate SentWith(tuple: Msg, log: seq<Effect>, k: nat)
    requires k < 4
  {
    exists i :: 0 <= i < |log| && log[i].Sent? && log[i].phase == PhaseAt(k)
                && Digest(Follow(tuple, log), k) == Some(log[i].digest)
  }

  ghost predicate PhasesMatch(tuple: Msg, log: seq<Effect>)
  {
    var t := Follow(tuple, log);
    t.sent <= 4 && Phases(log) == PHASES[..t.sent] && (t.sent == 0 ==> !t.acked)
  }

  ghost predicate AllAnswered(tuple: Msg, log: seq<Effect>, n: nat)
    requires n <= 4
  {
    forall k: nat | k < n :: Answered(tuple, log, k)
  }

  ghost predicate AnswersMatch(tuple: Msg, log: seq<Effect>)
    requires Follow(tuple, log).sent <= 4
  {
    var t := Follow(tuple, log);
    && (t.sent > 0 ==> SentWith(tuple, log, t.sent - 1))
    && (t.sent > 0 ==> AllAnswered(tuple, log, if t.acked then t.sent else t.sent - 1))
  }

  ghost predicate RestMatches(tuple: Msg, log: seq<Effect>)
  {
    var t := Follow(tuple, log);
    && (t.hello ==> Heard(Hello(tuple)) in log)
    && (t.prepared.Some? ==> Stored(false, t.prepared.value) in log)
    && (t.committed.Some? ==> Stored(true, t.committed.value) in log)
  }

  ghost predicate Meaning(tuple: Msg, log: seq<Effect>)
  {
    PhasesMatch(tuple, log) && AnswersMatch(tuple, log) && RestMatches(tuple, log)
  }

  /** Where a phase goes out: the phases before it are out, in order, and the last of them is answered; the
      child has asked; and the digest sent was stored. */
  ghost predicate SentInOrder(tuple: Msg, log: seq<Effect>, k: nat, digest: string)
    requires k < 4
  {
    && Phases(log) == PHASES[..k]
    && (if k == 0 then Heard(Hello(tuple)) in log else Answered(tuple, log, k - 1))
    && Stored(k > 0, digest) in log
  }

  lemma SentWithStays(tuple: Msg, log: seq<Effect>, e: Effect)
    requires Meaning(tuple, log) && Follow(tuple, log + [e]).ok
    requires Follow(tuple, log + [e]).sent == Follow(tuple, log).sent > 0
    ensures SentWith(tuple, log + [e], Follow(tuple, log).sent - 1)
  {
    FollowSnoc(tuple, log, e);
    var k := Follow(tuple, log).sent - 1;
    var i :| 0 <= i < |log| && log[i].Sent? && log[i].phase == PhaseAt(k)
             && Digest(Follow(tuple, log), k) == Some(log[i].digest);
    assert (log + [e])[i] == log[i];
  }

  lemma NewAnswer(tuple: Msg, log: seq<Effect>, m: Msg)
    requires Meaning(tuple, log)
    requires Follow(tuple, log).sent > 0
    requires Observe(tuple, Follow(tuple, log), Heard(m)).acked && !Follow(tuple, log).acked
    ensures Answered(tuple, log + [Heard(m)], Follow(tuple, log).sent - 1)
  {
    var k := Follow(tuple, log).sent - 1;
    var i :| 0 <= i < |log| && log[i].Sent? && log[i].phase == PhaseAt(k)
             && Digest(Follow(tuple, log), k) == Some(log[i].digest);
    var log' := log + [Heard(m)];
    assert log'[i] == log[i] && log'[|log|] == Heard(m);
  }

  lemma PhasesMove(tuple: Msg, log: seq<Effect>, e: Effect)
    requires PhasesMatch(tuple, log) && Follow(tuple, log + [e]).ok
    ensures PhasesMatch(tuple, log + [e])
  {
    var t := Follow(tuple, log);
    FollowSnoc(tuple, log, e);
    assert (log + [e])[..|log|] == log;
    if e.Sent? && Activates(e.phase) { assert PHASES[..t.sent] + [e.phase] == PHASES[..t.sent + 1]; }
  }

  lemma RestMoves(tuple: Msg, log: seq<Effect>, e: Effect)
    requires RestMatches(tuple, log)
    ensures RestMatches(tuple, log + [e])
  {
    FollowSnoc(tuple, log, e);
  }

  lemma AllStay(tuple: Msg, log: seq<Effect>, e: Effect, n: nat)
    requires n <= 4 && AllAnswered(tuple, log, n)
    ensures AllAnswered(tuple, log + [e], n)
  {
    forall k: nat | k < n
      ensures Answered(tuple, log + [e], k)
    {
      AnsweredStays(tuple, log, e, k);
    }
  }

  /** An effect that sends no activation phase. */
  lemma AnswersMove(tuple: Msg, log: seq<Effect>, e: Effect)
    requires Meaning(tuple, log) && Follow(tuple, log + [e]).ok
    requires !(e.Sent? && Activates(e.phase))
    ensures Follow(tuple, log + [e]).sent <= 4 && AnswersMatch(tuple, log + [e])
  {
    var t := Follow(tuple, log);
    FollowSnoc(tuple, log, e);
    if t.sent > 0 {
      SentWithStays(tuple, log, e);
      AllStay(tuple, log, e, if t.acked then t.sent else t.sent - 1);
      if e.Heard? && !t.acked && Follow(tuple, log + [e]).acked { NewAnswer(tuple, log, e.message); }
    }
  }

  lemma AnswersSent(tuple: Msg, log: seq<Effect>, phase: Phase, digest: string)
    requires Meaning(tuple, log) && Follow(tuple, log + [Sent(phase, digest)]).ok && Activates(phase)
    ensures Follow(tuple, log + [Sent(phase, digest)]).sent <= 4
    ensures AnswersMatch(tuple, log + [Sent(phase, digest)])
  {
    var t := Follow(tuple, log);
    FollowSnoc(tuple, log, Sent(phase, digest));
    if t.sent > 0 { AllStay(tuple, log, Sent(phase, digest), t.sent); }
    NewlySent(tuple, log, phase, digest);
  }

  lemma NewlySent(tuple: Msg, log: seq<Effect>, phase: Phase, digest: string)
    requires Follow(tuple, log + [Sent(phase, digest)]).ok && Activates(phase) && Follow(tuple, log).sent < 4
    ensures SentWith(tuple, log + [Sent(phase, digest)], Follow(tuple, log).sent)
  {
    var log' := log + [Sent(phase, digest)];
    FollowSnoc(tuple, log, Sent(phase, digest));
    assert log'[|log|] == Sent(phase, digest);
    assert Digest(Follow(tuple, log'), Follow(tuple, log).sent) == Some(digest);
  }

  lemma {:induction false} MeaningOf(tuple: Msg, log: seq<Effect>)
    requires Follow(tuple, log).ok
    ensures Meaning(tuple, log)
  {
    if log != [] {
      var before, e := log[..|log| - 1], log[|log| - 1];
      assert log == before + [e];
      FollowSnoc(tuple, before, e);
      MeaningOf(tuple, before);
      PhasesMove(tuple, before, e);
      RestMoves(tuple, before, e);
      if e.Sent? && Activates(e.phase) {
        AnswersSent(tuple, before, e.phase, e.digest);
      } else {
        AnswersMove(tuple, before, e);
      }
    }
  }

  lemma {:induction false} OkEarlier(tuple: Msg, log: seq<Effect>, n: nat)
    requires n <= |log| && Follow(tuple, log).ok
    ensures Follow(tuple, log[..n]).ok
  {
    if n < |log| {
      var before := log[..|log| - 1];
      OkEarlier(tuple, before, n);
      assert before[..n] == log[..n];
    } else {
      assert log[..n] == log;
    }
  }

  ghost predicate InOrderAt(tuple: Msg, log: seq<Effect>, n: nat)
    requires n < |log|
  {
    && (forall k: nat, digest | k < 4 && log[n] == Sent(PhaseAt(k), digest) :: SentInOrder(tuple, log[..n], k, digest))
    && (log[n].Sent? && !Activates(log[n].phase) ==> Phases(log[..n]) == PHASES && Answered(tuple, log[..n], 3))
  }

  /** Detach and release go out behind the acknowledgement of listening. */
  lemma SideOrderOf(tuple: Msg, log: seq<Effect>, phase: Phase, digest: string)
    requires Meaning(tuple, log) && Follow(tuple, log + [Sent(phase, digest)]).ok && !Activates(phase)
    ensures Phases(log) == PHASES && Answered(tuple, log, 3)
  {
    FollowSnoc(tuple, log, Sent(phase, digest));
    assert Follow(tuple, log).sent == 4 && PHASES[..4] == PHASES;
  }

  lemma OrderOf(tuple: Msg, log: seq<Effect>, k: nat, digest: string)
    requires k < 4 && Meaning(tuple, log) && Follow(tuple, log + [Sent(PhaseAt(k), digest)]).ok
    ensures SentInOrder(tuple, log, k, digest)
  {
    var t := Follow(tuple, log);
    FollowSnoc(tuple, log, Sent(PhaseAt(k), digest));
    assert t.sent < 4 && PhaseAt(k) == PhaseAt(t.sent);
    assert k == t.sent;
    assert Digest(t, k) == Some(digest);
  }

  lemma OrderAt(tuple: Msg, log: seq<Effect>, n: nat)
    requires n < |log| && Follow(tuple, log).ok
    ensures InOrderAt(tuple, log, n)
  {
    OkEarlier(tuple, log, n + 1);
    OkEarlier(tuple, log, n);
    MeaningOf(tuple, log[..n]);
    assert log[..n + 1] == log[..n] + [log[n]];
    forall k: nat, digest | k < 4 && log[n] == Sent(PhaseAt(k), digest)
      ensures SentInOrder(tuple, log[..n], k, digest)
    {
      OrderOf(tuple, log[..n], k, digest);
    }
    if log[n].Sent? && !Activates(log[n].phase) { SideOrderOf(tuple, log[..n], log[n].phase, log[n].digest); }
  }

  /** Prepare, commit, activate and listen go out at most once, in that order; each only after the
      acknowledgement of the one before for the digest that one carried, prepare only after the child
      asked; prepare and commit carry a digest that was stored before they went out.  Detach and release
      go out at most once each, and each only after listening was acknowledged. */
  lemma HandshakeInOrder(tuple: Msg, aborted: bool, events: seq<Event>)
    ensures Ordered(tuple, Run(Started(tuple, aborted), events).log)
  {
    EveryRunKeepsInv(tuple, aborted, events);
    InvOrders(Run(Started(tuple, aborted), events));
  }

  ghost predicate Ordered(tuple: Msg, log: seq<Effect>)
  {
    && Phases(log) <= PHASES
    && (forall n: nat | n < |log| :: InOrderAt(tuple, log, n))
    && CountOf(log, Detach) <= 1 && CountOf(log, Release) <= 1
    && (CountOf(log, Detach) + CountOf(log, Release) > 0 ==> Answered(tuple, log, 3))
  }

  lemma InvOrders(s: State)
    requires Inv(s)
    ensures Ordered(s.tuple, s.log)
  {
    MeaningOf(s.tuple, s.log);
    forall n: nat | n < |s.log|
      ensures InOrderAt(s.tuple, s.log, n)
    {
      OrderAt(s.tuple, s.log, n);
    }
    if CountOf(s.log, Detach) + CountOf(s.log, Release) > 0 { SidesNeedListening(s.tuple, s.log); }
  }

  lemma {:induction false} SidesNeedListening(tuple: Msg, log: seq<Effect>)
    requires Follow(tuple, log).ok && CountOf(log, Detach) + CountOf(log, Release) > 0
    ensures Answered(tuple, log, 3)
  {
    MeaningOf(tuple, log);
    var before, e := log[..|log| - 1], log[|log| - 1];
    assert log == before + [e];
    FollowSnoc(tuple, before, e);
    if CountOf(before, Detach) + CountOf(before, Release) > 0 {
      SidesNeedListening(tuple, before);
      AnsweredStays(tuple, before, e, 3);
    }
  }

  /** A failed outcome is returned only once the child's exit was observed; a ready one only once the child
      acknowledged listening. */
  lemma OutcomesAreEarned(tuple: Msg, aborted: bool, events: seq<Event>)
    ensures var s := Run(Started(tuple, aborted), events);
      && (s.flow.pc.Done? && s.flow.pc.outcome.Failed? ==> ExitSeen in s.log)
      && (s.flow.pc == Done(Ready) ==> Phases(s.log) == PHASES && Answered(tuple, s.log, 3))
  {
    EveryRunKeepsInv(tuple, aborted, events);
    MeaningOf(tuple, Run(Started(tuple, aborted), events).log);
  }

  // ---------------------------------------------------------------------------------------
  // Signals and the release
  // ---------------------------------------------------------------------------------------

  function Signals(log: seq<Effect>): nat
  {
    if log == [] then 0 else Signals(log[..|log| - 1]) + if log[|log| - 1] == Signalled then 1 else 0
  }

  /** A termination begun before the release was out may have a signal left to send. */
  predicate SignalLeft(s: State)
  {
    s.life.termination == Killing(false) || (s.life.termination == CheckingLock && !s.life.exited)
  }

  /** No signal is left, and none can come: the release is out, the child is gone, or its one termination has
      begun already. */
  predicate Spent(s: State)
  {
    !SignalLeft(s) && (s.life.releaseSent || s.life.exited || s.life.termination != NotBegun)
  }

  /** Nothing signalled; a termination begun only where the release is not out; the rest goes on. */
  ghost predicate Quiet(s: State, s': State)
  {
    && (s'.log == s.log || (exists e: Effect :: e != Signalled && s'.log == s.log + [e]))
    && (s.life.releaseSent ==> s'.life.releaseSent)
    && (s.life.exited ==> s'.life.exited)
    && (|| s'.life.termination == s.life.termination
        || (s.life.termination.Killing? && s'.life.termination.Ended?)
        || (s.life.termination.NotBegun? && s'.life.termination.CheckingLock? && !s.life.releaseSent))
  }

  lemma HandshakeIsQuiet(s: State, e: Event)
    requires e.StoreReturns? || e.LockReturns? || e.SendReturns? || e.Continues? || e.ProbeReturns? || e.Deadline?
             || e.CallsCleanup? || e.Aborts? || e.WaitEnds?
    ensures Quiet(s, Step(s, e))
  {
  }

  lemma SidesAreQuiet(s: State, e: Event)
    requires e.Says? || e.Exits? || OfSides(e)
    ensures Quiet(s, Step(s, e))
  {
  }

  lemma QuietKeepsSpent(s: State, s': State)
    requires Spent(s) && Quiet(s, s')
    ensures Spent(s') && Signals(s'.log) == Signals(s.log)
  {
    if s'.log != s.log {
      var x :| x != Signalled && s'.log == s.log + [x];
      assert (s.log + [x])[..|s.log|] == s.log;
    }
  }

  lemma SpentStep(s: State, e: Event)
    requires Spent(s)
    ensures Spent(Step(s, e)) && Signals(Step(s, e).log) == Signals(s.log)
  {
    if e.Says? || e.Exits? || OfSides(e) {
      SidesAreQuiet(s, e);
      QuietKeepsSpent(s, Step(s, e));
    } else if !e.TerminationLock? && !e.TerminationTimer? {
      HandshakeIsQuiet(s, e);
      QuietKeepsSpent(s, Step(s, e));
    }
  }

  lemma {:induction false} SpentRun(s: State, events: seq<Event>)
    requires Spent(s)
    ensures Spent(Run(s, events)) && Signals(Run(s, events).log) == Signals(s.log)
  {
    if events != [] {
      SpentRun(s, events[..|events| - 1]);
      SpentStep(Run(s, events[..|events| - 1]), events[|events| - 1]);
    }
  }

  lemma RunOne(s: State, e: Event)
    ensures Run(s, [e]) == Step(s, e)
  {
    assert [e][..0] == [];
    assert Run(s, []) == s;
  }

  lemma SignalComes(s: State) returns (e: Event)
    requires SignalLeft(s)
    ensures Signals(Step(s, e).log) == Signals(s.log) + 1
  {
    e := if s.life.termination.Killing? then TerminationTimer else TerminationLock(true);
    assert Step(s, e).log == s.log + [Signalled];
    assert (s.log + [Signalled])[..|s.log|] == s.log;
  }

  ghost predicate NeverSignals(s: State)
  {
    forall events: seq<Event> :: Signals(Run(s, events).log) == Signals(s.log)
  }

  lemma SpentNeverSignals(s: State)
    requires Spent(s)
    ensures NeverSignals(s)
  {
    forall events: seq<Event>
      ensures Signals(Run(s, events).log) == Signals(s.log)
    {
      SpentRun(s, events);
    }
  }

  lemma LeftSignals(s: State)
    requires SignalLeft(s)
    ensures !NeverSignals(s)
  {
    var e := SignalComes(s);
    RunOne(s, e);
    assert Signals(Run(s, [e]).log) == Signals(s.log) + 1;
  }

  /** After a ready outcome, whatever is called and whatever happens, nothing signals the child any more exactly
      when no termination has a signal left and none can begin. */
  lemma SignalsBehindReady(s: State)
    requires s.flow.pc == Done(Ready)
    ensures NeverSignals(s) <==> Spent(s)
  {
    if Spent(s) {
      SpentNeverSignals(s);
    } else if SignalLeft(s) {
      LeftSignals(s);
    } else {
      assert Step(s, CallsCleanup) == Ending(s, CheckingLock);
      RunOne(s, CallsCleanup);
      assert [CallsCleanup, TerminationLock(true)][..1] == [CallsCleanup];
      assert Run(s, [CallsCleanup, TerminationLock(true)]) == Step(Ending(s, CheckingLock), TerminationLock(true));
      assert (s.log + [Signalled])[..|s.log|] == s.log;
    }
  }

  /** A clean-up called on a ready outcome, for the first time: it never signals the child, then or later, exactly
      when the release is confirmed as sent by the time of the call, or the child is gone. */
  lemma CleanupSignals(s: State)
    requires s.flow.pc == Done(Ready) && s.life.termination == NotBegun
    ensures NeverSignals(Step(s, CallsCleanup)) <==> s.life.releaseSent || s.life.exited
  {
    SignalsBehindReady(Step(s, CallsCleanup));
  }

  /** Once the release is out nothing signals the child again, whatever is called and whatever happens,
      exactly when no termination begun earlier has a signal left. */
  lemma NoSignalAfterRelease(s: State)
    requires s.life.releaseSent
    ensures NeverSignals(s) <==> !SignalLeft(s)
    ensures Step(s, CallsCleanup) == s
  {
    if SignalLeft(s) { LeftSignals(s); } else { SpentNeverSignals(s); }
  }

  // ---------------------------------------------------------------------------------------
  // A run that goes through, and a clean-up between the release and its confirmation
  // ---------------------------------------------------------------------------------------

  /** Nothing went wrong so far, and nothing was called. */
  predicate Smooth(s: State, digest: string)
  {
    && s.life == Life(false, false, NotBegun, false) && s.sides == Sides(IDLE, IDLE)
    && s.flow.prepared == digest && (s.flow.committed == digest || s.flow.pc == Locking(0) || s.flow.pc == Storing(true))
  }

  lemma {:induction false} RunJoins(s: State, a: seq<Event>, b: seq<Event>)
    ensures Run(s, a + b) == Run(Run(s, a), b)
  {
    if b == [] {
      assert a + b == a;
    } else {
      RunJoins(s, a, b[..|b| - 1]);
      assert (a + b)[..|a + b| - 1] == a + b[..|b| - 1];
    }
  }

  lemma RunFour(s: State, a: Event, b: Event, c: Event, d: Event)
    ensures Run(s, [a, b, c, d]) == Step(Step(Step(Step(s, a), b), c), d)
  {
    var all := [a, b, c, d];
    RunOne(s, a);
    assert all[..3][..2] == [a, b] && [a, b][..1] == [a] && all[..3] == [a, b, c];
    assert Run(s, [a, b]) == Step(Run(s, [a]), b);
    assert Run(s, [a, b, c]) == Step(Run(s, [a, b]), c);
  }

  /** One phase, sent and acknowledged. */
  function PhaseEvents(tuple: Msg, k: nat, digest: string): seq<Event>
  {
    [LockReturns(true), SendReturns(true), Says(Ack(tuple, AckName(k), digest)), Continues]
  }

  lemma PhaseGoes(s: State, k: nat, digest: string)
    requires k < 4 && s.flow.pc == Locking(k) && Smooth(s, digest)
    ensures var s' := Run(s, PhaseEvents(s.tuple, k, digest));
      Smooth(s', digest) && s'.tuple == s.tuple
      && s'.flow.pc == if k == 0 then Storing(true) else Locking(k + 1)
  {
    var ack := Ack(s.tuple, AckName(k), digest);
    RunFour(s, LockReturns(true), SendReturns(true), Says(ack), Continues);
    var s1 := Step(s, LockReturns(true));
    assert s1.flow == s.flow.(pc := Sending(k), wait := Armed(ack)) && s1.life == s.life && s1.sides == s.sides;
    var s2 := Step(s1, SendReturns(true));
    assert s2.flow == s1.flow.(pc := AwaitingAck(k)) && s2.life == s.life && s2.sides == s.sides;
    var s3 := Step(s2, Says(ack));
    assert Exact(ack, ack) && s3.flow == s2.flow.(wait := Arrived) && s3.life == s.life && s3.sides == s.sides;
  }

  lemma Opening(tuple: Msg, digest: string)
    requires IsDigest(digest)
    ensures var s := Run(Started(tuple, false), [StoreReturns(Some(digest)), Says(Hello(tuple)), Continues]);
      Smooth(s, digest) && s.flow.pc == Locking(0) && s.tuple == tuple
  {
    var s := Started(tuple, false);
    var a, b := StoreReturns(Some(digest)), Says(Hello(tuple));
    RunOne(s, a);
    assert [a, b, Continues][..2] == [a, b] && [a, b][..1] == [a];
    assert Run(s, [a, b]) == Step(Step(s, a), b);
    var s1 := Step(s, a);
    assert s1.flow == Flow(AwaitingHello, Armed(Hello(tuple)), digest, "") && s1.life == s.life;
    assert Exact(Hello(tuple), Hello(tuple));
  }

  lemma Closing(s: State, digest: string)
    requires s.flow.pc == Locking(4) && Smooth(s, digest)
    ensures var s' := Run(s, [LockReturns(true), Continues, ProbeReturns(Some(true))]);
      Smooth(s', digest) && s'.flow.pc == Done(Ready) && s'.tuple == s.tuple
  {
    var a, c := LockReturns(true), ProbeReturns(Some(true));
    RunOne(s, a);
    assert [a, Continues, c][..2] == [a, Continues] && [a, Continues][..1] == [a];
    assert Run(s, [a, Continues]) == Step(Step(s, a), Continues);
  }

  /** A run to a ready outcome. */
  function ReadyRun(tuple: Msg, digest: string): seq<Event>
  {
    [StoreReturns(Some(digest)), Says(Hello(tuple)), Continues]
    + PhaseEvents(tuple, 0, digest) + [StoreReturns(Some(digest))]
    + PhaseEvents(tuple, 1, digest) + PhaseEvents(tuple, 2, digest) + PhaseEvents(tuple, 3, digest)
    + [LockReturns(true), Continues, ProbeReturns(Some(true))]
  }

  /** One more phase behind a run that has gone smoothly. */
  lemma PhaseFollows(start: State, events: seq<Event>, k: nat, digest: string)
    requires var s := Run(start, events);
      k < 4 && s.flow.pc == Locking(k) && Smooth(s, digest) && s.tuple == start.tuple
    ensures var s' := Run(start, events + PhaseEvents(start.tuple, k, digest));
      Smooth(s', digest) && s'.tuple == start.tuple
      && s'.flow.pc == if k == 0 then Storing(true) else Locking(k + 1)
  {
    RunJoins(start, events, PhaseEvents(start.tuple, k, digest));
    PhaseGoes(Run(start, events), k, digest);
  }

  lemma StoreFollows(start: State, events: seq<Event>, digest: string)
    requires var s := Run(start, events);
      IsDigest(digest) && s.flow.pc == Storing(true) && Smooth(s, digest) && s.tuple == start.tuple
    ensures var s' := Run(start, events + [StoreReturns(Some(digest))]);
      Smooth(s', digest) && s'.tuple == start.tuple && s'.flow.pc == Locking(1)
  {
    RunJoins(start, events, [StoreReturns(Some(digest))]);
    RunOne(Run(start, events), StoreReturns(Some(digest)));
  }

  lemma ClosingFollows(start: State, events: seq<Event>, digest: string)
    requires var s := Run(start, events);
      s.flow.pc == Locking(4) && Smooth(s, digest) && s.tuple == start.tuple
    ensures var s' := Run(start, events + [LockReturns(true), Continues, ProbeReturns(Some(true))]);
      Smooth(s', digest) && s'.tuple == start.tuple && s'.flow.pc == Done(Ready)
  {
    RunJoins(start, events, [LockReturns(true), Continues, ProbeReturns(Some(true))]);
    Closing(Run(start, events), digest);
  }

  lemma ReadyIsReached(tuple: Msg, digest: string)
    requires IsDigest(digest)
    ensures var s := Run(Started(tuple, false), ReadyRun(tuple, digest));
      Smooth(s, digest) && s.flow.pc == Done(Ready) && s.tuple == tuple
  {
    var start, events := Started(tuple, false), [StoreReturns(Some(digest)), Says(Hello(tuple)), Continues];
    Opening(tuple, digest);
    PhaseFollows(start, events, 0, digest);
    events := events + PhaseEvents(tuple, 0, digest);
    StoreFollows(start, events, digest);
    events := events + [StoreReturns(Some(digest))];
    PhaseFollows(start, events, 1, digest);
    events := events + PhaseEvents(tuple, 1, digest);
    PhaseFollows(start, events, 2, digest);
    events := events + PhaseEvents(tuple, 2, digest);
    PhaseFollows(start, events, 3, digest);
    events := events + PhaseEvents(tuple, 3, digest);
    ClosingFollows(start, events, digest);
  }

  /** From the start of a run: ready, the release sent, and before its confirmation a clean-up, which signals.  The
      release is out only when its send is confirmed. */
  lemma CleanupOvertakesConfirmation(tuple: Msg, digest: string)
    requires IsDigest(digest)
    ensures var ready := Run(Started(tuple, false), ReadyRun(tuple, digest));
      var script := [CallsRelease(digest), SideLock(true, true), CallsCleanup, TerminationLock(true)];
      Run(Started(tuple, false), ReadyRun(tuple, digest) + script).log == ready.log + [Sent(Release, digest), Signalled]
  {
    ReadyIsReached(tuple, digest);
    var s := Run(Started(tuple, false), ReadyRun(tuple, digest));
    RunJoins(Started(tuple, false), ReadyRun(tuple, digest),
             [CallsRelease(digest), SideLock(true, true), CallsCleanup, TerminationLock(true)]);
    RunFour(s, CallsRelease(digest), SideLock(true, true), CallsCleanup, TerminationLock(true));
    Overtakes(s, digest);
  }

  lemma Overtakes(s: State, digest: string)
    requires s.flow.pc == Done(Ready) && Smooth(s, digest) && IsDigest(digest)
    ensures Step(Step(Step(Step(s, CallsRelease(digest)), SideLock(true, true)), CallsCleanup), TerminationLock(true)).log
         == s.log + [Sent(Release, digest), Signalled]
  {
    var sent := OnSideLock(OnSideCall(s, true, digest), true, true);
    assert sent.log == s.log + [Sent(Release, digest)] && sent.life.termination == NotBegun && !sent.life.exited;
    assert OnCleanup(sent) == Ending(sent, CheckingLock);
  }
}
