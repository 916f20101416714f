/** Publishing a release to the npm registry: decide whether to publish, publish at most once, and call the
    release complete only on what the registry then shows.

    The registry is what each read of it returned, in order; a read may throw. */
module NpmPublish {

  import opened Options
  import D = Decimal

  // ---------------------------------------------------------------------------------------
  // Versions
  // ---------------------------------------------------------------------------------------

  /** `split(".")` */
  function Split(s: string): (parts: seq<string>)
    ensures |parts| > 0
  {
    if s == [] then [""]
    else
      var rest := Split(s[1..]);
      if s[0] == '.' then [""] + rest else [[s[0]] + rest[0]] + rest[1..]
  }

  /** `^\d+\.\d+\.\d+$` */
  predicate Stable(version: string)
  {
    |Split(version)| == 3 && forall k :: 0 <= k < 3 ==> D.Digits(Split(version)[k])
  }

  function Components(version: string): (c: seq<nat>)
    requires Stable(version)
    ensures |c| == 3
  {
    var parts := Split(version);
    [D.Value(parts[0]), D.Value(parts[1]), D.Value(parts[2])]
  }

  /** The largest number up to which every integer has its own double. */
  const EXACT: nat := 0x20_0000_0000_0000

  /** JavaScript's `Number` on digits, as the rank of the double it rounds to. */
  ghost predicate IsNumber(number: nat -> nat)
  {
    && (forall a: nat, b: nat :: a <= b ==> number(a) <= number(b))
    && (forall a: nat :: a <= EXACT ==> number(a) == a)
    && number(EXACT + 1) == EXACT
  }

  /** The sign of the first pair that differs once rounded. */
  function Compare(number: nat -> nat, a: seq<nat>, b: seq<nat>): (order: int)
    requires |a| == |b|
    ensures -1 <= order <= 1
  {
    if a == [] || number(a[0]) == number(b[0]) then if a == [] then 0 else Compare(number, a[1..], b[1..])
    else if number(a[0]) < number(b[0]) then -1 else 1
  }

  /** `compareStableVersions`: no order unless both are `x.y.z`. */
  function Order(number: nat -> nat, left: string, right: string): Option<int>
  {
    if !Stable(left) || !Stable(right) then None else Some(Compare(number, Components(left), Components(right)))
  }

  method CompareStableVersions(number: nat -> nat, left: string, right: string) returns (order: Option<int>)
    ensures order == Order(number, left, right)
  {
    if !Stable(left) || !Stable(right) { return None; }
    var a, b := Components(left), Components(right);
    var index := 0;
    assert a[0..] == a && b[0..] == b;
    while index < 3
      invariant 0 <= index <= 3
      invariant Compare(number, a, b) == Compare(number, a[index..], b[index..])
    {
      if number(a[index]) != number(b[index]) {
        return Some(if number(a[index]) < number(b[index]) then -1 else 1);
      }
      assert a[index..][1..] == a[index + 1..] && b[index..][1..] == b[index + 1..];
      index := index + 1;
    }
    order := Some(0);
  }

  /** Precedence as section 11 of Semantic Versioning 2.0.0 has it: numerically, from the left. */
  ghost predicate Lower(a: seq<nat>, b: seq<nat>)
    requires |a| == |b|
  {
    exists k :: 0 <= k < |a| && a[..k] == b[..k] && a[k] < b[k]
  }

  lemma {:induction false} LowerTail(a: seq<nat>, b: seq<nat>)
    requires |a| == |b| && |a| > 0
    ensures Lower(a, b) <==> a[0] < b[0] || (a[0] == b[0] && Lower(a[1..], b[1..]))
  {
    if Lower(a, b) {
      var k :| 0 <= k < |a| && a[..k] == b[..k] && a[k] < b[k];
      if k > 0 {
        assert a[0] == a[..k][0] && b[0] == b[..k][0];
        assert a[1..][..k - 1] == a[..k][1..] && b[1..][..k - 1] == b[..k][1..];
        assert a[1..][k - 1] < b[1..][k - 1];
      }
    }
    if a[0] == b[0] && Lower(a[1..], b[1..]) {
      var k :| 0 <= k < |a| - 1 && a[1..][..k] == b[1..][..k] && a[1..][k] < b[1..][k];
      assert a[..k + 1] == [a[0]] + a[1..][..k] && b[..k + 1] == [b[0]] + b[1..][..k];
      assert a[k + 1] < b[k + 1];
    }
    if a[0] < b[0] {
      assert a[..0] == b[..0];
    }
  }

  ghost predicate Within(a: seq<nat>, m: nat) { forall k :: 0 <= k < |a| ==> a[k] <= m }

  lemma {:induction false} ExactlyOrdered(number: nat -> nat, a: seq<nat>, b: seq<nat>)
    requires IsNumber(number) && |a| == |b| && Within(a, EXACT) && Within(b, EXACT)
    ensures Compare(number, a, b) == -1 <==> Lower(a, b)
    ensures Compare(number, a, b) == 1 <==> Lower(b, a)
    ensures Compare(number, a, b) == 0 <==> a == b
  {
    if a != [] {
      assert number(a[0]) == a[0] && number(b[0]) == b[0];
      LowerTail(a, b);
      LowerTail(b, a);
      if a[0] == b[0] {
        ExactlyOrdered(number, a[1..], b[1..]);
        assert a == [a[0]] + a[1..] && b == [b[0]] + b[1..];
      }
    }
  }

  /** All versions with components up to `m` are put in the order of their precedence. */
  ghost predicate OrdersUpTo(number: nat -> nat, m: nat)
  {
    forall a: seq<nat>, b: seq<nat> | |a| == |b| == 3 && Within(a, m) && Within(b, m) ::
      Compare(number, a, b) == -1 <==> Lower(a, b)
  }

  /** Versions are put in the order of their precedence for components up to 2^53, and no further: one more and
      two versions compare equal. */
  lemma PrecedenceExactlyUpTo(number: nat -> nat, m: nat)
    requires IsNumber(number)
    ensures OrdersUpTo(number, m) <==> m <= EXACT
  {
    if m <= EXACT {
      forall a: seq<nat>, b: seq<nat> | |a| == |b| == 3 && Within(a, m) && Within(b, m)
        ensures Compare(number, a, b) == -1 <==> Lower(a, b)
      {
        ExactlyOrdered(number, a, b);
      }
    } else {
      var a, b: seq<nat> := [0, 0, EXACT], [0, 0, EXACT + 1];
      assert a[..2] == b[..2] && a[2] < b[2];
      assert a[1..][1..] == [EXACT] && b[1..][1..] == [EXACT + 1] && [EXACT][1..] == [EXACT + 1][1..] == [];
      assert Compare(number, [EXACT], [EXACT + 1]) == 0;
      assert Compare(number, a, b) == 0;
      assert Within(a, m) && Within(b, m);
    }
  }

  lemma {:induction false} CompareTurns(number: nat -> nat, a: seq<nat>, b: seq<nat>)
    requires |a| == |b|
    ensures Compare(number, b, a) == -Compare(number, a, b)
  {
    if a != [] { CompareTurns(number, a[1..], b[1..]); }
  }

  /** The order is transitive whatever the rounding. */
  lemma {:induction false} CompareChains(number: nat -> nat, a: seq<nat>, b: seq<nat>, c: seq<nat>)
    requires |a| == |b| == |c| && Compare(number, a, b) >= 0 && Compare(number, b, c) >= 0
    ensures Compare(number, a, c) >= 0
  {
    if a != [] {
      if number(a[0]) == number(b[0]) == number(c[0]) { CompareChains(number, a[1..], b[1..], c[1..]); }
    }
  }

  // ---------------------------------------------------------------------------------------
  // Registry and results
  // ---------------------------------------------------------------------------------------

  datatype Registry = Registry(
    packageExists: bool,
    versionExists: bool,
    integrity: Option<string>,
    latest: Option<string>,
    latestVersionExists: bool)

  datatype Read = Reads(state: Registry) | ReadThrows

  datatype Artifact = Artifact(version: string, integrity: string)

  datatype Policy = FailPolicy | BootstrapSoft | OtherPolicy

  datatype Tag = Latest | OtherTag | InvalidTag

  datatype Failure = NotFound | Authentication | Conflict | Transient | UnknownFailure

  datatype PublishOutput = PublishOutput(exitCode: int, failure: Failure) | PublishThrows

  datatype Outcome =
    | AlreadyPublished
    | VerifiedMarkerCleanupRequired
    | DistTagVerificationFailed
    | VersionConflict
    | StaleBootstrapMarker
    | BootstrapRequired
    | PackageMissing
    | DistTagPreflightFailed
    | BackfillLatestBlocked
    | Published
    | PublishedAfterAmbiguousError
    | VerificationFailed
    | PublisherMisconfigured
    | AuthenticationFailed
    | TransientFailure
    | PublishFailed

  datatype Result = Result(
    outcome: Outcome,
    complete: bool,
    bootstrapRequired: bool,
    markerCleanupRequired: bool,
    publishAttempts: nat,
    exitCode: int)

  datatype Ended = Done(result: Result) | Threw

  /** What a run meets: the registry read by read, the marker file, npm's answer, the waits. */
  datatype World = World(registry: nat -> Read, marker: Option<bool>, publish: PublishOutput, verifyDelays: seq<nat>)

  datatype Release = Release(artifact: Artifact, policy: Policy, tag: Tag)

  predicate ValidRelease(r: Release) { !r.policy.OtherPolicy? && !r.tag.InvalidTag? }

  predicate Matches(s: Registry, a: Artifact) { s.versionExists && s.integrity == Some(a.integrity) }

  predicate Mismatches(s: Registry, a: Artifact) { s.versionExists && s.integrity != Some(a.integrity) }

  /** `inspectLatestState` */
  predicate LatestAcceptable(number: nat -> nat, s: Registry, r: Release)
  {
    r.tag.Latest? ==>
      && s.latestVersionExists && s.latest.Some?
      && var order := Order(number, s.latest.value, r.artifact.version); order.Some? && order.value >= 0
  }

  /** The release shows in the registry as it should. */
  predicate Settled(number: nat -> nat, s: Registry, r: Release)
  {
    Matches(s, r.artifact) && LatestAcceptable(number, s, r)
  }

  /** A read that neither throws nor settles the matter. */
  predicate Undecided(number: nat -> nat, read: Read, r: Release)
  {
    read.Reads? && !Mismatches(read.state, r.artifact) && !Settled(number, read.state, r)
  }

  predicate Bootstraps(r: Release, marker: Option<bool>) { r.policy.BootstrapSoft? && marker == Some(true) }

  /** The registry's `latest`, if there is one, is a published version and not above the release. */
  predicate LatestAllows(number: nat -> nat, s: Registry, r: Release)
  {
    r.tag.Latest? && s.latest.Some? ==>
      && s.latestVersionExists
      && var order := Order(number, r.artifact.version, s.latest.value); order.Some? && order.value != -1
  }

  /** When npm is invoked: the package is there, the version is not, and `latest` would not go back. */
  predicate MustPublish(number: nat -> nat, s: Registry, r: Release, marker: Option<bool>)
  {
    !s.versionExists && s.packageExists && !Bootstraps(r, marker) && LatestAllows(number, s, r)
  }

  predicate CanStart(r: Release, w: World)
  {
    ValidRelease(r) && w.registry(0).Reads? && (r.policy.BootstrapSoft? ==> w.marker.Some?)
  }

  // ---------------------------------------------------------------------------------------
  // The operations
  // ---------------------------------------------------------------------------------------

  /** Reads after publishing, until one decides or the waits are used up. */
  method ObservePublishedVersion(number: nat -> nat, r: Release, w: World) returns (state: Read, seen: nat)
    ensures 1 <= seen <= 1 + |w.verifyDelays|
    ensures state == if seen == 1 then ReadThrows else w.registry(seen - 1)
    ensures seen == 1 <==> w.verifyDelays == []
    ensures forall k :: 1 <= k < seen - 1 ==>
      Undecided(number, w.registry(k), r)
    ensures Undecided(number, state, r) ==>
      seen == 1 + |w.verifyDelays|
  {
    seen, state := 1, ReadThrows;
    while seen < 1 + |w.verifyDelays|
      invariant 1 <= seen <= 1 + |w.verifyDelays|
      invariant state == if seen == 1 then ReadThrows else w.registry(seen - 1)
      invariant forall k :: 1 <= k < seen ==>
        Undecided(number, w.registry(k), r)
    {
      state := w.registry(seen);
      seen := seen + 1;
      if !Undecided(number, state, r) { return; }
    }
  }

  /** What a run comes to, told from the reads it made. */
  ghost predicate Decided(number: nat -> nat, r: Release, w: World, ended: Ended, invocations: nat, seen: nat)
  {
    // npm is invoked once, or not at all
    && invocations == (if CanStart(r, w) && MustPublish(number, w.registry(0).state, r, w.marker) then 1 else 0)
    && seen <= 1 + |w.verifyDelays|
    && (invocations == 0 ==> seen <= 1)
    && (ended.Done? ==>
          && CanStart(r, w) && seen > 0 && w.registry(seen - 1).Reads?
          && ended.result.publishAttempts == invocations
          // complete says what was seen last, and nothing else does
          && (ended.result.complete <==> Settled(number, w.registry(seen - 1).state, r))
          && (ended.result.exitCode == 0 <==> ended.result.complete || ended.result.bootstrapRequired)
          && (ended.result.markerCleanupRequired ==> ended.result.complete && Bootstraps(r, w.marker))
          && OutcomeFits(number, w.registry(seen - 1).state, r, w, ended.result, invocations)
          // an undecided release was looked for until the waits ran out
          && (invocations == 1 && !ended.result.complete ==>
                seen == 1 + |w.verifyDelays| || Mismatches(w.registry(seen - 1).state, r.artifact)))
    && (ended.Threw? <==> !CanStart(r, w) || (invocations == 1 && (w.publish.PublishThrows? || Blind(number, r, w))))
  }

  /** The reads after publishing end in one that throws, or there are none. */
  ghost predicate Blind(number: nat -> nat, r: Release, w: World)
  {
    || w.verifyDelays == []
    || exists n ::
         && 1 <= n <= |w.verifyDelays| && w.registry(n).ReadThrows?
         && forall k :: 1 <= k < n ==>
              Undecided(number, w.registry(k), r)
  }

  /** npm ended well, or not and with this failure. */
  predicate Answers(output: PublishOutput, failure: Option<Failure>)
  {
    && output.PublishOutput?
    && if failure.None? then output.exitCode == 0 else output.exitCode != 0 && output.failure == failure.value
  }

  ghost predicate OutcomeFits(number: nat -> nat, last: Registry, r: Release, w: World, result: Result, invocations: nat)
  {
    match result.outcome
    case AlreadyPublished => result.complete && invocations == 0 && !Bootstraps(r, w.marker)
    case VerifiedMarkerCleanupRequired => result.complete && invocations == 0 && Bootstraps(r, w.marker)
    case Published => result.complete && invocations == 1 && Answers(w.publish, None)
    case PublishedAfterAmbiguousError =>
      result.complete && invocations == 1 && w.publish.PublishOutput? && !Answers(w.publish, None)
    case DistTagVerificationFailed => Matches(last, r.artifact) && !LatestAcceptable(number, last, r)
    case VersionConflict =>
      Mismatches(last, r.artifact) || (!last.versionExists && invocations == 1 && Answers(w.publish, Some(Conflict)))
    case BootstrapRequired => !last.packageExists && Bootstraps(r, w.marker) && result.bootstrapRequired
    case StaleBootstrapMarker => last.packageExists && !last.versionExists && Bootstraps(r, w.marker)
    case PackageMissing => !last.packageExists && !last.versionExists && !Bootstraps(r, w.marker)
    case DistTagPreflightFailed =>
      && r.tag.Latest? && last.latest.Some?
      && (!last.latestVersionExists || Order(number, r.artifact.version, last.latest.value).None?)
    case BackfillLatestBlocked =>
      r.tag.Latest? && last.latest.Some? && Order(number, r.artifact.version, last.latest.value) == Some(-1)
    case VerificationFailed => !last.versionExists && invocations == 1 && Answers(w.publish, None)
    case PublisherMisconfigured => !last.versionExists && invocations == 1 && Answers(w.publish, Some(NotFound))
    case AuthenticationFailed => !last.versionExists && invocations == 1 && Answers(w.publish, Some(Authentication))
    case TransientFailure => !last.versionExists && invocations == 1 && Answers(w.publish, Some(Transient))
    case PublishFailed => !last.versionExists && invocations == 1 && Answers(w.publish, Some(UnknownFailure))
  }

  function Failed(outcome: Outcome, attempts: nat): Ended { Done(Result(outcome, false, false, false, attempts, 1)) }

  function Complete(outcome: Outcome, cleanup: bool, attempts: nat): Ended
  {
    Done(Result(outcome, true, false, cleanup, attempts, 0))
  }

  /** What the last read after publishing, and npm's answer, come to. */
  method Judge(number: nat -> nat, r: Release, w: World, last: Registry) returns (ended: Ended)
    requires w.publish.PublishOutput?
    ensures ended.Done? && OutcomeFits(number, last, r, w, ended.result, 1)
    ensures ended.result.complete <==> Settled(number, last, r)
    ensures ended.result.exitCode == 0 <==> ended.result.complete
    ensures ended.result.publishAttempts == 1
    ensures !ended.result.bootstrapRequired && !ended.result.markerCleanupRequired
  {
    if Matches(last, r.artifact) {
      if !LatestAcceptable(number, last, r) { return Failed(DistTagVerificationFailed, 1); }
      return Complete(if w.publish.exitCode == 0 then Published else PublishedAfterAmbiguousError, false, 1);
    }
    if Mismatches(last, r.artifact) { return Failed(VersionConflict, 1); }
    if w.publish.exitCode == 0 { return Failed(VerificationFailed, 1); }
    match w.publish.failure {
      case NotFound => ended := Failed(PublisherMisconfigured, 1);
      case Authentication => ended := Failed(AuthenticationFailed, 1);
      case Conflict => ended := Failed(VersionConflict, 1);
      case Transient => ended := Failed(TransientFailure, 1);
      case UnknownFailure => ended := Failed(PublishFailed, 1);
    }
  }

  method PublishWithFallback(number: nat -> nat, r: Release, w: World)
    returns (ended: Ended, invocations: nat, seen: nat)
    ensures Decided(number, r, w, ended, invocations, seen)
  {
    invocations, seen := 0, 0;
    if !ValidRelease(r) { return Threw, 0, 0; }
    var initial := w.registry(0);
    seen := 1;
    if initial.ReadThrows? { return Threw, 0, 1; }
    var s := initial.state;
    var marked := false;
    if r.policy.BootstrapSoft? {
      if w.marker.None? { return Threw, 0, 1; }
      marked := w.marker.value;
    }
    if Matches(s, r.artifact) {
      if !LatestAcceptable(number, s, r) { return Failed(DistTagVerificationFailed, 0), 0, 1; }
      return Complete(if marked then VerifiedMarkerCleanupRequired else AlreadyPublished, marked, 0), 0, 1;
    }
    if Mismatches(s, r.artifact) { return Failed(VersionConflict, 0), 0, 1; }
    if s.packageExists && marked { return Failed(StaleBootstrapMarker, 0), 0, 1; }
    if !s.packageExists {
      if marked { return Done(Result(BootstrapRequired, false, true, false, 0, 0)), 0, 1; }
      return Failed(PackageMissing, 0), 0, 1;
    }
    if r.tag.Latest? && s.latest.Some? {
      var order := CompareStableVersions(number, r.artifact.version, s.latest.value);
      if !s.latestVersionExists || order.None? { return Failed(DistTagPreflightFailed, 0), 0, 1; }
      if order.value == -1 { return Failed(BackfillLatestBlocked, 0), 0, 1; }
    }
    invocations := invocations + 1;
    if w.publish.PublishThrows? { return Threw, invocations, 1; }
    var observation;
    observation, seen := ObservePublishedVersion(number, r, w);
    if observation.ReadThrows? { return Threw, invocations, seen; }
    ended := Judge(number, r, w, observation.state);
  }

  // ---------------------------------------------------------------------------------------
  // Over several runs
  // ---------------------------------------------------------------------------------------

  /** Versions are immutable and `latest` does not go back. */
  ghost predicate Evolves(number: nat -> nat, before: Registry, after: Registry)
  {
    && (before.versionExists ==> after.versionExists && after.integrity == before.integrity)
    && (before.latestVersionExists && before.latest.Some? ==>
          && after.latestVersionExists && after.latest.Some?
          && (Stable(before.latest.value) ==>
                var order := Order(number, after.latest.value, before.latest.value); order.Some? && order.value >= 0))
  }

  /** What is settled stays settled. */
  lemma SettledStays(number: nat -> nat, before: Registry, after: Registry, r: Release)
    requires Settled(number, before, r) && Evolves(number, before, after)
    ensures Settled(number, after, r)
  {
    if r.tag.Latest? {
      CompareChains(number, Components(after.latest.value), Components(before.latest.value), Components(r.artifact.version));
    }
  }

  /** A rerun behind a complete run, over a registry that only evolved, is complete again and does not
      invoke npm. */
  lemma RerunIsComplete(number: nat -> nat, r: Release,
                        w: World, ended: Ended, invocations: nat, seen: nat,
                        w': World, ended': Ended, invocations': nat, seen': nat)
    requires Decided(number, r, w, ended, invocations, seen) && Decided(number, r, w', ended', invocations', seen')
    requires ended.Done? && ended.result.complete
    requires CanStart(r, w') && Evolves(number, w.registry(seen - 1).state, w'.registry(0).state)
    ensures ended'.Done? && ended'.result.complete && invocations' == 0 && ended'.result.publishAttempts == 0
  {
    SettledStays(number, w.registry(seen - 1).state, w'.registry(0).state, r);
  }

  /** `latest` is never moved below what the registry shows, in the sense of precedence, for components up to
      2^53. */
  lemma NeverBelowLatest(number: nat -> nat, r: Release, w: World, ended: Ended, invocations: nat, seen: nat)
    requires Decided(number, r, w, ended, invocations, seen) && invocations == 1 && IsNumber(number)
    requires r.tag.Latest? && w.registry(0).state.latest.Some?
    ensures var latest, mine := w.registry(0).state.latest.value, r.artifact.version;
      && Stable(latest) && Stable(mine)
      && (Within(Components(latest), EXACT) && Within(Components(mine), EXACT) ==>
            !Lower(Components(mine), Components(latest)))
  {
    var latest, mine := w.registry(0).state.latest.value, r.artifact.version;
    if Within(Components(latest), EXACT) && Within(Components(mine), EXACT) {
      ExactlyOrdered(number, Components(mine), Components(latest));
    }
  }

  /** A complete `latest` release is not above the registry's `latest`. */
  lemma CompleteMeansLatest(number: nat -> nat, r: Release, w: World, ended: Ended, invocations: nat, seen: nat)
    requires Decided(number, r, w, ended, invocations, seen) && ended.Done? && ended.result.complete
    requires IsNumber(number) && r.tag.Latest?
    ensures var last := w.registry(seen - 1).state;
      && last.integrity == Some(r.artifact.integrity) && last.latest.Some?
      && Stable(last.latest.value) && Stable(r.artifact.version)
      && (Within(Components(last.latest.value), EXACT) && Within(Components(r.artifact.version), EXACT) ==>
            !Lower(Components(last.latest.value), Components(r.artifact.version)))
  {
    var latest, mine := w.registry(seen - 1).state.latest.value, r.artifact.version;
    if Within(Components(latest), EXACT) && Within(Components(mine), EXACT) {
      ExactlyOrdered(number, Components(latest), Components(mine));
    }
  }
}
