/** The deploy state on disk: loading, and saving as a compare-and-swap that a failure or a crash may stop
    at any step.  Every writer holds the exclusive lock while it saves; a crash gives it up. */
module DeployStore {

  import opened Options
  import opened C = DeployConfig

  // ---------------------------------------------------------------------------------------
  // The disk
  // ---------------------------------------------------------------------------------------

  datatype Stamp = Stamp(device: nat, inode: nat, size: nat, modified: nat, changed: nat)

  datatype Generation = Generation(stamp: Stamp, content: string)

  /** The configuration file, and the temporary files beside it by name. */
  datatype Disk = Disk(current: Option<Generation>, temps: map<string, string>)

  datatype Fingerprint = Missing | Present(stamp: Stamp, digest: string)

  /** The normaliser, the text form of what it accepted, and SHA-256. */
  datatype Platform = Platform(
    sanitize: Value -> Result<Config>,
    write: Config -> string,
    parse: string -> Option<Value>,
    sum: string -> string)

  /** What was accepted, written, parsed and normalised again is the same configuration. */
  ghost predicate Faithful(p: Platform)
  {
    forall v, c ::
      p.sanitize(v) == Ok(c) ==> p.parse(p.write(c)).Some? && p.sanitize(p.parse(p.write(c)).value) == Ok(c)
  }

  /** The platform of the deploy state: its own normaliser over JSON text. */
  function DeployPlatform(rules: Rules, text: Value -> string, parse: string -> Option<Value>, sum: string -> string)
    : Platform
  {
    Platform((v: Value) => Sanitize(rules, v), (c: Config) => text(Render(c)), parse, sum)
  }

  /** It is faithful where the text of every configuration the normaliser yields parses back. */
  lemma DeployPlatformIsFaithful(rules: Rules, text: Value -> string, parse: string -> Option<Value>, sum: string -> string)
    requires forall c: Config :: Produced(rules, c) ==> parse(text(Render(c))) == Some(Render(c))
    ensures Faithful(DeployPlatform(rules, text, parse, sum))
  {
    forall v, c | Sanitize(rules, v) == Ok(c)
      ensures Produced(rules, c) && Sanitize(rules, Render(c)) == Ok(c)
    {
      SanitizeAgain(rules, v, c);
    }
  }

  function FingerprintOf(p: Platform, d: Disk): Fingerprint
  {
    if d.current.None? then Missing else Present(d.current.value.stamp, p.sum(d.current.value.content))
  }

  function Load(p: Platform, d: Disk): Result<Config>
  {
    if d.current.None? then Ok(LocaleOnly(None))
    else
      var v := p.parse(d.current.value.content);
      if v.None? then Err(NotAnObject) else p.sanitize(v.value)
  }

  /** `sameFingerprint`, field by field. */
  predicate SameFingerprint(left: Fingerprint, right: Fingerprint)
  {
    if left.Missing? || right.Missing? then left.Missing? && right.Missing?
    else
      && left.stamp.device == right.stamp.device && left.stamp.inode == right.stamp.inode
      && left.stamp.size == right.stamp.size && left.stamp.modified == right.stamp.modified
      && left.stamp.changed == right.stamp.changed && left.digest == right.digest
  }

  // ---------------------------------------------------------------------------------------
  // Saving
  // ---------------------------------------------------------------------------------------

  datatype Request = Request(config: Value, expected: Fingerprint, temp: string, stamp: Stamp)

  /** The steps of a save that can fail. */
  datatype Step =
    | CheckLock
    | EnsureDirectory
    | OpenTemp
    | WriteTemp
    | SyncTemp
    | CheckLockAgain
    | LoadCurrent
    | CheckLockBeforeRename
    | Rename
    | SyncDirectory
    | Verify
    | CheckLockLast

  /** Where a save is stopped; a write that is stopped has written `written` characters. */
  datatype Stop = Never | FailsAt(step: Step, written: nat, unlinks: bool) | CrashesAt(step: Step, written: nat)

  /** `published` says whether the rename was done. */
  datatype Ended = Saved(fingerprint: Fingerprint) | Stale | Failed(published: bool) | Crashed(published: bool)

  predicate Hits(stop: Stop, step: Step) { !stop.Never? && stop.step == step }

  predicate Published(e: Ended)
  {
    match e
    case Saved(_) => true
    case Stale => false
    case Failed(published) => published
    case Crashed(published) => published
  }

  function New(p: Platform, r: Request, c: Config): Generation { Generation(r.stamp, p.write(c)) }

  ghost predicate SameBeside(before: map<string, string>, after: map<string, string>, temp: string)
  {
    before - {temp} == after - {temp}
  }

  /** What one save does to the disk, however it ends. */
  ghost predicate Saves(p: Platform, d: Disk, d': Disk, r: Request, e: Ended)
  {
    // the whole new content, for the generation the caller expected; or the file as it was
    && (if Published(e) then
          && p.sanitize(r.config).Ok?
          && d'.current == Some(New(p, r, p.sanitize(r.config).value))
          && FingerprintOf(p, d) == r.expected && Load(p, d).Ok?
        else d'.current == d.current)
    && (e.Saved? ==> e.fingerprint == FingerprintOf(p, d'))
    && (e.Stale? ==> FingerprintOf(p, d) != r.expected)
    // other temporary files are left alone, and one's own stays only behind a crash or a failed unlink
    && SameBeside(d.temps, d'.temps, r.temp)
    && (e.Saved? ==> r.temp !in d'.temps)
  }

  /** Nothing keeps a save from succeeding. */
  predicate Goes(p: Platform, d: Disk, r: Request)
  {
    && p.sanitize(r.config).Ok? && Load(p, d).Ok? && FingerprintOf(p, d) == r.expected && r.temp !in d.temps
  }

  class Store {
    const platform: Platform
    var current: Option<Generation>
    var temps: map<string, string>

    ghost function Model(): Disk
      reads this
    {
      Disk(current, temps)
    }

    constructor (platform: Platform, current: Option<Generation>, temps: map<string, string>)
      ensures this.platform == platform && Model() == Disk(current, temps)
    {
      this.platform, this.current, this.temps := platform, current, temps;
    }

    method LoadSnapshot() returns (config: Result<Config>, fingerprint: Fingerprint)
      ensures config == Load(platform, Model()) && fingerprint == FingerprintOf(platform, Model())
    {
      if current.None? { return Ok(LocaleOnly(None)), Missing; }
      var content := current.value.content;
      var v := platform.parse(content);
      config := if v.None? then Err(NotAnObject) else platform.sanitize(v.value);
      fingerprint := Present(current.value.stamp, platform.sum(content));
    }

    /** Behind a failure the temporary file is unlinked, if that works; behind a crash it stays. */
    method StopHere(stop: Stop, temp: string, published: bool) returns (ended: Ended)
      requires !stop.Never?
      modifies this`temps
      ensures ended == if stop.CrashesAt? then Crashed(published) else Failed(published)
      ensures SameBeside(old(temps), temps, temp)
    {
      if stop.CrashesAt? { return Crashed(published); }
      if stop.unlinks { temps := temps - {temp}; }
      return Failed(published);
    }

    /** The temporary file, written and synced; or how that ended. */
    method Stage(temp: string, content: string, stop: Stop) returns (ended: Option<Ended>)
      modifies this`temps
      ensures SameBeside(old(temps), temps, temp)
      ensures ended.None? <==>
        temp !in old(temps) && !Hits(stop, OpenTemp) && !Hits(stop, WriteTemp) && !Hits(stop, SyncTemp)
      ensures ended.None? ==> temp in temps && temps[temp] == content
      ensures ended.Some? ==> ended.value == Failed(false) || (stop.CrashesAt? && ended.value == Crashed(false))
    {
      if temp in temps {
        // nothing opened; the clean-up unlinks whatever has the name
        temps := temps - {temp};
        return Some(Failed(false));
      }
      if !Hits(stop, OpenTemp) { temps := temps[temp := ""]; }
      if Hits(stop, WriteTemp) {
        temps := temps[temp := content[..if stop.written <= |content| then stop.written else |content|]];
      }
      if Hits(stop, OpenTemp) || Hits(stop, WriteTemp) || Hits(stop, SyncTemp) {
        var stopped := StopHere(stop, temp, false);
        return Some(stopped);
      }
      temps := temps[temp := content];
      ended := None;
    }

    /** The comparison with what is there now; `None` when the caller's generation is still current. */
    method Compare(r: Request, stop: Stop) returns (ended: Option<Ended>)
      modifies this`temps
      ensures SameBeside(old(temps), temps, r.temp) && (ended.None? ==> temps == old(temps))
      ensures ended.None? <==>
        && !Hits(stop, CheckLockAgain) && !Hits(stop, LoadCurrent)
        && Load(platform, old(Model())).Ok? && FingerprintOf(platform, old(Model())) == r.expected
      ensures ended == Some(Stale) <==>
        && !Hits(stop, CheckLockAgain) && !Hits(stop, LoadCurrent)
        && Load(platform, old(Model())).Ok? && FingerprintOf(platform, old(Model())) != r.expected
      ensures ended.Some? ==> !Published(ended.value) && !ended.value.Saved?
    {
      if Hits(stop, CheckLockAgain) || Hits(stop, LoadCurrent) {
        var stopped := StopHere(stop, r.temp, false);
        return Some(stopped);
      }
      var now, fingerprint := LoadSnapshot();
      if now.Err? || !SameFingerprint(fingerprint, r.expected) {
        temps := temps - {r.temp};
        return Some(if now.Err? then Failed(false) else Stale);
      }
      ended := None;
    }

    /** The rename and what follows it. */
    method Publish(r: Request, stop: Stop) returns (ended: Ended)
      requires r.temp in temps
      modifies this
      ensures SameBeside(old(temps), temps, r.temp) && !ended.Stale?
      ensures Published(ended) <==> !Hits(stop, CheckLockBeforeRename) && !Hits(stop, Rename)
      ensures current == if Published(ended) then Some(Generation(r.stamp, old(temps)[r.temp])) else old(current)
      ensures ended.Saved? ==> ended.fingerprint == FingerprintOf(platform, Model()) && r.temp !in temps
      ensures ended.Saved? <==>
        Published(ended) && Load(platform, Model()).Ok?
        && !Hits(stop, SyncDirectory) && !Hits(stop, Verify) && !Hits(stop, CheckLockLast)
    {
      if Hits(stop, CheckLockBeforeRename) || Hits(stop, Rename) {
        ended := StopHere(stop, r.temp, false);
        return;
      }
      var serialized := temps[r.temp];
      current := Some(Generation(r.stamp, serialized));
      temps := temps - {r.temp};
      if Hits(stop, SyncDirectory) || Hits(stop, Verify) || Hits(stop, CheckLockLast) {
        ended := StopHere(stop, r.temp, true);
        return;
      }
      var verified, published := LoadSnapshot();
      if verified.Err? || published.Missing? || published.digest != platform.sum(serialized) { return Failed(true); }
      return Saved(published);
    }

    method SaveConfig(r: Request, stop: Stop) returns (ended: Ended)
      requires Faithful(platform)
      modifies this
      ensures Saves(platform, old(Model()), Model(), r, ended)
      ensures ended.Saved? <==> stop.Never? && Goes(platform, old(Model()), r)
      ensures stop.Never? ==>
        (ended.Stale? <==>
          && platform.sanitize(r.config).Ok? && r.temp !in old(temps)
          && Load(platform, old(Model())).Ok? && FingerprintOf(platform, old(Model())) != r.expected)
    {
      if Hits(stop, CheckLock) || Hits(stop, EnsureDirectory) {
        return if stop.CrashesAt? then Crashed(false) else Failed(false);
      }
      var config := platform.sanitize(r.config);
      if config.Err? { return Failed(false); }
      var serialized := platform.write(config.value);
      var staged := Stage(r.temp, serialized, stop);
      if staged.Some? { return staged.value; }
      var compared := Compare(r, stop);
      if compared.Some? { return compared.value; }
      ended := Publish(r, stop);
    }
  }

  // ---------------------------------------------------------------------------------------
  // Runs of saves
  // ---------------------------------------------------------------------------------------

  /** Saves one after the other: `disks[k]` is what save `k` found, and `disks[k + 1]` what it left. */
  ghost predicate Chain(p: Platform, disks: seq<Disk>, requests: seq<Request>, ends: seq<Ended>)
  {
    && |disks| == |requests| + 1 && |ends| == |requests|
    && forall k: nat | k < |requests| :: Saves(p, disks[k], disks[k + 1], requests[k], ends[k])
  }

  /** No published save from `i` up to `j`. */
  ghost predicate QuietBetween(ends: seq<Ended>, i: nat, j: nat)
    requires j <= |ends|
  {
    forall k :: i <= k < j ==> !Published(ends[k])
  }

  /** Without a publication the file stays what it was. */
  lemma {:induction false} QuietKeeps(p: Platform, disks: seq<Disk>, requests: seq<Request>, ends: seq<Ended>,
                                      i: nat, j: nat)
    requires Chain(p, disks, requests, ends) && i <= j <= |requests| && QuietBetween(ends, i, j)
    ensures disks[j].current == disks[i].current
    decreases j - i
  {
    if i < j {
      QuietKeeps(p, disks, requests, ends, i, j - 1);
      assert Saves(p, disks[j - 1], disks[j], requests[j - 1], ends[j - 1]);
    }
  }

  /** The fingerprint a published save leaves. */
  function Left(p: Platform, r: Request): Fingerprint
    requires p.sanitize(r.config).Ok?
  {
    Present(r.stamp, p.sum(p.write(p.sanitize(r.config).value)))
  }

  /** The publications form a chain: each replaces exactly the generation the one before published. */
  lemma PublicationsFormAChain(p: Platform, disks: seq<Disk>, requests: seq<Request>, ends: seq<Ended>, i: nat, j: nat)
    requires Chain(p, disks, requests, ends) && i < j < |requests|
    requires Published(ends[i]) && Published(ends[j]) && QuietBetween(ends, i + 1, j)
    ensures p.sanitize(requests[i].config).Ok? && requests[j].expected == Left(p, requests[i])
  {
    assert Saves(p, disks[i], disks[i + 1], requests[i], ends[i]);
    assert Saves(p, disks[j], disks[j + 1], requests[j], ends[j]);
    QuietKeeps(p, disks, requests, ends, i + 1, j);
  }

  /** No two saves get the same stamp, nor that of the file found first. */
  ghost predicate FreshStamps(disks: seq<Disk>, requests: seq<Request>)
    requires |disks| > 0
  {
    && (forall i, j :: 0 <= i < j < |requests| ==> requests[i].stamp != requests[j].stamp)
    && (forall i :: 0 <= i < |requests| && disks[0].current.Some? ==> requests[i].stamp != disks[0].current.value.stamp)
  }

  /** Behind a publication at `i` the file carries the stamp of some save from `i` on. */
  lemma {:induction false} StampedSince(p: Platform, disks: seq<Disk>, requests: seq<Request>, ends: seq<Ended>,
                                        i: nat, j: nat)
    returns (k: nat)
    requires Chain(p, disks, requests, ends) && i < j <= |requests| && Published(ends[i])
    ensures i <= k < j && disks[j].current.Some? && disks[j].current.value.stamp == requests[k].stamp
    decreases j
  {
    assert Saves(p, disks[j - 1], disks[j], requests[j - 1], ends[j - 1]);
    if Published(ends[j - 1]) {
      k := j - 1;
    } else {
      k := StampedSince(p, disks, requests, ends, i, j - 1);
    }
  }

  /** What a save found came from the file found first or from an earlier save. */
  lemma {:induction false} StampedBefore(p: Platform, disks: seq<Disk>, requests: seq<Request>, ends: seq<Ended>, i: nat)
    requires Chain(p, disks, requests, ends) && i <= |requests| && disks[i].current.Some?
    ensures || disks[0].current == disks[i].current
            || exists k :: 0 <= k < i && disks[i].current.value.stamp == requests[k].stamp
  {
    if i > 0 {
      assert Saves(p, disks[i - 1], disks[i], requests[i - 1], ends[i - 1]);
      if Published(ends[i - 1]) {
        assert disks[i].current.value.stamp == requests[i - 1].stamp;
      } else {
        StampedBefore(p, disks, requests, ends, i - 1);
      }
    }
  }

  /** No lost update: of all the saves that expect one and the same generation, at most one is published. */
  lemma NoLostUpdate(p: Platform, disks: seq<Disk>, requests: seq<Request>, ends: seq<Ended>, i: nat, j: nat)
    requires Chain(p, disks, requests, ends) && FreshStamps(disks, requests) && i < j < |requests|
    requires Published(ends[i]) && Published(ends[j])
    ensures requests[i].expected != requests[j].expected
  {
    assert Saves(p, disks[i], disks[i + 1], requests[i], ends[i]);
    assert Saves(p, disks[j], disks[j + 1], requests[j], ends[j]);
    var k := StampedSince(p, disks, requests, ends, i, j);
    if disks[i].current.Some? {
      StampedBefore(p, disks, requests, ends, i);
      if disks[0].current != disks[i].current {
        var b :| 0 <= b < i && disks[i].current.value.stamp == requests[b].stamp;
        assert requests[b].stamp != requests[k].stamp;
      }
    }
  }

  /** A reader at any point loads the configuration, normalised, of the last save published before; or what was
      there first.  Failed and crashed saves leave nothing half-written. */
  lemma LoadsTheLastPublished(p: Platform, disks: seq<Disk>, requests: seq<Request>, ends: seq<Ended>, i: nat, j: nat)
    requires Faithful(p) && Chain(p, disks, requests, ends) && i < j <= |requests|
    requires Published(ends[i]) && QuietBetween(ends, i + 1, j)
    ensures Load(p, disks[j]) == p.sanitize(requests[i].config)
    ensures p.sanitize(requests[i].config).Ok? && FingerprintOf(p, disks[j]) == Left(p, requests[i])
  {
    assert Saves(p, disks[i], disks[i + 1], requests[i], ends[i]);
    QuietKeeps(p, disks, requests, ends, i + 1, j);
  }

  /** The comparison is equality, and a save that expects what the last one returned goes through. */
  lemma SavesFollowOn(p: Platform, d: Disk, d': Disk, r: Request, e: Ended, next: Request)
    requires Faithful(p) && Saves(p, d, d', r, e) && e.Saved?
    requires next.expected == e.fingerprint && next.temp !in d'.temps && p.sanitize(next.config).Ok?
    ensures Goes(p, d', next)
    ensures forall a, b :: SameFingerprint(a, b) <==> a == b
  {
  }
}
