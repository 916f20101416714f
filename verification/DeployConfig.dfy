/** The deploy state: the normaliser every stored byte goes through.

    Checks on one string that only a regular expression or the platform decides are the fields of `Rules`. */
module DeployConfig {

  import opened Options

  datatype Error = NotAnObject | UnknownField | InvalidField | UnsupportedSchema | Incoherent

  datatype Result<+T> = Ok(value: T) | Err(error: Error) {
    predicate IsFailure() { Err? }

    function PropagateFailure<U>(): Result<U>
      requires Err?
    {
      Err(error)
    }

    function Extract(): T
      requires Ok?
    {
      value
    }
  }

  // ---------------------------------------------------------------------------------------
  // Values
  // ---------------------------------------------------------------------------------------

  /** The names the normaliser knows; `Other` is any other. */
  datatype Key =
    | SchemaVersion | Locale | Channel | BotName | Engine | RuntimeKey | PackageKey | OutcomeKey | EndpointKey
    | ProcessKey | ProviderKey | OperationKey | SecretReferences | CodeKey | DeployedAt | UpdatedAt
    | Name | Version | Digest | LocalReference | Protocol | Host | Port | AskPath | HealthPath
    | Pid | StartedAt | LaunchId | ActivationFence | ActivationState | Kind | ResourceId | ScopeKey
    | OperationId | AttemptedAt | HttpTokenEnv | OpenaiApiKeyEnv
    | Other(name: string)

  /** `Exotic` is everything that is neither a string, an integer nor a plain object. */
  datatype Value = Undefined | Text(text: string) | Integer(n: int) | Object(fields: map<Key, Value>) | Exotic

  function Get(v: Value, k: Key): Value
  {
    if v.Object? && k in v.fields then v.fields[k] else Undefined
  }

  datatype Rules = Rules(
    isDate: string -> bool,
    isSlug: string -> bool,
    isVersion: string -> bool,
    isAbsolute: string -> bool,
    isTrimmed: string -> bool,
    hasControl: string -> bool,
    isCode: string -> bool,
    locales: set<string>)

  datatype Runtime = AgentNative | StandaloneV1

  datatype Outcome = Ready | Pending | Unsupported | FailedOutcome

  datatype Package = Package(name: string, version: string, digest: string, localReference: string)

  datatype Process = Process(pid: int, startedAt: string, launchId: string, fence: string, authorized: bool)

  datatype Provider = Provider(resourceId: string, scope: string)

  datatype Operation = Operation(operationId: string, name: string, attemptedAt: string, scope: string)

  datatype Secrets = Secrets(httpToken: bool, openaiKey: bool)

  datatype Head = Head(locale: Option<string>, channel: Option<string>, botName: Option<string>, engine: Option<string>)

  datatype Kinds = Kinds(runtime: Option<Runtime>, outcome: Option<Outcome>)

  datatype Parts = Parts(
    pack: Option<Package>,
    endpoint: Option<int>,
    process: Option<Process>,
    provider: Option<Provider>,
    operation: Option<Operation>,
    secrets: Option<Secrets>)

  datatype Tail = Tail(code: Option<string>, deployedAt: Option<string>, updatedAt: Option<string>)

  /** Every field may be absent; `versioned` says whether the schema version is there. */
  datatype Config = Config(versioned: bool, head: Head, kinds: Kinds, parts: Parts, tail: Tail)

  const NO_PARTS := Parts(None, None, None, None, None, None)
  const NO_TAIL := Tail(None, None, None)

  function LocaleOnly(locale: Option<string>): Config
  {
    Config(false, Head(locale, None, None, None), Kinds(None, None), NO_PARTS, NO_TAIL)
  }

  // ---------------------------------------------------------------------------------------
  // Field checks
  // ---------------------------------------------------------------------------------------

  predicate Plain(v: Value, allowed: set<Key>) { v.Object? && v.fields.Keys <= allowed }

  function KnownKeys(v: Value, allowed: set<Key>): Result<bool>
  {
    if !v.Object? then Err(InvalidField) else if v.fields.Keys <= allowed then Ok(true) else Err(UnknownField)
  }

  /** `strictOptionalString` */
  function Strict(v: Value, max: nat): Result<Option<string>>
  {
    if v.Undefined? then Ok(None)
    else if v.Text? && 0 < |v.text| <= max then Ok(Some(v.text))
    else Err(InvalidField)
  }

  /** A string that must be there and pass its check. */
  function Required(v: Value, max: nat, check: string -> bool): Result<string>
  {
    var s :- Strict(v, max);
    if s.Some? && check(s.value) then Ok(s.value) else Err(InvalidField)
  }

  function Optionally(v: Value, max: nat, check: string -> bool): Result<Option<string>>
  {
    var s :- Strict(v, max);
    if s.Some? && !check(s.value) then Err(InvalidField) else Ok(s)
  }

  predicate IsHex(s: string) { forall i :: 0 <= i < |s| ==> '0' <= s[i] <= '9' || 'a' <= s[i] <= 'f' }

  predicate IsHex32(s: string) { |s| == 32 && IsHex(s) }

  predicate IsSha256(s: string) { |s| == 71 && s[..7] == "sha256:" && IsHex(s[7..]) }

  predicate Anything(s: string) { true }

  function RuntimeWord(r: Runtime): string { if r.AgentNative? then "agent-native" else "standalone-v1" }

  function OutcomeWord(o: Outcome): string
  {
    match o
    case Ready => "ready"
    case Pending => "pending_external_action"
    case Unsupported => "unsupported"
    case FailedOutcome => "failed"
  }

  function StateWord(authorized: bool): string { if authorized then "authorized" else "prepared" }

  function ReadRuntime(v: Value): Result<Option<Runtime>>
  {
    if v == Text(RuntimeWord(AgentNative)) then Ok(Some(AgentNative))
    else if v == Text(RuntimeWord(StandaloneV1)) then Ok(Some(StandaloneV1))
    else if v.Undefined? then Ok(None) else Err(InvalidField)
  }

  function ReadOutcome(v: Value): Result<Option<Outcome>>
  {
    if v == Text(OutcomeWord(Ready)) then Ok(Some(Ready))
    else if v == Text(OutcomeWord(Pending)) then Ok(Some(Pending))
    else if v == Text(OutcomeWord(Unsupported)) then Ok(Some(Unsupported))
    else if v == Text(OutcomeWord(FailedOutcome)) then Ok(Some(FailedOutcome))
    else if v.Undefined? then Ok(None) else Err(InvalidField)
  }

  function ReadState(v: Value): Result<bool>
  {
    if v == Text(StateWord(false)) then Ok(false)
    else if v == Text(StateWord(true)) then Ok(true)
    else Err(InvalidField)
  }

  function Expect(v: Value, word: string): Result<bool> { if v == Text(word) then Ok(true) else Err(InvalidField) }

  const PACKAGE_KEYS := {Name, Version, Digest, LocalReference}
  const ENDPOINT_KEYS := {Protocol, Host, Port, AskPath, HealthPath}
  const PROCESS_KEYS := {Pid, StartedAt, LaunchId, ActivationFence, ActivationState}
  const PROVIDER_KEYS := {Kind, ResourceId, ScopeKey}
  const OPERATION_KEYS := {Kind, OperationId, Name, AttemptedAt, ScopeKey}
  const SCOPE_KEYS := {Kind, Digest}
  const SECRET_KEYS := {HttpTokenEnv, OpenaiApiKeyEnv}
  const ROOT_KEYS := {SchemaVersion, Locale, Channel, BotName, Engine, RuntimeKey, PackageKey, OutcomeKey, EndpointKey,
                      ProcessKey, ProviderKey, OperationKey, SecretReferences, CodeKey, DeployedAt, UpdatedAt}

  const SCHEMA := "deploy-state.v1"
  const SCOPE_KIND := "dingtalk-provider-scope.v1"
  const APP_KIND := "dingtalk-app"
  const CREATE_KIND := "dingtalk-app-create"
  const HTTP_TOKEN_ENV := "DIGITAL_EMPLOYEE_HTTP_TOKEN"
  const OPENAI_ENV := "OPENAI_API_KEY"
  const MAX_SAFE: int := 0x1f_ffff_ffff_ffff

  function ReadPackage(r: Rules, v: Value): Result<Option<Package>>
  {
    if v.Undefined? then Ok(None)
    else
      var _ :- KnownKeys(v, PACKAGE_KEYS);
      var name :- Required(Get(v, Name), 128, r.isSlug);
      var version :- Required(Get(v, Version), 128, r.isVersion);
      var digest :- Required(Get(v, Digest), 80, IsSha256);
      var reference :- Required(Get(v, LocalReference), 4096, (s: string) => r.isAbsolute(s) && !r.hasControl(s));
      Ok(Some(Package(name, version, digest, reference)))
  }

  function ReadEndpoint(v: Value): Result<Option<int>>
  {
    if v.Undefined? then Ok(None)
    else
      var _ :- KnownKeys(v, ENDPOINT_KEYS);
      var _ :- Expect(Get(v, Protocol), "http");
      var _ :- Expect(Get(v, Host), "127.0.0.1");
      var _ :- Expect(Get(v, AskPath), "/v1/ask");
      var _ :- Expect(Get(v, HealthPath), "/health");
      var port := Get(v, Port);
      if port.Integer? && 1 <= port.n <= 65535 then Ok(Some(port.n)) else Err(InvalidField)
  }

  function ReadProcess(r: Rules, v: Value): Result<Option<Process>>
  {
    if v.Undefined? then Ok(None)
    else
      var _ :- KnownKeys(v, PROCESS_KEYS);
      var pid := Get(v, Pid);
      var startedAt :- Required(Get(v, StartedAt), 64, r.isDate);
      var launchId :- Required(Get(v, LaunchId), 32, IsHex32);
      var fence :- Required(Get(v, ActivationFence), 32, IsHex32);
      var authorized :- ReadState(Get(v, ActivationState));
      if pid.Integer? && 0 < pid.n <= MAX_SAFE then Ok(Some(Process(pid.n, startedAt, launchId, fence, authorized)))
      else Err(InvalidField)
  }

  function ReadScope(v: Value): Result<string>
  {
    var _ :- KnownKeys(v, SCOPE_KEYS);
    var _ :- Expect(Get(v, Kind), SCOPE_KIND);
    Required(Get(v, Digest), 71, IsSha256)
  }

  function ReadProvider(r: Rules, v: Value): Result<Option<Provider>>
  {
    if v.Undefined? then Ok(None)
    else
      var _ :- KnownKeys(v, PROVIDER_KEYS);
      var _ :- Expect(Get(v, Kind), APP_KIND);
      var resourceId :- Required(Get(v, ResourceId), 256, (s: string) => !r.hasControl(s));
      var scope :- ReadScope(Get(v, ScopeKey));
      Ok(Some(Provider(resourceId, scope)))
  }

  function ReadOperation(r: Rules, v: Value): Result<Option<Operation>>
  {
    if v.Undefined? then Ok(None)
    else
      var _ :- KnownKeys(v, OPERATION_KEYS);
      var _ :- Expect(Get(v, Kind), CREATE_KIND);
      var operationId :- Required(Get(v, OperationId), 32, IsHex32);
      var name :- Required(Get(v, Name), 128, Anything);
      var attemptedAt :- Required(Get(v, AttemptedAt), 64, r.isDate);
      var scope :- ReadScope(Get(v, ScopeKey));
      Ok(Some(Operation(operationId, name, attemptedAt, scope)))
  }

  function ReadFlag(v: Value, word: string): Result<bool>
  {
    if v.Undefined? then Ok(false) else Expect(v, word)
  }

  /** An object without references is dropped. */
  function ReadSecrets(v: Value): Result<Option<Secrets>>
  {
    if v.Undefined? then Ok(None)
    else
      var _ :- KnownKeys(v, SECRET_KEYS);
      var httpToken :- ReadFlag(Get(v, HttpTokenEnv), HTTP_TOKEN_ENV);
      var openaiKey :- ReadFlag(Get(v, OpenaiApiKeyEnv), OPENAI_ENV);
      Ok(if httpToken || openaiKey then Some(Secrets(httpToken, openaiKey)) else None)
  }

  function ReadHead(v: Value): Result<Head>
  {
    var locale :- Strict(Get(v, Locale), 256);
    var channel :- Strict(Get(v, Channel), 256);
    var botName :- Strict(Get(v, BotName), 256);
    var engine :- Strict(Get(v, Engine), 256);
    Ok(Head(locale, channel, botName, engine))
  }

  function ReadKinds(v: Value): Result<Kinds>
  {
    var runtime :- ReadRuntime(Get(v, RuntimeKey));
    var outcome :- ReadOutcome(Get(v, OutcomeKey));
    Ok(Kinds(runtime, outcome))
  }

  function ReadParts(r: Rules, v: Value): Result<Parts>
  {
    var pack :- ReadPackage(r, Get(v, PackageKey));
    var endpoint :- ReadEndpoint(Get(v, EndpointKey));
    var process :- ReadProcess(r, Get(v, ProcessKey));
    var provider :- ReadProvider(r, Get(v, ProviderKey));
    var operation :- ReadOperation(r, Get(v, OperationKey));
    var secrets :- ReadSecrets(Get(v, SecretReferences));
    Ok(Parts(pack, endpoint, process, provider, operation, secrets))
  }

  function ReadTail(r: Rules, v: Value): Result<Tail>
  {
    var code :- Optionally(Get(v, CodeKey), 128, r.isCode);
    var deployedAt :- Optionally(Get(v, DeployedAt), 64, r.isDate);
    var updatedAt :- Optionally(Get(v, UpdatedAt), 64, r.isDate);
    Ok(Tail(code, deployedAt, updatedAt))
  }

  // ---------------------------------------------------------------------------------------
  // What the fields must be among themselves
  // ---------------------------------------------------------------------------------------

  const HTTP := "http"
  const DINGTALK := "dingtalk"
  const CHANNELS := {"dingtalk", "lark", "wecom", "console", "http"}
  const ENGINES := {"claude-code", "qoder", "qwen-code", "codebuddy"}

  predicate Complete(c: Config)
  {
    && c.head.locale.Some? && c.head.channel.Some? && c.head.botName.Some? && c.head.engine.Some?
    && c.kinds.runtime.Some? && c.parts.pack.Some? && c.kinds.outcome.Some? && c.tail.updatedAt.Some?
  }

  predicate HeadFits(r: Rules, c: Config)
    requires Complete(c)
  {
    && c.head.channel.value in CHANNELS && c.kinds.runtime.value == AgentNative && c.head.engine.value in ENGINES
    && c.head.locale.value in r.locales
    && |c.head.botName.value| <= 128 && r.isTrimmed(c.head.botName.value) && !r.hasControl(c.head.botName.value)
  }

  predicate PartsFit(c: Config)
    requires Complete(c)
  {
    var channel, p := c.head.channel.value, c.parts;
    && (channel == HTTP <==> p.endpoint.Some?)
    && (p.process.Some? ==> channel == HTTP)
    && (p.provider.Some? ==> channel == DINGTALK)
    && (p.operation.Some? ==>
          channel == DINGTALK && p.operation.value.name == c.head.botName.value && p.provider.None?)
    && (p.secrets.Some? ==> (p.secrets.value.httpToken ==> channel == HTTP) && !p.secrets.value.openaiKey)
  }

  predicate OutcomeFits(c: Config)
    requires Complete(c)
  {
    var channel, outcome, p := c.head.channel.value, c.kinds.outcome.value, c.parts;
    && (if channel == HTTP then outcome != Unsupported
        else if channel == "lark" || channel == "wecom" then outcome == Unsupported || outcome == FailedOutcome
        else outcome == Pending || outcome == FailedOutcome)
    && (outcome == Ready ==> p.process.Some? && p.process.value.authorized)
    && (p.process.Some? ==> outcome == Ready || outcome == Pending)
    && (outcome == Ready <==> c.tail.deployedAt.Some?)
  }

  predicate Coherent(r: Rules, c: Config) { Complete(c) && HeadFits(r, c) && PartsFit(c) && OutcomeFits(c) }

  function ReadVersioned(r: Rules, v: Value): Result<Config>
  {
    var _ :- KnownKeys(v, ROOT_KEYS);
    var head :- ReadHead(v);
    var kinds :- ReadKinds(v);
    var parts :- ReadParts(r, v);
    var tail :- ReadTail(r, v);
    var c := Config(true, head, kinds, parts, tail);
    if Coherent(r, c) then Ok(c) else Err(Incoherent)
  }

  function ReadUnversioned(r: Rules, v: Value): Result<Config>
  {
    var _ :- KnownKeys(v, {Locale});
    var locale :- Optionally(Get(v, Locale), 256, (s: string) => s in r.locales);
    Ok(LocaleOnly(locale))
  }

  /** `sanitizeConfig` */
  function Sanitize(r: Rules, v: Value): Result<Config>
  {
    if !v.Object? then Err(NotAnObject)
    else if v.fields == map[] then Ok(LocaleOnly(None))
    else if Get(v, SchemaVersion).Undefined? then ReadUnversioned(r, v)
    else if Get(v, SchemaVersion) != Text(SCHEMA) then Err(UnsupportedSchema)
    else ReadVersioned(r, v)
  }

  // ---------------------------------------------------------------------------------------
  // A configuration as the object it is stored as
  // ---------------------------------------------------------------------------------------

  /** Fields that are `Undefined` are not there. */
  function Defined(fields: map<Key, Value>): Value
  {
    Object(map k | k in fields && !fields[k].Undefined? :: fields[k])
  }

  lemma DefinedGets(fields: map<Key, Value>, k: Key)
    ensures Get(Defined(fields), k) == if k in fields then fields[k] else Undefined
  {
  }

  function Put(s: Option<string>): Value { if s.None? then Undefined else Text(s.value) }

  function PutPackage(p: Option<Package>): Value
  {
    if p.None? then Undefined
    else Object(map[Name := Text(p.value.name), Version := Text(p.value.version), Digest := Text(p.value.digest),
                    LocalReference := Text(p.value.localReference)])
  }

  function PutEndpoint(port: Option<int>): Value
  {
    if port.None? then Undefined
    else Object(map[Protocol := Text("http"), Host := Text("127.0.0.1"), Port := Integer(port.value),
                    AskPath := Text("/v1/ask"), HealthPath := Text("/health")])
  }

  function PutProcess(p: Option<Process>): Value
  {
    if p.None? then Undefined
    else Object(map[Pid := Integer(p.value.pid), StartedAt := Text(p.value.startedAt), LaunchId := Text(p.value.launchId),
                    ActivationFence := Text(p.value.fence), ActivationState := Text(StateWord(p.value.authorized))])
  }

  function PutScope(scope: string): Value { Object(map[Kind := Text(SCOPE_KIND), Digest := Text(scope)]) }

  function PutProvider(p: Option<Provider>): Value
  {
    if p.None? then Undefined
    else Object(map[Kind := Text(APP_KIND), ResourceId := Text(p.value.resourceId), ScopeKey := PutScope(p.value.scope)])
  }

  function PutOperation(p: Option<Operation>): Value
  {
    if p.None? then Undefined
    else Object(map[Kind := Text(CREATE_KIND), OperationId := Text(p.value.operationId), Name := Text(p.value.name),
                    AttemptedAt := Text(p.value.attemptedAt), ScopeKey := PutScope(p.value.scope)])
  }

  function PutSecrets(s: Option<Secrets>): Value
  {
    if s.None? then Undefined
    else Defined(map[HttpTokenEnv := if s.value.httpToken then Text(HTTP_TOKEN_ENV) else Undefined,
                     OpenaiApiKeyEnv := if s.value.openaiKey then Text(OPENAI_ENV) else Undefined])
  }

  function PutRuntime(r: Option<Runtime>): Value { if r.None? then Undefined else Text(RuntimeWord(r.value)) }

  function PutOutcome(o: Option<Outcome>): Value { if o.None? then Undefined else Text(OutcomeWord(o.value)) }

  function Fields(c: Config): map<Key, Value>
  {
    map[SchemaVersion := if c.versioned then Text(SCHEMA) else Undefined,
        Locale := Put(c.head.locale), Channel := Put(c.head.channel), BotName := Put(c.head.botName),
        Engine := Put(c.head.engine), RuntimeKey := PutRuntime(c.kinds.runtime), OutcomeKey := PutOutcome(c.kinds.outcome),
        PackageKey := PutPackage(c.parts.pack), EndpointKey := PutEndpoint(c.parts.endpoint),
        ProcessKey := PutProcess(c.parts.process), ProviderKey := PutProvider(c.parts.provider),
        OperationKey := PutOperation(c.parts.operation), SecretReferences := PutSecrets(c.parts.secrets),
        CodeKey := Put(c.tail.code), DeployedAt := Put(c.tail.deployedAt), UpdatedAt := Put(c.tail.updatedAt)]
  }

  function Render(c: Config): Value { Defined(Fields(c)) }

  // ---------------------------------------------------------------------------------------
  // Normalising twice
  // ---------------------------------------------------------------------------------------

  lemma PackageAgain(r: Rules, v: Value)
    ensures ReadPackage(r, v).Ok? ==> ReadPackage(r, PutPackage(ReadPackage(r, v).value)) == ReadPackage(r, v)
  {
  }

  lemma EndpointAgain(v: Value)
    ensures ReadEndpoint(v).Ok? ==> ReadEndpoint(PutEndpoint(ReadEndpoint(v).value)) == ReadEndpoint(v)
  {
  }

  lemma StateAgain(authorized: bool)
    ensures ReadState(Text(StateWord(authorized))) == Ok(authorized)
  {
  }

  lemma ProcessAgain(r: Rules, v: Value)
    ensures ReadProcess(r, v).Ok? ==> ReadProcess(r, PutProcess(ReadProcess(r, v).value)) == ReadProcess(r, v)
  {
    StateAgain(true);
    StateAgain(false);
  }

  lemma ScopeAgain(v: Value)
    ensures ReadScope(v).Ok? ==> ReadScope(PutScope(ReadScope(v).value)) == ReadScope(v)
  {
  }

  lemma ProviderAgain(r: Rules, v: Value)
    ensures ReadProvider(r, v).Ok? ==> ReadProvider(r, PutProvider(ReadProvider(r, v).value)) == ReadProvider(r, v)
  {
    ScopeAgain(Get(v, ScopeKey));
  }

  lemma OperationAgain(r: Rules, v: Value)
    ensures ReadOperation(r, v).Ok? ==> ReadOperation(r, PutOperation(ReadOperation(r, v).value)) == ReadOperation(r, v)
  {
    ScopeAgain(Get(v, ScopeKey));
  }

  lemma SecretsAgain(v: Value)
    ensures ReadSecrets(v).Ok? ==> ReadSecrets(PutSecrets(ReadSecrets(v).value)) == ReadSecrets(v)
  {
  }

  lemma KindsAgain(v: Value)
    ensures ReadRuntime(v).Ok? ==> ReadRuntime(PutRuntime(ReadRuntime(v).value)) == ReadRuntime(v)
    ensures ReadOutcome(v).Ok? ==> ReadOutcome(PutOutcome(ReadOutcome(v).value)) == ReadOutcome(v)
  {
  }

  /** A stored object's field is what was put there. */
  lemma RenderGets(c: Config, k: Key)
    ensures Get(Render(c), k) == if k in Fields(c) then Fields(c)[k] else Undefined
    ensures Render(c).Object? && Render(c).fields.Keys <= ROOT_KEYS
  {
    DefinedGets(Fields(c), k);
  }

  lemma HeadReads(c: Config, v: Value)
    requires ReadHead(v) == Ok(c.head)
    ensures ReadHead(Render(c)) == Ok(c.head)
  {
    RenderGets(c, Locale);
    RenderGets(c, Channel);
    RenderGets(c, BotName);
    RenderGets(c, Engine);
  }

  lemma KindsRead(c: Config, v: Value)
    requires ReadKinds(v) == Ok(c.kinds)
    ensures ReadKinds(Render(c)) == Ok(c.kinds)
  {
    RenderGets(c, RuntimeKey);
    RenderGets(c, OutcomeKey);
    KindsAgain(Get(v, RuntimeKey));
    KindsAgain(Get(v, OutcomeKey));
  }

  lemma PartsRead(r: Rules, c: Config, v: Value)
    requires ReadParts(r, v) == Ok(c.parts)
    ensures ReadParts(r, Render(c)) == Ok(c.parts)
  {
    RenderGets(c, PackageKey);
    RenderGets(c, EndpointKey);
    RenderGets(c, ProcessKey);
    RenderGets(c, ProviderKey);
    RenderGets(c, OperationKey);
    RenderGets(c, SecretReferences);
    PackageAgain(r, Get(v, PackageKey));
    EndpointAgain(Get(v, EndpointKey));
    ProcessAgain(r, Get(v, ProcessKey));
    ProviderAgain(r, Get(v, ProviderKey));
    OperationAgain(r, Get(v, OperationKey));
    SecretsAgain(Get(v, SecretReferences));
  }

  lemma TailReads(r: Rules, c: Config, v: Value)
    requires ReadTail(r, v) == Ok(c.tail)
    ensures ReadTail(r, Render(c)) == Ok(c.tail)
  {
    RenderGets(c, CodeKey);
    RenderGets(c, DeployedAt);
    RenderGets(c, UpdatedAt);
  }

  lemma VersionedAgain(r: Rules, v: Value, c: Config)
    requires ReadVersioned(r, v) == Ok(c)
    ensures ReadVersioned(r, Render(c)) == Ok(c) && c.versioned
  {
    HeadReads(c, v);
    KindsRead(c, v);
    PartsRead(r, c, v);
    TailReads(r, c, v);
    RenderGets(c, SchemaVersion);
  }

  lemma UnversionedAgain(r: Rules, v: Value, c: Config)
    requires ReadUnversioned(r, v) == Ok(c)
    ensures Sanitize(r, Render(c)) == Ok(c)
  {
    RenderGets(c, Locale);
    RenderGets(c, SchemaVersion);
    assert forall k :: k in Render(c).fields ==> k == Locale by {
      forall k | k in Render(c).fields
        ensures k == Locale
      {
        RenderGets(c, k);
      }
    }
  }

  lemma EmptyAgain(r: Rules)
    ensures Sanitize(r, Render(LocaleOnly(None))) == Ok(LocaleOnly(None))
  {
    var c := LocaleOnly(None);
    assert Render(c).fields.Keys == {} by {
      forall k
        ensures k !in Render(c).fields
      {
        RenderGets(c, k);
      }
    }
    assert Render(c).fields == map[];
  }

  lemma VersionedBySchema(r: Rules, v: Value)
    requires v.Object? && Get(v, SchemaVersion) == Text(SCHEMA)
    ensures Sanitize(r, v) == ReadVersioned(r, v)
  {
    assert SchemaVersion in v.fields;
  }

  /** What the normaliser accepts, rendered, it accepts again as the same configuration. */
  lemma SanitizeAgain(r: Rules, v: Value, c: Config)
    requires Sanitize(r, v) == Ok(c)
    ensures Sanitize(r, Render(c)) == Ok(c)
  {
    if v.fields == map[] {
      EmptyAgain(r);
    } else if Get(v, SchemaVersion).Undefined? {
      UnversionedAgain(r, v, c);
    } else {
      VersionedBySchema(r, v);
      VersionedStored(r, v, c);
    }
  }

  lemma VersionedStored(r: Rules, v: Value, c: Config)
    requires ReadVersioned(r, v) == Ok(c)
    ensures Sanitize(r, Render(c)) == Ok(c)
  {
    VersionedAgain(r, v, c);
    SchemaStays(c);
    VersionedBySchema(r, Render(c));
  }

  lemma SchemaStays(c: Config)
    requires c.versioned
    ensures Render(c).Object? && Get(Render(c), SchemaVersion) == Text(SCHEMA)
  {
    RenderGets(c, SchemaVersion);
  }

  ghost predicate Produced(r: Rules, c: Config) { exists v :: Sanitize(r, v) == Ok(c) }

  /** The normaliser's results are exactly the configurations it maps to themselves. */
  lemma ResultsAreFixed(r: Rules, c: Config)
    ensures Produced(r, c) <==> Sanitize(r, Render(c)) == Ok(c)
  {
    if Produced(r, c) {
      var v :| Sanitize(r, v) == Ok(c);
      SanitizeAgain(r, v, c);
    }
  }

  /** No accepted object holds a name outside the schema, at the root or in any part. */
  lemma OnlyKnownNames(r: Rules, v: Value)
    requires Sanitize(r, v).Ok?
    ensures v.Object? && v.fields.Keys <= ROOT_KEYS
    ensures forall k, allowed | (k, allowed) in [(PackageKey, PACKAGE_KEYS), (EndpointKey, ENDPOINT_KEYS),
                                                 (ProcessKey, PROCESS_KEYS), (ProviderKey, PROVIDER_KEYS),
                                                 (OperationKey, OPERATION_KEYS), (SecretReferences, SECRET_KEYS)] ::
      Get(v, k).Undefined? || Plain(Get(v, k), allowed)
  {
    if v.fields != map[] && !Get(v, SchemaVersion).Undefined? {
      var parts := ReadParts(r, v);
      assert parts.Ok?;
    }
  }
}
