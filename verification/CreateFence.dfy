/** DingTalk application reconciliation: write the operation record, create once, and from then on
    only ever read.

    A deploy run is a step machine whose steps are the boundaries of `reconcileDingTalkApplication`:
    one answer of the untrusted remote, of the operator or of the state store per step.  A crash or
    kill is a run whose answers stop.  Deploys of one name are chains of such runs over the durable
    record the previous one left. */
module CreateFence {

  import opened Options

  const PAGE_SIZE := 20
  const MAX_PAGES := 20
  const MAX_APPS := PAGE_SIZE * MAX_PAGES

  datatype App = App(id: string, name: string)

  datatype Page = Page(apps: seq<App>, next: Option<string>)

  /** The codes of the source with this name, less `dingtalk_provider_` or `dingtalk_`; `Reported` is what a command
      failed with. */
  datatype Code =
    | AppVerified
    | ConfirmationRequired
    | CreateIndeterminate
    | FenceUnavailable
    | FenceWriteFailed
    | IdentityAmbiguous
    | ListInvalid
    | PaginationInvalid
    | PaginationLimit
    | ReadbackMismatch
    | ScopeInvalid
    | ScopeMismatch
    | StateWriteFailed
    | Reported(text: string)

  /** A command's outcome: a usable value, output that does not have the expected form, or a
      failure; `uncertain` is `isIdentityReadUncertainty`. */
  datatype Reply<+T> = Good(value: T) | Malformed | Bad(code: Code, uncertain: bool)

  // ---------------------------------------------------------------------------------------
  // The paginated search
  // ---------------------------------------------------------------------------------------

  datatype Found =
    | NoApp
    | OneApp(app: App)
    | Unclear(code: Code)
    | Broken(code: Code)

  /** `exact` is the source's map from id to application in insertion order.  All its values bear the
      searched name, so setting an id again changes nothing. */
  datatype Search = Search(pages: nat, seen: set<string>, exact: seq<App>, count: nat)

  const NEW_SEARCH := Search(0, {}, [], 0)

  datatype Progress = More(search: Search) | Ended(found: Found)

  function AddExact(name: string, exact: seq<App>, apps: seq<App>): seq<App>
    decreases |apps|
  {
    if apps == [] then exact
    else AddExact(name, if apps[0].name == name && apps[0] !in exact then exact + [apps[0]] else exact, apps[1..])
  }

  function Conclude(exact: seq<App>): Found
  {
    if |exact| == 0 then NoApp
    else if |exact| > 1 then Unclear(IdentityAmbiguous)
    else OneApp(exact[0])
  }

  /** What one page does to the search. */
  function ReadPage(name: string, s: Search, reply: Reply<Page>): Progress
  {
    match reply
    case Bad(code, uncertain) => Ended(if uncertain then Unclear(code) else Broken(code))
    case Malformed => Ended(Unclear(ListInvalid))
    case Good(page) =>
      if |page.apps| > PAGE_SIZE then Ended(Unclear(PaginationLimit))
      else if s.count + |page.apps| > MAX_APPS then Ended(Unclear(PaginationLimit))
      else
        var exact := AddExact(name, s.exact, page.apps);
        if page.next.None? then Ended(Conclude(exact))
        else if page.next.value in s.seen then Ended(Unclear(PaginationInvalid))
        else
          var s' := Search(s.pages + 1, s.seen + {page.next.value}, exact, s.count + |page.apps|);
          if s'.pages >= MAX_PAGES then Ended(Unclear(PaginationLimit)) else More(s')
  }

  /** The whole search from `s` on, when the remote answers list command number `k` with `remote(k)`. */
  function Searched(name: string, s: Search, remote: nat -> Reply<Page>): Found
    decreases MAX_PAGES - s.pages
  {
    match ReadPage(name, s, remote(s.pages))
    case Ended(found) => found
    case More(s') => Searched(name, s', remote)
  }

  /** List command `k` asks for the page that answer `k - 1` announced. */
  ghost predicate Follows(remote: nat -> Reply<Page>, k: nat, cursor: Option<string>)
  {
    if k == 0 then cursor == None
    else cursor.Some? && remote(k - 1).Good? && remote(k - 1).value.next == cursor
  }

  /** The loop.  `cursors` are the `--cursor` arguments of the list commands it issued. */
  method FindExactApp(name: string, remote: nat -> Reply<Page>) returns (found: Found, cursors: seq<Option<string>>)
    ensures found == Searched(name, NEW_SEARCH, remote)
    ensures 1 <= |cursors| <= MAX_PAGES
    ensures forall k :: 0 <= k < |cursors| ==> Follows(remote, k, cursors[k])
    ensures forall j, k :: 0 <= j < k < |cursors| ==> cursors[j] != cursors[k]
  {
    var cursor: Option<string> := None;
    var seenCursors: set<string> := {};
    var exact: seq<App> := [];
    var appCount: nat := 0;
    cursors := [];
    for pageNumber := 0 to MAX_PAGES
      invariant |cursors| == pageNumber
      invariant Follows(remote, pageNumber, cursor)
      invariant forall k :: 0 <= k < pageNumber ==> Follows(remote, k, cursors[k])
      invariant cursor.Some? ==> cursor.value in seenCursors
      invariant forall k :: 0 <= k < pageNumber && cursors[k].Some? ==> cursors[k].value in seenCursors
      invariant forall k :: 0 <= k < pageNumber ==> cursors[k] != cursor
      invariant forall j, k :: 0 <= j < k < |cursors| ==> cursors[j] != cursors[k]
      invariant pageNumber < MAX_PAGES ==>
        Searched(name, NEW_SEARCH, remote) == Searched(name, Search(pageNumber, seenCursors, exact, appCount), remote)
      invariant pageNumber == MAX_PAGES ==>
        Searched(name, NEW_SEARCH, remote) == Unclear(PaginationLimit)
    {
      cursors := cursors + [cursor];
      var response := remote(pageNumber);
      if response.Bad? {
        return if response.uncertain then Unclear(response.code) else Broken(response.code), cursors;
      }
      if response.Malformed? {
        return Unclear(ListInvalid), cursors;
      }
      var page := response.value;
      if |page.apps| > PAGE_SIZE {
        return Unclear(PaginationLimit), cursors;
      }
      ghost var before := Search(pageNumber, seenCursors, exact, appCount);
      appCount := appCount + |page.apps|;
      if appCount > MAX_APPS {
        return Unclear(PaginationLimit), cursors;
      }
      var i := 0;
      while i < |page.apps|
        invariant 0 <= i <= |page.apps|
        invariant AddExact(name, exact, page.apps[i..]) == AddExact(name, before.exact, page.apps)
      {
        assert page.apps[i..][1..] == page.apps[i + 1..];
        if page.apps[i].name == name && page.apps[i] !in exact {
          exact := exact + [page.apps[i]];
        }
        i := i + 1;
      }
      if page.next.None? {
        return Conclude(exact), cursors;
      }
      if page.next.value in seenCursors {
        return Unclear(PaginationInvalid), cursors;
      }
      seenCursors := seenCursors + {page.next.value};
      cursor := page.next;
    }
    return Unclear(PaginationLimit), cursors;
  }

  // ---- the simple meaning ----

  /** A listing that ends within the limits: `n` pages, no cursor twice. */
  ghost predicate Complete(remote: nat -> Reply<Page>, n: nat)
  {
    && 1 <= n <= MAX_PAGES
    && (forall k :: 0 <= k < n ==> remote(k).Good? && |remote(k).value.apps| <= PAGE_SIZE)
    && (forall k :: 0 <= k < n ==> (remote(k).value.next == None <==> k == n - 1))
    && (forall j, k :: 0 <= j < k < n ==> remote(j).value.next != remote(k).value.next)
  }

  /** The applications of the first `n` pages that bear the name. */
  ghost function Named(name: string, remote: nat -> Reply<Page>, n: nat): set<App>
    requires forall k :: 0 <= k < n ==> remote(k).Good?
  {
    set k, a | 0 <= k < n && a in remote(k).value.apps && a.name == name :: a
  }

  lemma {:induction false} AddExactMeans(name: string, exact: seq<App>, apps: seq<App>)
    requires forall i, j :: 0 <= i < j < |exact| ==> exact[i] != exact[j]
    ensures var r := AddExact(name, exact, apps);
            && (forall i, j :: 0 <= i < j < |r| ==> r[i] != r[j])
            && (forall a :: a in r <==> a in exact || (a in apps && a.name == name))
    decreases |apps|
  {
    if apps != [] {
      var exact' := if apps[0].name == name && apps[0] !in exact then exact + [apps[0]] else exact;
      assert forall a :: a in apps <==> a == apps[0] || a in apps[1..];
      AddExactMeans(name, exact', apps[1..]);
    }
  }

  ghost predicate SearchAt(name: string, remote: nat -> Reply<Page>, n: nat, s: Search)
    requires Complete(remote, n)
  {
    && s.pages < n
    && s.count <= s.pages * PAGE_SIZE
    && s.seen == (set k | 0 <= k < s.pages && remote(k).value.next.Some? :: remote(k).value.next.value)
    && (forall i, j :: 0 <= i < j < |s.exact| ==> s.exact[i] != s.exact[j])
    && (forall a :: a in s.exact <==> a in Named(name, remote, s.pages))
  }

  lemma {:induction false} SearchedMeans(name: string, remote: nat -> Reply<Page>, n: nat, s: Search)
    requires Complete(remote, n) && SearchAt(name, remote, n, s)
    ensures exists exact: seq<App> ::
              && Searched(name, s, remote) == Conclude(exact)
              && (forall i, j :: 0 <= i < j < |exact| ==> exact[i] != exact[j])
              && (forall a :: a in exact <==> a in Named(name, remote, n))
    decreases n - s.pages
  {
    var page := remote(s.pages).value;
    var exact := AddExact(name, s.exact, page.apps);
    AddExactMeans(name, s.exact, page.apps);
    assert forall a :: a in exact <==> a in Named(name, remote, s.pages + 1);
    if s.pages < n - 1 {
      assert page.next.value !in s.seen;
      var s' := Search(s.pages + 1, s.seen + {page.next.value}, exact, s.count + |page.apps|);
      assert ReadPage(name, s, remote(s.pages)) == More(s');
      SearchedMeans(name, remote, n, s');
    }
  }

  /** On a listing that ends within the limits, the search answers "one" exactly when a single
      application of the whole listing has the name, and "none" exactly when none has. */
  lemma SearchMeans(name: string, remote: nat -> Reply<Page>, n: nat, app: App)
    requires Complete(remote, n)
    ensures Searched(name, NEW_SEARCH, remote) == NoApp <==> Named(name, remote, n) == {}
    ensures Searched(name, NEW_SEARCH, remote) == OneApp(app) <==> Named(name, remote, n) == {app}
  {
    SearchedMeans(name, remote, n, NEW_SEARCH);
    var found, named := Searched(name, NEW_SEARCH, remote), Named(name, remote, n);
    var exact :|
      && found == Conclude(exact)
      && (forall i, j :: 0 <= i < j < |exact| ==> exact[i] != exact[j])
      && (forall a :: a in exact <==> a in named);
    if |exact| > 0 {
      assert exact[0] in named;
    }
    if |exact| > 1 {
      assert exact[1] in named && exact[0] != exact[1];
    }
    if named == {app} {
      assert app in exact;
    }
    if |exact| == 1 {
      assert named == {exact[0]};
    }
  }

  /** The search without its guard on the total number of applications. */
  ghost function SearchedUnguarded(name: string, s: Search, remote: nat -> Reply<Page>): Found
    decreases MAX_PAGES - s.pages
  {
    match ReadPage(name, s.(count := 0), remote(s.pages))
    case Ended(found) => found
    case More(s') => SearchedUnguarded(name, s', remote)
  }

  /** The guard on the total can never fire, whatever the remote answers. */
  lemma {:induction false} CountGuardNeverFires(name: string, s: Search, count: nat, remote: nat -> Reply<Page>)
    requires s.count <= s.pages * PAGE_SIZE && s.pages < MAX_PAGES
    ensures Searched(name, s, remote) == SearchedUnguarded(name, s.(count := count), remote)
    decreases MAX_PAGES - s.pages
  {
    match ReadPage(name, s, remote(s.pages))
    case Ended(_) =>
    case More(s') => CountGuardNeverFires(name, s', |remote(s.pages).value.apps|, remote);
  }

  // ---------------------------------------------------------------------------------------
  // One deploy run
  // ---------------------------------------------------------------------------------------

  type Scope = string

  datatype Provider = Provider(resource: string, scope: Scope)

  /** The durable record: nothing, the fence written before a create, or the identified application. */
  datatype Durable = Nothing | Operation(scope: Scope) | Identified(provider: Provider)

  datatype Status = Verified | ConfirmationRequired | Indeterminate | Failed

  datatype Result = Result(status: Status, code: Code, provider: Option<Provider>)

  /** What one run is asked to do; `callbacks` says whether both persistence callbacks were given. */
  datatype Request = Request(name: string, allowWrite: bool, callbacks: bool)

  datatype CreateReply = CreatedAs(id: string) | CreatedUnreadable | AlreadyExists | CreateBad(code: Code)

  /** A callback that returns has written its record; one that throws may or may not have. */
  datatype StoreReply = Stored | ThrewUnsaved | ThrewSaved

  /** `Session` carries the resolved scope, or the code of the failure. */
  datatype Answer =
    | Session(scope: Reply<Scope>)
    | Listed(page: Reply<Page>)
    | ReadBack(app: Reply<App>)
    | Created(create: CreateReply)
    | Confirmed(yes: bool)
    | Stores(store: StoreReply)

  /** Effects in order.  `Create` is logged when the command is issued, whether or not it is ever answered; the
      reading commands with what came back.  `List` says how its search ended, once it has. */
  datatype Effect =
    | Profile
    | List(ended: Option<Found>)
    | Get(id: string, app: Reply<App>)
    | Asked(yes: bool)
    | Create
    | SaveOperation
    | SaveProvider(provider: Provider)

  /** Where the session is revalidated, what follows if it still holds. */
  datatype Then = Finish(result: Result) | StoreProvider(id: string, site: Site) | StoreOperation | IssueCreate

  /** Which branch of the source a read-back or a provider record belongs to. */
  datatype Site = Existing | Matched | AfterCreate

  datatype Pc =
    | Resolving
    | Listing(conflict: bool, search: Search)
    | Reading(id: string, site: Site)
    | Confirming
    | Revalidating(next: Then, fence: bool)
    | SavingOperation
    | Creating
    | SavingProvider(provider: Provider, site: Site)
    | Done(result: Result)

  /** A run: the record it started from, the record now, and the session it resolved. */
  datatype Run = Run(request: Request, start: Durable, durable: Durable, scope: Scope, pc: Pc, effects: seq<Effect>)

  function NewRun(request: Request, durable: Durable): Run
  {
    Run(request, durable, durable, "", Resolving, [])
  }

  function Unverified(status: Status, code: Code): Result { Result(status, code, None) }

  function ScopeFailure(code: Code, fence: bool): Result
  {
    Unverified(if fence then Indeterminate else Failed, code)
  }

  const CREATE_INDETERMINATE := Unverified(Indeterminate, CreateIndeterminate)

  function VerifiedAs(r: Run, id: string): Result
  {
    Result(Verified, AppVerified, Some(Provider(id, r.scope)))
  }

  function RecordScope(d: Durable): Scope
    requires !d.Nothing?
  {
    if d.Operation? then d.scope else d.provider.scope
  }

  function Go(r: Run, pc: Pc, effect: Effect): Run { r.(pc := pc, effects := r.effects + [effect]) }

  /** A run that has come to the create issues it; the answer may never arrive. */
  function Issue(r: Run): Run { if r.pc.Creating? then r.(effects := r.effects + [Create]) else r }

  /** One boundary of the run.  An answer of the wrong kind is not an answer. */
  function Step(r: Run, a: Answer): Run
  {
    match (r.pc, a)
    case (Resolving, Session(scope)) => AfterResolve(r, scope)
    case (Listing(conflict, search), Listed(page)) =>
      (match ReadPage(r.request.name, search, page)
       case More(search') => Go(r, Listing(conflict, search'), List(None))
       case Ended(found) => Go(r, AfterSearch(r, conflict, found), List(Some(found))))
    case (Reading(id, site), ReadBack(app)) => Go(r, AfterReadBack(r, id, site, app), Get(id, app))
    case (Confirming, Confirmed(yes)) => Go(r, AfterConfirm(r, yes), Asked(yes))
    case (Revalidating(next, fence), Session(scope)) => Issue(Go(r, AfterRevalidate(r, next, fence, scope), Profile))
    case (SavingOperation, Stores(store)) => AfterSaveOperation(r, store)
    case (Creating, Created(create)) => r.(pc := AfterCreating(r, create))
    case (SavingProvider(provider, site), Stores(store)) => AfterSaveProvider(r, provider, site, store)
    case _ => r
  }

  function AfterResolve(r: Run, scope: Reply<Scope>): Run
  {
    var fence := !r.start.Nothing?;
    match scope
    case Bad(code, _) => Go(r, Done(ScopeFailure(code, fence)), Profile)
    case Malformed => Go(r, Done(ScopeFailure(ScopeInvalid, fence)), Profile)
    case Good(s) =>
      var r' := r.(scope := s);
      if fence && RecordScope(r.start) != s then
        Go(r', Done(ScopeFailure(ScopeMismatch, fence)), Profile)
      else if r.start.Identified? then Go(r', Reading(r.start.provider.resource, Existing), Profile)
      else Go(r', Listing(false, NEW_SEARCH), Profile)
  }

  function AfterSearch(r: Run, conflict: bool, found: Found): Pc
  {
    if conflict then
      if found.OneApp? then Reading(found.app.id, AfterCreate)
      else Revalidating(Finish(CREATE_INDETERMINATE), true)
    else if r.start.Operation? && !found.OneApp? then Revalidating(Finish(CREATE_INDETERMINATE), true)
    else match found
      case Broken(code) => Done(Unverified(Failed, code))
      case Unclear(code) => Done(Unverified(Indeterminate, code))
      case OneApp(app) => Reading(app.id, Matched)
      case NoApp =>
        if r.request.allowWrite then AfterConfirm(r, true) else Confirming
  }

  function AfterReadBack(r: Run, id: string, site: Site, app: Reply<App>): Pc
  {
    var readback :=
      match app
      case Bad(code, uncertain) => Unverified(if uncertain then Indeterminate else Failed, code)
      case Malformed => Unverified(Indeterminate, ReadbackMismatch)
      case Good(a) =>
        if a != App(id, r.request.name) then Unverified(Indeterminate, ReadbackMismatch)
        else VerifiedAs(r, id);
    match site
    case Existing => Revalidating(Finish(readback), true)
    case Matched =>
      if readback.status != Verified then
        if r.start.Operation? then Revalidating(Finish(CREATE_INDETERMINATE), true) else Done(readback)
      else Revalidating(StoreProvider(id, Matched), r.start.Operation?)
    case AfterCreate =>
      if readback.status != Verified then Revalidating(Finish(CREATE_INDETERMINATE), true)
      else Revalidating(StoreProvider(id, AfterCreate), true)
  }

  function AfterConfirm(r: Run, yes: bool): Pc
  {
    if !yes then Done(Unverified(Status.ConfirmationRequired, Code.ConfirmationRequired))
    else if !r.request.callbacks then Done(Unverified(Failed, FenceUnavailable))
    else Revalidating(StoreOperation, false)
  }

  function AfterRevalidate(r: Run, next: Then, fence: bool, scope: Reply<Scope>): Pc
  {
    match scope
    case Bad(code, _) => Done(ScopeFailure(code, fence))
    case Malformed => Done(ScopeFailure(ScopeInvalid, fence))
    case Good(s) =>
      if s != r.scope then Done(ScopeFailure(ScopeMismatch, fence))
      else match next
        case Finish(result) => Done(result)
        case StoreProvider(id, site) =>
          // The callback is optional on the path that never wrote an operation record.
          if site == Matched && !r.request.callbacks then Done(VerifiedAs(r, id))
          else SavingProvider(Provider(id, r.scope), site)
        case StoreOperation => SavingOperation
        case IssueCreate => Creating
  }

  function AfterSaveOperation(r: Run, store: StoreReply): Run
  {
    match store
    case Stored => Go(r, Revalidating(IssueCreate, true), SaveOperation).(durable := Operation(r.scope))
    case ThrewUnsaved => r.(pc := Done(Unverified(Indeterminate, FenceWriteFailed)))
    case ThrewSaved =>
      Go(r, Done(Unverified(Indeterminate, FenceWriteFailed)), SaveOperation)
        .(durable := Operation(r.scope))
  }

  function AfterCreating(r: Run, create: CreateReply): Pc
  {
    match create
    case CreatedAs(id) => Reading(id, AfterCreate)
    case CreatedUnreadable => Revalidating(Finish(CREATE_INDETERMINATE), true)
    case CreateBad(code) => Revalidating(Finish(Unverified(Indeterminate, code)), true)
    case AlreadyExists => Listing(true, NEW_SEARCH)
  }

  function AfterSaveProvider(r: Run, provider: Provider, site: Site, store: StoreReply): Run
  {
    var lost := Unverified(if site == AfterCreate || r.start.Operation? then Indeterminate else Failed,
                           StateWriteFailed);
    match store
    case Stored => Go(r, Done(VerifiedAs(r, provider.resource)), SaveProvider(provider)).(durable := Identified(provider))
    case ThrewUnsaved => r.(pc := Done(lost))
    case ThrewSaved => Go(r, Done(lost), SaveProvider(provider)).(durable := Identified(provider))
  }

  /** A run over the answers it received; fewer answers than it asks for is a crash. */
  function RunOver(r: Run, answers: seq<Answer>): Run
    decreases |answers|
  {
    if answers == [] then r else RunOver(Step(r, answers[0]), answers[1..])
  }

  // ---------------------------------------------------------------------------------------
  // What every step keeps
  // ---------------------------------------------------------------------------------------

  function Creates(effects: seq<Effect>): nat
  {
    if effects == [] then 0 else (if effects[0].Create? then 1 else 0) + Creates(effects[1..])
  }

  lemma {:induction false} CreatesSplit(a: seq<Effect>, b: seq<Effect>)
    ensures Creates(a + b) == Creates(a) + Creates(b)
  {
    if a == [] {
      assert a + b == b;
    } else {
      assert (a + b)[1..] == a[1..] + b;
      CreatesSplit(a[1..], b);
    }
  }

  /** The points from which the run can still reach the create command without a durable fence. */
  ghost predicate BeforeFence(pc: Pc)
  {
    pc.Confirming? || pc.SavingOperation? || (pc.Revalidating? && pc.next.StoreOperation?)
  }

  ghost predicate AtCreate(pc: Pc) { pc.Revalidating? && pc.next.IssueCreate? }

  /** The create was issued; it may or may not have been answered. */
  ghost predicate PastCreate(pc: Pc)
  {
    || pc.Creating?
    || (pc.Listing? && pc.conflict)
    || (pc.Reading? && pc.site == AfterCreate)
    || (pc.Revalidating? && pc.next.StoreProvider? && pc.next.site == AfterCreate)
    || (pc.SavingProvider? && pc.site == AfterCreate)
  }

  /** A get for the id was answered with that id and the requested name. */
  ghost predicate ReadBackAs(r: Run, id: string) { Get(id, Good(App(id, r.request.name))) in r.effects }

  /** A verified result names the application that is durably recorded, unless the caller gave no callbacks. */
  ghost predicate ResultFits(r: Run, result: Result)
  {
    && (result.status == Verified <==> result.provider.Some?)
    && (Create in r.effects || r.start.Operation? ==> result.status == Verified || result.status == Indeterminate)
    && (result.status == Verified ==>
          && ReadBackAs(r, result.provider.value.resource)
          && (r.request.callbacks || r.start.Identified? ==> r.durable == Identified(result.provider.value)))
  }

  /** The operation record is written, the operator agreed, and a search found no application of the name. */
  ghost predicate MayCreate(request: Request, effects: seq<Effect>)
  {
    SaveOperation in effects && Approved(request, effects) && List(Some(NoApp)) in effects
  }

  ghost predicate Fenced(request: Request, effects: seq<Effect>, i: nat)
    requires i < |effects|
  {
    effects[i].Create? ==> MayCreate(request, effects[..i])
  }

  ghost predicate AllFenced(request: Request, effects: seq<Effect>)
  {
    forall i :: 0 <= i < |effects| ==> Fenced(request, effects, i)
  }

  ghost predicate Approved(request: Request, effects: seq<Effect>)
  {
    request.allowWrite || Asked(true) in effects
  }

  ghost predicate RunInv(r: Run)
  {
    && AllFenced(r.request, r.effects)
    && (BeforeFence(r.pc) && !r.pc.Confirming? ==> Approved(r.request, r.effects))
    && (BeforeFence(r.pc) ==> List(Some(NoApp)) in r.effects)
    && (AtCreate(r.pc) ==> MayCreate(r.request, r.effects))
    && Creates(r.effects) <= 1
    && (Create in r.effects <==> Creates(r.effects) == 1)
    && (!r.start.Nothing? ==> Creates(r.effects) == 0 && SaveOperation !in r.effects)
    && (r.durable.Nothing? ==> r.start.Nothing? && Creates(r.effects) == 0)
    && (r.start.Identified? ==> r.durable == r.start)
    && (r.start.Operation? ==> !r.durable.Nothing? && (r.durable.Operation? ==> r.durable == r.start))
    && (!r.pc.Resolving? && !r.pc.Done? && !r.start.Nothing? ==> RecordScope(r.start) == r.scope)
    && (r.pc.Resolving? ==> r.effects == [] && r.durable == r.start)
    && (BeforeFence(r.pc) ==> r.start.Nothing? && r.durable.Nothing?)
    && (AtCreate(r.pc) ==> r.start.Nothing? && r.durable == Operation(r.scope) && Creates(r.effects) == 0)
    && (PastCreate(r.pc) ==> Create in r.effects && r.durable == Operation(r.scope))
    && (r.pc.Listing? && !r.pc.conflict ==> !r.start.Identified? && r.durable == r.start && Create !in r.effects)
    && (r.pc.Reading? && r.pc.site == Existing ==> r.start.Identified? && r.pc.id == r.start.provider.resource)
    && (Matching(r.pc) ==> !r.start.Identified? && r.durable == r.start && Create !in r.effects)
    && (r.pc.Revalidating? ==> RevalidatingInv(r))
    && (r.pc.SavingProvider? ==>
          && r.pc.provider.scope == r.scope && ReadBackAs(r, r.pc.provider.resource)
          && r.pc.site != Existing && !r.start.Identified?)
    && (r.pc.Done? ==> ResultFits(r, r.pc.result))
  }

  ghost predicate Matching(pc: Pc)
  {
    || (pc.Reading? && pc.site == Matched)
    || (pc.Revalidating? && pc.next.StoreProvider? && pc.next.site == Matched)
    || (pc.SavingProvider? && pc.site == Matched)
  }

  ghost predicate RevalidatingInv(r: Run)
    requires r.pc.Revalidating?
  {
    && (Create in r.effects || r.start.Operation? ==> r.pc.fence)
    && (r.pc.next.Finish? ==> ResultFits(r, r.pc.next.result))
    && (r.pc.next.StoreProvider? ==>
          r.pc.next.site != Existing && !r.start.Identified? && ReadBackAs(r, r.pc.next.id))
  }

  lemma GoCounts(r: Run, effect: Effect)
    ensures Creates(r.effects + [effect]) == Creates(r.effects) + (if effect.Create? then 1 else 0)
    ensures forall e :: e in r.effects + [effect] <==> e in r.effects || e == effect
    ensures AllFenced(r.request, r.effects) && (effect.Create? ==> MayCreate(r.request, r.effects)) ==>
      AllFenced(r.request, r.effects + [effect])
  {
    CreatesSplit(r.effects, [effect]);
    assert [effect][1..] == [];
    var effects := r.effects + [effect];
    if AllFenced(r.request, r.effects) && (effect.Create? ==> MayCreate(r.request, r.effects)) {
      forall i | 0 <= i < |effects| ensures Fenced(r.request, effects, i) {
        if i < |r.effects| {
          assert Fenced(r.request, r.effects, i);
          assert effects[..i] == r.effects[..i];
        } else {
          assert effects[..i] == r.effects;
        }
      }
    }
  }

  ghost predicate Kept(r: Run, r': Run)
  {
    RunInv(r') && r'.start == r.start && r'.request == r.request && r.effects <= r'.effects
  }

  lemma ResolveKeeps(r: Run, scope: Reply<Scope>)
    requires RunInv(r) && r.pc.Resolving?
    ensures Kept(r, AfterResolve(r, scope))
  {
    GoCounts(r, Profile);
  }

  lemma PageKeeps(r: Run, search: Search)
    requires RunInv(r) && r.pc.Listing?
    ensures Kept(r, Go(r, Listing(r.pc.conflict, search), List(None)))
  {
    GoCounts(r, List(None));
  }

  lemma SearchEndKeeps(r: Run, found: Found)
    requires RunInv(r) && r.pc.Listing?
    ensures Kept(r, Go(r, AfterSearch(r, r.pc.conflict, found), List(Some(found))))
  {
    GoCounts(r, List(Some(found)));
  }

  lemma SearchKeeps(r: Run, page: Reply<Page>)
    requires RunInv(r) && r.pc.Listing?
    ensures Kept(r, Step(r, Listed(page)))
  {
    match ReadPage(r.request.name, r.pc.search, page)
    case More(search) => PageKeeps(r, search);
    case Ended(found) => SearchEndKeeps(r, found);
  }

  lemma ReadBackKeeps(r: Run, app: Reply<App>)
    requires RunInv(r) && r.pc.Reading?
    ensures Kept(r, Step(r, ReadBack(app)))
  {
    GoCounts(r, Get(r.pc.id, app));
  }

  lemma RevalidateKeeps(r: Run, scope: Reply<Scope>)
    requires RunInv(r) && r.pc.Revalidating?
    ensures Kept(r, Step(r, Session(scope)))
  {
    var pc := AfterRevalidate(r, r.pc.next, r.pc.fence, scope);
    if pc.Creating? {
      IssueKeeps(r);
    } else {
      HeldKeeps(r, scope);
    }
  }

  /** The session holds, and the create is issued. */
  lemma IssueKeeps(r: Run)
    requires RunInv(r) && r.pc.Revalidating? && r.pc.next.IssueCreate?
    ensures Kept(r, Issue(Go(r, Creating, Profile)))
  {
    GoCounts(r, Profile);
    GoCounts(Go(r, Creating, Profile), Create);
  }

  lemma HeldKeeps(r: Run, scope: Reply<Scope>)
    requires RunInv(r) && r.pc.Revalidating? && !AfterRevalidate(r, r.pc.next, r.pc.fence, scope).Creating?
    ensures Kept(r, Go(r, AfterRevalidate(r, r.pc.next, r.pc.fence, scope), Profile))
  {
    GoCounts(r, Profile);
  }

  lemma SaveOperationKeeps(r: Run, store: StoreReply)
    requires RunInv(r) && r.pc.SavingOperation?
    ensures Kept(r, AfterSaveOperation(r, store))
  {
    GoCounts(r, SaveOperation);
  }

  lemma CreateKeeps(r: Run, create: CreateReply)
    requires RunInv(r) && r.pc.Creating?
    ensures Kept(r, Step(r, Created(create)))
  {
  }

  lemma SaveProviderKeeps(r: Run, store: StoreReply)
    requires RunInv(r) && r.pc.SavingProvider?
    ensures Kept(r, AfterSaveProvider(r, r.pc.provider, r.pc.site, store))
  {
    GoCounts(r, SaveProvider(r.pc.provider));
  }

  lemma ConfirmKeeps(r: Run, yes: bool)
    requires RunInv(r) && r.pc.Confirming?
    ensures Kept(r, Go(r, AfterConfirm(r, yes), Asked(yes)))
  {
    GoCounts(r, Asked(yes));
  }

  lemma StepKeepsInv(r: Run, a: Answer)
    requires RunInv(r)
    ensures Kept(r, Step(r, a))
  {
    match (r.pc, a)
    case (Resolving, Session(scope)) => ResolveKeeps(r, scope);
    case (Listing(_, _), Listed(page)) => SearchKeeps(r, page);
    case (Reading(_, _), ReadBack(app)) => ReadBackKeeps(r, app);
    case (Confirming, Confirmed(yes)) => ConfirmKeeps(r, yes);
    case (Revalidating(_, _), Session(scope)) => RevalidateKeeps(r, scope);
    case (SavingOperation, Stores(store)) => SaveOperationKeeps(r, store);
    case (Creating, Created(create)) => CreateKeeps(r, create);
    case (SavingProvider(_, _), Stores(store)) => SaveProviderKeeps(r, store);
    case _ =>
  }

  lemma {:induction false} RunKeepsInv(r: Run, answers: seq<Answer>)
    requires RunInv(r)
    ensures Kept(r, RunOver(r, answers))
    decreases |answers|
  {
    if answers != [] {
      StepKeepsInv(r, answers[0]);
      RunKeepsInv(Step(r, answers[0]), answers[1..]);
    }
  }

  // ---------------------------------------------------------------------------------------
  // What one run and a chain of runs guarantee
  // ---------------------------------------------------------------------------------------

  /** What a get brought back was an answer of the remote. */
  lemma {:induction false} ReadBacksWereAnswered(r: Run, answers: seq<Answer>, id: string, app: Reply<App>)
    requires Get(id, app) in RunOver(r, answers).effects && Get(id, app) !in r.effects
    ensures ReadBack(app) in answers
    decreases |answers|
  {
    if answers != [] {
      var r' := Step(r, answers[0]);
      if Get(id, app) !in r'.effects { ReadBacksWereAnswered(r', answers[1..], id, app); }
    }
  }

  /** A result `verified` names an application that the remote gave back under its id with the requested name,
      and that is now recorded; a run that issued the create, or that found an operation record, never reports
      plain failure. */
  lemma ResultsAreHonest(request: Request, durable: Durable, answers: seq<Answer>)
    requires RunOver(NewRun(request, durable), answers).pc.Done?
    ensures var r := RunOver(NewRun(request, durable), answers);
            && (r.pc.result.status == Verified ==>
                  && r.pc.result.provider.Some?
                  && var id := r.pc.result.provider.value.resource;
                     ReadBack(Good(App(id, request.name))) in answers && ReadBackAs(r, id))
            && (r.pc.result.status == Verified && (request.callbacks || durable.Identified?) ==>
                  r.durable == Identified(r.pc.result.provider.value))
            && (Create in r.effects || durable.Operation? ==>
                  r.pc.result.status == Verified || r.pc.result.status == Indeterminate)
  {
    RunKeepsInv(NewRun(request, durable), answers);
    var result := RunOver(NewRun(request, durable), answers).pc.result;
    if result.status == Verified {
      var id := result.provider.value.resource;
      ReadBacksWereAnswered(NewRun(request, durable), answers, id, Good(App(id, request.name)));
    }
  }

  /** Deploys of one name, each starting from the durable record the previous one left. */
  datatype Attempt = Attempt(request: Request, answers: seq<Answer>)

  function Deploys(durable: Durable, chain: seq<Attempt>): (Durable, seq<Effect>)
    decreases |chain|
  {
    if chain == [] then (durable, [])
    else
      var r := RunOver(NewRun(chain[0].request, durable), chain[0].answers);
      var later := Deploys(r.durable, chain[1..]);
      (later.0, r.effects + later.1)
  }

  /** Over any chain of runs, whatever the remote answers and wherever each run is cut off, the create
      command is issued at most once; never after a record exists; and a record, once identified,
      never changes. */
  lemma {:induction false} CreatedAtMostOnce(durable: Durable, chain: seq<Attempt>)
    ensures var (durable', effects) := Deploys(durable, chain);
            && Creates(effects) <= 1
            && (!durable.Nothing? ==> Creates(effects) == 0 && !durable'.Nothing?)
            && (durable'.Nothing? ==> Creates(effects) == 0)
            && (durable.Identified? ==> durable' == durable)
    decreases |chain|
  {
    if chain != [] {
      var r0 := NewRun(chain[0].request, durable);
      RunKeepsInv(r0, chain[0].answers);
      var r := RunOver(r0, chain[0].answers);
      CreatedAtMostOnce(r.durable, chain[1..]);
      CreatesSplit(r.effects, Deploys(r.durable, chain[1..]).1);
    }
  }

  /** In every run, before the create is issued: no record was there at the start, a search ended without an
      application of the name, the operator agreed, and the operation record was written. */
  lemma CreateIsFenced(request: Request, durable: Durable, answers: seq<Answer>, i: nat)
    requires i < |RunOver(NewRun(request, durable), answers).effects|
    requires RunOver(NewRun(request, durable), answers).effects[i].Create?
    ensures var r := RunOver(NewRun(request, durable), answers);
            && durable.Nothing? && !r.durable.Nothing?
            && SaveOperation in r.effects[..i]
            && (request.allowWrite || Asked(true) in r.effects[..i])
            && List(Some(NoApp)) in r.effects[..i]
  {
    RunKeepsInv(NewRun(request, durable), answers);
    assert Fenced(request, RunOver(NewRun(request, durable), answers).effects, i);
  }

  /** A run that is killed while its create is outstanding has issued it, and leaves the operation record. */
  lemma KilledInCreate(request: Request, durable: Durable, answers: seq<Answer>)
    requires RunOver(NewRun(request, durable), answers).pc.Creating?
    ensures var r := RunOver(NewRun(request, durable), answers);
            Creates(r.effects) == 1 && r.durable == Operation(r.scope) && durable.Nothing?
  {
    RunKeepsInv(NewRun(request, durable), answers);
  }
}
