/** The manager service's state as a value, and one function per operation
    saying what that operation does to it.  The service class (module
    `Manager`) is proved to follow these functions; the properties the
    service promises are lemmas about them.

    Two revisions of the service are modelled together: `SdkSandbox`
    (`SdkSandboxManagerService`) and the older `SupplementalProcess`
    (`SupplementalProcessManagerService`).  They keep the same state and
    differ in how an SDK name is resolved, in the wording of one message,
    in how the sandbox uid to kill is found when an app dies, and in the
    names the dump prints. */
module ManagerModel {
  import opened Common
  import opened Tokens
  import opened Packages

  datatype Revision = SdkSandbox | SupplementalProcess

  /** Binder identities of remote objects the manager talks to. */
  type AppCallback = nat       // IRemoteSdkCallback of the app
  type WorkerCallback = nat    // the sandbox's ISdkSandboxManagerToSdkSandboxCallback
  type SandboxService = nat    // ISdkSandboxService of a bound sandbox
  type HostToken = nat

  const LOAD_SDK_SDK_NOT_FOUND: int := 100
  const LOAD_SDK_SDK_ALREADY_LOADED: int := 101
  const LOAD_SDK_INTERNAL_ERROR: int := 500

  /** `AppAndRemoteSdkLink`: the channel between one app callback and the SDK
      loaded for one token.  The worker's callback arrives with a successful
      load and is kept for surface requests. */
  class Link {
    const token: Token
    const managerToAppCallback: AppCallback
    var managerToCodeCallback: Option<WorkerCallback>

    constructor (token: Token, managerToAppCallback: AppCallback)
      ensures this.token == token && this.managerToAppCallback == managerToAppCallback
      ensures managerToCodeCallback == None
    {
      this.token := token;
      this.managerToAppCallback := managerToAppCallback;
      managerToCodeCallback := None;
    }
  }

  /** The `ServiceConnection` created when no sandbox is bound for the app: it
      remembers the load request and whether it already forwarded it. */
  class Connection {
    const callingUid: int
    const token: Token
    const info: ApplicationInfo
    const link: Link
    var isServiceBound: bool

    constructor (callingUid: int, token: Token, info: ApplicationInfo, link: Link)
      ensures this.callingUid == callingUid && this.token == token && this.info == info && this.link == link
      ensures !isServiceBound
    {
      this.callingUid := callingUid;
      this.token := token;
      this.info := info;
      this.link := link;
      isServiceBound := false;
    }
  }

  /** Calls the manager makes to other processes, in order. */
  datatype Output =
    | AppLoadSuccess(appCallback: AppCallback, token: Token)
    | AppLoadFailure(appCallback: AppCallback, errorCode: int, message: string)
    | AppSurfaceReady(appCallback: AppCallback, surfacePackageId: int)
    | AppSurfaceError(appCallback: AppCallback, errorCode: int, message: string)
    | LoadRpc(service: SandboxService, token: Token, info: ApplicationInfo, codeProviderClassName: string, link: Link)
    | SurfaceRequest(workerCallback: WorkerCallback, hostToken: HostToken, displayId: int)
    | BindService(appUid: int, connection: Connection?)
    | UnbindService(appUid: int)
    | KillUid(uid: int, reason: string)
    | DeathWatch(token: Token, appUid: int)

  /** The service's state: the token registry, the links by token, the sandbox
      uids each app has loaded code from, the sandbox bound for each app (what
      the service provider's `getBoundServiceForApp` answers), and the calls
      made so far. */
  datatype State = State(
    reg: Registry,
    links: map<Token, Link>,
    loaded: map<int, set<int>>,
    bound: map<int, SandboxService>,
    log: seq<Output>)

  /** Every link is registered under its own token, exactly for the tokens the registry knows. */
  ghost predicate ValidState(s: State) {
    && RegistryValid(s.reg)
    && s.links.Keys == s.reg.reverse.Keys
    && (forall t | t in s.links :: s.links[t].token == t)
  }

  function InitialState(): State {
    State(EmptyRegistry(), map[], map[], map[], [])
  }

  function AlreadyLoadedMessage(name: string): string {
    name + " is being loaded or has been loaded already"
  }

  function NotFoundMessage(name: string): string {
    name + " not found for loading"
  }

  function InvalidTokenMessage(rev: Revision): string {
    match rev
    case SdkSandbox => "sdkToken is invalid"
    case SupplementalProcess => "codeToken is invalid"
  }

  function AppDiedReason(appUid: int): string {
    "App " + IntToString(appUid) + " has died"
  }

  /** The newer revision starts from the caller's packages; for a uid the
      package manager knows nothing about it gets null and the scan throws
      `NullPointerException`. */
  predicate PackagesKnown(rev: Revision, pm: PackageData, callingUid: int) {
    rev == SupplementalProcess || callingUid in pm.packagesForUid
  }

  /** How each revision resolves the requested name. */
  function LookupInfo(rev: Revision, pm: PackageData, name: string, callingUid: int): Option<ApplicationInfo>
    requires PackagesKnown(rev, pm, callingUid)
  {
    match rev
    case SdkSandbox => FindSdkInfo(pm, name, pm.packagesForUid[callingUid])
    case SupplementalProcess => GetCodeInfo(pm, name)
  }

  /** `onSdkLoaded`: `sdkUid` joins the set of uids `appUid` has loaded from. */
  function AddLoaded(loaded: map<int, set<int>>, appUid: int, sdkUid: int): map<int, set<int>> {
    if appUid in loaded then loaded[appUid := loaded[appUid] + {sdkUid}] else loaded[appUid := {sdkUid}]
  }

  /** The apps that have loaded code from `sdkUid`. */
  function AppsUsing(loaded: map<int, set<int>>, sdkUid: int): set<int> {
    set a | a in loaded && sdkUid in loaded[a]
  }

  /** The apps among `among` that have loaded code from `sdkUid`. */
  function AppsUsingAmong(loaded: map<int, set<int>>, sdkUid: int, among: set<int>): set<int> {
    set a | a in among && a in loaded && sdkUid in loaded[a]
  }

  lemma AppsUsingAmongAdd(loaded: map<int, set<int>>, sdkUid: int, among: set<int>, a: int)
    requires a in loaded && a !in among
    ensures a !in AppsUsingAmong(loaded, sdkUid, among)
    ensures AppsUsingAmong(loaded, sdkUid, among + {a})
            == AppsUsingAmong(loaded, sdkUid, among) + (if sdkUid in loaded[a] then {a} else {})
  {
  }

  function CleanUpSpec(s: State, token: Token): State {
    s.(reg := Destroyed(s.reg, token), links := s.links - {token})
  }

  /** `sendLoadSdkErrorToApp`: clean up the link's token, then report the failure. */
  function SendLoadErrorSpec(s: State, link: Link, errorCode: int, message: string): State {
    var c := CleanUpSpec(s, link.token);
    c.(log := c.log + [AppLoadFailure(link.managerToAppCallback, errorCode, message)])
  }

  /** `loadSdkForService`: forward the load to the sandbox; on a remote failure report it to the app. */
  function LoadSdkForServiceSpec(s: State, callingUid: int, token: Token, info: ApplicationInfo, link: Link,
                                 service: SandboxService, rpcOk: bool): State {
    if rpcOk then
      s.(log := s.log + [LoadRpc(service, token, info, "", link)], loaded := AddLoaded(s.loaded, callingUid, info.uid))
    else SendLoadErrorSpec(s, link, LOAD_SDK_INTERNAL_ERROR, "Failed to load code")
  }

  /** `invokeSdkSandboxServiceToLoadSdk`: use the bound sandbox, or bind one with a new connection. */
  function InvokeSpec(s: State, callingUid: int, token: Token, info: ApplicationInfo, link: Link,
                      rpcOk: bool, conn: Connection?): State {
    if callingUid in s.bound then LoadSdkForServiceSpec(s, callingUid, token, info, link, s.bound[callingUid], rpcOk)
    else s.(log := s.log + [BindService(callingUid, conn)])
  }

  /** The provider's `unbindService` and the removal of the app's loaded uids. */
  function ForgetApp(s: State, appUid: int): State {
    s.(bound := s.bound - {appUid}, loaded := s.loaded - {appUid}, log := s.log + [UnbindService(appUid)])
  }

  /** `onAppDeath`.  The newer revision kills `Process.toSdkSandboxUid(appUid)`
      (`sandboxUid`).  The older one asks the bound sandbox for its uid
      (`uidReply`, `None` when the call fails, which reads as -1) and kills it
      only when it is not -1; with no sandbox bound the lookup dereferences
      null and the handler throws after the clean-up. */
  function AppDeathSpec(rev: Revision, s: State, token: Token, appUid: int, sandboxUid: int,
                        uidReply: Option<int>): (State, Completion) {
    var c := CleanUpSpec(s, token);
    match rev
    case SdkSandbox =>
      var f := ForgetApp(c, appUid);
      (f.(log := f.log + [KillUid(sandboxUid, AppDiedReason(appUid))]), Returned)
    case SupplementalProcess =>
      if appUid !in c.bound then (c, Threw(NullPointerException))
      else
        var uid := if uidReply.Some? then uidReply.value else -1;
        var f := ForgetApp(c, appUid);
        if uid != -1 then (f.(log := f.log + [KillUid(uid, AppDiedReason(appUid))]), Returned)
        else (f, Returned)
  }

  /** `loadSdkWithClearIdentity`.  `link` is the link the call creates for the
      token of (callingUid, name); `conn` the connection it creates if it has
      to bind a sandbox.  `rpcOk` says whether the load reaches a bound
      sandbox, `deathLinkOk` whether the app's callback is still alive to
      register the death recipient. */
  function LoadSdkSpec(rev: Revision, s: State, callingUid: int, name: string, pm: PackageData,
                       rpcOk: bool, deathLinkOk: bool, sandboxUid: int, uidReply: Option<int>,
                       link: Link, conn: Connection?): (State, Completion)
  {
    var (reg1, token) := CreateOrGet(s.reg, Key(callingUid, name));
    var s1 := s.(reg := reg1);
    if token in s1.links then
      (SendLoadErrorSpec(s1, link, LOAD_SDK_SDK_ALREADY_LOADED, AlreadyLoadedMessage(name)), Returned)
    else
      LoadRegisteredSpec(rev, s1.(links := s1.links[token := link]), callingUid, name, token, pm,
                         rpcOk, deathLinkOk, sandboxUid, uidReply, link, conn)
  }

  /** The two ways a load goes once its token is known. */
  lemma LoadSdkCases(rev: Revision, s: State, callingUid: int, name: string, pm: PackageData,
                     rpcOk: bool, deathLinkOk: bool, sandboxUid: int, uidReply: Option<int>,
                     link: Link, conn: Connection?)
    ensures var (reg1, token) := CreateOrGet(s.reg, Key(callingUid, name));
      var r := LoadSdkSpec(rev, s, callingUid, name, pm, rpcOk, deathLinkOk, sandboxUid, uidReply, link, conn);
      && (token in s.links ==>
            r == (SendLoadErrorSpec(s.(reg := reg1), link, LOAD_SDK_SDK_ALREADY_LOADED, AlreadyLoadedMessage(name)), Returned))
      && (token !in s.links ==>
            r == LoadRegisteredSpec(rev, s.(reg := reg1, links := s.links[token := link]), callingUid, name, token, pm,
                                    rpcOk, deathLinkOk, sandboxUid, uidReply, link, conn))
  {
  }

  /** The rest of a load once its link is registered under `token`: resolve
      the name, hand the load to a sandbox, and watch the app's callback. */
  function LoadRegisteredSpec(rev: Revision, s: State, callingUid: int, name: string, token: Token, pm: PackageData,
                              rpcOk: bool, deathLinkOk: bool, sandboxUid: int, uidReply: Option<int>,
                              link: Link, conn: Connection?): (State, Completion)
  {
    if !PackagesKnown(rev, pm, callingUid) then (s, Threw(NullPointerException))
    else
    var info := LookupInfo(rev, pm, name, callingUid);
    if info.None? then (SendLoadErrorSpec(s, link, LOAD_SDK_SDK_NOT_FOUND, NotFoundMessage(name)), Returned)
    else
      var s3 := InvokeSpec(s, callingUid, token, info.value, link, rpcOk, conn);
      if deathLinkOk then (s3.(log := s3.log + [DeathWatch(token, callingUid)]), Returned)
      else AppDeathSpec(rev, s3, token, callingUid, sandboxUid, uidReply)
  }

  /** The connection's `onServiceConnected`: record the sandbox, and forward the
      load only the first time (`wasBound` is the connection's flag before). */
  function ServiceConnectedSpec(s: State, conn: Connection, service: SandboxService, wasBound: bool, rpcOk: bool): State {
    var s1 := s.(bound := s.bound[conn.callingUid := service]);
    if wasBound then s1
    else LoadSdkForServiceSpec(s1, conn.callingUid, conn.token, conn.info, conn.link, service, rpcOk)
  }

  function ServiceDisconnectedSpec(s: State, conn: Connection): State {
    s.(bound := s.bound - {conn.callingUid})
  }

  /** `onBindingDied`: forget the sandbox, unbind, and bind again with the same connection. */
  function BindingDiedSpec(s: State, conn: Connection): State {
    s.(bound := s.bound - {conn.callingUid},
       log := s.log + [UnbindService(conn.callingUid), BindService(conn.callingUid, conn)])
  }

  function NullBindingSpec(s: State, conn: Connection): State {
    SendLoadErrorSpec(s, conn.link, LOAD_SDK_INTERNAL_ERROR, "Failed to bind the service")
  }

  function LoadSdkSuccessSpec(s: State, link: Link): State {
    s.(log := s.log + [AppLoadSuccess(link.managerToAppCallback, link.token)])
  }

  /** `requestSurfacePackageWithClearIdentity`.  `workerCallback` is what the
      token's link holds; a link without one makes the call dereference null. */
  function RequestSurfaceSpec(rev: Revision, s: State, token: Token, hostToken: HostToken, displayId: int,
                              workerCallback: Option<WorkerCallback>): (State, Completion) {
    if token !in s.links then (s, Threw(SecurityException(InvalidTokenMessage(rev))))
    else if workerCallback.None? then (s, Threw(NullPointerException))
    else (s.(log := s.log + [SurfaceRequest(workerCallback.value, hostToken, displayId)]), Returned)
  }

  /** The kills of `onSdkUpdating`, one per app, in the order collected. */
  function KillsFor(appUids: seq<int>): (kills: seq<Output>)
    ensures |kills| == |appUids|
  {
    if appUids == [] then [] else [KillUid(appUids[0], "Package updating")] + KillsFor(appUids[1..])
  }

  lemma {:induction false} KillsForAppend(appUids: seq<int>, appUid: int)
    ensures KillsFor(appUids + [appUid]) == KillsFor(appUids) + [KillUid(appUid, "Package updating")]
  {
    if appUids != [] {
      assert (appUids + [appUid])[1..] == appUids[1..] + [appUid];
      KillsForAppend(appUids[1..], appUid);
    }
  }

  // ---------------------------------------------------------------------
  // Invariant preservation

  lemma CleanUpValid(s: State, token: Token)
    requires ValidState(s)
    ensures ValidState(CleanUpSpec(s, token))
  {
    DestroyProperties(s.reg, token);
  }

  lemma SendLoadErrorValid(s: State, link: Link, errorCode: int, message: string)
    requires ValidState(s)
    ensures ValidState(SendLoadErrorSpec(s, link, errorCode, message))
  {
    CleanUpValid(s, link.token);
  }

  lemma LoadSdkForServiceValid(s: State, callingUid: int, token: Token, info: ApplicationInfo, link: Link,
                               service: SandboxService, rpcOk: bool)
    requires ValidState(s)
    ensures ValidState(LoadSdkForServiceSpec(s, callingUid, token, info, link, service, rpcOk))
  {
    SendLoadErrorValid(s, link, LOAD_SDK_INTERNAL_ERROR, "Failed to load code");
  }

  lemma InvokeValid(s: State, callingUid: int, token: Token, info: ApplicationInfo, link: Link,
                    rpcOk: bool, conn: Connection?)
    requires ValidState(s)
    ensures ValidState(InvokeSpec(s, callingUid, token, info, link, rpcOk, conn))
  {
    if callingUid in s.bound {
      LoadSdkForServiceValid(s, callingUid, token, info, link, s.bound[callingUid], rpcOk);
    }
  }

  lemma AppDeathValid(rev: Revision, s: State, token: Token, appUid: int, sandboxUid: int, uidReply: Option<int>)
    requires ValidState(s)
    ensures ValidState(AppDeathSpec(rev, s, token, appUid, sandboxUid, uidReply).0)
  {
    CleanUpValid(s, token);
  }

  /** The link a load creates carries the token of (callingUid, name) and the caller's callback. */
  ghost predicate LinkFor(s: State, callingUid: int, name: string, link: Link) {
    link.token == CreateOrGet(s.reg, Key(callingUid, name)).1
  }

  lemma LoadRegisteredValid(rev: Revision, s: State, callingUid: int, name: string, token: Token, pm: PackageData,
                            rpcOk: bool, deathLinkOk: bool, sandboxUid: int, uidReply: Option<int>,
                            link: Link, conn: Connection?)
    requires ValidState(s)
    ensures ValidState(LoadRegisteredSpec(rev, s, callingUid, name, token, pm, rpcOk, deathLinkOk, sandboxUid,
                                          uidReply, link, conn).0)
  {
    if !PackagesKnown(rev, pm, callingUid) {
      return;
    }
    SendLoadErrorValid(s, link, LOAD_SDK_SDK_NOT_FOUND, NotFoundMessage(name));
    var info := LookupInfo(rev, pm, name, callingUid);
    if info.Some? {
      InvokeValid(s, callingUid, token, info.value, link, rpcOk, conn);
      var s3 := InvokeSpec(s, callingUid, token, info.value, link, rpcOk, conn);
      AppDeathValid(rev, s3, token, callingUid, sandboxUid, uidReply);
    }
  }

  /** The state right after the token step of a load is valid, with or without the new link. */
  lemma LoadTokenValid(s: State, key: Key, link: Link)
    requires ValidState(s) && link.token == CreateOrGet(s.reg, key).1
    ensures var (reg1, token) := CreateOrGet(s.reg, key);
      && (token in s.links ==> ValidState(s.(reg := reg1)))
      && (token !in s.links ==> ValidState(s.(reg := reg1, links := s.links[token := link])))
  {
    CreateOrGetProperties(s.reg, key);
  }

  lemma LoadSdkValid(rev: Revision, s: State, callingUid: int, name: string, pm: PackageData,
                     rpcOk: bool, deathLinkOk: bool, sandboxUid: int, uidReply: Option<int>,
                     link: Link, conn: Connection?)
    requires ValidState(s) && LinkFor(s, callingUid, name, link)
    ensures ValidState(LoadSdkSpec(rev, s, callingUid, name, pm, rpcOk, deathLinkOk, sandboxUid, uidReply, link, conn).0)
  {
    var key := Key(callingUid, name);
    LoadSdkCases(rev, s, callingUid, name, pm, rpcOk, deathLinkOk, sandboxUid, uidReply, link, conn);
    LoadTokenValid(s, key, link);
    var (reg1, token) := CreateOrGet(s.reg, key);
    if token in s.links {
      SendLoadErrorValid(s.(reg := reg1), link, LOAD_SDK_SDK_ALREADY_LOADED, AlreadyLoadedMessage(name));
    } else {
      LoadRegisteredValid(rev, s.(reg := reg1, links := s.links[token := link]), callingUid, name, token, pm,
                          rpcOk, deathLinkOk, sandboxUid, uidReply, link, conn);
    }
  }
}
