/** The manager service itself: the object that app processes call to load
    an SDK into their sandbox and to request surface packages from it, and
    that the sandbox, the binding machinery and the package broadcasts call
    back.  Each method is proved to change the state exactly as the
    matching function of `ManagerModel` says.

    Remote calls the manager makes are appended to the ghost `log`; what
    remote parties answer (whether a remote call went through, what the
    package manager knows, the uid a sandbox reports) is passed in. */
module Manager {
  import opened Common
  import opened Tokens
  import opened Packages
  import opened ManagerModel

  function Tag(rev: Revision): string {
    match rev
    case SdkSandbox => "SdkSandboxManager"
    case SupplementalProcess => "SupplementalProcessManager"
  }

  /** The field names each revision prints in its dump. */
  function LinksName(rev: Revision): string {
    match rev
    case SdkSandbox => "mAppAndRemoteSdkLinks"
    case SupplementalProcess => "mAppAndRemoteCodeLinks"
  }

  function TokenManagerName(rev: Revision): string {
    match rev
    case SdkSandbox => "mSdkTokenManager"
    case SupplementalProcess => "mCodeTokenManager"
  }

  function TokensName(rev: Revision): string {
    match rev
    case SdkSandbox => "mSdkTokens"
    case SupplementalProcess => "mCodeTokens"
  }

  class ManagerService {
    const revision: Revision
    const tokenManager: TokenManager
    /** `Process.toSdkSandboxUid`. */
    const toSdkSandboxUid: int -> int
    var links: map<Token, Link>
    var appLoadedSdkUids: map<int, set<int>>
    /** The service provider's table of bound sandboxes, by app uid. */
    var boundServices: map<int, SandboxService>
    ghost var log: seq<Output>

    ghost function St(): State
      reads this, tokenManager
    {
      State(tokenManager.Model(), links, appLoadedSdkUids, boundServices, log)
    }

    ghost predicate Valid()
      reads this, tokenManager
    {
      ValidState(St())
    }

    constructor (revision: Revision, toSdkSandboxUid: int -> int)
      ensures Valid() && St() == InitialState()
      ensures this.revision == revision && this.toSdkSandboxUid == toSdkSandboxUid
      ensures fresh(tokenManager)
    {
      this.revision := revision;
      this.toSdkSandboxUid := toSdkSandboxUid;
      tokenManager := new TokenManager();
      links, appLoadedSdkUids, boundServices, log := map[], map[], map[], [];
    }

    /** `cleanUp`: destroy the token first, which frees its (uid, name) key, then drop its link. */
    method CleanUp(token: Token)
      requires Valid()
      modifies this, tokenManager
      ensures Valid() && St() == CleanUpSpec(old(St()), token)
    {
      tokenManager.Destroy(token);
      links := links - {token};
      CleanUpValid(old(St()), token);
    }

    /** The link's `sendLoadSdkErrorToApp`. */
    method SendLoadSdkErrorToApp(link: Link, errorCode: int, message: string)
      requires Valid()
      modifies this, tokenManager
      ensures Valid() && St() == SendLoadErrorSpec(old(St()), link, errorCode, message)
    {
      CleanUp(link.token);
      log := log + [AppLoadFailure(link.managerToAppCallback, errorCode, message)];
      SendLoadErrorValid(old(St()), link, errorCode, message);
    }

    method OnSdkLoaded(appUid: int, sdkUid: int)
      requires Valid()
      modifies this
      ensures Valid() && St() == old(St()).(loaded := AddLoaded(old(appLoadedSdkUids), appUid, sdkUid))
    {
      if appUid in appLoadedSdkUids {
        appLoadedSdkUids := appLoadedSdkUids[appUid := appLoadedSdkUids[appUid] + {sdkUid}];
      } else {
        appLoadedSdkUids := appLoadedSdkUids[appUid := {sdkUid}];
      }
    }

    method LoadSdkForService(callingUid: int, token: Token, info: ApplicationInfo, link: Link,
                             service: SandboxService, rpcOk: bool)
      requires Valid()
      modifies this, tokenManager
      ensures Valid()
      ensures St() == LoadSdkForServiceSpec(old(St()), callingUid, token, info, link, service, rpcOk)
    {
      if rpcOk {
        log := log + [LoadRpc(service, token, info, "", link)];
        OnSdkLoaded(callingUid, info.uid);
      } else {
        SendLoadSdkErrorToApp(link, LOAD_SDK_INTERNAL_ERROR, "Failed to load code");
      }
    }

    method InvokeSdkSandboxServiceToLoadSdk(callingUid: int, token: Token, info: ApplicationInfo, link: Link,
                                            rpcOk: bool)
      returns (ghost conn: Connection?)
      requires Valid()
      modifies this, tokenManager
      ensures Valid()
      ensures conn != null ==>
                fresh(conn) && conn.callingUid == callingUid && conn.token == token
                && conn.info == info && conn.link == link && !conn.isServiceBound
      ensures St() == InvokeSpec(old(St()), callingUid, token, info, link, rpcOk, conn)
    {
      if callingUid in boundServices {
        LoadSdkForService(callingUid, token, info, link, boundServices[callingUid], rpcOk);
        return null;
      }
      var connection := new Connection(callingUid, token, info, link);
      log := log + [BindService(callingUid, connection)];
      return connection;
    }

    /** The death recipient of an app's callback. */
    method OnAppDeath(token: Token, appUid: int, uidReply: Option<int>) returns (c: Completion)
      requires Valid()
      modifies this, tokenManager
      ensures Valid()
      ensures (St(), c) == AppDeathSpec(revision, old(St()), token, appUid, toSdkSandboxUid(appUid), uidReply)
    {
      CleanUp(token);
      var sandboxUid: int;
      if revision == SdkSandbox {
        sandboxUid := toSdkSandboxUid(appUid);
      } else {
        if appUid !in boundServices {
          return Threw(NullPointerException);
        }
        sandboxUid := if uidReply.Some? then uidReply.value else -1;
      }
      boundServices := boundServices - {appUid};
      log := log + [UnbindService(appUid)];
      appLoadedSdkUids := appLoadedSdkUids - {appUid};
      if revision == SdkSandbox || sandboxUid != -1 {
        log := log + [KillUid(sandboxUid, AppDiedReason(appUid))];
      }
      AppDeathValid(revision, old(St()), token, appUid, toSdkSandboxUid(appUid), uidReply);
      return Returned;
    }

    /** `loadSdk` from an app whose uid is `callingUid`.  `link` and `conn` are
        the objects the call creates. */
    method LoadSdk(callingUid: int, name: string, callback: AppCallback, pm: PackageData,
                   rpcOk: bool, deathLinkOk: bool, uidReply: Option<int>)
      returns (c: Completion, ghost link: Link, ghost conn: Connection?)
      requires Valid()
      modifies this, tokenManager
      ensures Valid()
      ensures fresh(link) && link.managerToAppCallback == callback && link.managerToCodeCallback == None
      ensures LinkFor(old(St()), callingUid, name, link)
      ensures conn != null ==>
                fresh(conn) && conn.callingUid == callingUid && conn.token == link.token
                && conn.link == link && !conn.isServiceBound
      ensures (St(), c) == LoadSdkSpec(revision, old(St()), callingUid, name, pm, rpcOk, deathLinkOk,
                                       toSdkSandboxUid(callingUid), uidReply, link, conn)
    {
      ghost var s0 := St();
      var token := tokenManager.CreateOrGetSdkToken(callingUid, name);
      var newLink := new Link(token, callback);
      link, conn := newLink, null;
      LoadTokenValid(s0, Key(callingUid, name), newLink);
      if token in links {
        LoadSdkCases(revision, s0, callingUid, name, pm, rpcOk, deathLinkOk, toSdkSandboxUid(callingUid), uidReply,
                     link, conn);
        SendLoadSdkErrorToApp(newLink, LOAD_SDK_SDK_ALREADY_LOADED, AlreadyLoadedMessage(name));
        return Returned, link, conn;
      }
      conn, c := RegisterAndLoad(callingUid, name, token, pm, rpcOk, deathLinkOk, uidReply, newLink);
      LoadSdkCases(revision, s0, callingUid, name, pm, rpcOk, deathLinkOk, toSdkSandboxUid(callingUid), uidReply,
                   link, conn);
    }

    /** The `putIfAbsent` that succeeds: `link` is registered under its fresh
        token, and the load goes on. */
    method RegisterAndLoad(callingUid: int, name: string, token: Token, pm: PackageData,
                           rpcOk: bool, deathLinkOk: bool, uidReply: Option<int>, link: Link)
      returns (ghost conn: Connection?, c: Completion)
      requires link.token == token && ValidState(St().(links := links[token := link]))
      modifies this, tokenManager
      ensures Valid()
      ensures conn != null ==>
                fresh(conn) && conn.callingUid == callingUid && conn.token == token && conn.link == link
                && !conn.isServiceBound
      ensures (St(), c) == LoadRegisteredSpec(revision, old(St()).(links := old(links)[token := link]), callingUid, name,
                                              token, pm, rpcOk, deathLinkOk, toSdkSandboxUid(callingUid), uidReply,
                                              link, conn)
    {
      links := links[token := link];
      conn, c := LoadRegistered(callingUid, name, token, pm, rpcOk, deathLinkOk, uidReply, link);
    }

    /** Step 2 onward of `loadSdkWithClearIdentity`, once `link` is registered under `token`. */
    method LoadRegistered(callingUid: int, name: string, token: Token, pm: PackageData,
                          rpcOk: bool, deathLinkOk: bool, uidReply: Option<int>, link: Link)
      returns (ghost conn: Connection?, c: Completion)
      requires Valid()
      modifies this, tokenManager
      ensures Valid()
      ensures conn != null ==>
                fresh(conn) && conn.callingUid == callingUid && conn.token == token && conn.link == link
                && !conn.isServiceBound
      ensures (St(), c) == LoadRegisteredSpec(revision, old(St()), callingUid, name, token, pm, rpcOk, deathLinkOk,
                                              toSdkSandboxUid(callingUid), uidReply, link, conn)
    {
      conn := null;
      var info: Option<ApplicationInfo>;
      if revision == SdkSandbox {
        var lookup: Completion;
        lookup, info := GetSdkInfo(pm, name, callingUid);
        if lookup.Threw? {
          return conn, lookup;
        }
      } else {
        info := GetCodeInfo(pm, name);
      }
      if info.None? {
        SendLoadSdkErrorToApp(link, LOAD_SDK_SDK_NOT_FOUND, NotFoundMessage(name));
        return conn, Returned;
      }
      conn := InvokeSdkSandboxServiceToLoadSdk(callingUid, token, info.value, link, rpcOk);
      if deathLinkOk {
        log := log + [DeathWatch(token, callingUid)];
        c := Returned;
      } else {
        c := OnAppDeath(token, callingUid, uidReply);
      }
    }

    /** The package broadcast receiver: `extraUid` is the intent's uid extra
        (-1 when absent), `replacing` its replacing flag. */
    method OnPackageRemoved(extraUid: int, replacing: bool) returns (ghost killed: seq<int>)
      requires Valid()
      modifies this
      ensures Valid()
      ensures extraUid == -1 || !replacing ==> killed == [] && St() == old(St())
      ensures extraUid != -1 && replacing ==> Enumerates(killed, AppsUsing(old(appLoadedSdkUids), extraUid))
      ensures St() == old(St()).(log := old(log) + KillsFor(killed))
    {
      killed := [];
      if extraUid == -1 {
        return;
      }
      if replacing {
        killed := OnSdkUpdating(extraUid);
      }
    }

    /** The first half of `onSdkUpdating`: the apps whose loaded set contains `sdkUid`. */
    method CollectAppsUsing(sdkUid: int) returns (appUids: seq<int>)
      ensures Enumerates(appUids, AppsUsing(appLoadedSdkUids, sdkUid))
    {
      var loaded := appLoadedSdkUids;
      appUids := [];
      var remaining := loaded.Items;
      ghost var visited: set<int> := {};
      while remaining != {}
        invariant visited <= loaded.Keys
        invariant forall e | e in remaining :: e.0 in loaded && loaded[e.0] == e.1 && e.0 !in visited
        invariant forall a | a in loaded :: a in visited || (a, loaded[a]) in remaining
        invariant Enumerates(appUids, AppsUsingAmong(loaded, sdkUid, visited))
        decreases |remaining|
      {
        var appEntry :| appEntry in remaining;
        var appUid := appEntry.0;
        var loadedCodeUids := appEntry.1;
        AppsUsingAmongAdd(loaded, sdkUid, visited, appUid);
        if sdkUid in loadedCodeUids {
          EnumeratesExtend(appUids, AppsUsingAmong(loaded, sdkUid, visited), appUid);
          appUids := appUids + [appUid];
        }
        remaining := remaining - {appEntry};
        visited := visited + {appUid};
      }
      assert forall a | a in loaded :: a in visited;
      assert AppsUsingAmong(loaded, sdkUid, visited) == AppsUsing(loaded, sdkUid);
    }

    /** `onSdkUpdating`: kill every app that has loaded code from `sdkUid`. */
    method OnSdkUpdating(sdkUid: int) returns (ghost killed: seq<int>)
      requires Valid()
      modifies this
      ensures Valid()
      ensures Enumerates(killed, AppsUsing(old(appLoadedSdkUids), sdkUid))
      ensures St() == old(St()).(log := old(log) + KillsFor(killed))
    {
      var appUids := CollectAppsUsing(sdkUid);
      var i := 0;
      while i < |appUids|
        invariant 0 <= i <= |appUids|
        invariant St() == old(St()).(log := old(log) + KillsFor(appUids[..i]))
      {
        KillsForAppend(appUids[..i], appUids[i]);
        assert appUids[..i + 1] == appUids[..i] + [appUids[i]];
        log := log + [KillUid(appUids[i], "Package updating")];
        i := i + 1;
      }
      assert appUids[..i] == appUids;
      killed := appUids;
    }

    /** `requestSurfacePackage`. */
    method RequestSurfacePackage(token: Token, hostToken: HostToken, displayId: int) returns (c: Completion)
      requires Valid()
      modifies this
      ensures Valid()
      ensures (St(), c) == RequestSurfaceSpec(revision, old(St()), token, hostToken, displayId,
                                            if token in links then links[token].managerToCodeCallback else None)
    {
      if token !in links {
        return Threw(SecurityException(InvalidTokenMessage(revision)));
      }
      var link := links[token];
      if link.managerToCodeCallback.None? {
        return Threw(NullPointerException);
      }
      log := log + [SurfaceRequest(link.managerToCodeCallback.value, hostToken, displayId)];
      return Returned;
    }

    /** `dump`: refused without the DUMP permission; otherwise the link count,
        the token registry's lines and the (empty) provider section. */
    method Dump(hasDumpPermission: bool) returns (c: Completion, lines: seq<string>, ghost order: seq<Key>)
      ensures !hasDumpPermission ==> c == Threw(SecurityException("Can't dump " + Tag(revision))) && lines == []
      ensures hasDumpPermission ==>
        && c == Returned
        && (tokenManager.sdkTokens != map[] ==> Enumerates(order, tokenManager.sdkTokens.Keys))
        && lines == [LinksName(revision) + " size: " + IntToString(|links|), TokenManagerName(revision) + ":"]
                    + RegistryDump(TokensName(revision), tokenManager.sdkTokens, order)
                    + ["", "mServiceProvider:", ""]
    {
      if !hasDumpPermission {
        return Threw(SecurityException("Can't dump " + Tag(revision))), [], [];
      }
      lines := [LinksName(revision) + " size: " + IntToString(|links|)];
      lines := lines + [TokenManagerName(revision) + ":"];
      var tokenLines;
      tokenLines, order := tokenManager.Dump(TokensName(revision));
      lines := lines + tokenLines;
      lines := lines + [""];
      lines := lines + ["mServiceProvider:"];
      lines := lines + [""];
      c := Returned;
    }

    // Calls from the sandbox on a link (`ISdkSandboxToSdkSandboxManagerCallback`).

    method OnLoadSdkSuccess(link: Link, workerCallback: WorkerCallback)
      requires Valid()
      modifies this, link
      ensures Valid() && St() == LoadSdkSuccessSpec(old(St()), link)
      ensures link.managerToCodeCallback == Some(workerCallback)
    {
      link.managerToCodeCallback := Some(workerCallback);
      log := log + [AppLoadSuccess(link.managerToAppCallback, link.token)];
    }

    method OnLoadSdkError(link: Link, errorCode: int, message: string)
      requires Valid()
      modifies this, tokenManager
      ensures Valid() && St() == SendLoadErrorSpec(old(St()), link, errorCode, message)
    {
      SendLoadSdkErrorToApp(link, errorCode, message);
    }

    method OnSurfacePackageReady(link: Link, surfacePackageId: int)
      requires Valid()
      modifies this
      ensures Valid() && St() == old(St()).(log := old(log) + [AppSurfaceReady(link.managerToAppCallback, surfacePackageId)])
    {
      log := log + [AppSurfaceReady(link.managerToAppCallback, surfacePackageId)];
    }

    method OnSurfacePackageError(link: Link, errorCode: int, message: string)
      requires Valid()
      modifies this
      ensures Valid()
      ensures St() == old(St()).(log := old(log) + [AppSurfaceError(link.managerToAppCallback, errorCode, message)])
    {
      log := log + [AppSurfaceError(link.managerToAppCallback, errorCode, message)];
    }

    // Calls from the binding machinery on a connection.

    method OnServiceConnected(conn: Connection, service: SandboxService, rpcOk: bool)
      requires Valid()
      modifies this, tokenManager, conn
      ensures Valid()
      ensures St() == ServiceConnectedSpec(old(St()), conn, service, old(conn.isServiceBound), rpcOk)
      ensures conn.isServiceBound
    {
      boundServices := boundServices[conn.callingUid := service];
      if !conn.isServiceBound {
        LoadSdkForService(conn.callingUid, conn.token, conn.info, conn.link, service, rpcOk);
        conn.isServiceBound := true;
      }
    }

    method OnServiceDisconnected(conn: Connection)
      requires Valid()
      modifies this
      ensures Valid() && St() == ServiceDisconnectedSpec(old(St()), conn)
    {
      boundServices := boundServices - {conn.callingUid};
    }

    method OnBindingDied(conn: Connection)
      requires Valid()
      modifies this
      ensures Valid() && St() == BindingDiedSpec(old(St()), conn)
    {
      boundServices := boundServices - {conn.callingUid};
      log := log + [UnbindService(conn.callingUid)];
      log := log + [BindService(conn.callingUid, conn)];
    }

    method OnNullBinding(conn: Connection)
      requires Valid()
      modifies this, tokenManager
      ensures Valid() && St() == NullBindingSpec(old(St()), conn)
    {
      SendLoadSdkErrorToApp(conn.link, LOAD_SDK_INTERNAL_ERROR, "Failed to bind the service");
    }
  }
}
