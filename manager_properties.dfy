/** What the manager service promises, stated over the functions of
    `ManagerModel` that its methods are proved to follow. */
module ManagerProperties {
  import opened Common
  import opened Tokens
  import opened Packages
  import opened ManagerModel

  /** No load failure with code `errorCode` among the calls from position `from` on. */
  ghost predicate NoFailureWithCode(log: seq<Output>, from: nat, errorCode: int) {
    forall i | from <= i < |log| :: !(log[i].AppLoadFailure? && log[i].errorCode == errorCode)
  }

  /** The already-loaded message names the SDK. */
  lemma AlreadyLoadedMessageNamesSdk(name: string)
    ensures IsSubstring(name, AlreadyLoadedMessage(name))
  {
    var tail := " is being loaded or has been loaded already";
    assert AlreadyLoadedMessage(name) == name + tail;
    SubstringBefore(name, name, tail) by { assert name <= name; }
  }

  /** The already-loaded message says the SDK was loaded already. */
  lemma AlreadyLoadedMessageSaysLoaded(name: string)
    ensures IsSubstring("has been loaded already", AlreadyLoadedMessage(name))
  {
    var head := name + " is being loaded or ";
    var tail := "has been loaded already";
    assert AlreadyLoadedMessage(name) == head + tail;
    SubstringAfter(tail, head, tail) by { assert tail <= tail; }
  }

  /** The not-found message names the SDK. */
  lemma NotFoundMessageNamesSdk(name: string)
    ensures IsSubstring(name, NotFoundMessage(name))
  {
    var tail := " not found for loading";
    assert NotFoundMessage(name) == name + tail;
    SubstringBefore(name, name, tail) by { assert name <= name; }
  }

  /** The not-found message says the SDK was not found. */
  lemma NotFoundMessageSaysNotFound(name: string)
    ensures IsSubstring("not found for loading", NotFoundMessage(name))
  {
    var head := name + " ";
    var tail := "not found for loading";
    assert NotFoundMessage(name) == head + tail;
    SubstringAfter(tail, head, tail) by { assert tail <= tail; }
  }

  lemma InitialStateValid()
    ensures ValidState(InitialState())
  {
  }

  /** A load for a (uid, name) pair that still holds a token is refused with
      `LOAD_SDK_SDK_ALREADY_LOADED`, and nothing reaches a sandbox.  Because the
      refusal goes through `sendLoadSdkErrorToApp`, it also cleans up the
      shared token: the pair is free again and the earlier load's link is gone. */
  lemma DuplicateLoadRejected(rev: Revision, s: State, callingUid: int, name: string, pm: PackageData,
                              rpcOk: bool, deathLinkOk: bool, sandboxUid: int, uidReply: Option<int>,
                              link: Link, conn: Connection?)
    requires ValidState(s) && LinkFor(s, callingUid, name, link)
    requires Key(callingUid, name) in s.reg.tokens
    ensures var (s', c) := LoadSdkSpec(rev, s, callingUid, name, pm, rpcOk, deathLinkOk, sandboxUid, uidReply, link, conn);
      && c == Returned
      && s'.log == s.log + [AppLoadFailure(link.managerToAppCallback, LOAD_SDK_SDK_ALREADY_LOADED, AlreadyLoadedMessage(name))]
      && link.token == s.reg.tokens[Key(callingUid, name)]
      && Key(callingUid, name) !in s'.reg.tokens
      && link.token !in s'.links
      && s'.loaded == s.loaded && s'.bound == s.bound
  {
    var key := Key(callingUid, name);
    CreateOrGetProperties(s.reg, key);
    DestroyProperties(s.reg, s.reg.tokens[key]);
  }

  /** A new pair whose name cannot be resolved is refused with
      `LOAD_SDK_SDK_NOT_FOUND`; the token it was given is destroyed again, so
      the registry and the links are as before. */
  lemma NotFoundFreesKey(rev: Revision, s: State, callingUid: int, name: string, pm: PackageData,
                         rpcOk: bool, deathLinkOk: bool, sandboxUid: int, uidReply: Option<int>,
                         link: Link, conn: Connection?)
    requires ValidState(s) && LinkFor(s, callingUid, name, link)
    requires PackagesKnown(rev, pm, callingUid)
    requires Key(callingUid, name) !in s.reg.tokens
    requires LookupInfo(rev, pm, name, callingUid).None?
    ensures var (s', c) := LoadSdkSpec(rev, s, callingUid, name, pm, rpcOk, deathLinkOk, sandboxUid, uidReply, link, conn);
      && c == Returned
      && s'.log == s.log + [AppLoadFailure(link.managerToAppCallback, LOAD_SDK_SDK_NOT_FOUND, NotFoundMessage(name))]
      && s'.reg.tokens == s.reg.tokens && s'.reg.reverse == s.reg.reverse
      && s'.links == s.links
      && s'.loaded == s.loaded && s'.bound == s.bound
  {
    var key := Key(callingUid, name);
    CreateOrGetProperties(s.reg, key);
    LoadSdkCases(rev, s, callingUid, name, pm, rpcOk, deathLinkOk, sandboxUid, uidReply, link, conn);
    CreateThenDestroyRestores(s.reg, key);
    var (reg1, token) := CreateOrGet(s.reg, key);
    var s2 := s.(reg := reg1, links := s.links[token := link]);
    assert LoadRegisteredSpec(rev, s2, callingUid, name, token, pm, rpcOk, deathLinkOk, sandboxUid, uidReply, link, conn)
           == (SendLoadErrorSpec(s2, link, LOAD_SDK_SDK_NOT_FOUND, NotFoundMessage(name)), Returned);
    assert (s.links[token := link]) - {token} == s.links;
  }

  /** A name the caller's packages do not use as an SDK is not found. */
  lemma UnusedSdkNotFound(pm: PackageData, name: string, callingUid: int)
    requires callingUid in pm.packagesForUid
    requires forall p | p in pm.packagesForUid[callingUid] :: !DeclaresSdk(pm, p, name)
    ensures LookupInfo(SdkSandbox, pm, name, callingUid) == None
  {
    var packageNames := pm.packagesForUid[callingUid];
    assert forall i | 0 <= i < |packageNames| :: packageNames[i] in packageNames;
    FindSdkInfoNone(pm, name, packageNames);
  }

  /** A new-revision load from a uid the package manager lists no packages
      for throws out of `getSdkInfo` after its token and link were
      registered: nothing is reported to the app, and the pair keeps its token
      and link, so a later load for it is refused as already loaded. */
  lemma UnknownCallerKeepsLink(s: State, callingUid: int, name: string, pm: PackageData,
                               rpcOk: bool, deathLinkOk: bool, sandboxUid: int, uidReply: Option<int>,
                               link: Link, conn: Connection?)
    requires ValidState(s) && LinkFor(s, callingUid, name, link)
    requires Key(callingUid, name) !in s.reg.tokens
    requires callingUid !in pm.packagesForUid
    ensures var (s', c) := LoadSdkSpec(SdkSandbox, s, callingUid, name, pm, rpcOk, deathLinkOk, sandboxUid, uidReply, link, conn);
      && c == Threw(NullPointerException)
      && s'.log == s.log
      && s'.reg.tokens == s.reg.tokens[Key(callingUid, name) := link.token]
      && s'.links == s.links[link.token := link]
      && ValidState(s')
  {
    CreateOrGetProperties(s.reg, Key(callingUid, name));
    LoadSdkValid(SdkSandbox, s, callingUid, name, pm, rpcOk, deathLinkOk, sandboxUid, uidReply, link, conn);
  }

  /** Every error reported on a live link (from the sandbox, a failed load
      call or a null binding) destroys its token: its (uid, name) pair is free
      and the link is gone; the error is relayed unchanged. */
  lemma LoadErrorFreesKey(s: State, link: Link, errorCode: int, message: string)
    requires ValidState(s) && link.token in s.links
    ensures var s' := SendLoadErrorSpec(s, link, errorCode, message);
      && ValidState(s')
      && s.reg.reverse[link.token] !in s'.reg.tokens
      && link.token !in s'.links
      && s'.log == s.log + [AppLoadFailure(link.managerToAppCallback, errorCode, message)]
  {
    DestroyProperties(s.reg, link.token);
    SendLoadErrorValid(s, link, errorCode, message);
  }

  /** `after` is `before` followed by calls none of which is a load failure with `errorCode`. */
  ghost predicate ExtendsWithout(before: seq<Output>, after: seq<Output>, errorCode: int) {
    |before| <= |after| && after[..|before|] == before && NoFailureWithCode(after, |before|, errorCode)
  }

  lemma ExtendsWithoutTrans(a: seq<Output>, b: seq<Output>, c: seq<Output>, errorCode: int)
    requires ExtendsWithout(a, b, errorCode) && ExtendsWithout(b, c, errorCode)
    ensures ExtendsWithout(a, c, errorCode)
  {
    assert c[..|a|] == c[..|b|][..|a|];
    forall i | |a| <= i < |c|
      ensures !(c[i].AppLoadFailure? && c[i].errorCode == errorCode)
    {
      if i < |b| {
        assert c[i] == c[..|b|][i];
      }
    }
  }

  /** Handing a load to a sandbox never reports it as already loaded. */
  lemma InvokeNotRejected(s: State, callingUid: int, token: Token, info: ApplicationInfo, link: Link,
                          rpcOk: bool, conn: Connection?)
    ensures ExtendsWithout(s.log, InvokeSpec(s, callingUid, token, info, link, rpcOk, conn).log, LOAD_SDK_SDK_ALREADY_LOADED)
  {
    var l := InvokeSpec(s, callingUid, token, info, link, rpcOk, conn).log;
    assert l[..|s.log|] == s.log;
  }

  /** An app's death never reports a load as already loaded. */
  lemma AppDeathNotRejected(rev: Revision, s: State, token: Token, appUid: int, sandboxUid: int, uidReply: Option<int>)
    ensures ExtendsWithout(s.log, AppDeathSpec(rev, s, token, appUid, sandboxUid, uidReply).0.log, LOAD_SDK_SDK_ALREADY_LOADED)
  {
    var l := AppDeathSpec(rev, s, token, appUid, sandboxUid, uidReply).0.log;
    assert l[..|s.log|] == s.log;
  }

  /** Once its link is registered, no step of a load refuses it as already loaded. */
  lemma RegisteredNotRejected(rev: Revision, s: State, callingUid: int, name: string, token: Token, pm: PackageData,
                              rpcOk: bool, deathLinkOk: bool, sandboxUid: int, uidReply: Option<int>,
                              link: Link, conn: Connection?)
    ensures ExtendsWithout(s.log, LoadRegisteredSpec(rev, s, callingUid, name, token, pm, rpcOk, deathLinkOk, sandboxUid,
                                                     uidReply, link, conn).0.log, LOAD_SDK_SDK_ALREADY_LOADED)
  {
    var r := LoadRegisteredSpec(rev, s, callingUid, name, token, pm, rpcOk, deathLinkOk, sandboxUid, uidReply, link, conn).0;
    if !PackagesKnown(rev, pm, callingUid) {
      assert r.log == s.log;
    } else if LookupInfo(rev, pm, name, callingUid).None? {
      assert r.log[..|s.log|] == s.log;
    } else {
      var info := LookupInfo(rev, pm, name, callingUid);
      var s3 := InvokeSpec(s, callingUid, token, info.value, link, rpcOk, conn);
      InvokeNotRejected(s, callingUid, token, info.value, link, rpcOk, conn);
      if deathLinkOk {
        assert r.log[..|s3.log|] == s3.log;
      } else {
        AppDeathNotRejected(rev, s3, token, callingUid, sandboxUid, uidReply);
      }
      ExtendsWithoutTrans(s.log, s3.log, r.log, LOAD_SDK_SDK_ALREADY_LOADED);
    }
  }

  /** A load for a pair with no token is never refused as already loaded: it
      gets the next token, and calls already made stay as they were. */
  lemma FreshLoadNotRejected(rev: Revision, s: State, callingUid: int, name: string, pm: PackageData,
                             rpcOk: bool, deathLinkOk: bool, sandboxUid: int, uidReply: Option<int>,
                             link: Link, conn: Connection?)
    requires ValidState(s) && LinkFor(s, callingUid, name, link)
    requires Key(callingUid, name) !in s.reg.tokens
    ensures link.token == s.reg.next
    ensures ExtendsWithout(s.log, LoadSdkSpec(rev, s, callingUid, name, pm, rpcOk, deathLinkOk, sandboxUid, uidReply, link, conn).0.log,
                           LOAD_SDK_SDK_ALREADY_LOADED)
  {
    var key := Key(callingUid, name);
    CreateOrGetProperties(s.reg, key);
    LoadSdkCases(rev, s, callingUid, name, pm, rpcOk, deathLinkOk, sandboxUid, uidReply, link, conn);
    var (reg1, token) := CreateOrGet(s.reg, key);
    RegisteredNotRejected(rev, s.(reg := reg1, links := s.links[token := link]), callingUid, name, token, pm,
                          rpcOk, deathLinkOk, sandboxUid, uidReply, link, conn);
  }

  /** Retry after failure: once an error on a live link has been reported, a
      new load for the same pair is accepted as a fresh attempt with a new token. */
  lemma RetryAfterFailureAccepted(rev: Revision, s: State, failed: Link, errorCode: int, message: string,
                                  callingUid: int, name: string, pm: PackageData,
                                  rpcOk: bool, deathLinkOk: bool, sandboxUid: int, uidReply: Option<int>,
                                  link: Link, conn: Connection?)
    requires ValidState(s) && failed.token in s.links && s.reg.reverse[failed.token] == Key(callingUid, name)
    requires LinkFor(SendLoadErrorSpec(s, failed, errorCode, message), callingUid, name, link)
    ensures var s1 := SendLoadErrorSpec(s, failed, errorCode, message);
      var (s2, c) := LoadSdkSpec(rev, s1, callingUid, name, pm, rpcOk, deathLinkOk, sandboxUid, uidReply, link, conn);
      && link.token != failed.token
      && ExtendsWithout(s1.log, s2.log, LOAD_SDK_SDK_ALREADY_LOADED)
  {
    LoadErrorFreesKey(s, failed, errorCode, message);
    var s1 := SendLoadErrorSpec(s, failed, errorCode, message);
    FreshLoadNotRejected(rev, s1, callingUid, name, pm, rpcOk, deathLinkOk, sandboxUid, uidReply, link, conn);
  }

  /** An error reported on a link whose token was already cleaned up (the
      earlier load of a pair that a duplicate refusal dropped, when its
      sandbox answers later) only reaches that link's app: the registry and
      the links, including a later load of the same pair, are untouched. */
  lemma StaleLinkErrorOnlyReports(s: State, stale: Link, errorCode: int, message: string)
    requires ValidState(s) && stale.token !in s.links
    ensures var s' := SendLoadErrorSpec(s, stale, errorCode, message);
      && s'.reg == s.reg && s'.links == s.links
      && s'.loaded == s.loaded && s'.bound == s.bound
      && s'.log == s.log + [AppLoadFailure(stale.managerToAppCallback, errorCode, message)]
  {
    DestroyProperties(s.reg, stale.token);
  }

  /** A token that is not live is refused with a `SecurityException` and the state is untouched. */
  lemma UnknownTokenRefused(rev: Revision, s: State, token: Token, hostToken: HostToken, displayId: int,
                            workerCallback: Option<WorkerCallback>)
    requires token !in s.links
    ensures RequestSurfaceSpec(rev, s, token, hostToken, displayId, workerCallback)
            == (s, Threw(SecurityException(InvalidTokenMessage(rev))))
  {
  }

  /** When an app dies (newer revision): its token and link are gone, its
      sandbox is unbound and forgotten, its loaded set is dropped, and the
      sandbox uid is killed with the reason naming the app. */
  lemma AppDeathEffects(s: State, token: Token, appUid: int, sandboxUid: int, uidReply: Option<int>)
    requires ValidState(s)
    ensures var (s', c) := AppDeathSpec(SdkSandbox, s, token, appUid, sandboxUid, uidReply);
      && c == Returned
      && ValidState(s')
      && token !in s'.links && token !in s'.reg.reverse
      && (token in s.reg.reverse ==> s.reg.reverse[token] !in s'.reg.tokens)
      && appUid !in s'.bound && appUid !in s'.loaded
      && s'.log == s.log + [UnbindService(appUid), KillUid(sandboxUid, "App " + IntToString(appUid) + " has died")]
  {
    DestroyProperties(s.reg, token);
    AppDeathValid(SdkSandbox, s, token, appUid, sandboxUid, uidReply);
  }

  /** When an app dies (older revision): with a bound sandbox it is unbound,
      and killed only if it reported a uid other than -1; with none bound the
      handler fails after the clean-up and nothing else changes. */
  lemma SupplementalAppDeathEffects(s: State, token: Token, appUid: int, sandboxUid: int, uidReply: Option<int>)
    requires ValidState(s)
    ensures var (s', c) := AppDeathSpec(SupplementalProcess, s, token, appUid, sandboxUid, uidReply);
      && token !in s'.links && token !in s'.reg.reverse
      && (appUid !in s.bound ==> c == Threw(NullPointerException) && s'.log == s.log
                                 && s'.bound == s.bound && s'.loaded == s.loaded)
      && (appUid in s.bound ==>
            && c == Returned && appUid !in s'.bound && appUid !in s'.loaded
            && (if uidReply.Some? && uidReply.value != -1
                then s'.log == s.log + [UnbindService(appUid), KillUid(uidReply.value, AppDiedReason(appUid))]
                else s'.log == s.log + [UnbindService(appUid)]))
  {
    DestroyProperties(s.reg, token);
  }

  /** After an app's death its token is refused by `requestSurfacePackage`. */
  lemma RequestAfterDeathRefused(rev: Revision, s: State, token: Token, appUid: int, sandboxUid: int,
                                 uidReply: Option<int>, hostToken: HostToken, displayId: int,
                                 workerCallback: Option<WorkerCallback>)
    ensures var s' := AppDeathSpec(rev, s, token, appUid, sandboxUid, uidReply).0;
      RequestSurfaceSpec(rev, s', token, hostToken, displayId, workerCallback)
        == (s', Threw(SecurityException(InvalidTokenMessage(rev))))
  {
  }

  /** After `onSdkLoaded(appUid, sdkUid)` an update of `sdkUid` kills `appUid`
      too, and the apps killed for other uids are unchanged. */
  lemma LoadedAppIsKilledOnUpdate(loaded: map<int, set<int>>, appUid: int, sdkUid: int, updated: int)
    ensures AppsUsing(AddLoaded(loaded, appUid, sdkUid), updated)
            == AppsUsing(loaded, updated) + (if updated == sdkUid then {appUid} else {})
  {
    var l' := AddLoaded(loaded, appUid, sdkUid);
    forall a | a in AppsUsing(l', updated)
      ensures a in AppsUsing(loaded, updated) + (if updated == sdkUid then {appUid} else {})
    {
      if a != appUid {
        assert l'[a] == loaded[a];
      }
    }
  }

  /** An app that died is no longer killed on an update. */
  lemma DeadAppIsNotKilledOnUpdate(loaded: map<int, set<int>>, appUid: int, updated: int)
    ensures AppsUsing(loaded - {appUid}, updated) == AppsUsing(loaded, updated) - {appUid}
  {
  }

  /** A sandbox is asked to load the SDK once per connection: after the first
      `onServiceConnected` the connection is marked, and a reconnection only
      records the new sandbox. */
  lemma ReconnectDoesNotReload(s: State, conn: Connection, first: SandboxService, second: SandboxService, rpcOk: bool)
    ensures var s1 := ServiceConnectedSpec(s, conn, first, false, true);
      var s2 := ServiceConnectedSpec(s1, conn, second, true, rpcOk);
      && s2.log == s.log + [LoadRpc(first, conn.token, conn.info, "", conn.link)]
      && s2.bound == s.bound[conn.callingUid := second]
      && s2.loaded == AddLoaded(s.loaded, conn.callingUid, conn.info.uid)
  {
  }

  /** Whether or not the first load call went through, a reconnection on the
      same connection adds no call at all: the first connect made exactly one
      (the load, or the failure report), and the second only records the new
      sandbox. */
  lemma ReconnectNeverReloads(s: State, conn: Connection, first: SandboxService, second: SandboxService,
                              rpcOk1: bool, rpcOk2: bool)
    ensures var s1 := ServiceConnectedSpec(s, conn, first, false, rpcOk1);
      var s2 := ServiceConnectedSpec(s1, conn, second, true, rpcOk2);
      && |s1.log| == |s.log| + 1
      && s2.log == s1.log
      && s2.reg == s1.reg && s2.links == s1.links && s2.loaded == s1.loaded
      && s2.bound == s1.bound[conn.callingUid := second]
  {
  }

  /** A bound sandbox is reused: the load goes to it and nothing is bound. */
  lemma BoundServiceReused(s: State, callingUid: int, token: Token, info: ApplicationInfo, link: Link,
                           rpcOk: bool, conn: Connection?)
    requires callingUid in s.bound
    ensures var s' := InvokeSpec(s, callingUid, token, info, link, rpcOk, conn);
      && s'.bound == s.bound
      && (rpcOk ==> s'.log == s.log + [LoadRpc(s.bound[callingUid], token, info, "", link)])
      && (!rpcOk ==> s'.log == s.log + [AppLoadFailure(link.managerToAppCallback, LOAD_SDK_INTERNAL_ERROR, "Failed to load code")])
  {
  }

  /** After a disconnection the next load for the app binds a sandbox again
      instead of calling the one that went away. */
  lemma DisconnectedServiceNotReused(s: State, conn: Connection, token: Token, info: ApplicationInfo, link: Link,
                                     rpcOk: bool, next: Connection?)
    ensures var s' := ServiceDisconnectedSpec(s, conn);
      InvokeSpec(s', conn.callingUid, token, info, link, rpcOk, next).log == s.log + [BindService(conn.callingUid, next)]
  {
  }

  /** A dead binding is replaced by a new binding with the same connection, so
      its first-connection flag carries over and the load is not repeated. */
  lemma BindingDiedRebindsSameConnection(s: State, conn: Connection)
    ensures var s' := BindingDiedSpec(s, conn);
      && conn.callingUid !in s'.bound
      && s'.log == s.log + [UnbindService(conn.callingUid), BindService(conn.callingUid, conn)]
      && s'.reg == s.reg && s'.links == s.links
  {
  }
}
