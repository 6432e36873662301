# SDK sandbox manager: a Dafny model of its bookkeeping

This project models the bookkeeping of Android's SDK-sandbox manager service
and of the worker process it drives. It covers two revisions of the system
service, `SdkSandboxManagerService` and the older `SupplementalProcessManagerService`.
It also covers the older revision's per-user connection table, the
supplemental process's held-code table, and the `CodeHolder` that
initialises loaded code and hands out surface-package ids. Two pure helpers
of the storage host test are included as well: the hex encoder and the
sandbox data-path builders.

The Dafny modules follow the program:

- `Tokens`: the token registry (`SdkTokenManager` / `CodeTokenManager`). It is
  a forward map `(uid, name) → token`, a reverse map back, and a counter that
  stands in for `new Binder()`. Both revisions share this one definition.
- `Packages`: the package manager as data, and `getSdkInfo`'s scan of the
  caller's packages and their shared libraries.
- `ManagerModel`: the manager's state as a value, with one function per operation.
  The state holds the registry, the links by token, the loaded-uid table, and
  the sandbox bound for each app. It also holds a log of the calls to other
  processes that go through: load calls to a sandbox, app callbacks with their
  error codes, surface requests, binds and unbinds, `killUid`, and death
  watches. A load call that fails with `RemoteException` is not logged, and
  neither is the older revision's `getUid()` query; their outcomes are inputs.
  The `Link` (`AppAndRemoteSdkLink`) and `Connection` (the per-bind
  `ServiceConnection` with its `mIsServiceBound` flag) are classes, because
  the source assigns their fields.
- `Manager`: the service class. Each method changes the fields exactly as the
  matching `ManagerModel` function says. The invariant that registry and links
  agree is kept by every method.
- `ManagerProperties`: what the service promises, proved over those functions.
- `ServiceProvider`: `SupplementalProcessServiceProviderImpl`, a map from user
  to connection record.
- `WorkerService` and `CodeHolders`: the worker side.
- `StoragePaths`: `encodeToHex` over a Java `byte[]`, and the path builders.

One class models both manager revisions, selected by a `Revision` value. They
differ in four places:

- how a name is resolved: the newer one checks the caller's SDK libraries, the
  older one looks the package up by name;
- the wording of the invalid-token message;
- how the sandbox uid to kill is found when an app dies: the newer one computes
  it from the app uid, the older one asks the bound service and skips the kill
  on -1;
- the wording of the dump: its tag in the "Can't dump" message and the field
  names it prints.

Whatever the environment decides is an input to the call that observes it:

- whether a remote call went through;
- whether `linkToDeath` succeeded;
- what the package manager knows;
- the uid a sandbox reports;
- whether `bindServiceAsUser` bound;
- how class loading ended;
- the random candidates for surface-package ids.

The model follows the code where the design might suggest otherwise:

- A duplicate load is refused with `LOAD_SDK_SDK_ALREADY_LOADED`. Because the
  refusal goes through `sendLoadSdkErrorToApp`, it also cleans up the token it
  shares with the earlier load. The pair is freed and the earlier link, which
  may be fully loaded, is dropped (`DuplicateLoadRejected`).
- A newer-revision load from a uid with no package list throws out of
  `getSdkInfo`. This happens after the token and link were registered, and they
  stay (`UnknownCallerKeepsLink`).
- `requestSurfacePackage` on a link whose worker callback is still unset throws
  `NullPointerException` instead of forwarding.
- In the newer revision app death always unbinds. In the older one the sandbox
  uid is asked of the app's bound service before the unbind, so when no
  sandbox is bound (for instance when `linkToDeath` failed before the bind
  connected) `onAppDeath` throws `NullPointerException` after the clean-up and
  never unbinds (`SupplementalAppDeathEffects`).
- Binding death always unbinds and rebinds with the same connection.

The older revision's constants class defines `LOAD_CODE_NOT_FOUND` (100) and
`LOAD_CODE_INTERNAL_ERROR` (500) but not `LOAD_CODE_ALREADY_LOADED`, which its
manager uses. The model uses the newer revision's value, 101, for both.

## Model

| member | source | states |
|---|---|---|
| Common.IntToString | sdksandbox/service/java/com/android/server/sdksandbox/SdkSandboxManagerService.java:192 | Java's decimal rendering of an int is non-empty, uses only '-' and digits, and starts with '-' exactly for negative values |
| Common.NatToStringInjective | sdksandbox/service/java/com/android/server/sdksandbox/SdkSandboxManagerService.java:405 | different natural numbers print differently |
| Common.IntToStringInjective | sdksandbox/service/java/com/android/server/sdksandbox/SdkSandboxManagerService.java:405 | different ints print differently, so a uid in a message or dump line identifies the uid |
| Tokens.EmptyRegistryValid | sdksandbox/service/java/com/android/server/sdksandbox/SdkSandboxManagerService.java:369-372 | the empty forward and reverse maps are mutual inverses |
| Tokens.CreateOrGetProperties | sdksandbox/service/java/com/android/server/sdksandbox/SdkSandboxManagerService.java:378-388 | a recorded pair gets its token back with the registry unchanged; a new pair gets a token not in use, recorded in both maps, and no other entry changes; the maps stay mutual inverses and asking again is stable |
| Tokens.DestroyProperties | sdksandbox/service/java/com/android/server/sdksandbox/SdkSandboxManagerService.java:390-395 | after destroy the token is unknown in both maps and its pair is free; every other entry survives and none is added; an unknown token changes nothing |
| Tokens.DestroyThenCreateIsFresh | sdksandbox/service/java/com/android/server/sdksandbox/SdkSandboxManagerService.java:378-395 | a pair whose token was destroyed is given a new token, different from the old one |
| Tokens.CreateThenDestroyRestores | sdksandbox/service/java/com/android/server/sdksandbox/SdkSandboxManagerService.java:378-395 | creating a token for a new pair and destroying it leaves both maps as they were |
| Tokens.DumpLinesAt | sdksandbox/service/java/com/android/server/sdksandbox/SdkSandboxManagerService.java:404-407 | line i of the token dump shows the uid and name of the i-th key |
| Tokens.DumpKeys | sdksandbox/service/java/com/android/server/sdksandbox/SdkSandboxManagerService.java:404-407 | the loop prints one line per key, visiting each key exactly once |
| Tokens.TokenManager.constructor | sdksandbox/service/java/com/android/server/sdksandbox/SdkSandboxManagerService.java:369-372 | a new token manager holds no tokens, and its two maps are mutual inverses |
| Tokens.TokenManager.CreateOrGetSdkToken | sdksandbox/service/java/com/android/server/sdksandbox/SdkSandboxManagerService.java:378-388 | the manager's maps become the registry's get-or-create result, and the returned token is the pair's |
| Tokens.TokenManager.Destroy | sdksandbox/service/java/com/android/server/sdksandbox/SdkSandboxManagerService.java:390-395 | the maps become the registry with that token destroyed |
| Tokens.TokenManager.Dump | sdksandbox/service/java/com/android/server/sdksandbox/SdkSandboxManagerService.java:397-410 | an empty registry prints "is empty"; otherwise a size line, then one line per key in the map's iteration order, each key once |
| Packages.FirstSdkLibrary | sdksandbox/service/java/com/android/server/sdksandbox/SdkSandboxManagerService.java:203-211 | the result is the index of the first library that is an SDK with the requested name, or none when no library is |
| Packages.GetSdkInfo | sdksandbox/service/java/com/android/server/sdksandbox/SdkSandboxManagerService.java:195-222 | a uid without a package list throws NullPointerException; otherwise the nested loops return what the first-match search over the caller's packages finds |
| Packages.GetCodeInfo | sdksandbox/service/java/com/android/server/supplementalprocess/SupplementalProcessManagerService.java:200-208 | the older lookup finds a package exactly when it is installed, and returns its application info |
| Packages.FindSdkInfoNone | sdksandbox/service/java/com/android/server/sdksandbox/SdkSandboxManagerService.java:199-218 | when none of the caller's packages uses an SDK with the name, nothing is found |
| Packages.FindSdkInfoFirst | sdksandbox/service/java/com/android/server/sdksandbox/SdkSandboxManagerService.java:199-218 | the first package that uses the SDK decides the result, which is the declaring package of its first matching library; later packages are never consulted |
| Packages.FindSdkInfoSound | sdksandbox/service/java/com/android/server/sdksandbox/SdkSandboxManagerService.java:199-218 | anything found is the declaring package of an SDK library with that name used by one of the caller's packages |
| ManagerModel.CleanUpValid | sdksandbox/service/java/com/android/server/sdksandbox/SdkSandboxManagerService.java:357-364 | cleanUp keeps the registry and the link table in agreement |
| ManagerModel.SendLoadErrorValid | sdksandbox/service/java/com/android/server/sdksandbox/SdkSandboxManagerService.java:482-492 | reporting a load error keeps the state valid |
| ManagerModel.LoadSdkForServiceValid | sdksandbox/service/java/com/android/server/sdksandbox/SdkSandboxManagerService.java:327-341 | handing a load to a bound sandbox keeps the state valid, whether or not the call reaches it |
| ManagerModel.InvokeValid | sdksandbox/service/java/com/android/server/sdksandbox/SdkSandboxManagerService.java:272-325 | reusing a bound sandbox or starting a bind keeps the state valid |
| ManagerModel.AppDeathValid | sdksandbox/service/java/com/android/server/sdksandbox/SdkSandboxManagerService.java:184-193 | app death keeps the state valid in both revisions |
| ManagerModel.LoadRegisteredValid | sdksandbox/service/java/com/android/server/sdksandbox/SdkSandboxManagerService.java:160-181 | every way the rest of a load can go keeps the state valid |
| ManagerModel.LoadSdkValid | sdksandbox/service/java/com/android/server/sdksandbox/SdkSandboxManagerService.java:145-182 | a whole load keeps the state valid, whichever branch it takes |
| Manager.ManagerService.constructor | sdksandbox/service/java/com/android/server/sdksandbox/SdkSandboxManagerService.java:74-92 | a new service has no tokens, links, loaded uids or bound sandboxes, and has made no calls |
| Manager.ManagerService.CleanUp | sdksandbox/service/java/com/android/server/sdksandbox/SdkSandboxManagerService.java:357-364 | the token is destroyed and its link removed, nothing else changes, and the invariant holds |
| Manager.ManagerService.SendLoadSdkErrorToApp | sdksandbox/service/java/com/android/server/sdksandbox/SdkSandboxManagerService.java:482-492 | the token is cleaned up first, then the app's callback receives the code and message |
| Manager.ManagerService.OnSdkLoaded | sdksandbox/service/java/com/android/server/sdksandbox/SdkSandboxManagerService.java:343-352 | the SDK's uid joins the app's loaded set, which is created if absent |
| Manager.ManagerService.LoadSdkForService | sdksandbox/service/java/com/android/server/sdksandbox/SdkSandboxManagerService.java:327-341 | a load call that goes through records the SDK uid as loaded; one that does not reports INTERNAL_ERROR and frees the token |
| Manager.ManagerService.InvokeSdkSandboxServiceToLoadSdk | sdksandbox/service/java/com/android/server/sdksandbox/SdkSandboxManagerService.java:272-325 | a bound sandbox is reused; otherwise one bind is requested with a fresh connection that remembers the request |
| Manager.ManagerService.OnAppDeath | sdksandbox/service/java/com/android/server/sdksandbox/SdkSandboxManagerService.java:184-193 | the state changes as app death says for the revision: clean up, then in the newer revision unbind, forget the app and kill its sandbox; in the older one ask the bound sandbox for its uid, throwing NullPointerException without unbinding when none is bound, else unbind, forget the app and kill unless the uid is -1 |
| Manager.ManagerService.LoadSdk | sdksandbox/service/java/com/android/server/sdksandbox/SdkSandboxManagerService.java:145-159 | the new state and outcome are those of the load function for the pair's token, with a new link carrying the app's callback |
| Manager.ManagerService.RegisterAndLoad | sdksandbox/service/java/com/android/server/sdksandbox/SdkSandboxManagerService.java:152-158 | when putIfAbsent succeeds, the link is registered under its token and the load continues |
| Manager.ManagerService.LoadRegistered | sdksandbox/service/java/com/android/server/sdksandbox/SdkSandboxManagerService.java:160-181 | after registration: an unknown caller throws, an unresolved name reports NOT_FOUND, otherwise the load is handed on and the app is watched, and a dead app is cleaned up at once |
| Manager.ManagerService.OnPackageRemoved | sdksandbox/service/java/com/android/server/sdksandbox/SdkSandboxManagerService.java:98-110 | a broadcast without a uid, or one that is not replacing, changes nothing; otherwise exactly the apps that loaded the uid are killed |
| Manager.ManagerService.CollectAppsUsing | sdksandbox/service/java/com/android/server/sdksandbox/SdkSandboxManagerService.java:116-127 | the collected list names each app whose loaded set holds the uid, exactly once |
| Manager.ManagerService.OnSdkUpdating | sdksandbox/service/java/com/android/server/sdksandbox/SdkSandboxManagerService.java:115-132 | one "Package updating" kill per app that loaded the uid, and no other change |
| Manager.ManagerService.RequestSurfacePackage | sdksandbox/service/java/com/android/server/sdksandbox/SdkSandboxManagerService.java:237-246 | an unknown token throws SecurityException with the revision's message; a link without a worker callback throws NullPointerException; otherwise the request goes to the link's worker callback |
| Manager.ManagerService.Dump | sdksandbox/service/java/com/android/server/sdksandbox/SdkSandboxManagerService.java:254-270 | without DUMP permission the call throws before printing; with it, it prints the link count, the registry's lines and the provider header |
| Manager.ManagerService.OnLoadSdkSuccess | sdksandbox/service/java/com/android/server/sdksandbox/SdkSandboxManagerService.java:448-456 | the worker callback is overwritten, and the app is told of success with the link's token |
| Manager.ManagerService.OnLoadSdkError | sdksandbox/service/java/com/android/server/sdksandbox/SdkSandboxManagerService.java:459-461 | the worker's error is relayed unchanged, after the token is cleaned up |
| Manager.ManagerService.OnSurfacePackageReady | sdksandbox/service/java/com/android/server/sdksandbox/SdkSandboxManagerService.java:464-467 | the surface package id is relayed to the app, and nothing else changes |
| Manager.ManagerService.OnSurfacePackageError | sdksandbox/service/java/com/android/server/sdksandbox/SdkSandboxManagerService.java:470-472 | the surface error is relayed without any clean-up |
| Manager.ManagerService.OnServiceConnected | sdksandbox/service/java/com/android/server/sdksandbox/SdkSandboxManagerService.java:289-300 | the sandbox is recorded for the app; the load is forwarded only while the connection's flag is unset, and the flag is then set |
| Manager.ManagerService.OnServiceDisconnected | sdksandbox/service/java/com/android/server/sdksandbox/SdkSandboxManagerService.java:303-308 | the app's bound sandbox is forgotten |
| Manager.ManagerService.OnBindingDied | sdksandbox/service/java/com/android/server/sdksandbox/SdkSandboxManagerService.java:311-315 | the sandbox is forgotten, then the app is unbound and bound again with the same connection |
| Manager.ManagerService.OnNullBinding | sdksandbox/service/java/com/android/server/sdksandbox/SdkSandboxManagerService.java:318-322 | the pending load fails with INTERNAL_ERROR "Failed to bind the service" and its token is freed |
| ManagerProperties.AlreadyLoadedMessageNamesSdk | sdksandbox/service/java/com/android/server/sdksandbox/SdkSandboxManagerService.java:155-156 | the already-loaded message contains the SDK's name |
| ManagerProperties.AlreadyLoadedMessageSaysLoaded | sdksandbox/service/java/com/android/server/sdksandbox/SdkSandboxManagerService.java:155-156 | the already-loaded message contains "has been loaded already" |
| ManagerProperties.NotFoundMessageNamesSdk | sdksandbox/service/java/com/android/server/sdksandbox/SdkSandboxManagerService.java:164 | the not-found message contains the SDK's name |
| ManagerProperties.NotFoundMessageSaysNotFound | sdksandbox/service/java/com/android/server/sdksandbox/SdkSandboxManagerService.java:164 | the not-found message contains "not found for loading" |
| ManagerProperties.InitialStateValid | sdksandbox/service/java/com/android/server/sdksandbox/SdkSandboxManagerService.java:74-86 | the initial state satisfies the invariant |
| ManagerProperties.DuplicateLoadRejected | sdksandbox/service/java/com/android/server/sdksandbox/SdkSandboxManagerService.java:152-158 | a pair that still holds a token gets the same token back and is refused with 101 and the already-loaded message; the token is destroyed and the earlier link is gone; nothing reaches a sandbox and the loaded and bound tables are unchanged |
| ManagerProperties.NotFoundFreesKey | sdksandbox/service/java/com/android/server/sdksandbox/SdkSandboxManagerService.java:161-168 | a new pair whose name is not resolved is refused with 100 and the not-found message, and the registry and links end as they began |
| ManagerProperties.UnusedSdkNotFound | sdksandbox/service/java/com/android/server/sdksandbox/SdkSandboxManagerService.java:195-222 | if no package of the caller uses an SDK with the name, the lookup finds nothing |
| ManagerProperties.UnknownCallerKeepsLink | sdksandbox/service/java/com/android/server/sdksandbox/SdkSandboxManagerService.java:160 | a load from a uid with no package list throws NullPointerException, with no call to the app; the new token and link stay registered |
| ManagerProperties.LoadErrorFreesKey | sdksandbox/service/java/com/android/server/sdksandbox/SdkSandboxManagerService.java:482-492 | any error reported on a live link frees its pair and removes its link; the error is relayed unchanged and the state stays valid |
| ManagerProperties.RegisteredNotRejected | sdksandbox/service/java/com/android/server/sdksandbox/SdkSandboxManagerService.java:160-181 | once a link is registered, no later step of the load reports ALREADY_LOADED, and earlier calls are kept |
| ManagerProperties.FreshLoadNotRejected | sdksandbox/service/java/com/android/server/sdksandbox/SdkSandboxManagerService.java:148-158 | a pair without a token gets the next fresh token and is never refused as already loaded |
| ManagerProperties.RetryAfterFailureAccepted | sdksandbox/service/java/com/android/server/sdksandbox/SdkSandboxManagerService.java:483-485 | after an error on a link, a new load for the same pair gets a different token and is not refused as already loaded |
| ManagerProperties.StaleLinkErrorOnlyReports | sdksandbox/service/java/com/android/server/sdksandbox/SdkSandboxManagerService.java:482-492 | an error arriving on a link whose token a duplicate refusal already cleaned up is relayed to its app and disturbs no registration, not even a later load of the same pair |
| ManagerProperties.UnknownTokenRefused | sdksandbox/service/java/com/android/server/sdksandbox/SdkSandboxManagerService.java:239-242 | a surface request for a token with no link throws SecurityException and leaves the state untouched |
| ManagerProperties.AppDeathEffects | sdksandbox/service/java/com/android/server/sdksandbox/SdkSandboxManagerService.java:184-193 | newer revision: after app death the token, its link and its pair are gone, the app is unbound and forgotten, and the sandbox uid is killed with "App <uid> has died" |
| ManagerProperties.SupplementalAppDeathEffects | sdksandbox/service/java/com/android/server/supplementalprocess/SupplementalProcessManagerService.java:179-198 | older revision: with a bound sandbox, the app is unbound and forgotten, and killed only if the reported uid is not -1 or missing; with none bound, the uid query throws after the clean-up |
| ManagerProperties.RequestAfterDeathRefused | sdksandbox/service/java/com/android/server/sdksandbox/SdkSandboxManagerService.java:239-242 | after the app's death its token is refused by requestSurfacePackage |
| ManagerProperties.LoadedAppIsKilledOnUpdate | sdksandbox/service/java/com/android/server/sdksandbox/SdkSandboxManagerService.java:343-352 | an app that loaded an SDK uid is among those killed when that uid is updated |
| ManagerProperties.DeadAppIsNotKilledOnUpdate | sdksandbox/service/java/com/android/server/sdksandbox/SdkSandboxManagerService.java:188-190 | a dead app's loaded set is dropped, so it is never killed for an update |
| ManagerProperties.ReconnectDoesNotReload | sdksandbox/service/java/com/android/server/sdksandbox/SdkSandboxManagerService.java:295-299 | connecting twice on one connection sends exactly one load call, and records the SDK uid once |
| ManagerProperties.ReconnectNeverReloads | sdksandbox/service/java/com/android/server/sdksandbox/SdkSandboxManagerService.java:289-300 | whether the first load call went through or failed, a second connect on the same connection makes no call and changes nothing but the recorded sandbox |
| ManagerProperties.BoundServiceReused | sdksandbox/service/java/com/android/server/sdksandbox/SdkSandboxManagerService.java:276-281 | with a sandbox bound for the app, the load goes to it and no bind is requested |
| ManagerProperties.DisconnectedServiceNotReused | sdksandbox/service/java/com/android/server/sdksandbox/SdkSandboxManagerService.java:303-308 | after a disconnect, the next load for the app binds again instead of reusing the sandbox |
| ManagerProperties.BindingDiedRebindsSameConnection | sdksandbox/service/java/com/android/server/sdksandbox/SdkSandboxManagerService.java:311-315 | binding death forgets the sandbox, then issues one unbind followed by one bind of the same connection |
| ServiceProvider.ProcessConnection.constructor | sdksandbox/service/java/com/android/server/supplementalprocess/SupplementalProcessServiceProviderImpl.java:50-52 | a new record has neither a connection nor a service |
| ServiceProvider.ProcessConnection.OnServiceConnected | sdksandbox/service/java/com/android/server/supplementalprocess/SupplementalProcessServiceProviderImpl.java:80-83 | the record's service is set, and it is connected exactly when it has its connection |
| ServiceProvider.ProcessConnection.OnServiceDisconnected | sdksandbox/service/java/com/android/server/supplementalprocess/SupplementalProcessServiceProviderImpl.java:86-91 | the service is cleared and the record is not connected, though the record itself remains |
| ServiceProvider.Provider.constructor | sdksandbox/service/java/com/android/server/supplementalprocess/SupplementalProcessServiceProviderImpl.java:59-61 | a new provider has no records and has made no calls |
| ServiceProvider.Provider.IsServiceBound | sdksandbox/service/java/com/android/server/supplementalprocess/SupplementalProcessServiceProviderImpl.java:130-134 | true exactly when the user has a record |
| ServiceProvider.Provider.GetService | sdksandbox/service/java/com/android/server/supplementalprocess/SupplementalProcessServiceProviderImpl.java:123-127 | the record's service; a user without a record makes the call throw NullPointerException |
| ServiceProvider.Provider.BindService | sdksandbox/service/java/com/android/server/supplementalprocess/SupplementalProcessServiceProviderImpl.java:69-120 | a user with a record is left alone; otherwise one bindServiceAsUser call is made with a new connection, which enters the table only if the bind succeeded, service still unset |
| ServiceProvider.Provider.UnbindService | sdksandbox/service/java/com/android/server/supplementalprocess/SupplementalProcessServiceProviderImpl.java:138-149 | the user's record, if any, is unbound and removed; other users' records are untouched |
| ServiceProvider.Provider.OnBindingDied | sdksandbox/service/java/com/android/server/supplementalprocess/SupplementalProcessServiceProviderImpl.java:94-102 | an unbind of the user's record, if any, followed by a bind with a new connection |
| ServiceProvider.Provider.ConnectionChanged | sdksandbox/service/java/com/android/server/supplementalprocess/SupplementalProcessServiceProviderImpl.java:78-92 | a connection callback changes only the record's service, and the table keeps its invariant |
| CodeHolders.InitFailureMessage | sdksandbox/SupplementalProcess/src/com/android/supplemental/process/CodeHolder.java:82-88 | there is a failure message exactly when init did not reach the provider's initCode |
| CodeHolders.GetInt | sdksandbox/SupplementalProcess/src/com/android/supplemental/process/CodeHolder.java:157-158 | a key absent from the params yields the default |
| CodeHolders.Built | sdksandbox/SupplementalProcess/src/com/android/supplemental/process/CodeHolder.java:155-161 | the ready host's package is for the request's host token and display, 500 wide and high unless the params say otherwise |
| CodeHolders.FirstFresh | sdksandbox/SupplementalProcess/src/com/android/supplemental/process/CodeHolder.java:129-135 | the result is the position of the first candidate not already a key, or none when all collide |
| CodeHolders.CodeHolder.constructor | sdksandbox/SupplementalProcess/src/com/android/supplemental/process/CodeHolder.java:45-53 | a new holder is uninitialised, has no callback and no surface packages, and has sent nothing |
| CodeHolders.CodeHolder.Init | sdksandbox/SupplementalProcess/src/com/android/supplemental/process/CodeHolder.java:57-89 | a second init throws IllegalStateException "Already initialized!" and changes nothing; the first marks the holder initialised before loading, keeps the callback, and reports PROVIDER_INIT_ERROR with the outcome's message on failure |
| CodeHolders.CodeHolder.OnInitCodeFinished | sdksandbox/SupplementalProcess/src/com/android/supplemental/process/CodeHolder.java:72-75 | the provider's success is reported on the callback exactly once |
| CodeHolders.CodeHolder.OnInitCodeError | sdksandbox/SupplementalProcess/src/com/android/supplemental/process/CodeHolder.java:77-80 | the provider's error message is reported as PROVIDER_INIT_ERROR |
| CodeHolders.CodeHolder.SendLoadCodeError | sdksandbox/SupplementalProcess/src/com/android/supplemental/process/CodeHolder.java:116-125 | a load error is sent with LOAD_CODE_PROVIDER_INIT_ERROR and the message |
| CodeHolders.CodeHolder.SendSurfacePackageError | sdksandbox/SupplementalProcess/src/com/android/supplemental/process/CodeHolder.java:105-114 | a surface error is sent with SURFACE_PACKAGE_INTERNAL_ERROR and the message |
| CodeHolders.CodeHolder.AllocateSurfacePackageId | sdksandbox/SupplementalProcess/src/com/android/supplemental/process/CodeHolder.java:127-138 | the first of 32 candidates not already a key gets the package and is returned; when all 32 collide the call throws IllegalStateException and the map is unchanged |
| CodeHolders.CodeHolder.OnSurfacePackageRequested | sdksandbox/SupplementalProcess/src/com/android/supplemental/process/CodeHolder.java:144-173 | a package exists only when the host was built; a failure before or on the handler, or a failed allocation, is reported as SURFACE_PACKAGE_INTERNAL_ERROR; otherwise the package gets the first fresh id and is reported ready |
| WorkerService.HolderFailure | sdksandbox/SupplementalProcess/src/com/android/supplemental/process/SupplementalProcessServiceImpl.java:122-131 | no error exactly when the holder was built; class-not-found and no-such-method map to NOT_FOUND; the three reflection failures map to INSTANTIATION_ERROR (the message texts are in the body, not the contract) |
| WorkerService.NotSystemServerMessageNamesCaller | sdksandbox/SupplementalProcess/src/com/android/supplemental/process/SupplementalProcessServiceImpl.java:73-78 | two refusal messages are equal exactly when the callers' uids are |
| WorkerService.SupplementalProcessService.constructor | sdksandbox/SupplementalProcess/src/com/android/supplemental/process/SupplementalProcessServiceImpl.java:46-47 | a new service holds no code |
| WorkerService.SupplementalProcessService.LoadCode | sdksandbox/SupplementalProcess/src/com/android/supplemental/process/SupplementalProcessServiceImpl.java:134-138 | a caller that is not the system server gets a SecurityException naming its uid, and nothing is loaded; the system server's requests proceed |
| WorkerService.SupplementalProcessService.LoadCodeInternal | sdksandbox/SupplementalProcess/src/com/android/supplemental/process/SupplementalProcessServiceImpl.java:95-132 | a held token is refused with ALREADY_LOADED naming the package and the table is unchanged; a build failure reports its code and holds nothing; otherwise only this token gains a new initialised holder, whatever init later reports |
| StoragePaths.HighNibble | sdksandbox/tests/hostsidetests/SdkSandboxStorageHostTest/src/com/android/tests/sdksandbox/host/SdkSandboxStorageHostTest.java:324 | the high nibble of a byte is below 16 |
| StoragePaths.LowNibble | sdksandbox/tests/hostsidetests/SdkSandboxStorageHostTest/src/com/android/tests/sdksandbox/host/SdkSandboxStorageHostTest.java:325 | the low nibble of a byte is below 16 |
| StoragePaths.NibblesOfUnsigned | sdksandbox/tests/hostsidetests/SdkSandboxStorageHostTest/src/com/android/tests/sdksandbox/host/SdkSandboxStorageHostTest.java:322-325 | a byte's two nibbles are the high and low digits of its unsigned value, so negative bytes encode as 128-255 |
| StoragePaths.HexOf | sdksandbox/tests/hostsidetests/SdkSandboxStorageHostTest/src/com/android/tests/sdksandbox/host/SdkSandboxStorageHostTest.java:316-329 | the encoding is twice as long as the data |
| StoragePaths.HexOfAt | sdksandbox/tests/hostsidetests/SdkSandboxStorageHostTest/src/com/android/tests/sdksandbox/host/SdkSandboxStorageHostTest.java:321-326 | characters 2i and 2i+1 are the hex digits of byte i's high and low nibble |
| StoragePaths.HexOfUppercase | sdksandbox/tests/hostsidetests/SdkSandboxStorageHostTest/src/com/android/tests/sdksandbox/host/SdkSandboxStorageHostTest.java:317-319 | every character is one of 0-9 and A-F |
| StoragePaths.HexOfDecodes | sdksandbox/tests/hostsidetests/SdkSandboxStorageHostTest/src/com/android/tests/sdksandbox/host/SdkSandboxStorageHostTest.java:321-326 | decoding the two characters of byte i gives back its unsigned value |
| StoragePaths.HexOfInjective | sdksandbox/tests/hostsidetests/SdkSandboxStorageHostTest/src/com/android/tests/sdksandbox/host/SdkSandboxStorageHostTest.java:316-329 | different byte arrays have different encodings |
| StoragePaths.EncodeToHex | sdksandbox/tests/hostsidetests/SdkSandboxStorageHostTest/src/com/android/tests/sdksandbox/host/SdkSandboxStorageHostTest.java:316-329 | the loop fills an array of twice the length with the encoding of the data |
| StoragePaths.PathsNest | sdksandbox/tests/hostsidetests/SdkSandboxStorageHostTest/src/com/android/tests/sdksandbox/host/SdkSandboxStorageHostTest.java:234-252 | the builders give `/data/misc_ce/<user>/sdksandbox` and `/data/misc_de/<user>/sdksandbox`, then `/<package>`, then `/shared`: each app directory lies inside its root, and each shared directory inside its app directory |
| StoragePaths.CeAndDeDisjoint | sdksandbox/tests/hostsidetests/SdkSandboxStorageHostTest/src/com/android/tests/sdksandbox/host/SdkSandboxStorageHostTest.java:226-232 | a credential-encrypted path never equals a device-encrypted one, whatever the users and packages |
| StoragePaths.RootPathInjective | sdksandbox/tests/hostsidetests/SdkSandboxStorageHostTest/src/com/android/tests/sdksandbox/host/SdkSandboxStorageHostTest.java:226-232 | distinct users have distinct data roots |
| StoragePaths.AppPathsInjective | sdksandbox/tests/hostsidetests/SdkSandboxStorageHostTest/src/com/android/tests/sdksandbox/host/SdkSandboxStorageHostTest.java:234-242 | an app path determines its user and package |
| StoragePaths.SharedPathsInjective | sdksandbox/tests/hostsidetests/SdkSandboxStorageHostTest/src/com/android/tests/sdksandbox/host/SdkSandboxStorageHostTest.java:244-252 | a shared path determines its user and package |

## Left out

- Binder mechanics are abstracted. `clearCallingIdentity`, `IBinder` identity, AIDL stubs and `linkToDeath` registration are not modelled; tokens are fresh naturals from a counter.
- A `RemoteException` from a remote call is a boolean input. Calls to app callbacks are logged; their failures are only logged in the source and change no state.
- Concurrency is not modelled. Every `synchronized` block, the `Handler` posting of `CodeHolder`, and the two locked regions of `loadCodeInternal` run sequentially.
- `Bundle` parameters and results are opaque, except for the surface size keys, which are a map from key to int. The width and height key constants are not defined in the source text and are parameters.
- Logging (`Log.i`/`Log.w`) is not modelled.
- `enforceCallingPermission` is a boolean input. The framework's own text around the "Can't dump" message is not modelled.
- The provider's section of the dump is only its header and blank line. `SdkSandboxServiceProviderImpl.dump` is not part of this model.
- `Process.toSdkSandboxUid` is a function supplied when the service is built.
- Class loading and reflection (`DexClassLoader`, `Class.forName`, constructors) are outcome values. `CodeHolder`'s `mCode`, `mContext` and `mDisplayManager`, and its `dump`, are not modelled.
- Rendering (`SurfaceControlViewHost`, displays, window contexts) is left out; a surface package is a record of its request. `SecureRandom` is a supplied sequence of candidates.
- StoragePaths.EncodeToHex: `data.length * 2` overflow for arrays over 2^30 bytes is not modelled, because ints are unbounded here.
- The worker-side error-code constants have no values in the source, so they are an enumeration.
- The older revision's `loadCode` takes a `version` argument that it ignores; the model has no such argument.
- `sendData` has an empty body in both revisions and is not modelled.
- The older `SupplementalProcessServiceProviderImpl` does not implement the uid-keyed provider interface the manager calls. The manager's provider is a table from app uid to bound sandbox plus logged bind and unbind calls, with its `getBoundServiceForApp`/`setBoundServiceForApp` meaning.
- `CodeHolder.init` is declared with six parameters but called with five. The model's `Init` takes the callback, the provider class name and the outcome.
- The path builders format the user id with `String.format("%d")`, which uses the default locale; the model assumes a locale with ASCII digits.
- The app-side data paths (`getAppCeDataPath`, `getAppDeDataPath`) and the rest of the storage host test depend on a device and are not modelled.
