/** The sandbox-side holder of one loaded code provider (`CodeHolder`): it is
    initialised once, relays the provider's init result to the manager, and
    hands out ids for the surface packages it creates.  Class loading, the
    provider's own behaviour and rendering are outcomes supplied by the
    caller; the random source is a supplied sequence of draws. */
module CodeHolders {
  import opened Common

  /** The manager's callback object (`ISupplementalProcessToSupplementalProcessManagerCallback`). */
  type ManagerCallback = nat

  /** The error codes of that callback interface; their numeric values are
      not part of this model. */
  datatype WorkerErrorCode =
    | LoadCodeAlreadyLoaded
    | LoadCodeNotFound
    | LoadCodeInstantiationError
    | LoadCodeProviderInitError
    | SurfacePackageInternalError

  /** What `SurfaceControlViewHost.getSurfacePackage` hands back: the host
      token and display it was built for, and the size its view was given. */
  datatype SurfacePackage = SurfacePackage(hostToken: nat, displayId: int, width: int, height: int)

  /** The calls the worker makes on the manager's callback. */
  datatype WorkerCall =
    | LoadCodeError(callback: ManagerCallback, errorCode: WorkerErrorCode, message: string)
    | LoadCodeSuccess(callback: ManagerCallback)
    | SurfacePackageReady(callback: ManagerCallback, surfacePackage: SurfacePackage, surfacePackageId: int)
    | SurfacePackageError(callback: ManagerCallback, errorCode: WorkerErrorCode, message: string)

  /** How loading and starting the provider inside `init` ends: `initCode` was
      called, the class was not found, or construction or `initCode` threw an
      `Exception` or another `Throwable` (described by its `toString`). */
  datatype InitOutcome =
    | InitCodeCalled
    | ProviderClassNotFound
    | ProviderException(description: string)
    | ProviderThrowable(description: string)

  /** How producing a surface package ends before id allocation: a failure
      before the work is posted to the main thread, a failure on it while
      building the host, or a host whose package is ready. */
  datatype SurfaceSetup =
    | FailedBeforePost(description: string)
    | FailedOnHandler(description: string)
    | HostReady

  /** Tries of `allocateSurfacePackageId` before it gives up. */
  const ALLOCATION_ATTEMPTS: nat := 32
  /** Width and height of the view when the request does not give them. */
  const DEFAULT_SIZE: int := 500

  const ALLOCATION_FAILURE: string := "Could not allocate surfacePackageId"

  /** The message reported for an init that failed with `outcome`; none when
      `initCode` was reached. */
  function InitFailureMessage(outcome: InitOutcome, codeProviderClassName: string): (m: Option<string>)
    ensures m.None? <==> outcome.InitCodeCalled?
  {
    match outcome
    case InitCodeCalled => None
    case ProviderClassNotFound => Some("Could not find class: " + codeProviderClassName)
    case ProviderException(e) => Some("Could not instantiate CodeProvider: " + e)
    case ProviderThrowable(e) => Some("Error thrown during init: " + e)
  }

  function SurfaceErrorMessage(description: string): string {
    "Error thrown while getting surface package: " + description
  }

  /** `Bundle.getInt(key, default)` over the request parameters. */
  function GetInt(params: map<string, int>, key: string, default: int): (v: int)
    ensures key in params ==> v == params[key]
    ensures key !in params ==> v == default
  {
    if key in params then params[key] else default
  }

  /** The package a ready host hands back: built for the request's host token
      and display, with the width and height the params give, 500 by default. */
  function Built(hostToken: nat, displayId: int, params: map<string, int>, widthKey: string, heightKey: string)
    : (p: SurfacePackage)
    ensures p.hostToken == hostToken && p.displayId == displayId
    ensures widthKey !in params ==> p.width == DEFAULT_SIZE
    ensures heightKey !in params ==> p.height == DEFAULT_SIZE
  {
    SurfacePackage(hostToken, displayId, GetInt(params, widthKey, DEFAULT_SIZE), GetInt(params, heightKey, DEFAULT_SIZE))
  }

  /** The position of the first draw that is not a key yet, if any. */
  function FirstFresh(keys: set<int>, draws: seq<int>): (r: Option<nat>)
    ensures r.Some? ==> r.value < |draws| && draws[r.value] !in keys
                        && forall j | 0 <= j < r.value :: draws[j] in keys
    ensures r.None? ==> forall j | 0 <= j < |draws| :: draws[j] in keys
  {
    if draws == [] then None
    else if draws[0] !in keys then Some(0)
    else match FirstFresh(keys, draws[1..])
      case None => None
      case Some(j) => Some(j + 1)
  }

  /** The draw at `i` is the first fresh one. */
  lemma FirstFreshAt(keys: set<int>, draws: seq<int>, i: nat)
    requires i < |draws| && draws[i] !in keys
    requires forall j | 0 <= j < i :: draws[j] in keys
    ensures FirstFresh(keys, draws) == Some(i)
  {
  }

  /** No draw is fresh. */
  lemma FirstFreshNone(keys: set<int>, draws: seq<int>)
    requires forall j | 0 <= j < |draws| :: draws[j] in keys
    ensures FirstFresh(keys, draws) == None
  {
  }

  class CodeHolder {
    var initialized: bool
    var callback: Option<ManagerCallback>
    var surfacePackages: map<int, SurfacePackage>
    /** The calls made on the manager's callback. */
    ghost var log: seq<WorkerCall>

    constructor ()
      ensures !initialized && callback == None && surfacePackages == map[] && log == []
    {
      initialized := false;
      callback := None;
      surfacePackages := map[];
      log := [];
    }

    /** `init`.  A second call throws and changes nothing.  The first marks
        the holder initialised and keeps the callback before the provider is
        loaded, so even a failed init blocks the next; a failure is reported
        at once with `LOAD_CODE_PROVIDER_INIT_ERROR`. */
    method Init(cb: ManagerCallback, codeProviderClassName: string, outcome: InitOutcome) returns (c: Completion)
      modifies this
      ensures old(initialized) ==> c == Threw(IllegalStateException("Already initialized!"))
                                   && initialized && callback == old(callback) && log == old(log)
      ensures !old(initialized) ==>
        && c == Returned && initialized && callback == Some(cb)
        && log == old(log) + match InitFailureMessage(outcome, codeProviderClassName)
                             case None => []
                             case Some(m) => [LoadCodeError(cb, LoadCodeProviderInitError, m)]
      ensures surfacePackages == old(surfacePackages)
    {
      if initialized {
        return Threw(IllegalStateException("Already initialized!"));
      }
      initialized := true;
      callback := Some(cb);
      match outcome {
        case InitCodeCalled =>
        case ProviderClassNotFound => SendLoadCodeError("Could not find class: " + codeProviderClassName);
        case ProviderException(e) => SendLoadCodeError("Could not instantiate CodeProvider: " + e);
        case ProviderThrowable(e) => SendLoadCodeError("Error thrown during init: " + e);
      }
      return Returned;
    }

    /** The provider's `onInitCodeFinished`: one load-success call. */
    method OnInitCodeFinished()
      requires callback.Some?
      modifies this
      ensures log == old(log) + [LoadCodeSuccess(old(callback).value)]
      ensures initialized == old(initialized) && callback == old(callback) && surfacePackages == old(surfacePackages)
    {
      log := log + [LoadCodeSuccess(callback.value)];
    }

    /** The provider's `onInitCodeError`: its message is relayed as an init error. */
    method OnInitCodeError(errorMessage: string)
      requires callback.Some?
      modifies this
      ensures log == old(log) + [LoadCodeError(old(callback).value, LoadCodeProviderInitError, errorMessage)]
      ensures initialized == old(initialized) && callback == old(callback) && surfacePackages == old(surfacePackages)
    {
      SendLoadCodeError(errorMessage);
    }

    /** `sendLoadCodeError`. */
    method SendLoadCodeError(errorMessage: string)
      requires callback.Some?
      modifies this
      ensures log == old(log) + [LoadCodeError(old(callback).value, LoadCodeProviderInitError, errorMessage)]
      ensures initialized == old(initialized) && callback == old(callback) && surfacePackages == old(surfacePackages)
    {
      log := log + [LoadCodeError(callback.value, LoadCodeProviderInitError, errorMessage)];
    }

    /** `sendSurfacePackageError`. */
    method SendSurfacePackageError(errorMessage: string)
      requires callback.Some?
      modifies this
      ensures log == old(log) + [SurfacePackageError(old(callback).value, SurfacePackageInternalError, errorMessage)]
      ensures initialized == old(initialized) && callback == old(callback) && surfacePackages == old(surfacePackages)
    {
      log := log + [SurfacePackageError(callback.value, SurfacePackageInternalError, errorMessage)];
    }

    /** `allocateSurfacePackageId`: the first of the next 32 draws that is not
        an id yet is stored with the package; when all 32 collide it throws
        and the table is unchanged. */
    method AllocateSurfacePackageId(surfacePackage: SurfacePackage, draws: seq<int>) returns (c: Completion, id: int)
      requires |draws| >= ALLOCATION_ATTEMPTS
      modifies this
      ensures var r := FirstFresh(old(surfacePackages).Keys, draws[..ALLOCATION_ATTEMPTS]);
        && (r.None? ==> c == Threw(IllegalStateException(ALLOCATION_FAILURE)) && surfacePackages == old(surfacePackages))
        && (r.Some? ==> c == Returned && id == draws[r.value] && id !in old(surfacePackages)
                        && surfacePackages == old(surfacePackages)[id := surfacePackage])
      ensures initialized == old(initialized) && callback == old(callback) && log == old(log)
    {
      var prefix := draws[..ALLOCATION_ATTEMPTS];
      for i := 0 to ALLOCATION_ATTEMPTS
        invariant forall j | 0 <= j < i :: prefix[j] in surfacePackages
        invariant surfacePackages == old(surfacePackages)
      {
        id := prefix[i];
        if id !in surfacePackages {
          FirstFreshAt(surfacePackages.Keys, prefix, i);
          surfacePackages := surfacePackages[id := surfacePackage];
          return Returned, id;
        }
      }
      FirstFreshNone(surfacePackages.Keys, prefix);
      return Threw(IllegalStateException(ALLOCATION_FAILURE)), 0;
    }

    /** `onSurfacePackageRequested` of the sandbox callback, with the posted
        part run straight after.  The view gets the requested width and
        height, 500 by default; every failure, including a failed id
        allocation, is reported with `SURFACE_PACKAGE_INTERNAL_ERROR`. */
    method OnSurfacePackageRequested(hostToken: nat, displayId: int, params: map<string, int>,
                                     widthKey: string, heightKey: string, setup: SurfaceSetup, draws: seq<int>)
      returns (built: Option<SurfacePackage>)
      requires callback.Some? && |draws| >= ALLOCATION_ATTEMPTS
      modifies this
      ensures built == if setup.HostReady? then Some(Built(hostToken, displayId, params, widthKey, heightKey)) else None
      ensures initialized == old(initialized) && callback == old(callback)
      ensures var cb := callback.value;
        match setup
        case FailedBeforePost(e) =>
          surfacePackages == old(surfacePackages)
          && log == old(log) + [SurfacePackageError(cb, SurfacePackageInternalError, SurfaceErrorMessage(e))]
        case FailedOnHandler(e) =>
          surfacePackages == old(surfacePackages)
          && log == old(log) + [SurfacePackageError(cb, SurfacePackageInternalError, SurfaceErrorMessage(e))]
        case HostReady =>
          match FirstFresh(old(surfacePackages).Keys, draws[..ALLOCATION_ATTEMPTS])
          case None =>
            surfacePackages == old(surfacePackages)
            && log == old(log) + [SurfacePackageError(cb, SurfacePackageInternalError,
                                    SurfaceErrorMessage("java.lang.IllegalStateException: " + ALLOCATION_FAILURE))]
          case Some(i) =>
            surfacePackages == old(surfacePackages)[draws[i] := built.value]
            && log == old(log) + [SurfacePackageReady(cb, built.value, draws[i])]
    {
      match setup
      case FailedBeforePost(e) =>
        SendSurfacePackageError(SurfaceErrorMessage(e));
        built := None;
      case FailedOnHandler(e) =>
        SendSurfacePackageError(SurfaceErrorMessage(e));
        built := None;
      case HostReady =>
        var surfacePackage := Built(hostToken, displayId, params, widthKey, heightKey);
        built := Some(surfacePackage);
        var c, surfacePackageId := AllocateSurfacePackageId(surfacePackage, draws);
        if c.Threw? {
          SendSurfacePackageError(SurfaceErrorMessage("java.lang.IllegalStateException: " + ALLOCATION_FAILURE));
        } else {
          log := log + [SurfacePackageReady(callback.value, surfacePackage, surfacePackageId)];
        }
    }
  }
}
