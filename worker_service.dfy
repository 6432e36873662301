/** The supplemental process's service (`SupplementalProcessServiceImpl`):
    it accepts load requests from the system server only, keeps one code
    holder per code token, and turns class-loading failures into error codes
    for the manager. */
module WorkerService {
  import opened Common
  import opened CodeHolders

  /** The code token the manager sends (an `IBinder`). */
  type CodeToken = nat

  /** `Process.SYSTEM_UID`. */
  const SYSTEM_UID: int := 1000

  const CODE_HOLDER_CLASS: string := "com.android.supplemental.process.CodeHolder"

  /** How loading and constructing `CodeHolder` through the code's class
      loader ends; the failures carry the exception's `toString`. */
  datatype HolderOutcome =
    | HolderConstructed
    | HolderClassNotFound
    | HolderNoSuchMethod
    | HolderInstantiation(description: string)
    | HolderIllegalAccess(description: string)
    | HolderInvocationTarget(description: string)

  /** The error reported when the holder cannot be built; none when it can. */
  function HolderFailure(outcome: HolderOutcome): (r: Option<(WorkerErrorCode, string)>)
    ensures r.None? <==> outcome.HolderConstructed?
    ensures r.Some? && r.value.0 == LoadCodeNotFound <==> outcome.HolderClassNotFound? || outcome.HolderNoSuchMethod?
    ensures r.Some? && r.value.0 == LoadCodeInstantiationError <==>
              outcome.HolderInstantiation? || outcome.HolderIllegalAccess? || outcome.HolderInvocationTarget?
  {
    match outcome
    case HolderConstructed => None
    case HolderClassNotFound => Some((LoadCodeNotFound, "Failed to find: " + CODE_HOLDER_CLASS))
    case HolderNoSuchMethod => Some((LoadCodeNotFound, "Failed to find: " + CODE_HOLDER_CLASS))
    case HolderInstantiation(e) => Some((LoadCodeInstantiationError, "Failed to instantiate " + CODE_HOLDER_CLASS + ": " + e))
    case HolderIllegalAccess(e) => Some((LoadCodeInstantiationError, "Failed to instantiate " + CODE_HOLDER_CLASS + ": " + e))
    case HolderInvocationTarget(e) => Some((LoadCodeInstantiationError, "Failed to instantiate " + CODE_HOLDER_CLASS + ": " + e))
  }

  function NotSystemServerMessage(callingUid: int): string {
    "Only system_server is allowed to call this API, actual calling uid is " + IntToString(callingUid)
  }

  /** The message is only sent to callers that are not the system server, and
      it names the caller's uid: different callers get different messages. */
  lemma NotSystemServerMessageNamesCaller(a: int, b: int)
    ensures NotSystemServerMessage(a) == NotSystemServerMessage(b) <==> a == b
  {
    var prefix := "Only system_server is allowed to call this API, actual calling uid is ";
    if NotSystemServerMessage(a) == NotSystemServerMessage(b) {
      assert IntToString(a) == NotSystemServerMessage(a)[|prefix|..];
      assert IntToString(b) == NotSystemServerMessage(b)[|prefix|..];
      IntToStringInjective(a, b);
    }
  }

  class SupplementalProcessService {
    var heldCode: map<CodeToken, CodeHolder>
    /** The load errors sent on the manager's callbacks by the service itself. */
    ghost var log: seq<WorkerCall>

    /** Every held code holder has been initialised. */
    ghost predicate Valid()
      reads this, heldCode.Values
    {
      forall t | t in heldCode :: heldCode[t].initialized
    }

    constructor ()
      ensures Valid() && heldCode == map[] && log == []
    {
      heldCode := map[];
      log := [];
    }

    /** `loadCode`: callers other than the system server get a
        `SecurityException` naming their uid, and nothing is loaded. */
    method LoadCode(callingUid: int, codeToken: CodeToken, packageName: string, codeProviderClassName: string,
                    callback: ManagerCallback, outcome: HolderOutcome, initOutcome: InitOutcome)
      returns (c: Completion, ghost holder: CodeHolder?)
      requires Valid()
      modifies this
      ensures Valid()
      ensures callingUid != SYSTEM_UID ==>
                c == Threw(SecurityException(NotSystemServerMessage(callingUid)))
                && holder == null && heldCode == old(heldCode) && log == old(log)
      ensures callingUid == SYSTEM_UID ==> c == Returned && LoadCodeInternalEffect(old(heldCode), old(log), codeToken,
                                             packageName, codeProviderClassName, callback, outcome, initOutcome, holder)
    {
      if callingUid != SYSTEM_UID {
        return Threw(SecurityException(NotSystemServerMessage(callingUid))), null;
      }
      holder := LoadCodeInternal(codeToken, packageName, codeProviderClassName, callback, outcome, initOutcome);
      return Returned, holder;
    }

    /** What `loadCodeInternal` does to the table and the log: a held token is
        refused with `LOAD_CODE_ALREADY_LOADED`; a holder that could be built
        is initialised and held under the token, whatever its init reports
        later; otherwise the failure is reported and nothing is held. */
    ghost predicate LoadCodeInternalEffect(heldBefore: map<CodeToken, CodeHolder>, logBefore: seq<WorkerCall>,
                                           codeToken: CodeToken, packageName: string, codeProviderClassName: string,
                                           callback: ManagerCallback, outcome: HolderOutcome, initOutcome: InitOutcome,
                                           holder: CodeHolder?)
      reads this, holder
    {
      if codeToken in heldBefore then
        && holder == null && heldCode == heldBefore
        && log == logBefore + [LoadCodeError(callback, LoadCodeAlreadyLoaded, "Already loaded code for package " + packageName)]
      else match HolderFailure(outcome)
        case Some((code, message)) =>
          holder == null && heldCode == heldBefore && log == logBefore + [LoadCodeError(callback, code, message)]
        case None =>
          && holder != null && heldCode == heldBefore[codeToken := holder] && log == logBefore
          && holder.initialized && holder.callback == Some(callback) && holder.surfacePackages == map[]
          && holder.log == match InitFailureMessage(initOutcome, codeProviderClassName)
                           case None => []
                           case Some(m) => [LoadCodeError(callback, LoadCodeProviderInitError, m)]
    }

    method LoadCodeInternal(codeToken: CodeToken, packageName: string, codeProviderClassName: string,
                            callback: ManagerCallback, outcome: HolderOutcome, initOutcome: InitOutcome)
      returns (ghost holder: CodeHolder?)
      requires Valid()
      modifies this
      ensures Valid()
      ensures holder != null ==> fresh(holder)
      ensures LoadCodeInternalEffect(old(heldCode), old(log), codeToken, packageName, codeProviderClassName,
                                     callback, outcome, initOutcome, holder)
    {
      if codeToken in heldCode {
        log := log + [LoadCodeError(callback, LoadCodeAlreadyLoaded, "Already loaded code for package " + packageName)];
        return null;
      }
      var failure := HolderFailure(outcome);
      if failure.Some? {
        log := log + [LoadCodeError(callback, failure.value.0, failure.value.1)];
        return null;
      }
      var codeHolder := new CodeHolder();
      var initResult := codeHolder.Init(callback, codeProviderClassName, initOutcome);
      heldCode := heldCode[codeToken := codeHolder];
      return codeHolder;
    }
  }
}
