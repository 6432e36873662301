/** What the manager asks the package manager when it resolves an SDK name:
    the packages installed for the calling uid, each package's application
    info, and the shared libraries each package uses.  The package manager
    itself is data here (a snapshot handed to each call). */
module Packages {
  import opened Common

  /** `SharedLibraryInfo.getType()`; only `SdkPackage` libraries are SDKs. */
  datatype LibraryType = Builtin | Dynamic | Static | SdkPackage

  datatype SharedLibrary = SharedLibrary(libraryType: LibraryType, name: string, declaringPackage: string)

  /** The parts of `ApplicationInfo` the manager reads: the package name, the
      uid the package runs as, and the shared libraries it uses. */
  datatype ApplicationInfo = ApplicationInfo(packageName: string, uid: int, sharedLibraries: seq<SharedLibrary>)

  /** `getPackagesForUid` and `getApplicationInfo`/`getPackageInfo`: a package
      name missing from `applications` makes the package manager throw
      `NameNotFoundException`. */
  datatype PackageData = PackageData(packagesForUid: map<int, seq<string>>, applications: map<string, ApplicationInfo>)

  predicate IsSdkNamed(lib: SharedLibrary, name: string) {
    lib.libraryType == SdkPackage && lib.name == name
  }

  /** The first SDK library called `name` in `libs`, if any. */
  function FirstSdkLibrary(libs: seq<SharedLibrary>, name: string): (r: Option<nat>)
    ensures r.Some? ==> r.value < |libs| && IsSdkNamed(libs[r.value], name)
                        && forall j | 0 <= j < r.value :: !IsSdkNamed(libs[j], name)
    ensures r.None? ==> forall j | 0 <= j < |libs| :: !IsSdkNamed(libs[j], name)
  {
    if libs == [] then None
    else if IsSdkNamed(libs[0], name) then Some(0)
    else match FirstSdkLibrary(libs[1..], name)
      case None => None
      case Some(j) => Some(j + 1)
  }

  /** Package `p` is installed and uses an SDK library called `name`. */
  predicate DeclaresSdk(pm: PackageData, p: string, name: string) {
    p in pm.applications && FirstSdkLibrary(pm.applications[p].sharedLibraries, name).Some?
  }

  /** The application info of the package declaring the SDK that the first of
      `packageNames` using an SDK library called `name` depends on.  The search
      gives up (`None`) at the first package the package manager does not
      know, and when the declaring package is unknown. */
  function FindSdkInfo(pm: PackageData, name: string, packageNames: seq<string>): Option<ApplicationInfo>
  {
    if packageNames == [] then None
    else if packageNames[0] !in pm.applications then None
    else
      var libs := pm.applications[packageNames[0]].sharedLibraries;
      match FirstSdkLibrary(libs, name)
      case None => FindSdkInfo(pm, name, packageNames[1..])
      case Some(j) =>
        if libs[j].declaringPackage in pm.applications then Some(pm.applications[libs[j].declaringPackage])
        else None
  }

  /** `getSdkInfo`: scans the calling uid's packages and their shared libraries
      in order, skipping libraries that are not SDKs or have another name.  A
      uid with no package list (`getPackagesForUid` answers null) makes the
      scan throw. */
  method GetSdkInfo(pm: PackageData, sharedLibraryName: string, callingUid: int)
    returns (c: Completion, info: Option<ApplicationInfo>)
    ensures callingUid !in pm.packagesForUid ==> c == Threw(NullPointerException) && info == None
    ensures callingUid in pm.packagesForUid ==>
              c == Returned && info == FindSdkInfo(pm, sharedLibraryName, pm.packagesForUid[callingUid])
  {
    c := Returned;
    if callingUid !in pm.packagesForUid {
      return Threw(NullPointerException), None;
    }
    var packageNames := pm.packagesForUid[callingUid];
    var i := 0;
    while i < |packageNames|
      invariant 0 <= i <= |packageNames|
      invariant FindSdkInfo(pm, sharedLibraryName, packageNames) == FindSdkInfo(pm, sharedLibraryName, packageNames[i..])
    {
      if packageNames[i] !in pm.applications {
        return c, None;
      }
      var sharedLibraries := pm.applications[packageNames[i]].sharedLibraries;
      var j := 0;
      while j < |sharedLibraries|
        invariant 0 <= j <= |sharedLibraries|
        invariant forall k | 0 <= k < j :: !IsSdkNamed(sharedLibraries[k], sharedLibraryName)
      {
        var sharedLibrary := sharedLibraries[j];
        if sharedLibrary.libraryType != SdkPackage {
          j := j + 1;
          continue;
        }
        if sharedLibraryName != sharedLibrary.name {
          j := j + 1;
          continue;
        }
        if sharedLibrary.declaringPackage !in pm.applications {
          return c, None;
        }
        return c, Some(pm.applications[sharedLibrary.declaringPackage]);
      }
      assert packageNames[i..][1..] == packageNames[i + 1..];
      i := i + 1;
    }
    return c, None;
  }

  /** `getCodeInfo` of the older revision: the code package is looked up by its own name. */
  function GetCodeInfo(pm: PackageData, packageName: string): (info: Option<ApplicationInfo>)
    ensures info.Some? <==> packageName in pm.applications
    ensures info.Some? ==> info.value == pm.applications[packageName]
  {
    if packageName in pm.applications then Some(pm.applications[packageName]) else None
  }

  /** No installed package of the caller uses an SDK called `name`: nothing is found. */
  lemma {:induction false} FindSdkInfoNone(pm: PackageData, name: string, packageNames: seq<string>)
    requires forall i | 0 <= i < |packageNames| :: !DeclaresSdk(pm, packageNames[i], name)
    ensures FindSdkInfo(pm, name, packageNames) == None
  {
    if packageNames != [] && packageNames[0] in pm.applications {
      assert !DeclaresSdk(pm, packageNames[0], name);
      FindSdkInfoNone(pm, name, packageNames[1..]);
    }
  }

  /** When the packages before `i` are known and do not use the SDK and package
      `i` does, the result is the declaring package of `i`'s first matching
      library: earlier packages win and later ones are never consulted. */
  lemma {:induction false} FindSdkInfoFirst(pm: PackageData, name: string, packageNames: seq<string>, i: nat)
    requires i < |packageNames| && DeclaresSdk(pm, packageNames[i], name)
    requires forall k | 0 <= k < i :: packageNames[k] in pm.applications && !DeclaresSdk(pm, packageNames[k], name)
    ensures var libs := pm.applications[packageNames[i]].sharedLibraries;
            var lib := libs[FirstSdkLibrary(libs, name).value];
            FindSdkInfo(pm, name, packageNames)
              == if lib.declaringPackage in pm.applications then Some(pm.applications[lib.declaringPackage]) else None
  {
    if i > 0 {
      assert !DeclaresSdk(pm, packageNames[0], name);
      FindSdkInfoFirst(pm, name, packageNames[1..], i - 1);
    }
  }

  /** Whatever is found is the application info of the declaring package of an
      SDK named `name` that one of the caller's packages uses. */
  lemma {:induction false} FindSdkInfoSound(pm: PackageData, name: string, packageNames: seq<string>)
    requires FindSdkInfo(pm, name, packageNames).Some?
    ensures exists i, j | 0 <= i < |packageNames| && packageNames[i] in pm.applications
                          && 0 <= j < |pm.applications[packageNames[i]].sharedLibraries| ::
              var lib := pm.applications[packageNames[i]].sharedLibraries[j];
              IsSdkNamed(lib, name) && lib.declaringPackage in pm.applications
              && FindSdkInfo(pm, name, packageNames).value == pm.applications[lib.declaringPackage]
  {
    var libs := pm.applications[packageNames[0]].sharedLibraries;
    match FirstSdkLibrary(libs, name)
    case Some(j) =>
      assert packageNames[0] in pm.applications;
    case None =>
      FindSdkInfoSound(pm, name, packageNames[1..]);
      var i, j :| 0 <= i < |packageNames[1..]| && packageNames[1..][i] in pm.applications
                  && 0 <= j < |pm.applications[packageNames[1..][i]].sharedLibraries|
                  && var lib := pm.applications[packageNames[1..][i]].sharedLibraries[j];
                     IsSdkNamed(lib, name) && lib.declaringPackage in pm.applications
                     && FindSdkInfo(pm, name, packageNames[1..]).value == pm.applications[lib.declaringPackage];
      assert packageNames[i + 1] == packageNames[1..][i];
  }
}
