/**
 * The frozen job parameters handed to the patch engine (`Patcher.Options`)
 * and the path lists they are built from.
 */
module PatchOptions {
  import opened Wrappers

  /**
   * An installed application as the patch screen sees it: its label, its
   * package name, the path of its base APK and the paths of its split APKs
   * (null in the platform when the app has no splits).
   */
  datatype AppInfo = AppInfo(
    appLabel: string,
    packageName: string,
    sourceDir: string,
    splitSourceDirs: Option<seq<string>>)

  datatype Options = Options(
    apkPaths: seq<string>,
    debuggable: bool,
    sigbypassLevel: int,
    v1: bool,
    v2: bool,
    useManager: bool,
    overrideVersionCode: bool,
    verbose: bool,
    embeddedModules: seq<string>)

  /** The split APK paths of an app, a null array counting as empty. */
  function Splits(app: AppInfo): seq<string>
  {
    app.splitSourceDirs.GetOr([])
  }

  /** The base APK path followed by the split APK paths. */
  function ApkPaths(app: AppInfo): (r: seq<string>)
    ensures |r| == 1 + |Splits(app)|
    ensures r[0] == app.sourceDir
    ensures r[1..] == Splits(app)
    ensures app.splitSourceDirs.None? ==> r == [app.sourceDir]
  {
    [app.sourceDir] + Splits(app)
  }

  /** Number of APK files the given apps contribute: one base plus the splits each. */
  function PathCount(apps: seq<AppInfo>): nat
    decreases |apps|
  {
    if apps == [] then 0 else 1 + |Splits(apps[0])| + PathCount(apps[1..])
  }

  /** The flat map, in order, of the APK paths of every app. */
  function ModulePaths(apps: seq<AppInfo>): (r: seq<string>)
    ensures |r| == PathCount(apps)
    ensures |apps| > 0 ==> |r| > 0 && r[0] == apps[0].sourceDir
    decreases |apps|
  {
    if apps == [] then [] else ApkPaths(apps[0]) + ModulePaths(apps[1..])
  }

  /** Flattening distributes over concatenation of the app list. */
  lemma {:induction false} ModulePathsAppend(a: seq<AppInfo>, b: seq<AppInfo>)
    ensures ModulePaths(a + b) == ModulePaths(a) + ModulePaths(b)
    decreases |a|
  {
    if a == [] {
      assert a + b == b;
    } else {
      assert (a + b)[1..] == a[1..] + b;
      ModulePathsAppend(a[1..], b);
    }
  }

  /** A path is in the flattened list exactly when it is the base or a split of some listed app. */
  lemma {:induction false} ModulePathsMembership(apps: seq<AppInfo>, p: string)
    ensures p in ModulePaths(apps) <==> exists k :: 0 <= k < |apps| && p in ApkPaths(apps[k])
    decreases |apps|
  {
    if apps != [] {
      ModulePathsMembership(apps[1..], p);
      if p in ApkPaths(apps[0]) {
        assert 0 < |apps| && p in ApkPaths(apps[0]);
      }
      if exists k :: 0 <= k < |apps| && p in ApkPaths(apps[k]) {
        var k :| 0 <= k < |apps| && p in ApkPaths(apps[k]);
        if k > 0 {
          assert apps[1..][k - 1] == apps[k];
        }
      }
    }
  }

  /** The paths of one app sit in the flattened list right after those of the apps before it. */
  lemma {:induction false} ModulePathsSlot(apps: seq<AppInfo>, k: nat)
    requires k < |apps|
    ensures ModulePaths(apps[..k]) + ApkPaths(apps[k]) <= ModulePaths(apps)
  {
    var before, tail := apps[..k], apps[k..];
    assert apps == before + tail;
    ModulePathsAppend(before, tail);
    assert tail[0] == apps[k];
    assert ModulePaths(tail) == ApkPaths(apps[k]) + ModulePaths(tail[1..]);
    assert ModulePaths(apps) == ModulePaths(before) + ApkPaths(apps[k]) + ModulePaths(tail[1..]);
  }
}
