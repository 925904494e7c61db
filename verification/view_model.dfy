/**
 * The controller behind the "new patch" screen: a five-state lifecycle, the
 * configuration the user edits before submitting, the options frozen at
 * submission, the log the patch run writes, and the temporary APK directory
 * cleaned after every run. Each action is a pure step from one controller
 * state to the next; the code applies no transition guards, and neither does
 * this model.
 */
module NewPatchViewModel {
  import opened Wrappers
  import opened PatchLogger
  import opened PatchOptions

  datatype PatchState = SELECTING | CONFIGURING | PATCHING | FINISHED | ERROR

  datatype ViewAction = ConfigurePatch(app: AppInfo) | SubmitPatch | LaunchPatch

  /** How the protected block of a launch ended: normally, or with a throwable's (nullable) message and stack trace. */
  datatype Outcome = Success | Failure(message: Option<string>, trace: string)

  /**
   * What the protected block of a launch did, as seen by the controller:
   * the logger calls the engine made, in order, and how it ended.
   */
  datatype EngineRun = EngineRun(calls: seq<LogCall>, outcome: Outcome)

  const LAUNCH_MESSAGE: string := "Launch patch"

  /** Message of the exception Kotlin raises when `patchOptions` is read before it is set. */
  const PATCH_OPTIONS_UNINITIALIZED: string := "lateinit property patchOptions has not been initialized"

  /**
   * The controller state. `sign` holds the v1 and v2 signing toggles;
   * `verbose` is the logger's verbose flag; `tmpApkDir` is the set of files
   * in the application-wide temporary APK directory.
   */
  datatype ViewModel = ViewModel(
    patchState: PatchState,
    useManager: bool,
    debuggable: bool,
    overrideVersionCode: bool,
    sign: seq<bool>,
    sigBypassLevel: int,
    embeddedModules: seq<AppInfo>,
    patchApp: Option<AppInfo>,
    patchOptions: Option<Options>,
    logs: seq<LogEntry>,
    verbose: bool,
    tmpApkDir: set<string>)

  /** The user-editable flags and the logger's verbosity agree. */
  predicate SameSettings(a: ViewModel, b: ViewModel)
  {
    && a.useManager == b.useManager
    && a.debuggable == b.debuggable
    && a.overrideVersionCode == b.overrideVersionCode
    && a.sign == b.sign
    && a.sigBypassLevel == b.sigBypassLevel
    && a.verbose == b.verbose
  }

  /**
   * A newly created controller. The logger's initial verbosity belongs to
   * the logger base class and the temporary directory is shared by the
   * whole application, so both are given.
   */
  function Fresh(verbose: bool, tmpApkDir: set<string>): (r: ViewModel)
    ensures r.patchState == SELECTING
    ensures r.useManager && !r.debuggable && !r.overrideVersionCode
    ensures r.sign == [false, true] && r.sigBypassLevel == 2
    ensures r.embeddedModules == [] && r.logs == []
    ensures r.patchApp.None? && r.patchOptions.None?
    ensures r.verbose == verbose && r.tmpApkDir == tmpApkDir
  {
    ViewModel(SELECTING, true, false, false, [false, true], 2, [], None, None, [], verbose, tmpApkDir)
  }

  /** Selects the app to patch, from whatever state the controller is in. */
  function Configure(c: ViewModel, app: AppInfo): (r: ViewModel)
    ensures r.patchState == CONFIGURING && r.patchApp == Some(app)
    ensures SameSettings(c, r)
    ensures r.embeddedModules == c.embeddedModules && r.patchOptions == c.patchOptions
    ensures r.logs == c.logs && r.tmpApkDir == c.tmpApkDir
  {
    c.(patchApp := Some(app), patchState := CONFIGURING)
  }

  /**
   * Freezes the configuration into patch options. Reading `patchApp` before
   * any app was configured, or a `sign` list shorter than two, throws in the
   * code without being caught, so both are required here.
   */
  function Submit(c: ViewModel): (r: ViewModel)
    requires c.patchApp.Some? && |c.sign| >= 2
    ensures r.patchState == PATCHING && r.patchOptions.Some?
    ensures var app, o := c.patchApp.value, r.patchOptions.value;
      && |o.apkPaths| >= 1 && o.apkPaths[0] == app.sourceDir && o.apkPaths[1..] == Splits(app)
      && o.debuggable == c.debuggable && o.sigbypassLevel == c.sigBypassLevel
      && o.v1 == c.sign[0] && o.v2 == c.sign[1]
      && o.useManager == c.useManager && o.overrideVersionCode == c.overrideVersionCode
      && o.verbose
    ensures c.useManager ==> r.embeddedModules == [] && r.patchOptions.value.embeddedModules == []
    ensures !c.useManager ==>
      && r.embeddedModules == c.embeddedModules
      && r.patchOptions.value.embeddedModules == ModulePaths(c.embeddedModules)
      && |r.patchOptions.value.embeddedModules| == PathCount(c.embeddedModules)
    ensures SameSettings(c, r) && r.patchApp == c.patchApp
    ensures r.logs == c.logs && r.tmpApkDir == c.tmpApkDir
  {
    var app := c.patchApp.value;
    var modules := if c.useManager then [] else c.embeddedModules;
    var options := Options(
      apkPaths := ApkPaths(app),
      debuggable := c.debuggable,
      sigbypassLevel := c.sigBypassLevel,
      v1 := c.sign[0], v2 := c.sign[1],
      useManager := c.useManager,
      overrideVersionCode := c.overrideVersionCode,
      verbose := true,
      embeddedModules := ModulePaths(modules));
    c.(embeddedModules := modules, patchOptions := Some(options), patchState := PATCHING)
  }

  /** The protected block failed on the unset `patchOptions`, before the engine could run. */
  predicate ThrowsUninitialized(run: EngineRun)
  {
    run.calls == [] && run.outcome.Failure? && run.outcome.message == Some(PATCH_OPTIONS_UNINITIALIZED)
  }

  /** The run is one the protected block can produce in state `c`. */
  predicate LaunchReady(c: ViewModel, run: EngineRun)
  {
    c.patchOptions.Some? || ThrowsUninitialized(run)
  }

  /**
   * Announces the launch, lets the engine run, records a failure as two
   * error entries (its message, or "" when null, then its stack trace), maps
   * the outcome to a terminal state and always empties the temporary APK
   * directory.
   */
  function Launch(c: ViewModel, run: EngineRun): (r: ViewModel)
    requires LaunchReady(c, run)
    ensures c.logs + [LogEntry(LOG_INFO, LAUNCH_MESSAGE)] <= r.logs
    ensures r.tmpApkDir == {}
    ensures run.outcome.Success? <==> r.patchState == FINISHED
    ensures run.outcome.Failure? <==> r.patchState == ERROR
    ensures run.outcome.Success? ==>
      r.logs == c.logs + [LogEntry(LOG_INFO, LAUNCH_MESSAGE)] + Retained(c.verbose, run.calls)
    ensures run.outcome.Failure? ==>
      r.logs == c.logs + [LogEntry(LOG_INFO, LAUNCH_MESSAGE)] + Retained(c.verbose, run.calls)
        + [LogEntry(LOG_ERROR, run.outcome.message.GetOr("")), LogEntry(LOG_ERROR, run.outcome.trace)]
    ensures SameSettings(c, r) && r.embeddedModules == c.embeddedModules
    ensures r.patchApp == c.patchApp && r.patchOptions == c.patchOptions
  {
    var launched := Info(c.logs, LAUNCH_MESSAGE);
    var engineLogs := Replay(launched, c.verbose, run.calls);
    ReplayAppendsRetained(launched, c.verbose, run.calls);
    match run.outcome
    case Success =>
      c.(patchState := FINISHED, logs := engineLogs, tmpApkDir := {})
    case Failure(message, trace) =>
      var failed := Error(Error(engineLogs, message.GetOr("")), trace);
      c.(patchState := ERROR, logs := failed, tmpApkDir := {})
  }

  /** Whether `dispatch` can be called with this action without an uncaught exception. */
  predicate Enabled(c: ViewModel, action: ViewAction, run: EngineRun)
  {
    match action
    case ConfigurePatch(_) => true
    case SubmitPatch => c.patchApp.Some? && |c.sign| >= 2
    case LaunchPatch => LaunchReady(c, run)
  }

  /** The state each action leads to, whatever the state it starts from. */
  function Target(action: ViewAction, run: EngineRun): PatchState
  {
    match action
    case ConfigurePatch(_) => CONFIGURING
    case SubmitPatch => PATCHING
    case LaunchPatch => if run.outcome.Success? then FINISHED else ERROR
  }

  /**
   * Routes an action to its handler. `run` describes the engine's behaviour
   * and matters only to `LaunchPatch`.
   */
  function Dispatch(c: ViewModel, action: ViewAction, run: EngineRun): (r: ViewModel)
    requires Enabled(c, action, run)
    ensures r.patchState == Target(action, run)
    ensures c.logs <= r.logs
    ensures !action.LaunchPatch? ==> r.logs == c.logs && r.tmpApkDir == c.tmpApkDir
    ensures action.LaunchPatch? ==> r.tmpApkDir == {} && |r.logs| > |c.logs|
    ensures SameSettings(c, r)
  {
    match action
    case ConfigurePatch(app) => Configure(c, app)
    case SubmitPatch => Submit(c)
    case LaunchPatch => Launch(c, run)
  }
}
