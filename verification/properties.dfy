/**
 * Properties of the patch controller that relate several actions: whole
 * action sequences, repeated actions, and the typical flows from a fresh
 * controller to a terminal state.
 */
module ViewModelProperties {
  import opened Wrappers
  import opened PatchLogger
  import opened PatchOptions
  import opened NewPatchViewModel

  /** One dispatched action together with the engine behaviour a launch would meet. */
  datatype Step = Step(action: ViewAction, run: EngineRun)

  /** Every step of the sequence can be dispatched in the state the previous ones leave. */
  predicate Runnable(c: ViewModel, steps: seq<Step>)
    decreases |steps|
  {
    steps == [] ||
    (Enabled(c, steps[0].action, steps[0].run)
     && Runnable(Dispatch(c, steps[0].action, steps[0].run), steps[1..]))
  }

  /** Dispatches the steps in order. */
  function DispatchAll(c: ViewModel, steps: seq<Step>): (r: ViewModel)
    requires Runnable(c, steps)
    ensures c.logs <= r.logs
    ensures SameSettings(c, r)
    ensures steps != [] ==> r.patchState == Target(steps[|steps| - 1].action, steps[|steps| - 1].run)
    ensures steps == [] ==> r == c
    decreases |steps|
  {
    if steps == [] then c
    else DispatchAll(Dispatch(c, steps[0].action, steps[0].run), steps[1..])
  }

  /** Over any run of actions, every prefix of the run is runnable and leaves a prefix of the final log. */
  lemma {:induction false} LogNeverShrinks(c: ViewModel, steps: seq<Step>, k: nat)
    requires Runnable(c, steps) && k <= |steps|
    ensures Runnable(c, steps[..k])
    ensures DispatchAll(c, steps[..k]).logs <= DispatchAll(c, steps).logs
    decreases k
  {
    if k == 0 {
      assert steps[..k] == [];
    } else {
      var c1 := Dispatch(c, steps[0].action, steps[0].run);
      assert steps[..k][0] == steps[0];
      assert steps[..k][1..] == steps[1..][..k - 1];
      LogNeverShrinks(c1, steps[1..], k - 1);
    }
  }

  /** Submitting twice in a row changes nothing the first submission did not. */
  lemma SubmitIdempotent(c: ViewModel)
    requires c.patchApp.Some? && |c.sign| >= 2
    ensures Submit(Submit(c)) == Submit(c)
  {
  }

  /** Configuring twice keeps only the second app. */
  lemma ConfigureLastWins(c: ViewModel, first: AppInfo, second: AppInfo)
    ensures Configure(Configure(c, first), second) == Configure(c, second)
  {
  }

  /** Terminal states are not final: the controller can be reconfigured after a run. */
  lemma ReconfigureAfterRun(c: ViewModel, app: AppInfo, run: EngineRun)
    requires c.patchState == FINISHED || c.patchState == ERROR
    ensures Dispatch(c, ConfigurePatch(app), run).patchState == CONFIGURING
    ensures Dispatch(c, ConfigurePatch(app), run).patchApp == Some(app)
  {
  }

  /**
   * Configure, submit and a successful launch from a fresh controller:
   * the job finishes, the options target the app, no module is embedded
   * (the manager mode is on by default), the log is the launch line plus
   * what the engine wrote, and the temporary directory ends empty.
   */
  lemma SuccessfulFlow(verbose: bool, tmp: set<string>, app: AppInfo, calls: seq<LogCall>)
    ensures var c := Launch(Submit(Configure(Fresh(verbose, tmp), app)), EngineRun(calls, Success));
      && c.patchState == FINISHED
      && c.patchOptions.Some?
      && c.patchOptions.value.apkPaths == [app.sourceDir] + Splits(app)
      && c.patchOptions.value.embeddedModules == []
      && c.patchOptions.value.v2 && !c.patchOptions.value.v1
      && c.patchOptions.value.sigbypassLevel == 2
      && c.logs == [LogEntry(LOG_INFO, LAUNCH_MESSAGE)] + Retained(verbose, calls)
      && c.tmpApkDir == {}
  {
  }

  /**
   * A failing engine whose throwable carries message "boom": the last two
   * log entries are errors, the first of them "boom", and the job ends in ERROR.
   */
  lemma FailingFlow(c: ViewModel, calls: seq<LogCall>, trace: string)
    requires c.patchOptions.Some?
    ensures var r := Launch(c, EngineRun(calls, Failure(Some("boom"), trace)));
      && r.patchState == ERROR
      && |r.logs| >= 2
      && r.logs[|r.logs| - 2] == LogEntry(LOG_ERROR, "boom")
      && r.logs[|r.logs| - 1] == LogEntry(LOG_ERROR, trace)
      && r.tmpApkDir == {}
  {
  }

  /**
   * Launching before any submission: the unset options make the protected
   * block throw before the engine runs, so the log gets the launch line and
   * the two error entries, and the job ends in ERROR with the directory cleaned.
   */
  lemma LaunchBeforeSubmit(verbose: bool, tmp: set<string>, app: AppInfo, trace: string)
    ensures var r := Launch(Configure(Fresh(verbose, tmp), app),
                            EngineRun([], Failure(Some(PATCH_OPTIONS_UNINITIALIZED), trace)));
      && r.patchState == ERROR
      && r.logs == [LogEntry(LOG_INFO, LAUNCH_MESSAGE),
                    LogEntry(LOG_ERROR, PATCH_OPTIONS_UNINITIALIZED),
                    LogEntry(LOG_ERROR, trace)]
      && r.tmpApkDir == {}
  {
  }

  /**
   * With the manager mode off, a target without splits and one module with a
   * base and one split, the embedded module list is those two paths in order.
   */
  lemma EmbeddedModulesExample(c: ViewModel)
    requires c.patchApp == Some(AppInfo("Target", "com.example.target", "base.pkg", None))
    requires |c.sign| >= 2 && !c.useManager
    requires c.embeddedModules == [AppInfo("Aux", "com.example.aux", "aux.pkg", Some(["aux.split.pkg"]))]
    ensures Submit(c).patchOptions.value.apkPaths == ["base.pkg"]
    ensures Submit(c).patchOptions.value.embeddedModules == ["aux.pkg", "aux.split.pkg"]
  {
  }
}
