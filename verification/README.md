# LSPatch new-patch controller, in Dafny

A model of `NewPatchViewModel`, the controller behind LSPatch manager's
"new patch" screen. The user picks an installed app, sets flags (manager
mode, debuggable, version-code override, v1/v2 signing, signature-bypass
level, modules to embed), submits, and launches the patch. The controller
holds the five-value `PatchState`, dispatches three `ViewAction`s, freezes
the configuration into `Patcher.Options`, keeps a leveled log and empties
the temporary APK directory after every launch.

Here the controller is an immutable `ViewModel` record and each action is
a pure function from one record to the next. The patch engine is not
called. Instead, `Launch` takes an `EngineRun`: the logger calls the
engine made, in order, and whether it returned or threw. A throw carries
a nullable message and a stack trace.

Files:
- `wrappers.dfy`: `Option`, standing in for Kotlin's nullable types.
- `logger.dfy`: module `PatchLogger`, the `d`/`i`/`e` logger and the
  replay of a sequence of logger calls.
- `options.dfy`: module `PatchOptions`, which covers `AppInfo`,
  `Patcher.Options`, the base-plus-splits path list and the flattened
  module path list.
- `view_model.dfy`: module `NewPatchViewModel`, which covers the states,
  the actions, `Configure`, `Submit`, `Launch` and `Dispatch`.
- `properties.dfy`: module `ViewModelProperties`, which holds properties
  that span several actions.

The code has no transition guards. Configuring always moves to
CONFIGURING, even from FINISHED or ERROR. Submitting always moves to
PATCHING, even a second time. Launching always ends in FINISHED or ERROR.
Nothing rejects a second submission, and FINISHED and ERROR are not
final: `ReconfigureAfterRun` and `SubmitIdempotent` state this.

Two `lateinit` fields can be read before they are set:
- `submitPatch` before any `configurePatch`: the read of `patchApp` throws
  outside any handler, so `Submit` requires `patchApp` to be set.
- `launchPatch` before any `submitPatch`: the read of `patchOptions`
  happens inside the `try`, so its exception is caught like an engine
  failure. `Launch` models this case. The run must then be that exception:
  no engine log calls and Kotlin's "lateinit property patchOptions has not
  been initialized" message. The job ends in ERROR (`LaunchBeforeSubmit`).

`sign` is a list that the code indexes at 0 and 1, so `Submit` requires at
least two elements.

## Model

| member | source | states |
|---|---|---|
| NewPatchViewModel.Fresh | manager/src/main/java/org/lsposed/lspatch/ui/viewmodel/NewPatchViewModel.kt:32-47 | a new controller is SELECTING, manager mode on, not debuggable, no version override, signing [false, true], bypass level 2, no modules, no app, no options, empty log |
| NewPatchViewModel.Configure | manager/src/main/java/org/lsposed/lspatch/ui/viewmodel/NewPatchViewModel.kt:75-79 | from any state: records the app and moves to CONFIGURING; flags, modules, options, log and temp directory are unchanged |
| NewPatchViewModel.Submit | manager/src/main/java/org/lsposed/lspatch/ui/viewmodel/NewPatchViewModel.kt:81-95 | moves to PATCHING with options whose APK list starts with the base path and continues with the splits; debuggable, bypass level, manager mode and version override are copied; v1/v2 come from sign[0]/sign[1]; verbose is forced on; in manager mode the staged modules and the embedded list are empty; otherwise the embedded list is the in-order flattening of the selected modules, of length the sum of 1 + splits; log and temp directory are untouched |
| NewPatchViewModel.Launch | manager/src/main/java/org/lsposed/lspatch/ui/viewmodel/NewPatchViewModel.kt:97-111 | the log gains "Launch patch" as INFO, then exactly the entries the engine's calls leave; success maps to FINISHED with nothing more appended; failure maps to ERROR after two ERROR entries (the message or "", then the trace); the temp directory is empty on both paths; configuration and options are unchanged |
| NewPatchViewModel.Dispatch | manager/src/main/java/org/lsposed/lspatch/ui/viewmodel/NewPatchViewModel.kt:67-73 | each action leads to its target state whatever the prior state; the log only grows; only a launch writes the log or cleans the temp directory; flags never change |
| PatchLogger.Debug | manager/src/main/java/org/lsposed/lspatch/ui/viewmodel/NewPatchViewModel.kt:49-54 | `d` appends one DEBUG entry with the message when verbose, and leaves the log unchanged otherwise |
| PatchLogger.Info | manager/src/main/java/org/lsposed/lspatch/ui/viewmodel/NewPatchViewModel.kt:56-59 | `i` keeps the old log as prefix and appends exactly one INFO entry with the message |
| PatchLogger.Error | manager/src/main/java/org/lsposed/lspatch/ui/viewmodel/NewPatchViewModel.kt:61-64 | `e` keeps the old log as prefix and appends exactly one ERROR entry with the message |
| PatchLogger.Perform | manager/src/main/java/org/lsposed/lspatch/ui/viewmodel/NewPatchViewModel.kt:48-65 | one logger call adds at most one entry; it adds one exactly when verbose or not a debug call, and that entry carries the call's priority and message |
| PatchLogger.Replay | manager/src/main/java/org/lsposed/lspatch/ui/viewmodel/NewPatchViewModel.kt:48-65 | a sequence of logger calls never removes or reorders entries: the old log stays a prefix |
| PatchLogger.ReplayAppendsRetained | manager/src/main/java/org/lsposed/lspatch/ui/viewmodel/NewPatchViewModel.kt:48-65 | performing calls one by one equals appending the reference list of retained entries: every call in order, debug ones only when verbose |
| PatchLogger.VerboseRetainsAll | manager/src/main/java/org/lsposed/lspatch/ui/viewmodel/NewPatchViewModel.kt:49-54 | in verbose mode there is one entry per call, in call order, with the call's priority and message |
| PatchLogger.QuietDropsOnlyDebug | manager/src/main/java/org/lsposed/lspatch/ui/viewmodel/NewPatchViewModel.kt:49-64 | the quiet log is the verbose log with the debug entries removed, so no INFO or ERROR entry is lost or reordered |
| PatchLogger.WithoutDebugAppend | manager/src/main/java/org/lsposed/lspatch/ui/viewmodel/NewPatchViewModel.kt:49-54 | dropping debug entries distributes over concatenation of logs |
| PatchOptions.ApkPaths | manager/src/main/java/org/lsposed/lspatch/ui/viewmodel/NewPatchViewModel.kt:85 | the path list is non-empty, its head is the base APK, its tail is the splits, and a null split array gives just the base |
| PatchOptions.ModulePaths | manager/src/main/java/org/lsposed/lspatch/ui/viewmodel/NewPatchViewModel.kt:92 | the flattened module list has one entry per base or split APK of the selected modules and starts with the first module's base |
| PatchOptions.ModulePathsAppend | manager/src/main/java/org/lsposed/lspatch/ui/viewmodel/NewPatchViewModel.kt:92 | flattening the concatenation of two module lists concatenates their flattenings |
| PatchOptions.ModulePathsMembership | manager/src/main/java/org/lsposed/lspatch/ui/viewmodel/NewPatchViewModel.kt:92 | a path is embedded exactly when it is the base or a split of some selected module |
| PatchOptions.ModulePathsSlot | manager/src/main/java/org/lsposed/lspatch/ui/viewmodel/NewPatchViewModel.kt:92 | each module's paths follow, contiguously and in order, the paths of the modules selected before it |
| ViewModelProperties.DispatchAll | manager/src/main/java/org/lsposed/lspatch/ui/viewmodel/NewPatchViewModel.kt:67-73 | over any run of actions the log only grows, the flags never change, and the final state is the target of the last action |
| ViewModelProperties.LogNeverShrinks | manager/src/main/java/org/lsposed/lspatch/ui/viewmodel/NewPatchViewModel.kt:47-65 | every prefix of a runnable action sequence is runnable and leaves a prefix of the final log |
| ViewModelProperties.SubmitIdempotent | manager/src/main/java/org/lsposed/lspatch/ui/viewmodel/NewPatchViewModel.kt:81-95 | a second submission is accepted and yields the same controller as the first |
| ViewModelProperties.ConfigureLastWins | manager/src/main/java/org/lsposed/lspatch/ui/viewmodel/NewPatchViewModel.kt:75-79 | configuring twice is the same as configuring once with the second app |
| ViewModelProperties.ReconfigureAfterRun | manager/src/main/java/org/lsposed/lspatch/ui/viewmodel/NewPatchViewModel.kt:67-79 | from FINISHED or ERROR, configuring moves back to CONFIGURING with the new app |
| ViewModelProperties.SuccessfulFlow | manager/src/main/java/org/lsposed/lspatch/ui/viewmodel/NewPatchViewModel.kt:32-110 | configure, submit and a successful launch from a fresh controller end FINISHED with the app's base-plus-splits paths, no embedded modules, v2 only, bypass level 2, a log of the launch line plus the engine's retained entries, and an empty temp directory |
| ViewModelProperties.FailingFlow | manager/src/main/java/org/lsposed/lspatch/ui/viewmodel/NewPatchViewModel.kt:103-108 | an engine failure with message "boom" ends ERROR with the last two entries ERROR "boom" and ERROR trace, temp directory empty |
| ViewModelProperties.LaunchBeforeSubmit | manager/src/main/java/org/lsposed/lspatch/ui/viewmodel/NewPatchViewModel.kt:97-109 | launching with options never set ends ERROR with the log: launch line, the lateinit message, the trace |
| ViewModelProperties.EmbeddedModulesExample | manager/src/main/java/org/lsposed/lspatch/ui/viewmodel/NewPatchViewModel.kt:83-92 | manager mode off, target "base.pkg" without splits, one module "aux.pkg" with split "aux.split.pkg": the APK list is ["base.pkg"] and the embedded list is ["aux.pkg", "aux.split.pkg"] |

## Left out

- Coroutine scheduling: `viewModelScope.launch` runs the patch in the background. Here the launch is one synchronous step, so no action can interleave with a running patch.
- `Patcher.patch` internals: this external engine is not part of this model. Its behaviour is the `EngineRun` parameter.
- The logger's verbose flag: the `Logger` base class and anything the engine does to this flag are not part of this model. The flag is a constant field, and `Fresh` takes its initial value.
- Android `Log.d/i/e` platform logging, including the platform-only debug lines in `configurePatch` and `submitPatch`: these are I/O and never reach the in-app log.
- Direct writes to the configuration fields: the screen assigns `useManager`, `debuggable`, `overrideVersionCode`, `sign`, `sigBypassLevel` and `embeddedModules` itself, between dispatches. These writes are not steps of `DispatchAll`, so its "flags never change" covers runs made of dispatches only. `Submit`'s contract holds for any values of these fields.
- Compose state containers (`mutableStateOf`, `SnapshotStateList`): they are modelled as plain record fields and sequences.
- Exception types beyond message and stack trace: a throwable is just those two strings.
- Files created in the temporary APK directory during a run: only the directory's content after cleanup is observable in this model.
- Per-file deletion in the temporary APK directory: the directory is a set of names that becomes empty. Failed deletions, nested directories and a missing directory (`listFiles()` returning null) are not modelled.
- The Kotlin `Int` width of `sigBypassLevel`: the value is only copied, never computed on, so an unbounded `int` is used.
- `AppItem.kt`: a Compose list item. Its only check, that `checked` and `rightIcon` are not both set, is UI argument validation.
