# Session-replay data-usage runner, modelled in Dafny

`session_replay_data_usage.py` drives an Android emulator through `adb` to
prepare a session-replay data-usage measurement. Its class `AdbCommands` holds
the run configuration built from four command-line values: apk, activity
descriptor, quality tier and host architecture. It exposes one method per
step: uninstall, install, configure, force_quality, disable_masking, start,
play. Each step issues one shell command through `checked_subprocess_call`,
and line 116 chains the seven steps in that fixed order.

This project models that class:

- `Descriptor` (descriptor.dfy): Python's `str.split` and the split of the
  activity descriptor at `/` into package and activity name, with its failure
  when there is no `/`.
- `Decimal` (decimal.dfy): how `format` prints the two numbers embedded in a
  command, and reading them back.
- `Quality` (quality.dfy): the quality-tier table of `force_quality`, and the
  `configure=` value that carries its two numbers.
- `CheckedCall` (checked_call.dfy): the outcome policy of
  `checked_subprocess_call`. The shell command is not run: how it ended
  (`Exited(status)` or `TimedOut`) is an input.
- `Adb` (adb_commands.dfy): class `AdbCommands`. The six configuration values
  are `const` fields, so no step can change them, and no step method has a
  `modifies` clause. The class has one method per step with that step's command
  and call arguments, and the chain `Run`. `Run` visits the fixed step list and
  stops at the first abort. It is proved equal to the recursive specification
  `RunFrom`. A run yields one `StepRecord` per step reached: the command issued,
  the message printed on error and the pause taken. It also yields a `Final`,
  which is `Completed` or `Aborted(status)` with the failing child's status.
- `RunProperties` (run_properties.dfy): what the chain guarantees. The commands
  come in the fixed order. `uninstall` never stops `install`. A timeout never
  stops the run. The first non-zero exit of a fatal step ends it. The run
  completes exactly when no step after `uninstall` exits non-zero. The process
  then exits 0, both as written and with the correction of Findings.
- `Scenario` (scenario.dfy): a run with the usage text's example apk and
  descriptor, at MEDIUM quality on arm64, with every command succeeding.

Two behaviours of the code are modelled as written:

- A descriptor may hold several `/`. The package is then the first piece of
  the split and the activity the second, so anything after a second `/` is
  dropped.
- A fatal failure exits with status 1, not with the failing command's status
  (see Findings).

## Model

| member | source | states |
|---|---|---|
| Descriptor.Split | session_replay_data_usage.py:40 | Python's `split('/')` yields at least one piece, and no piece contains the separator |
| Descriptor.ParseActivity | session_replay_data_usage.py:40-41 | the split succeeds exactly when the descriptor contains `/`; package and activity then hold no `/` |
| Descriptor.ParseActivityFields | session_replay_data_usage.py:40-41 | the package is the text before the first `/`; the activity is the text between the first `/` and the next `/` or the end |
| Descriptor.ParseActivityOfComposed | session_replay_data_usage.py:39-41 | a descriptor written as package `/` name, with no other `/`, yields exactly that package and name |
| Descriptor.JoinSplit | session_replay_data_usage.py:40 | joining the pieces of `split('/')` with `/` rebuilds the descriptor |
| Descriptor.SplitJoin | session_replay_data_usage.py:40 | splitting a join of `/`-free pieces gives back those pieces |
| Descriptor.SplitCount | session_replay_data_usage.py:40-41 | a split has one more piece than there are separators, so index 1 exists iff there is a `/` |
| Adb.AdbCommands.Create | session_replay_data_usage.py:36-43 | construction fails exactly when the descriptor has no `/`; otherwise it keeps apk, descriptor, quality and architecture as given and stores the split's package and activity |
| Quality.QualityParams | session_replay_data_usage.py:64-71 | the table yields only (5, 0), (10, 1) and (10, 2); the image-quality level is the tier's rank LOW < MEDIUM < anything else; fps is 5 exactly for `LOW` |
| Quality.QualityTable | session_replay_data_usage.py:64-71 | LOW gives (5, 0), MEDIUM gives (10, 1), and HIGH, `low` and the empty string give (10, 2) |
| Quality.QualityMonotone | session_replay_data_usage.py:64-71 | a higher tier never lowers the frame rate or the image quality |
| Quality.TierName | session_replay_data_usage.py:64-71 | each pair the table can produce has a tier name that maps back to it |
| Quality.TierNameRoundTrip | session_replay_data_usage.py:64-71 | for LOW, MEDIUM and HIGH, naming the tier of the looked-up pair gives the tier back |
| Quality.QualityPayload | session_replay_data_usage.py:75 | the force-quality `configure=` value splits at commas into exactly the force flag, the fps pair and the image-quality pair |
| Quality.QualityPayloadRoundTrip | session_replay_data_usage.py:75-76 | reading the force-quality `configure=` value back yields exactly the pair it was built from |
| Decimal.NatToString | session_replay_data_usage.py:75-76 | a formatted number is a non-empty run of digits without a leading zero |
| Decimal.ParseNatToString | session_replay_data_usage.py:75-76 | reading a formatted number gives the number back |
| Decimal.NatToStringInjective | session_replay_data_usage.py:75-76 | different numbers never format alike |
| CheckedCall.Decide | session_replay_data_usage.py:101-111 | it aborts iff the command exits non-zero and `exit_on_error` is set, with the child's status; it prints nothing iff the exit is 0; on a non-zero exit it prints `error_msg`; on a timeout it prints "Time out." |
| CheckedCall.TimeoutNeverAborts | session_replay_data_usage.py:110-111 | a timeout continues, and the result does not depend on `exit_on_error` |
| CheckedCall.TolerantNeverAborts | session_replay_data_usage.py:106-109 | with `exit_on_error` false no outcome aborts |
| CheckedCall.FlagAffectsOnlyVerdict | session_replay_data_usage.py:106-109 | the flag never changes the message, and changes the verdict exactly for a non-zero exit |
| Adb.Policy | session_replay_data_usage.py:45-99 | only uninstall has `exit_on_error` false, with message "not installed"; every other step keeps the default empty `error_msg`; only the three deep-link steps pass `timeout=5`; install, start and play use the defaults |
| Adb.PauseAfter | session_replay_data_usage.py:86-99 | start and play sleep 5 seconds after a call that went on, and no other step sleeps |
| Adb.DeepLink | session_replay_data_usage.py:59 | a deep-link command begins by force-stopping the package and opens the `cs-<package>://` scheme; its `configure=` value is recoverable |
| Adb.DeepLinkInjective | session_replay_data_usage.py:59-60 | for packages without blanks, a deep-link command determines both its package and its `configure=` value |
| Adb.AdbCommands.UninstallCommand | session_replay_data_usage.py:47 | the command is `adb uninstall ` followed by exactly the package |
| Adb.AdbCommands.InstallCommand | session_replay_data_usage.py:53 | the command is `adb install -r -t ` followed by exactly the apk |
| Adb.AdbCommands.ConfigureCommand | session_replay_data_usage.py:59-60 | the package's deep link carrying the fixed player-URL, force-start and verbose-log value |
| Adb.AdbCommands.ForceQualityCommand | session_replay_data_usage.py:74-76 | the package's deep link whose `configure=` value reads back as the tier table's pair for the quality |
| Adb.AdbCommands.DisableMaskingCommand | session_replay_data_usage.py:82-83 | the package's deep link carrying the value that disables default masking |
| Adb.AdbCommands.StartCommand | session_replay_data_usage.py:88 | the command is `adb shell am start -n ` followed by the full, unsplit descriptor |
| Adb.AdbCommands.PlayCommand | session_replay_data_usage.py:96 | the command is the replay script with `-<architecture>` and the fixed recording file |
| Adb.AdbCommands.Command | session_replay_data_usage.py:45-99 | the command of each step carries its value: the package for uninstall, the apk for install, a force-stop of the package and a recoverable `configure=` value for the deep-link steps, the descriptor for start, the architecture for play |
| Adb.AdbCommands.Perform | session_replay_data_usage.py:45-111 | a step issues its own command, and its message and verdict are those of the checked call under the step's arguments |
| Adb.AdbCommands.Call | session_replay_data_usage.py:45-99 | calling the method of a step gives what `Perform` specifies for that step |
| Adb.AdbCommands.Uninstall | session_replay_data_usage.py:45-49 | uninstall never aborts; it prints "not installed" on a non-zero exit, "Time out." on a timeout, and nothing on success |
| Adb.AdbCommands.Install | session_replay_data_usage.py:51-54 | install aborts exactly on a non-zero exit |
| Adb.AdbCommands.Configure | session_replay_data_usage.py:56-61 | configure goes on exactly on success or a timeout |
| Adb.AdbCommands.ForceQuality | session_replay_data_usage.py:63-77 | the if/elif overwrite of the HIGH defaults gives the table's pair; the step goes on exactly on success or a timeout |
| Adb.AdbCommands.DisableMasking | session_replay_data_usage.py:79-84 | disable_masking goes on exactly on success or a timeout |
| Adb.AdbCommands.Start | session_replay_data_usage.py:86-91 | start aborts exactly on a non-zero exit, and otherwise pauses 5 seconds |
| Adb.AdbCommands.Play | session_replay_data_usage.py:93-99 | play aborts exactly on a non-zero exit, and otherwise pauses 5 seconds |
| Adb.AdbCommands.Run | session_replay_data_usage.py:116 | the chain is the steps in their fixed order, each with its outcome, stopping at the first abort |
| Adb.AdbCommands.RunFrom | session_replay_data_usage.py:116 | a run over a non-empty list of steps records between one entry and one per step, and a completed run records every step |
| RunProperties.RunFromRecords | session_replay_data_usage.py:116 | a run records, in order, one entry per step reached; every step but the last one reached went on |
| RunProperties.RunFromRecordsInOrder | session_replay_data_usage.py:116 | the j-th record of a run is what the j-th step issues, prints and sleeps |
| RunProperties.RunFromGoesOnBeforeLast | session_replay_data_usage.py:116 | every step before the last one a run reached went on |
| RunProperties.RunFromCompletes | session_replay_data_usage.py:116 | a run completes iff no step aborts, and a completed run has run every step |
| RunProperties.RunFromAborted | session_replay_data_usage.py:106-109 | a run that stops ends with the status of its last step reached, which is the step that aborted |
| RunProperties.RunFromFinal | session_replay_data_usage.py:116 | a run completes iff no step aborts, and then all steps ran; otherwise every step before its last went on and its last step aborted with that status, so the last step is the first that aborted |
| RunProperties.StepVerdicts | session_replay_data_usage.py:101-111 | uninstall always goes on; deep-link steps go on iff success or timeout; install, start and play, which cannot time out, go on iff success |
| RunProperties.ChainVerdict | session_replay_data_usage.py:116 | a step of the chain goes on iff it is not a non-zero exit of a step after uninstall |
| RunProperties.ChainOrder | session_replay_data_usage.py:116 | the steps reached issue their commands in the fixed order, starting with uninstall |
| RunProperties.UninstallNeverStopsInstall | session_replay_data_usage.py:45-54 | whatever uninstall returns, install runs next |
| RunProperties.ChainCompletesIff | session_replay_data_usage.py:116 | the run completes iff no step after uninstall exits non-zero |
| RunProperties.TimeoutsNeverStopTheRun | session_replay_data_usage.py:110-111 | with only successes and timeouts after uninstall, all seven commands are issued and the run completes |
| RunProperties.FirstFatalFailureStops | session_replay_data_usage.py:106-109 | the first non-zero exit of a fatal step ends the run with that status, and no later step runs |
| RunProperties.AbortIsFatalExit | session_replay_data_usage.py:106-111 | a run that stops was stopped by the first non-zero exit of a fatal step, never by a timeout |
| RunProperties.RunFromPauses | session_replay_data_usage.py:86-99 | in a completed run over any step list, every step paused exactly as long as its method sleeps: 5 seconds for start and play, 0 otherwise |
| RunProperties.CompletedRunPauses | session_replay_data_usage.py:86-99 | a completed run pauses 5 seconds after start and after play, and after no other step |
| RunProperties.AllSucceed | session_replay_data_usage.py:116 | when every command succeeds, the run completes, prints nothing, issues each step's command in order (uninstall, install, configure, force_quality, disable_masking, start and play, each built from the configuration) and pauses after start and play |
| Scenario.DemoDescriptorSplits | session_replay_data_usage.py:39-41 | the usage text's example descriptor splits into `com.contentsquare.android.demo` and `.main.ui.MainActivity` |
| Scenario.DemoRun | session_replay_data_usage.py:114-116 | with the usage text's example apk and descriptor, MEDIUM and arm64, and every command succeeding: the run completes, issues the uninstall, install, configure, force-quality (10, 1), disable_masking, start and play commands for `com.contentsquare.android.demo`, prints nothing, pauses after the last two and exits with status 0 |
| Adb.ExitStatusAsWrittenLosesStatus | session_replay_data_usage.py:109 | as written, a completed run exits 0 and an aborted run exits 1 whatever the child returned; for a child status of 2 this differs from the corrected status |
| Adb.ExitStatusAsWritten | session_replay_data_usage.py:109 | as written, the exit status is 0 or 1, and it is 0 exactly when the run completed |
| Adb.ExitStatus | session_replay_data_usage.py:109 | with the correction, the exit status is the byte the operating system keeps, and a completed run exits 0 |
| Adb.ExitStatusPropagates | session_replay_data_usage.py:109 | with the correction, an aborted run exits with the failing child's status 1 to 255, or a signal wrapped to a non-zero byte |
| RunProperties.RunExitStatus | session_replay_data_usage.py:106-116 | when every child status is an exit byte or a negated signal number, the process exits 0 exactly when the chain completes, both as written and with the correction |
| RunProperties.FatalFailureExitStatus | session_replay_data_usage.py:106-116 | at the first fatal failure the process exits 1 as written; with the correction it exits with that step's status, or 256 plus a negative signal status |

## Left out

- `ParseCommandLine` (lines 10-31) is not modelled. It only wraps `argparse` and prints the values and three reminders. The model starts from the four values (`Args`).
- The shell is not modelled: `subprocess.call` and `adb` are not run. Each step's outcome is an input. The lemmas that need "a call without a timeout cannot time out" state it as the precondition `Feasible`.
- Printing is not modelled except for the message chosen on error. The step banners and the blank line that `"{}\n".format(error_msg)` adds are left out. A step record keeps only `error_msg` or "Time out.".
- `time.sleep(5)` is recorded as a pause of 5 in the step record. Real time is not modelled.
- The unused `task_id` field and the unused imports `os` and `re` are left out.
- The configure step's `configure=` value is reproduced as a literal and not parsed.
- The chain: the source calls the seven step methods one after another (line 116). The model loops over the fixed list of steps and calls the matching step method. The order and the early stop are the same.

## Findings

| source | as written | input that shows it | evidently intended | confidence | as-written member | corrected member |
|---|---|---|---|---|---|---|
| session_replay_data_usage.py:109 | `sys.exit([result])` passes a list, so Python prints it and exits with status 1 | `install` exits with status 2; the script exits with 1, not 2 | `sys.exit(result)`, so the process ends with the failing child's status | medium, not executed | Adb.ExitStatusAsWrittenLosesStatus | Adb.ExitStatusPropagates |
