/**
 * What the chain of seven steps guarantees: the order of the commands, where
 * a run stops, and which outcomes let it complete.
 */
module RunProperties {
  import opened CheckedCall
  import opened Adb

  /** The verdict the checked call gives step `s` on outcome `o`. */
  function VerdictOf(s: Step, o: CallOutcome): Verdict {
    Decide(o, Policy(s)).verdict
  }

  /**
   * A run records, in order, one entry per step it reached, and it reached a
   * step exactly when every step before it went on.
   */
  lemma RunFromRecords(a: AdbCommands, steps: seq<Step>, outcomes: seq<CallOutcome>)
    requires |steps| == |outcomes|
    ensures var r := a.RunFrom(steps, outcomes);
            |r.records| <= |steps| && (|steps| > 0 ==> |r.records| > 0)
            && (forall j :: 0 <= j < |r.records| ==> r.records[j] == a.Perform(steps[j], outcomes[j]).record)
            && (forall j :: 0 <= j < |r.records| - 1 ==> VerdictOf(steps[j], outcomes[j]) == Continue)
  {
    RunFromRecordsInOrder(a, steps, outcomes);
    RunFromGoesOnBeforeLast(a, steps, outcomes);
  }

  /** The j-th record of a run is the record of the j-th step. */
  lemma {:induction false} RunFromRecordsInOrder(a: AdbCommands, steps: seq<Step>, outcomes: seq<CallOutcome>)
    requires |steps| == |outcomes|
    ensures var r := a.RunFrom(steps, outcomes);
            forall j :: 0 <= j < |r.records| ==> r.records[j] == a.Perform(steps[j], outcomes[j]).record
    decreases |steps|
  {
    if |steps| > 0 && VerdictOf(steps[0], outcomes[0]) == Continue {
      RunFromRecordsInOrder(a, steps[1..], outcomes[1..]);
      var rest := a.RunFrom(steps[1..], outcomes[1..]);
      var r := a.RunFrom(steps, outcomes);
      assert r.records == [a.Perform(steps[0], outcomes[0]).record] + rest.records;
      forall j | 0 < j < |r.records|
        ensures r.records[j] == a.Perform(steps[j], outcomes[j]).record
      {
        assert r.records[j] == rest.records[j - 1];
        assert steps[j] == steps[1..][j - 1] && outcomes[j] == outcomes[1..][j - 1];
      }
    }
  }

  /** Every step of a run before the last one reached went on. */
  lemma {:induction false} RunFromGoesOnBeforeLast(a: AdbCommands, steps: seq<Step>, outcomes: seq<CallOutcome>)
    requires |steps| == |outcomes|
    ensures var r := a.RunFrom(steps, outcomes);
            forall j :: 0 <= j < |r.records| - 1 ==> VerdictOf(steps[j], outcomes[j]) == Continue
    decreases |steps|
  {
    if |steps| > 0 && VerdictOf(steps[0], outcomes[0]) == Continue {
      RunFromGoesOnBeforeLast(a, steps[1..], outcomes[1..]);
      var rest := a.RunFrom(steps[1..], outcomes[1..]);
      var r := a.RunFrom(steps, outcomes);
      assert |r.records| == 1 + |rest.records|;
      forall j | 0 < j < |r.records| - 1
        ensures VerdictOf(steps[j], outcomes[j]) == Continue
      {
        assert steps[j] == steps[1..][j - 1] && outcomes[j] == outcomes[1..][j - 1];
      }
    }
  }

  /** A run completes exactly when no step aborts, and then it has run every step. */
  lemma {:induction false} RunFromCompletes(a: AdbCommands, steps: seq<Step>, outcomes: seq<CallOutcome>)
    requires |steps| == |outcomes|
    ensures var r := a.RunFrom(steps, outcomes);
            (r.final == Completed <==> forall j :: 0 <= j < |steps| ==> VerdictOf(steps[j], outcomes[j]) == Continue)
            && (r.final == Completed ==> |r.records| == |steps|)
    decreases |steps|
  {
    if |steps| > 0 && VerdictOf(steps[0], outcomes[0]) == Continue {
      RunFromCompletes(a, steps[1..], outcomes[1..]);
      assert forall j :: 0 < j < |steps| ==> steps[j] == steps[1..][j - 1] && outcomes[j] == outcomes[1..][j - 1];
    }
  }

  /** A run that stops ends with the status of its last step, which aborted. */
  lemma {:induction false} RunFromAborted(a: AdbCommands, steps: seq<Step>, outcomes: seq<CallOutcome>)
    requires |steps| == |outcomes|
    ensures var r := a.RunFrom(steps, outcomes);
            r.final.Aborted? ==>
              0 < |r.records| <= |steps|
              && VerdictOf(steps[|r.records| - 1], outcomes[|r.records| - 1]) == Abort(r.final.status)
    decreases |steps|
  {
    if |steps| > 0 && VerdictOf(steps[0], outcomes[0]) == Continue {
      RunFromAborted(a, steps[1..], outcomes[1..]);
      var rest := a.RunFrom(steps[1..], outcomes[1..]);
      var r := a.RunFrom(steps, outcomes);
      assert r.records == [a.Perform(steps[0], outcomes[0]).record] + rest.records && r.final == rest.final;
      if rest.final.Aborted? {
        var k := |rest.records| - 1;
        assert |r.records| - 1 == k + 1;
        assert steps[k + 1] == steps[1..][k] && outcomes[k + 1] == outcomes[1..][k];
      }
    }
  }

  /** The final state of a run: both halves of `RunFromCompletes` and `RunFromAborted`. */
  lemma RunFromFinal(a: AdbCommands, steps: seq<Step>, outcomes: seq<CallOutcome>)
    requires |steps| == |outcomes|
    ensures var r := a.RunFrom(steps, outcomes);
            (r.final == Completed <==> forall j :: 0 <= j < |steps| ==> VerdictOf(steps[j], outcomes[j]) == Continue)
            && (r.final == Completed ==> |r.records| == |steps|)
            && (r.final.Aborted? ==>
                  0 < |r.records| <= |steps|
                  && VerdictOf(steps[|r.records| - 1], outcomes[|r.records| - 1]) == Abort(r.final.status))
            && (forall j :: 0 <= j < |r.records| - 1 ==> VerdictOf(steps[j], outcomes[j]) == Continue)
  {
    RunFromRecords(a, steps, outcomes);
    RunFromCompletes(a, steps, outcomes);
    RunFromAborted(a, steps, outcomes);
  }

  /**
   * Which outcomes let each step go on: `uninstall` always does; the deep-link
   * steps do on success or a timeout; `install`, `start` and `play`, which
   * wait without a timeout, only on success.
   */
  lemma StepVerdicts(s: Step, o: CallOutcome)
    requires Feasible(o, Policy(s))
    ensures s == Uninstall ==> VerdictOf(s, o) == Continue
    ensures s in {Configure, ForceQuality, DisableMasking} ==>
              (VerdictOf(s, o) == Continue <==> o == Exited(0) || o.TimedOut?)
    ensures s in {Install, Start, Play} ==> (VerdictOf(s, o) == Continue <==> o == Exited(0))
    ensures VerdictOf(s, o).Abort? ==> o == Exited(VerdictOf(s, o).status)
  {
  }

  /** A non-zero exit of a fatal step: every step other than `uninstall`. */
  predicate FatalFailure(j: nat, o: CallOutcome) {
    j != 0 && o.Exited? && o.status != 0
  }

  lemma ChainVerdict(j: nat, o: CallOutcome)
    requires j < |Chain|
    ensures VerdictOf(Chain[j], o) == Continue <==> !FatalFailure(j, o)
    ensures VerdictOf(Chain[j], o).Abort? ==> o == Exited(VerdictOf(Chain[j], o).status)
  {
  }

  /** The steps the chain reaches issue their commands in the fixed order, starting with `uninstall`. */
  lemma ChainOrder(a: AdbCommands, outcomes: seq<CallOutcome>)
    requires |outcomes| == |Chain|
    ensures var r := a.RunFrom(Chain, outcomes);
            0 < |r.records| <= |Chain|
            && (forall j :: 0 <= j < |r.records| ==>
                  r.records[j].step == Chain[j] && r.records[j].command == a.Command(Chain[j]))
            && r.records[0].command == a.UninstallCommand()
  {
    RunFromRecords(a, Chain, outcomes);
  }

  /** Whatever `uninstall` returns, `install` runs next. */
  lemma UninstallNeverStopsInstall(a: AdbCommands, outcomes: seq<CallOutcome>)
    requires |outcomes| == |Chain|
    ensures var r := a.RunFrom(Chain, outcomes);
            |r.records| >= 2 && r.records[1].step == Install && r.records[1].command == a.InstallCommand()
  {
    var r := a.RunFrom(Chain, outcomes);
    RunFromRecords(a, Chain, outcomes);
    RunFromFinal(a, Chain, outcomes);
    if |r.records| < 2 {
      assert false;
    }
  }

  /** The run completes exactly when no step after `uninstall` exits with a non-zero status. */
  lemma ChainCompletesIff(a: AdbCommands, outcomes: seq<CallOutcome>)
    requires |outcomes| == |Chain|
    ensures a.RunFrom(Chain, outcomes).final == Completed
            <==> forall j :: 0 <= j < |Chain| ==> !FatalFailure(j, outcomes[j])
  {
    RunFromFinal(a, Chain, outcomes);
    forall j | 0 <= j < |Chain| {
      ChainVerdict(j, outcomes[j]);
    }
  }

  /** Timeouts and `uninstall` failures alone never stop a run: all seven commands are issued. */
  lemma TimeoutsNeverStopTheRun(a: AdbCommands, outcomes: seq<CallOutcome>)
    requires |outcomes| == |Chain|
    requires forall j :: 1 <= j < |Chain| ==> outcomes[j] == Exited(0) || outcomes[j].TimedOut?
    ensures a.RunFrom(Chain, outcomes).final == Completed
    ensures |a.RunFrom(Chain, outcomes).records| == |Chain|
  {
    ChainCompletesIff(a, outcomes);
    RunFromFinal(a, Chain, outcomes);
  }

  /**
   * The first non-zero exit of a fatal step ends the run with that status,
   * and no step after it issues a command.
   */
  lemma FirstFatalFailureStops(a: AdbCommands, outcomes: seq<CallOutcome>, k: nat)
    requires |outcomes| == |Chain| && k < |Chain|
    requires FatalFailure(k, outcomes[k])
    requires forall j :: 0 <= j < k ==> !FatalFailure(j, outcomes[j])
    ensures a.RunFrom(Chain, outcomes).final == Aborted(outcomes[k].status)
    ensures |a.RunFrom(Chain, outcomes).records| == k + 1
  {
    var r := a.RunFrom(Chain, outcomes);
    RunFromRecords(a, Chain, outcomes);
    RunFromFinal(a, Chain, outcomes);
    forall j | 0 <= j < |Chain| {
      ChainVerdict(j, outcomes[j]);
    }
    var n := |r.records|;
    if r.final == Completed {
      assert false;
    }
    assert VerdictOf(Chain[n - 1], outcomes[n - 1]).Abort?;
    if n - 1 != k {
      assert false;
    }
  }

  /** A run that stops was stopped by a non-zero exit of a fatal step, never by a timeout. */
  lemma AbortIsFatalExit(a: AdbCommands, outcomes: seq<CallOutcome>)
    requires |outcomes| == |Chain|
    ensures var r := a.RunFrom(Chain, outcomes);
            var k := |r.records| - 1;
            r.final.Aborted? ==>
              0 < k < |Chain| && FatalFailure(k, outcomes[k])
              && outcomes[k] == Exited(r.final.status)
              && forall j :: 0 <= j < k ==> !FatalFailure(j, outcomes[j])
  {
    var r := a.RunFrom(Chain, outcomes);
    RunFromRecords(a, Chain, outcomes);
    RunFromFinal(a, Chain, outcomes);
    if r.final.Aborted? {
      var k := |r.records| - 1;
      ChainVerdict(k, outcomes[k]);
      forall j | 0 <= j < k ensures !FatalFailure(j, outcomes[j]) {
        ChainVerdict(j, outcomes[j]);
      }
    }
  }

  /** A completed run issued all seven commands, pausing after `start` and `play` only. */
  lemma CompletedRunPauses(a: AdbCommands, outcomes: seq<CallOutcome>)
    requires |outcomes| == |Chain|
    ensures var r := a.RunFrom(Chain, outcomes);
            r.final == Completed ==>
              |r.records| == |Chain|
              && (forall j :: 0 <= j < 5 ==> r.records[j].pause == 0)
              && r.records[5].pause == Pause && r.records[6].pause == Pause
  {
    var r := a.RunFrom(Chain, outcomes);
    RunFromPauses(a, Chain, outcomes);
    if r.final == Completed {
      forall j | 0 <= j < 5 ensures r.records[j].pause == 0 {
        assert Chain[j] !in {Start, Play};
      }
      assert Chain[5] == Start && Chain[6] == Play;
    }
  }

  /** In a completed run every step paused for exactly the time its method sleeps. */
  lemma RunFromPauses(a: AdbCommands, steps: seq<Step>, outcomes: seq<CallOutcome>)
    requires |steps| == |outcomes|
    ensures var r := a.RunFrom(steps, outcomes);
            r.final == Completed ==>
              |r.records| == |steps| && forall j :: 0 <= j < |steps| ==> r.records[j].pause == PauseAfter(steps[j])
  {
    var r := a.RunFrom(steps, outcomes);
    RunFromRecords(a, steps, outcomes);
    RunFromCompletes(a, steps, outcomes);
    if r.final == Completed {
      forall j | 0 <= j < |steps| ensures r.records[j].pause == PauseAfter(steps[j]) {
        assert r.records[j] == a.Perform(steps[j], outcomes[j]).record;
        assert VerdictOf(steps[j], outcomes[j]) == Continue;
      }
    }
  }

  /**
   * When every command succeeds the run completes, prints nothing, issues the
   * seven commands built from the configuration and pauses after the last two.
   */
  lemma AllSucceed(a: AdbCommands, outcomes: seq<CallOutcome>)
    requires |outcomes| == |Chain|
    requires forall j :: 0 <= j < |Chain| ==> outcomes[j] == Exited(0)
    ensures var r := a.RunFrom(Chain, outcomes);
            r.final == Completed && |r.records| == |Chain|
            && (forall j :: 0 <= j < |Chain| ==> r.records[j].message.None?)
            && r.records[0].command == UninstallVerb + a.package
            && (forall j :: 0 <= j < |Chain| ==> r.records[j].command == a.Command(Chain[j]))
            && r.records[1].command == InstallVerb + a.apk
            && r.records[2].command == a.ConfigureCommand()
            && r.records[3].command == a.ForceQualityCommand()
            && r.records[4].command == a.DisableMaskingCommand()
            && r.records[5].command == StartVerb + a.completeActivityName
            && r.records[6].command == ReplayTool + a.architecture + Recording
            && r.records[5].pause == Pause && r.records[6].pause == Pause
  {
    TimeoutsNeverStopTheRun(a, outcomes);
    ChainOrder(a, outcomes);
    RunFromRecords(a, Chain, outcomes);
    CompletedRunPauses(a, outcomes);
  }

  /** A status `subprocess.call` can report: an exit byte, or minus the number of the killing signal. */
  predicate ChildStatus(o: CallOutcome) {
    o.Exited? ==> -64 <= o.status <= 255
  }

  /**
   * The exit status of the process after the chain, as written and with the
   * correction: both are 0 exactly when the run completes, provided every
   * status is one `subprocess.call` can report.
   */
  lemma RunExitStatus(a: AdbCommands, outcomes: seq<CallOutcome>)
    requires |outcomes| == |Chain|
    requires forall j :: 0 <= j < |Chain| ==> ChildStatus(outcomes[j])
    ensures var r := a.RunFrom(Chain, outcomes);
            (ExitStatus(r.final) == 0 <==> r.final == Completed)
            && (ExitStatusAsWritten(r.final) == 0 <==> r.final == Completed)
  {
    var r := a.RunFrom(Chain, outcomes);
    AbortIsFatalExit(a, outcomes);
    if r.final.Aborted? {
      var k := |r.records| - 1;
      assert ChildStatus(outcomes[k]);
      ExitStatusPropagates(r.final.status);
    }
  }

  /**
   * The first fatal failure decides the exit status: as written the process
   * leaves with 1; with the correction it leaves with that step's status, or
   * a killing signal wrapped to a non-zero byte.
   */
  lemma FatalFailureExitStatus(a: AdbCommands, outcomes: seq<CallOutcome>, k: nat)
    requires |outcomes| == |Chain| && k < |Chain|
    requires FatalFailure(k, outcomes[k]) && ChildStatus(outcomes[k])
    requires forall j :: 0 <= j < k ==> !FatalFailure(j, outcomes[j])
    ensures ExitStatusAsWritten(a.RunFrom(Chain, outcomes).final) == 1
    ensures 0 < outcomes[k].status ==> ExitStatus(a.RunFrom(Chain, outcomes).final) == outcomes[k].status
    ensures outcomes[k].status < 0 ==> ExitStatus(a.RunFrom(Chain, outcomes).final) == 256 + outcomes[k].status
  {
    FirstFatalFailureStops(a, outcomes, k);
    ExitStatusPropagates(outcomes[k].status);
  }
}
