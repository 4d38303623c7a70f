/**
 * `AdbCommands.checked_subprocess_call`: what the script does after one
 * shell command has come back. The shell itself is not modelled; how the
 * command ended is an input.
 */
module CheckedCall {
  import opened Wrappers

  /** How a shell command ended: with an exit status, or killed when its timeout expired. */
  datatype CallOutcome = Exited(status: int) | TimedOut

  /** What the script does next: go on with the following step, or leave with the child's status. */
  datatype Verdict = Continue | Abort(status: int)

  /** The per-call arguments: `error_msg`, `exit_on_error` and `timeout` (in seconds). */
  datatype CallPolicy = CallPolicy(errorMsg: string, exitOnError: bool, timeout: Option<nat>)

  /** The message printed, if any, and the verdict. */
  datatype CallResult = CallResult(message: Option<string>, verdict: Verdict)

  /** The defaults of the call's keyword arguments. */
  const DefaultPolicy: CallPolicy := CallPolicy("", true, None)

  const TimeoutMessage: string := "Time out."

  /** A call without a timeout waits for the command, so it cannot end by timing out. */
  predicate Feasible(o: CallOutcome, policy: CallPolicy) {
    o.TimedOut? ==> policy.timeout.Some?
  }

  /**
   * A zero status prints nothing and continues; a non-zero status prints the
   * caller's message and aborts only when `exit_on_error` is set; a timeout
   * prints "Time out." and continues whatever the flag says.
   */
  function Decide(o: CallOutcome, policy: CallPolicy): (r: CallResult)
    ensures r.verdict.Abort? <==> o.Exited? && o.status != 0 && policy.exitOnError
    ensures r.verdict.Abort? ==> o == Exited(r.verdict.status) && r.verdict.status != 0
    ensures r.message.None? <==> o == Exited(0)
    ensures o.TimedOut? ==> r.message == Some(TimeoutMessage)
    ensures o.Exited? && o.status != 0 ==> r.message == Some(policy.errorMsg)
  {
    match o
    case TimedOut => CallResult(Some(TimeoutMessage), Continue)
    case Exited(status) =>
      if status == 0 then CallResult(None, Continue)
      else if policy.exitOnError then CallResult(Some(policy.errorMsg), Abort(status))
      else CallResult(Some(policy.errorMsg), Continue)
  }

  /** A timeout never aborts, whatever `exit_on_error` says. */
  lemma TimeoutNeverAborts(policy: CallPolicy)
    ensures Decide(TimedOut, policy).verdict == Continue
    ensures Decide(TimedOut, policy) == Decide(TimedOut, policy.(exitOnError := !policy.exitOnError))
  {
  }

  /** With `exit_on_error` cleared no outcome at all aborts. */
  lemma TolerantNeverAborts(o: CallOutcome, policy: CallPolicy)
    requires !policy.exitOnError
    ensures Decide(o, policy).verdict == Continue
  {
  }

  /** The flag changes only the verdict of a non-zero exit, never the message. */
  lemma FlagAffectsOnlyVerdict(o: CallOutcome, policy: CallPolicy)
    ensures Decide(o, policy).message == Decide(o, policy.(exitOnError := !policy.exitOnError)).message
    ensures Decide(o, policy).verdict != Decide(o, policy.(exitOnError := !policy.exitOnError)).verdict
            <==> o.Exited? && o.status != 0
  {
  }
}
