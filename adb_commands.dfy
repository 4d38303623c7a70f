/**
 * The `AdbCommands` sequencer: the run configuration built from the command
 * line, the seven steps with the shell command each one issues and the
 * arguments it passes to the checked call, and the fixed chain that runs them.
 */
module Adb {
  import opened Wrappers
  import opened Descriptor
  import opened Quality
  import opened CheckedCall

  /** The four positional command-line values. */
  datatype Args = Args(apk: string, activity: string, quality: string, architecture: string)

  /** The seven steps, one per sequencer method. */
  datatype Step = Uninstall | Install | Configure | ForceQuality | DisableMasking | Start | Play

  /** The order in which the chain calls the steps. */
  const Chain: seq<Step> := [Uninstall, Install, Configure, ForceQuality, DisableMasking, Start, Play]

  /** The seconds `start` and `play` sleep once their command has come back. */
  const Pause: nat := 5

  /** What one step did: the command it issued, the message it printed on error and how long it paused. */
  datatype StepRecord = StepRecord(step: Step, command: string, message: Option<string>, pause: nat)

  datatype StepOutcome = StepOutcome(record: StepRecord, verdict: Verdict)

  /** How a run ended: every step ran, or the process left with a failing child's status. */
  datatype Final = Completed | Aborted(status: int)

  datatype RunResult = RunResult(records: seq<StepRecord>, final: Final)

  /**
   * The arguments each step passes to the checked call: only `uninstall`
   * tolerates a non-zero exit, and only the three deep-link steps wait with a
   * 5-second timeout; the others keep the defaults.
   */
  function Policy(s: Step): (policy: CallPolicy)
    ensures policy.exitOnError <==> s != Uninstall
    ensures s == Uninstall ==> policy.errorMsg == "not installed"
    ensures s != Uninstall ==> policy.errorMsg == ""
    ensures policy.timeout.Some? <==> s in {Configure, ForceQuality, DisableMasking}
    ensures policy.timeout.Some? ==> policy.timeout.value == 5
    ensures policy == DefaultPolicy <==> s in {Install, Start, Play}
  {
    match s
    case Uninstall => CallPolicy("not installed", false, None)
    case Install | Start | Play => DefaultPolicy
    case Configure | ForceQuality | DisableMasking => DefaultPolicy.(timeout := Some(5))
  }

  /** The seconds a step sleeps after a call that went on: only `start` and `play` sleep. */
  function PauseAfter(s: Step): (pause: nat)
    ensures pause <= Pause
    ensures pause > 0 <==> s in {Start, Play}
    ensures s in {Start, Play} ==> pause == Pause
  {
    if s == Start || s == Play then Pause else 0
  }

  /** The text of `c` between `prefix` and `suffix`, when `c` is framed by them. */
  function Operand(c: string, prefix: string, suffix: string): Option<string> {
    if |prefix| + |suffix| <= |c| && c[..|prefix|] == prefix && c[|c| - |suffix|..] == suffix
    then Some(c[|prefix|..|c| - |suffix|])
    else None
  }

  lemma OperandOfPrefixed(prefix: string, x: string)
    ensures Operand(prefix + x, prefix, "") == Some(x)
  {
    OperandOf(prefix, x, "");
    assert prefix + x + "" == prefix + x;
  }

  lemma OperandOf(prefix: string, x: string, suffix: string)
    ensures Operand(prefix + x + suffix, prefix, suffix) == Some(x)
  {
    var c := prefix + x + suffix;
    assert c[..|prefix|] == prefix;
    assert c[|c| - |suffix|..] == suffix;
    assert c[|prefix|..|c| - |suffix|] == x;
  }

  const ForceStop: string := "adb shell am force-stop "
  const ViewIntent: string := " && " + "adb shell \"am start -W -a android.intent.action.VIEW -d "
  const DeepLinkQuery: string := "contentsquare.com?activationKey=weballwin\\&userId=iamjenkins\\&configure=\""
  const DeepLinkEnd: string := "\"\""

  /** Everything of a deep-link command in front of its `configure=` value. */
  function DeepLinkHead(package: string): string {
    ForceStop + package + ViewIntent + "cs-" + package + "://" + DeepLinkQuery
  }

  /**
   * Force-stop the package, then open its `cs-<package>://` deep link carrying
   * the activation key, the user id and the given `configure=` value.
   */
  function DeepLink(package: string, payload: string): (c: string)
    ensures ForceStop + package <= c
    ensures ForceStop + package + ViewIntent + "cs-" + package + "://" <= c
    ensures Operand(c, DeepLinkHead(package), DeepLinkEnd) == Some(payload)
  {
    var c := DeepLinkHead(package) + payload + DeepLinkEnd;
    OperandOf(DeepLinkHead(package), payload, DeepLinkEnd);
    assert c == (ForceStop + package + ViewIntent + "cs-" + package + "://")
                + (DeepLinkQuery + payload + DeepLinkEnd);
    assert c == (ForceStop + package) + (ViewIntent + "cs-" + package + "://" + DeepLinkQuery + payload + DeepLinkEnd);
    c
  }

  /**
   * A deep-link command names one package and one value: two commands for
   * packages without blanks are equal only when both agree.
   */
  lemma DeepLinkInjective(p1: string, x1: string, p2: string, x2: string)
    requires ' ' !in p1 && ' ' !in p2
    requires DeepLink(p1, x1) == DeepLink(p2, x2)
    ensures p1 == p2 && x1 == x2
  {
    var c := DeepLink(p1, x1);
    if |p1| != |p2| {
      BlankAfterPackage(p1, x1);
      BlankAfterPackage(p2, x2);
      assert false;
    }
    assert ForceStop + p1 <= c && ForceStop + p2 <= c;
    assert p1 == c[|ForceStop|..|ForceStop| + |p1|] == p2;
    assert DeepLinkHead(p1) == DeepLinkHead(p2);
  }

  /** In a deep-link command the package is followed by a blank. */
  lemma BlankAfterPackage(p: string, x: string)
    ensures |ForceStop| + |p| < |DeepLink(p, x)| && DeepLink(p, x)[|ForceStop| + |p|] == ' '
  {
    var head := ForceStop + p + ViewIntent;
    assert ViewIntent[0] == ' ';
    assert head <= DeepLink(p, x);
    assert head[|ForceStop| + |p|] == ' ';
  }

  /** The `configure=` value of the configure step: local player URL, forced start, verbose log. */
  const ConfigurePayload: string :=
    "DEVELOPER_SESSION_REPLAY_URL=http://10.0.2.2:7014,SESSION_REPLAY_FORCE_START=true,VERBOSE_LOG=true"

  /** The `configure=` value of the disable-masking step. */
  const MaskingPayload: string := "SESSION_REPLAY_DEFAULT_MASKING=false"

  const UninstallVerb: string := "adb uninstall "
  const InstallVerb: string := "adb install -r -t "
  const StartVerb: string := "adb shell am start -n "
  const ReplayTool: string := "./replay_touch_events.sh -"
  const Recording: string := " recorded_touch_events_sr_test_scenario.txt"

  class AdbCommands {
    const apk: string
    const completeActivityName: string
    const package: string
    const activity: string
    const quality: string
    const architecture: string

    constructor (args: Args, parsed: Activity)
      requires ParseActivity(args.activity) == Some(parsed)
      ensures apk == args.apk && completeActivityName == args.activity
      ensures package == parsed.package && activity == parsed.name
      ensures quality == args.quality && architecture == args.architecture
    {
      apk := args.apk;
      completeActivityName := args.activity;
      package := parsed.package;
      activity := parsed.name;
      quality := args.quality;
      architecture := args.architecture;
    }

    /**
     * `AdbCommands(args)`: keeps the descriptor, apk, quality and architecture
     * as given and splits the descriptor at '/'; fails (None) when the
     * descriptor has no '/', where the source's second index raises.
     */
    static method Create(args: Args) returns (r: Option<AdbCommands>)
      ensures r.None? <==> Slash !in args.activity
      ensures r.Some? ==> fresh(r.value)
      ensures r.Some? ==> r.value.apk == args.apk && r.value.completeActivityName == args.activity
      ensures r.Some? ==> r.value.quality == args.quality && r.value.architecture == args.architecture
      ensures r.Some? ==>
        ParseActivity(args.activity) == Some(Activity(r.value.package, r.value.activity))
    {
      var parsed := ParseActivity(args.activity);
      if parsed.None? {
        return None;
      }
      var a := new AdbCommands(args, parsed.value);
      return Some(a);
    }

    function UninstallCommand(): (c: string)
      ensures Operand(c, UninstallVerb, "") == Some(package)
    {
      OperandOfPrefixed(UninstallVerb, package);
      UninstallVerb + package
    }

    function InstallCommand(): (c: string)
      ensures Operand(c, InstallVerb, "") == Some(apk)
    {
      OperandOfPrefixed(InstallVerb, apk);
      InstallVerb + apk
    }

    function ConfigureCommand(): (c: string)
      ensures Operand(c, DeepLinkHead(package), DeepLinkEnd) == Some(ConfigurePayload)
    {
      DeepLink(package, ConfigurePayload)
    }

    function ForceQualityCommand(): (c: string)
      ensures var payload := Operand(c, DeepLinkHead(package), DeepLinkEnd);
              payload.Some? && ReadQualityPayload(payload.value) == Some(QualityParams(quality))
    {
      QualityPayloadRoundTrip(QualityParams(quality));
      DeepLink(package, QualityPayload(QualityParams(quality)))
    }

    function DisableMaskingCommand(): (c: string)
      ensures Operand(c, DeepLinkHead(package), DeepLinkEnd) == Some(MaskingPayload)
    {
      DeepLink(package, MaskingPayload)
    }

    function StartCommand(): (c: string)
      ensures Operand(c, StartVerb, "") == Some(completeActivityName)
    {
      OperandOfPrefixed(StartVerb, completeActivityName);
      StartVerb + completeActivityName
    }

    function PlayCommand(): (c: string)
      ensures Operand(c, ReplayTool, Recording) == Some(architecture)
    {
      OperandOf(ReplayTool, architecture, Recording);
      ReplayTool + architecture + Recording
    }

    /** The command each step issues, carrying the configuration value it names. */
    function Command(s: Step): (c: string)
      ensures s == Step.Uninstall ==> Operand(c, UninstallVerb, "") == Some(package)
      ensures s == Step.Install ==> Operand(c, InstallVerb, "") == Some(apk)
      ensures s in {Step.Configure, Step.ForceQuality, Step.DisableMasking} ==>
                ForceStop + package <= c && Operand(c, DeepLinkHead(package), DeepLinkEnd).Some?
      ensures s == Step.Start ==> Operand(c, StartVerb, "") == Some(completeActivityName)
      ensures s == Step.Play ==> Operand(c, ReplayTool, Recording) == Some(architecture)
    {
      match s
      case Uninstall => UninstallCommand()
      case Install => InstallCommand()
      case Configure => ConfigureCommand()
      case ForceQuality => ForceQualityCommand()
      case DisableMasking => DisableMaskingCommand()
      case Start => StartCommand()
      case Play => PlayCommand()
    }

    /** One step: issue its command, decide on the outcome, and pause if it goes on. */
    function Perform(s: Step, o: CallOutcome): (r: StepOutcome)
      ensures r.record.step == s && r.record.command == Command(s)
      ensures r.verdict == Decide(o, Policy(s)).verdict && r.record.message == Decide(o, Policy(s)).message
      ensures r.record.pause > 0 <==> r.verdict == Continue && s in {Step.Start, Step.Play}
    {
      var call := Decide(o, Policy(s));
      var pause := if call.verdict == Continue then PauseAfter(s) else 0;
      StepOutcome(StepRecord(s, Command(s), call.message, pause), call.verdict)
    }

    // The seven sequencer methods. Each takes its call arguments from `Policy`,
    // builds its own record, and is checked against `Perform`.

    /** `uninstall`: tolerant of any failure, it prints "not installed" and goes on. */
    method Uninstall(o: CallOutcome) returns (r: StepOutcome)
      ensures r == Perform(Step.Uninstall, o)
      ensures r.verdict == Continue
      ensures r.record.message == if o == Exited(0) then None
                                  else if o.TimedOut? then Some(TimeoutMessage)
                                  else Some("not installed")
    {
      var call := Decide(o, Policy(Step.Uninstall));
      r := StepOutcome(StepRecord(Step.Uninstall, UninstallCommand(), call.message, 0), call.verdict);
    }

    /** `install`: any non-zero exit leaves the process with that status. */
    method Install(o: CallOutcome) returns (r: StepOutcome)
      ensures r == Perform(Step.Install, o)
      ensures r.verdict.Abort? <==> o.Exited? && o.status != 0
    {
      var call := Decide(o, Policy(Step.Install));
      r := StepOutcome(StepRecord(Step.Install, InstallCommand(), call.message, 0), call.verdict);
    }

    /** `configure`: a timeout is survived, a non-zero exit is fatal. */
    method Configure(o: CallOutcome) returns (r: StepOutcome)
      ensures r == Perform(Step.Configure, o)
      ensures r.verdict == Continue <==> o == Exited(0) || o.TimedOut?
    {
      var call := Decide(o, Policy(Step.Configure));
      r := StepOutcome(StepRecord(Step.Configure, ConfigureCommand(), call.message, 0), call.verdict);
    }

    /**
     * `force_quality`: starts from the HIGH parameters and overwrites them for
     * LOW and MEDIUM, then sends them in the deep link.
     */
    method ForceQuality(o: CallOutcome) returns (r: StepOutcome)
      ensures r == Perform(Step.ForceQuality, o)
      ensures r.verdict == Continue <==> o == Exited(0) || o.TimedOut?
    {
      var fps: nat := 10;
      var imageQuality: nat := 2;
      if quality == "LOW" {
        fps := 5;
        imageQuality := 0;
      } else if quality == "MEDIUM" {
        fps := 10;
        imageQuality := 1;
      }
      var command := DeepLink(package, QualityPayload(Params(fps, imageQuality)));
      var call := Decide(o, Policy(Step.ForceQuality));
      r := StepOutcome(StepRecord(Step.ForceQuality, command, call.message, 0), call.verdict);
    }

    /** `disable_masking`: a timeout is survived, a non-zero exit is fatal. */
    method DisableMasking(o: CallOutcome) returns (r: StepOutcome)
      ensures r == Perform(Step.DisableMasking, o)
      ensures r.verdict == Continue <==> o == Exited(0) || o.TimedOut?
    {
      var call := Decide(o, Policy(Step.DisableMasking));
      r := StepOutcome(StepRecord(Step.DisableMasking, DisableMaskingCommand(), call.message, 0), call.verdict);
    }

    /** `start`: launch the activity; fatal on a non-zero exit, otherwise pause. */
    method Start(o: CallOutcome) returns (r: StepOutcome)
      ensures r == Perform(Step.Start, o)
      ensures r.verdict.Abort? <==> o.Exited? && o.status != 0
      ensures r.record.pause == if r.verdict == Continue then Pause else 0
    {
      var call := Decide(o, Policy(Step.Start));
      var pause := 0;
      if call.verdict == Continue {
        pause := Pause;
      }
      r := StepOutcome(StepRecord(Step.Start, StartCommand(), call.message, pause), call.verdict);
    }

    /** `play`: run the replay tool; fatal on a non-zero exit, otherwise pause. */
    method Play(o: CallOutcome) returns (r: StepOutcome)
      ensures r == Perform(Step.Play, o)
      ensures r.verdict.Abort? <==> o.Exited? && o.status != 0
      ensures r.record.pause == if r.verdict == Continue then Pause else 0
    {
      var call := Decide(o, Policy(Step.Play));
      var pause := 0;
      if call.verdict == Continue {
        pause := Pause;
      }
      r := StepOutcome(StepRecord(Step.Play, PlayCommand(), call.message, pause), call.verdict);
    }

    /** Runs `steps` in order with the given outcomes, stopping at the first abort. */
    function RunFrom(steps: seq<Step>, outcomes: seq<CallOutcome>): (r: RunResult)
      requires |steps| == |outcomes|
      ensures 0 < |r.records| <= |steps| || (steps == [] && r.records == [])
      ensures r.final == Completed ==> |r.records| == |steps|
      decreases |steps|
    {
      if |steps| == 0 then RunResult([], Completed)
      else
        var first := Perform(steps[0], outcomes[0]);
        if first.verdict.Abort? then RunResult([first.record], Aborted(first.verdict.status))
        else
          var rest := RunFrom(steps[1..], outcomes[1..]);
          RunResult([first.record] + rest.records, rest.final)
    }

    /** One step of `RunFrom` after the records already made. */
    lemma RunFromStep(records: seq<StepRecord>, steps: seq<Step>, outcomes: seq<CallOutcome>)
      requires 0 < |steps| == |outcomes|
      ensures var first := Perform(steps[0], outcomes[0]);
              Prefixed(records, RunFrom(steps, outcomes)) ==
                if first.verdict.Abort? then RunResult(records + [first.record], Aborted(first.verdict.status))
                else Prefixed(records + [first.record], RunFrom(steps[1..], outcomes[1..]))
    {
      var first := Perform(steps[0], outcomes[0]);
      if !first.verdict.Abort? {
        var rest := RunFrom(steps[1..], outcomes[1..]);
        assert records + ([first.record] + rest.records) == (records + [first.record]) + rest.records;
      }
    }

    /** Calls the sequencer method of step `s`. */
    method Call(s: Step, o: CallOutcome) returns (r: StepOutcome)
      ensures r == Perform(s, o)
    {
      match s
      case Uninstall => r := Uninstall(o);
      case Install => r := Install(o);
      case Configure => r := Configure(o);
      case ForceQuality => r := ForceQuality(o);
      case DisableMasking => r := DisableMasking(o);
      case Start => r := Start(o);
      case Play => r := Play(o);
    }

    /**
     * The chain of line 116: the steps in their fixed order, `outcomes[i]`
     * being how the i-th step's command ends; the first abort ends the run.
     */
    method Run(outcomes: seq<CallOutcome>) returns (r: RunResult)
      requires |outcomes| == |Chain|
      ensures r == RunFrom(Chain, outcomes)
    {
      var records: seq<StepRecord> := [];
      var i := 0;
      while i < |Chain|
        invariant 0 <= i <= |Chain|
        invariant RunFrom(Chain, outcomes) == Prefixed(records, RunFrom(Chain[i..], outcomes[i..]))
      {
        var s := Call(Chain[i], outcomes[i]);
        RunFromStep(records, Chain[i..], outcomes[i..]);
        assert Chain[i..][1..] == Chain[i + 1..] && outcomes[i..][1..] == outcomes[i + 1..];
        records := records + [s.record];
        if s.verdict.Abort? {
          r := RunResult(records, Aborted(s.verdict.status));
          return;
        }
        i := i + 1;
      }
      r := RunResult(records, Completed);
    }
  }

  /**
   * The process's exit status as written: `sys.exit([result])` passes a list,
   * which Python prints and turns into status 1 whatever the child returned.
   */
  function ExitStatusAsWritten(f: Final): (status: nat)
    ensures status <= 1
    ensures status == 0 <==> f.Completed?
  {
    match f
    case Completed => 0
    case Aborted(_) => 1
  }

  /** The status as written reports failure but loses the failing child's status. */
  lemma ExitStatusAsWrittenLosesStatus()
    ensures ExitStatusAsWritten(Completed) == 0
    ensures forall c :: ExitStatusAsWritten(Aborted(c)) == 1
    ensures ExitStatusAsWritten(Aborted(2)) != ExitStatus(Aborted(2))
  {
  }

  /**
   * The status with `sys.exit(result)`: the child's status, reduced to the
   * byte the operating system keeps (a signal's negative number wraps).
   */
  function ExitStatus(f: Final): (status: nat)
    ensures status < 256
    ensures f.Completed? ==> status == 0
  {
    match f
    case Completed => 0
    case Aborted(c) => c % 256
  }

  /**
   * With the correction a run that stops reports the failing child's status,
   * and a child's status or signal never reads as success.
   */
  lemma ExitStatusPropagates(c: int)
    requires -64 <= c <= 255 && c != 0
    ensures ExitStatus(Aborted(c)) != 0
    ensures 0 < c ==> ExitStatus(Aborted(c)) == c
    ensures c < 0 ==> ExitStatus(Aborted(c)) == 256 + c
  {
  }

  function Prefixed(records: seq<StepRecord>, r: RunResult): RunResult {
    RunResult(records + r.records, r.final)
  }
}
