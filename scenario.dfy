/** A run with the usage text's example apk and descriptor. */
module Scenario {
  import opened Wrappers
  import opened Descriptor
  import opened Quality
  import opened CheckedCall
  import opened Adb
  import opened RunProperties

  const DemoPackage: string := "com.contentsquare.android.demo"
  const DemoActivity: string := ".main.ui.MainActivity"
  const DemoDescriptor: string := DemoPackage + [Slash] + DemoActivity
  const DemoApk: string := "demoApp-release.apk"

  /** The demo descriptor splits into the demo package and activity name. */
  lemma DemoDescriptorSplits()
    ensures ParseActivity(DemoDescriptor) == Some(Activity(DemoPackage, DemoActivity))
  {
    assert Slash !in DemoPackage && Slash !in DemoActivity;
    ParseActivityOfComposed(DemoPackage, DemoActivity);
  }

  /**
   * A run with the usage text's example apk and descriptor, at MEDIUM quality
   * on arm64, every command succeeding.
   */
  method DemoRun() returns (r: RunResult)
    ensures r.final == Completed && |r.records| == |Chain|
    ensures r.records[0].command == UninstallVerb + DemoPackage
    ensures r.records[1].command == InstallVerb + DemoApk
    ensures var payload := Operand(r.records[3].command, DeepLinkHead(DemoPackage), DeepLinkEnd);
            payload.Some? && ReadQualityPayload(payload.value) == Some(Params(10, 1))
    ensures r.records[2].command == DeepLink(DemoPackage, ConfigurePayload)
    ensures r.records[4].command == DeepLink(DemoPackage, MaskingPayload)
    ensures r.records[5].command == StartVerb + DemoDescriptor
    ensures r.records[6].command == ReplayTool + "arm64" + Recording
    ensures r.records[5].pause == Pause && r.records[6].pause == Pause
    ensures forall j :: 0 <= j < |r.records| ==> r.records[j].message.None?
    ensures ExitStatus(r.final) == 0 && ExitStatusAsWritten(r.final) == 0
  {
    var created := AdbCommands.Create(Args(DemoApk, DemoDescriptor, "MEDIUM", "arm64"));
    if created.None? {
      assert false;
      return;
    }
    var a := created.value;
    assert a.package == DemoPackage by { DemoDescriptorSplits(); }
    var outcomes := seq(|Chain|, _ => Exited(0));
    r := a.Run(outcomes);
    AllSucceed(a, outcomes);
  }
}
