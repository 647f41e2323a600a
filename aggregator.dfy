/**
 * The prompt builder of mistral.py: a preamble chosen by how many devices
 * were collected, then one heading per device and one section per command
 * output, in collection order.
 */
module Aggregator {
  import opened OrderedDict
  import opened Text

  /** The words both preambles open with. */
  const Intro: string := "You are an expert network, automation, platform engineering, and security engineer. Analyze the following outputs from "

  /** The lines of the one-device preamble after its first. */
  const SingleBody: seq<string> := [
    "",
    "        Provide a detailed analysis of this device, including its:",
    "",
    "        *   Operational state",
    "        *   Key configurations",
    "        *   Relevant logs",
    "        *   Any potential issues or anomalies.",
    "",
    "        Focus on providing actionable recommendations based on your analysis."
  ]

  /** The lines of the many-device preamble between its first line and the line naming the type again. */
  const MultiBody: seq<string> := [
    "",
    "        For each individual device, provide a concise summary of its:",
    "",
    "        *   Operational state",
    "        *   Key configurations",
    "        *   Relevant logs",
    "        *   Any potential issues or anomalies specific to that device",
    "",
    "        After summarizing each device individually, provide a combined analysis that identifies:",
    ""
  ]

  const CommonLead: string := "        *   Common configurations and settings across all devices of type '"

  const MultiChecks: seq<string> := [
    "        *   Any significant deviations from the norm or inconsistencies between devices.",
    "        *   Potential security vulnerabilities or misconfigurations that are present in some devices but not others."
  ]

  const SuggestionLead: string := "        *   Suggestions for improving consistency, security, and overall operational efficiency across the '"

  const Closing: seq<string> := ["", "        Focus on providing actionable recommendations based on your analysis."]

  /** The lines of the triple-quoted preamble for exactly one device. */
  function SingleLines(deviceType: string): seq<string> {
    [Intro + ("a single device of type '" + deviceType + "'.")] + SingleBody
  }

  /** The lines of the preamble for any other number of devices; it names the type three times. */
  function MultiLines(deviceType: string): seq<string> {
    [Intro + ("multiple devices of type '" + deviceType + "'.")] + MultiBody
      + [CommonLead + deviceType + "'."] + MultiChecks
      + [SuggestionLead + deviceType + "' device family."] + Closing
  }

  function SinglePreamble(deviceType: string): string {
    Join("\n", SingleLines(deviceType))
  }

  function MultiPreamble(deviceType: string): string {
    Join("\n", MultiLines(deviceType))
  }

  /**
   * The preamble `aggregate_device_info` picks for `count` devices: after the
   * common opening it goes on "a single device" for one device and "multiple
   * devices" for any other count.
   */
  function Preamble(count: nat, deviceType: string): (r: string)
    ensures |Intro| < |r| && r[|Intro|] == if count == 1 then 'a' else 'm'
  {
    SinglePreambleWord(deviceType);
    MultiPreambleWord(deviceType);
    if count == 1 then SinglePreamble(deviceType) else MultiPreamble(deviceType)
  }

  /** `f"\n\n{marks} {title} {marks}\n{body}"`: a Markdown-like heading and what follows it. */
  function Section(marks: string, title: string, body: string): string {
    "\n\n" + marks + " " + title + " " + marks + "\n" + body
  }

  /** One section per entry, in order: what the inner loops append. */
  function Sections(marks: string, d: Dict<string, string>): string {
    ConcatMap((e: (string, string)) => Section(marks, e.0, e.1), d)
  }

  /** A device's heading (with an empty body) followed by its command sections. */
  function DeviceBlock(device: (string, Dict<string, string>)): (r: string)
    ensures Section("###", device.0, "") <= r
    ensures device.1 == [] ==> r == Section("###", device.0, "")
  {
    Section("###", device.0, "") + Sections("####", device.1)
  }

  /** One block per device, in order: what the outer loop appends. */
  function DeviceSections(d: Dict<string, Dict<string, string>>): string {
    ConcatMap(DeviceBlock, d)
  }

  /** The whole text handed to the model: it opens with the preamble for its number of devices. */
  function Aggregate(outputDict: Dict<string, Dict<string, string>>, deviceType: string): (r: string)
    ensures Preamble(|outputDict|, deviceType) <= r
  {
    Preamble(|outputDict|, deviceType) + DeviceSections(outputDict)
  }

  /** `aggregate_device_info`: the preamble, then for each device its heading and its outputs. */
  method AggregateDeviceInfo(outputDict: Dict<string, Dict<string, string>>, deviceType: string) returns (combined: string)
    ensures combined == Aggregate(outputDict, deviceType)
  {
    var numDevices := |outputDict|;
    var prompt: string;
    if numDevices == 1 {
      prompt := SinglePreamble(deviceType);
    } else {
      prompt := MultiPreamble(deviceType);
    }
    combined := AppendDevices(prompt, outputDict);
  }

  /** The outer loop of `aggregate_device_info`, one device after the other. */
  method AppendDevices(prompt: string, outputDict: Dict<string, Dict<string, string>>) returns (combined: string)
    ensures combined == prompt + DeviceSections(outputDict)
  {
    combined := prompt;
    var i := 0;
    while i < |outputDict|
      invariant 0 <= i <= |outputDict|
      invariant combined == prompt + DeviceSections(outputDict[..i])
    {
      combined := AppendDevice(combined, outputDict[i]);
      ConcatMapStep(DeviceBlock, outputDict, i);
      i := i + 1;
    }
    assert outputDict[..i] == outputDict;
  }

  /** The body of the outer loop: the device heading, then the inner loop over its outputs. */
  method AppendDevice(text: string, device: (string, Dict<string, string>)) returns (combined: string)
    ensures combined == text + DeviceBlock(device)
  {
    var (deviceName, deviceOutputs) := device;
    var heading := "\n\n### " + deviceName + " ###\n";
    assert heading == Section("###", deviceName, "");
    combined := text + heading;
    var j := 0;
    while j < |deviceOutputs|
      invariant 0 <= j <= |deviceOutputs|
      invariant combined == text + heading + Sections("####", deviceOutputs[..j])
    {
      var (command, output) := deviceOutputs[j];
      var section := "\n\n#### " + command + " ####\n" + output;
      assert section == Section("####", command, output);
      ConcatMapStep((e: (string, string)) => Section("####", e.0, e.1), deviceOutputs, j);
      combined := combined + section;
      j := j + 1;
    }
    assert deviceOutputs[..j] == deviceOutputs;
  }

  /** The character right after a prefix is the first of what follows it. */
  lemma CharAfter(prefix: string, rest: string)
    requires rest != []
    ensures |prefix| < |prefix + rest| && (prefix + rest)[|prefix|] == rest[0]
  {
  }

  /** The one-device preamble goes on "a single device" after the common opening. */
  lemma SinglePreambleWord(deviceType: string)
    ensures |Intro| < |SinglePreamble(deviceType)| && SinglePreamble(deviceType)[|Intro|] == 'a'
  {
    var lines := SingleLines(deviceType);
    JoinStartsWithFirst("\n", lines);
    var rest := "a single device of type '" + deviceType + "'.";
    CharAfter(Intro, rest);
  }

  /** The many-device preamble goes on "multiple devices" after the common opening. */
  lemma MultiPreambleWord(deviceType: string)
    ensures |Intro| < |MultiPreamble(deviceType)| && MultiPreamble(deviceType)[|Intro|] == 'm'
  {
    var lines := MultiLines(deviceType);
    JoinStartsWithFirst("\n", lines);
    var rest := "multiple devices of type '" + deviceType + "'.";
    CharAfter(Intro, rest);
  }

  /** The text opens with the single-device preamble exactly when one device was collected. */
  lemma SinglePreambleIffOneDevice(outputDict: Dict<string, Dict<string, string>>, deviceType: string)
    ensures SinglePreamble(deviceType) <= Aggregate(outputDict, deviceType) <==> |outputDict| == 1
    ensures MultiPreamble(deviceType) <= Aggregate(outputDict, deviceType) <==> |outputDict| != 1
  {
    SinglePreambleWord(deviceType);
    MultiPreambleWord(deviceType);
    var a := Aggregate(outputDict, deviceType);
    assert Preamble(|outputDict|, deviceType) <= a;
    if |outputDict| == 1 {
      assert a[|Intro|] == 'a';
    } else {
      assert a[|Intro|] == 'm';
    }
  }

  /** Every device contributes its heading, and every command output appears verbatim under its own heading. */
  lemma OutputAppearsVerbatim(outputDict: Dict<string, Dict<string, string>>, deviceType: string, i: nat, j: nat)
    requires i < |outputDict| && j < |outputDict[i].1|
    ensures IsSubstring(Section("###", outputDict[i].0, ""), Aggregate(outputDict, deviceType))
    ensures IsSubstring(Section("####", outputDict[i].1[j].0, outputDict[i].1[j].1), Aggregate(outputDict, deviceType))
  {
    BlockPartsAfter(Preamble(|outputDict|, deviceType), outputDict, i, j);
  }

  /** The same, after any prompt text at all. */
  lemma BlockPartsAfter(prompt: string, outputDict: Dict<string, Dict<string, string>>, i: nat, j: nat)
    requires i < |outputDict| && j < |outputDict[i].1|
    ensures IsSubstring(Section("###", outputDict[i].0, ""), prompt + DeviceSections(outputDict))
    ensures IsSubstring(Section("####", outputDict[i].1[j].0, outputDict[i].1[j].1), prompt + DeviceSections(outputDict))
  {
    var block := DeviceBlock(outputDict[i]);
    var whole := prompt + DeviceSections(outputDict);
    PieceInConcatMap(DeviceBlock, outputDict, i);
    SubstringOfConcat(block, prompt, DeviceSections(outputDict), "");
    assert prompt + DeviceSections(outputDict) + "" == whole;
    BlockParts(outputDict[i], j);
    SubstringTransitive(Section("###", outputDict[i].0, ""), block, whole);
    SubstringTransitive(Section("####", outputDict[i].1[j].0, outputDict[i].1[j].1), block, whole);
  }

  /** A device's block holds its heading and each of its command sections. */
  lemma BlockParts(device: (string, Dict<string, string>), j: nat)
    requires j < |device.1|
    ensures IsSubstring(Section("###", device.0, ""), DeviceBlock(device))
    ensures IsSubstring(Section("####", device.1[j].0, device.1[j].1), DeviceBlock(device))
  {
    var heading := Section("###", device.0, "");
    var sections := Sections("####", device.1);
    var f := (e: (string, string)) => Section("####", e.0, e.1);
    SubstringOfItself(heading);
    SubstringOfConcat(heading, "", heading, sections);
    assert "" + heading + sections == DeviceBlock(device);
    PieceInConcatMap(f, device.1, j);
    assert f(device.1[j]) == Section("####", device.1[j].0, device.1[j].1);
    SubstringOfConcat(f(device.1[j]), heading, sections, "");
    assert heading + sections + "" == DeviceBlock(device);
  }

  /** Adding devices only appends their blocks: the sections of the earlier devices are untouched. */
  lemma DeviceSectionsAppend(xs: Dict<string, Dict<string, string>>, ys: Dict<string, Dict<string, string>>)
    ensures DeviceSections(xs + ys) == DeviceSections(xs) + DeviceSections(ys)
  {
    ConcatMapAppend(DeviceBlock, xs, ys);
  }
}
