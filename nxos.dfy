/**
 * nxos_mistral.py, the earlier single-switch script: pick one Nexus device
 * from a numbered list, run the six commands on it, ask the model for a
 * summary and store the record under `nxos/output/<device>/`.
 */
module Nxos {
  import opened Wrappers
  import opened OrderedDict
  import opened Text
  import opened Records
  import opened Clock
  import opened Decimal
  import opened Collector
  import Aggregator
  import Summarizer
  import Collab
  import Pipeline
  import Auth

  /** What a session raises, surfaced: the output, or the message of the exception. */
  function Raised(o: SshOutcome): (r: Result<string, string>)
    ensures r.Ok? <==> o.Completed?
    ensures r.Ok? ==> r.value == o.stdout
    ensures r.Err? ==> r.error == o.reason
  {
    match o
    case Completed(out) => Ok(out)
    case ConnectFailed(reason) => Err(reason)
    case CommandFailed(reason) => Err(reason)
  }

  /**
   * `ssh_connect_and_run_command` of this script: there is no `try`, so a
   * failure propagates and the client is closed only after a command ran;
   * a command that fails after the login leaves the session open.
   */
  method SshConnectAndRunCommand(net: Network, login: Login, command: string) returns (result: Result<string, string>, client: SshClient)
    ensures fresh(client)
    ensures result == Raised(net.session(login, command))
    ensures client.closed <==> result.Ok?
    ensures net.session(login, command).ConnectFailed? ==> client.session.None?
    ensures net.session(login, command).CommandFailed? ==> client.session == Some(login)
  {
    client := new SshClient();
    var outcome := net.session(login, command);
    if outcome.ConnectFailed? {
      return Err(outcome.reason), client;
    }
    client.Connect(login);
    if outcome.CommandFailed? {
      return Err(outcome.reason), client;
    }
    client.Close();
    result := Ok(outcome.stdout);
  }

  /** The `except` clause of the collector turns a raised failure into the same text mistral.py stores. */
  lemma CaughtFailureIsCommandOutput(o: SshOutcome)
    ensures CommandOutput(o) == match Raised(o) case Ok(out) => out case Err(e) => ErrorText(e)
  {
  }

  /**
   * `collect_device_info`: every command is tried in list order; a failure is
   * stored as `"Error: ..."` under its own command and the loop goes on.
   */
  method CollectDeviceInfo(net: Network, device: Device) returns (outputs: Dict<string, string>)
    ensures outputs == OutputsOf(net, LoginOf(device), |Commands|)
  {
    var login := LoginOf(device);
    outputs := [];
    var i := 0;
    while i < |Commands|
      invariant 0 <= i <= |Commands|
      invariant outputs == OutputsOf(net, login, i)
    {
      var command := Commands[i];
      NextCommandIsNew(net, login, i);
      var result, _ := SshConnectAndRunCommand(net, login, command);
      var output := if result.Ok? then result.value else ErrorText(result.error);
      CaughtFailureIsCommandOutput(net.session(login, command));
      outputs := Put(outputs, command, output);
      i := i + 1;
    }
  }

  /**
   * Every command has its own entry, holding what its own session produced,
   * so a failing command changes nothing but its own entry.
   */
  lemma CollectedEntry(net: Network, device: Device, k: nat)
    requires k < |Commands|
    ensures Keys(OutputsOf(net, LoginOf(device), |Commands|)) == Commands
    ensures Get(OutputsOf(net, LoginOf(device), |Commands|), Commands[k]) == Some(CommandOutput(net.session(LoginOf(device), Commands[k])))
  {
    CommandsDistinct();
    var d := OutputsOf(net, LoginOf(device), |Commands|);
    assert Keys(d) == Commands;
    assert IndexOf(d, Commands[k]) == k;
  }

  /** A reachable device yields the same mapping from this collector as from the one of mistral.py. */
  lemma SameAsMistralCollector(net: Network, device: Device)
    requires net.probe(LoginOf(device)).None?
    ensures OutputsOf(net, LoginOf(device), |Commands|) == DeviceOutputs(net, device)
  {
  }

  // The prompt: the Nexus preamble, then one section per command.

  const NexusLead: string := "a Cisco Nexus switch and provide a summary of the device state, "
  const NexusTail: string := "configurations, logs, and any potential issues.\n\n"

  /** The fixed text the prompt opens with; it starts like the preambles of mistral.py. */
  const NxosPreamble: string := Aggregator.Intro + NexusLead + NexusTail

  /** The whole text handed to the model: the fixed preamble, then the sections; just the preamble when nothing was collected. */
  function NxosAggregate(outputs: Dict<string, string>): (r: string)
    ensures NxosPreamble <= r
    ensures outputs == [] ==> r == NxosPreamble
  {
    NxosPreamble + Aggregator.Sections("###", outputs)
  }

  /** `aggregate_device_info`: the preamble, then `"\n\n### cmd ###\n" + output` per entry. */
  method AggregateDeviceInfo(outputs: Dict<string, string>) returns (combined: string)
    ensures combined == NxosAggregate(outputs)
  {
    combined := NxosPreamble;
    var j := 0;
    while j < |outputs|
      invariant 0 <= j <= |outputs|
      invariant combined == NxosPreamble + Aggregator.Sections("###", outputs[..j])
    {
      var (command, output) := outputs[j];
      var section := "\n\n### " + command + " ###\n" + output;
      assert section == Aggregator.Section("###", command, output);
      ConcatMapStep((e: (string, string)) => Aggregator.Section("###", e.0, e.1), outputs, j);
      combined := combined + section;
      j := j + 1;
    }
    assert outputs[..j] == outputs;
  }

  /** The prompt opens with the preamble, and every output appears verbatim under its command's heading. */
  lemma NxosOutputVerbatim(outputs: Dict<string, string>, j: nat)
    requires j < |outputs|
    ensures NxosPreamble <= NxosAggregate(outputs)
    ensures IsSubstring(Aggregator.Section("###", outputs[j].0, outputs[j].1), NxosAggregate(outputs))
  {
    var f := (e: (string, string)) => Aggregator.Section("###", e.0, e.1);
    var sections := Aggregator.Sections("###", outputs);
    PieceInConcatMap(f, outputs, j);
    assert f(outputs[j]) == Aggregator.Section("###", outputs[j].0, outputs[j].1);
    SubstringOfConcat(f(outputs[j]), NxosPreamble, sections, "");
    assert NxosPreamble + sections + "" == NxosAggregate(outputs);
  }

  /** More entries only append sections: the text for the earlier entries is untouched. */
  lemma NxosAggregateAppend(a: Dict<string, string>, b: Dict<string, string>)
    ensures NxosAggregate(a + b) == NxosAggregate(a) + Aggregator.Sections("###", b)
  {
    ConcatMapAppend((e: (string, string)) => Aggregator.Section("###", e.0, e.1), a, b);
  }

  // Picking the device.

  /** Why `choose_device` raises: `int()` rejected the line, or the position is outside the list. */
  datatype ChoiceError = NotANumber | IndexOutOfRange

  /** The menu line printed for the `i`-th device. */
  function DeviceMenuLine(devices: seq<Device>, i: nat): (line: string)
    requires i < |devices|
    ensures ShowInt(i + 1) + ": " <= line
  {
    ShowInt(i + 1) + ": " + devices[i].name + " (" + devices[i].ip + ")"
  }

  /** Python's `seq[i]`: a negative position counts from the end; None stands for `IndexError`. */
  function PyIndex(len: nat, i: int): (r: Option<nat>)
    ensures r.Some? <==> -(len as int) <= i < len
    ensures r.Some? ==> r.value < len && r.value == i % len
  {
    if 0 <= i < len then Some(i)
    else if -(len as int) <= i < 0 then Some(len + i)
    else None
  }

  /**
   * `choose_device`: `devices[int(line) - 1]`, with no range check of its
   * own, so Python's negative indexing applies.
   */
  function ChooseDevice(devices: seq<Device>, line: string): (r: Result<Device, ChoiceError>)
    ensures ParseInt(line).None? <==> r == Err(NotANumber)
    ensures forall k :: ParseInt(line) == Some(k) ==> (r.Ok? <==> 1 - |devices| <= k <= |devices|)
    ensures forall k :: ParseInt(line) == Some(k) && 1 <= k <= |devices| ==> r == Ok(devices[k - 1])
    ensures forall k :: ParseInt(line) == Some(k) && 1 - |devices| <= k <= 0 ==> r == Ok(devices[|devices| + k - 1])
  {
    var v := ParseInt(line);
    if v.None? then Err(NotANumber)
    else
      var at := PyIndex(|devices|, v.value - 1);
      if at.None? then Err(IndexOutOfRange) else Ok(devices[at.value])
  }

  /** Typing the number printed in front of a device selects that device. */
  lemma TypedDeviceNumber(devices: seq<Device>, i: nat)
    requires i < |devices|
    ensures DeviceMenuLine(devices, i) == ShowInt(i + 1) + ": " + devices[i].name + " (" + devices[i].ip + ")"
    ensures ChooseDevice(devices, ShowInt(i + 1)) == Ok(devices[i])
  {
    ParseShowInt(i + 1);
  }

  /** Typing "0" does not fail: position -1 is the last device. */
  lemma ZeroSelectsLast(devices: seq<Device>)
    requires devices != []
    ensures ChooseDevice(devices, "0") == Ok(devices[|devices| - 1])
  {
    ParseShowInt(0);
    assert ShowInt(0) == "0";
  }

  // Saving.

  /** `save_output(device_name, outputs, summary)` at the moment whose stamp is `timestamp`. */
  function SaveOutput(deviceName: string, outputs: Dict<string, string>, summary: string, timestamp: string): (f: Pipeline.SavedFile)
    ensures Keys(f.doc) == ["device", "timestamp", "outputs", "summary"]
  {
    Pipeline.SavedFile(
      PathJoin(PathJoin(PathJoin("nxos", "output"), deviceName), timestamp + ".yaml"),
      [("device", Str(deviceName)), ("timestamp", Str(timestamp)), ("outputs", TextTable(outputs)), ("summary", Str(summary))])
  }

  /** The record lands in `nxos/output/<device>/`, named by its stamp. */
  lemma SavedPath(deviceName: string, outputs: Dict<string, string>, summary: string, m: Instant)
    requires Pipeline.PlainName(deviceName)
    ensures SaveOutput(deviceName, outputs, summary, Stamp(m)).path == "nxos/output/" + deviceName + "/" + Stamp(m) + ".yaml"
    ensures Basename(SaveOutput(deviceName, outputs, summary, Stamp(m)).path) == Stamp(m) + ".yaml"
  {
    var name := Stamp(m) + ".yaml";
    StampFileName(m);
    var dir := PathJoin(PathJoin("nxos", "output"), deviceName);
    assert PathJoin("nxos", "output") == "nxos/output";
    assert dir == "nxos/output/" + deviceName;
    BasenameOfJoin(dir, name);
    assert dir + "/" + name == "nxos/output/" + deviceName + "/" + Stamp(m) + ".yaml";
  }

  /**
   * The record keeps the device name, the stamp, the outputs and the summary
   * under their keys; having no `device_type` key, it reads back in
   * analyze_and_collab.py as of type "unknown".
   */
  lemma SavedRecordFields(deviceName: string, outputs: Dict<string, string>, summary: string, timestamp: string)
    ensures var doc := SaveOutput(deviceName, outputs, summary, timestamp).doc;
      DistinctKeys(doc)
      && Get(doc, "device") == Some(Str(deviceName))
      && Get(doc, "outputs") == Some(TextTable(outputs))
      && Collab.LoadSummary(doc) == Collab.LoadedSummary(summary, timestamp, Pipeline.UnknownType)
  {
    var doc := SaveOutput(deviceName, outputs, summary, timestamp).doc;
    assert Keys(doc)[0] == "device" && Keys(doc)[1] == "timestamp";
    assert "device_type" !in Keys(doc);
  }

  // The script as a whole.

  /** Why a run ends without saving: the choice raised, or the client could not be built. */
  datatype RunError = BadChoice(choice: ChoiceError) | NoClient(message: string)

  /**
   * The record one run stores: device chosen by `line`, `apiKey` what `MISTRAL_API_KEY`
   * holds, model answering through `model`, clock reading `now`. The client is built
   * after the device was contacted, outside any `try`.
   */
  function Session(devices: seq<Device>, line: string, apiKey: Option<string>, net: Network,
                   model: string -> Result<string, string>, now: Instant): (r: Result<Pipeline.SavedFile, RunError>)
    ensures r.Err? <==> ChooseDevice(devices, line).Err? || !Auth.KeyPresent(apiKey)
    ensures ChooseDevice(devices, line).Err? ==> r == Err(BadChoice(ChooseDevice(devices, line).error))
    ensures ChooseDevice(devices, line).Ok? && !Auth.KeyPresent(apiKey) ==> r == Err(NoClient(Auth.MissingKeyMessage))
  {
    match ChooseDevice(devices, line)
    case Err(e) => Err(BadChoice(e))
    case Ok(device) =>
      var outputs := OutputsOf(net, LoginOf(device), |Commands|);
      if !Auth.KeyPresent(apiKey) then Err(NoClient(Auth.MissingKeyMessage))
      else
        var summary := Summarizer.AnalyzeWithMistral(model(NxosAggregate(outputs)));
        Ok(SaveOutput(device.name, outputs, summary, Stamp(now)))
  }

  /** The `__main__` block: choose, collect, aggregate, build the client, analyze, save. */
  method Run(devices: seq<Device>, line: string, apiKey: Option<string>, net: Network,
             model: string -> Result<string, string>, now: Instant)
    returns (saved: Result<Pipeline.SavedFile, RunError>)
    ensures saved == Session(devices, line, apiKey, net, model, now)
  {
    var chosen := ChooseDevice(devices, line);
    if chosen.Err? {
      return Err(BadChoice(chosen.error));
    }
    var device := chosen.value;
    var outputs := CollectDeviceInfo(net, device);
    var aggregated := AggregateDeviceInfo(outputs);
    var client := Auth.GetMistralClient(apiKey);
    if client.Err? {
      return Err(NoClient(client.error));
    }
    var summary := Summarizer.AnalyzeWithMistral(model(aggregated));
    saved := Ok(SaveOutput(device.name, outputs, summary, Stamp(now)));
  }

  /** A run that stores a record stores the chosen device's outputs, and the model's failure as the sentinel summary. */
  lemma SessionRecord(devices: seq<Device>, i: nat, apiKey: Option<string>, net: Network, model: string -> Result<string, string>, now: Instant)
    requires i < |devices|
    ensures var s := Session(devices, ShowInt(i + 1), apiKey, net, model, now);
      var outputs := OutputsOf(net, LoginOf(devices[i]), |Commands|);
      (s.Ok? <==> Auth.KeyPresent(apiKey))
      && (s.Ok? ==> Get(s.value.doc, "outputs") == Some(TextTable(outputs))
                    && (model(NxosAggregate(outputs)).Err? ==> Get(s.value.doc, "summary") == Some(Str(Summarizer.AnalysisError))))
  {
    TypedDeviceNumber(devices, i);
    var outputs := OutputsOf(net, LoginOf(devices[i]), |Commands|);
    var summary := Summarizer.AnalyzeWithMistral(model(NxosAggregate(outputs)));
    var f := SaveOutput(devices[i].name, outputs, summary, Stamp(now));
    SavedRecordFields(devices[i].name, outputs, summary, Stamp(now));
    assert Keys(f.doc)[3] == "summary";
    assert IndexOf(f.doc, "summary") == 3;
  }
}
