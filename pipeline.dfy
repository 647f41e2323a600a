/**
 * The main program of mistral.py: devices grouped by type in the order the
 * types first appear, one collection, prompt, summary and saved YAML file
 * per type, then the collaboration script launched for that type.
 */
module Pipeline {
  import opened Wrappers
  import opened OrderedDict
  import opened Text
  import opened Records
  import opened Clock
  import opened Collector
  import opened Aggregator
  import opened Summarizer
  import Collab
  import Auth

  /** The type a device without `device_type` is filed under. */
  const UnknownType: string := "unknown"

  /** `device.get("device_type", "unknown")`. */
  function TypeOf(device: Device): (t: string)
    ensures device.deviceType.None? ==> t == UnknownType
    ensures device.deviceType.Some? ==> t == device.deviceType.value
  {
    device.deviceType.GetOr(UnknownType)
  }

  /** The types of the devices, one per device, in list order. */
  function Types(devices: seq<Device>): (ts: seq<string>)
    ensures |ts| == |devices|
    ensures forall i :: 0 <= i < |devices| ==> ts[i] == TypeOf(devices[i])
  {
    seq(|devices|, i requires 0 <= i < |devices| => TypeOf(devices[i]))
  }

  /** The devices' names, one per device, in list order. */
  function Names(devices: seq<Device>): (ns: seq<string>)
    ensures |ns| == |devices|
    ensures forall i :: 0 <= i < |devices| ==> ns[i] == devices[i].name
  {
    seq(|devices|, i requires 0 <= i < |devices| => devices[i].name)
  }

  ghost predicate Distinct(xs: seq<string>) {
    forall i, j :: 0 <= i < j < |xs| ==> xs[i] != xs[j]
  }

  /** Each value once, in the order of its first occurrence. */
  function FirstAppearances(xs: seq<string>): (r: seq<string>)
    ensures forall x :: x in r <==> x in xs
    ensures Distinct(r)
    decreases |xs|
  {
    if xs == [] then []
    else
      var r := FirstAppearances(xs[..|xs| - 1]);
      assert forall x :: x in xs <==> x in xs[..|xs| - 1] || x == xs[|xs| - 1];
      if xs[|xs| - 1] in r then r else r + [xs[|xs| - 1]]
  }

  /** The devices of type `t`, in list order. */
  function OfType(devices: seq<Device>, t: string): (r: seq<Device>)
    ensures forall d :: d in r ==> d in devices && TypeOf(d) == t
    decreases |devices|
  {
    if devices == [] then []
    else
      var init, last := devices[..|devices| - 1], devices[|devices| - 1];
      assert forall d :: d in init ==> d in devices;
      if TypeOf(last) == t then OfType(init, t) + [last] else OfType(init, t)
  }

  /** `devices_by_type` after its loop, built one device at a time. */
  function GroupsOf(devices: seq<Device>): Dict<string, seq<Device>>
    decreases |devices|
  {
    if devices == [] then []
    else
      var groups := GroupsOf(devices[..|devices| - 1]);
      var last := devices[|devices| - 1];
      Put(groups, TypeOf(last), Get(groups, TypeOf(last)).GetOr([]) + [last])
  }

  /** The grouping loop: an empty list the first time a type is seen, then an append. */
  method GroupByType(devices: seq<Device>) returns (groups: Dict<string, seq<Device>>)
    ensures groups == GroupsOf(devices)
  {
    groups := [];
    var i := 0;
    while i < |devices|
      invariant 0 <= i <= |devices|
      invariant groups == GroupsOf(devices[..i])
    {
      GroupsStep(devices, i);
      groups := AddToGroup(groups, devices[i]);
      i := i + 1;
    }
    assert devices[..i] == devices;
  }

  /** The loop body: `devices_by_type[device_type].append(device)`, creating the list first if needed. */
  method AddToGroup(groups: Dict<string, seq<Device>>, device: Device) returns (grouped: Dict<string, seq<Device>>)
    ensures grouped == Put(groups, TypeOf(device), Get(groups, TypeOf(device)).GetOr([]) + [device])
  {
    var deviceType := TypeOf(device);
    grouped := groups;
    if deviceType !in Keys(grouped) {
      grouped := Put(grouped, deviceType, []);
    }
    var current := Get(grouped, deviceType).value;
    var grown := current + [device];
    assert grown == Get(groups, deviceType).GetOr([]) + [device];
    if deviceType !in Keys(groups) {
      PutTwice(groups, deviceType, [], grown);
    }
    grouped := Put(grouped, deviceType, grown);
  }

  /** One more device of the list extends its type's group by it. */
  lemma GroupsStep(devices: seq<Device>, i: nat)
    requires i < |devices|
    ensures var groups := GroupsOf(devices[..i]);
      GroupsOf(devices[..i + 1]) == Put(groups, TypeOf(devices[i]), Get(groups, TypeOf(devices[i])).GetOr([]) + [devices[i]])
  {
    assert devices[..i + 1][..i] == devices[..i];
  }

  /** Each type's group is exactly its devices, in list order; a type with no device has no group. */
  lemma {:induction false} GroupsOfGet(devices: seq<Device>, t: string)
    ensures Get(GroupsOf(devices), t) == if OfType(devices, t) == [] then None else Some(OfType(devices, t))
    decreases |devices|
  {
    if devices != [] {
      var init, last := devices[..|devices| - 1], devices[|devices| - 1];
      var groups := GroupsOf(init);
      GroupsOfGet(init, t);
      if TypeOf(last) != t {
        PutOther(groups, TypeOf(last), Get(groups, TypeOf(last)).GetOr([]) + [last], t);
      }
    }
  }

  /** The groups come in the order their types first appear, each type once. */
  lemma {:induction false} GroupsKeys(devices: seq<Device>)
    ensures Keys(GroupsOf(devices)) == FirstAppearances(Types(devices))
    ensures DistinctKeys(GroupsOf(devices))
    decreases |devices|
  {
    if devices != [] {
      var init := devices[..|devices| - 1];
      assert Types(devices)[..|devices| - 1] == Types(init);
      GroupsKeys(init);
    }
  }

  /** A device of type `t` is among the devices of type `t`. */
  lemma {:induction false} OfTypeComplete(devices: seq<Device>, i: nat)
    requires i < |devices|
    ensures devices[i] in OfType(devices, TypeOf(devices[i]))
    decreases |devices|
  {
    if i < |devices| - 1 {
      var init := devices[..|devices| - 1];
      assert init[i] == devices[i];
      OfTypeComplete(init, i);
    }
  }

  /** Every device is in the group of its own type and in no other. */
  lemma DeviceInExactlyOneGroup(devices: seq<Device>, i: nat, t: string)
    requires i < |devices|
    ensures devices[i] in Get(GroupsOf(devices), t).GetOr([]) <==> t == TypeOf(devices[i])
  {
    GroupsOfGet(devices, t);
    OfTypeComplete(devices, i);
  }

  /** `all_outputs` after its loop: each device's outputs under its name; a repeated name keeps its first place and takes the later value. */
  function AllOutputs(net: Network, devices: seq<Device>): Dict<string, Dict<string, string>>
    decreases |devices|
  {
    if devices == [] then []
    else
      var last := devices[|devices| - 1];
      Put(AllOutputs(net, devices[..|devices| - 1]), last.name, DeviceOutputs(net, last))
  }

  /** The collection loop of one type: `all_outputs[device["name"]] = collect_device_info(device)`. */
  method CollectAll(net: Network, devices: seq<Device>) returns (allOutputs: Dict<string, Dict<string, string>>)
    ensures allOutputs == AllOutputs(net, devices)
  {
    allOutputs := [];
    var i := 0;
    while i < |devices|
      invariant 0 <= i <= |devices|
      invariant allOutputs == AllOutputs(net, devices[..i])
    {
      var device := devices[i];
      var outputs, _ := CollectDeviceInfo(net, device);
      assert devices[..i + 1][..i] == devices[..i];
      allOutputs := Put(allOutputs, device.name, outputs);
      i := i + 1;
    }
    assert devices[..i] == devices;
  }

  /** Where the last device called `name` stands, if any does. */
  function LastNamed(devices: seq<Device>, name: string): (r: Option<nat>)
    ensures r.Some? ==> r.value < |devices| && devices[r.value].name == name
    ensures r.Some? ==> forall j :: r.value < j < |devices| ==> devices[j].name != name
    ensures r.None? ==> forall j :: 0 <= j < |devices| ==> devices[j].name != name
    decreases |devices|
  {
    if devices == [] then None
    else if devices[|devices| - 1].name == name then Some(|devices| - 1)
    else LastNamed(devices[..|devices| - 1], name)
  }

  /** Under each name is what the last device of that name produced. */
  lemma {:induction false} AllOutputsGet(net: Network, devices: seq<Device>, name: string)
    ensures Get(AllOutputs(net, devices), name) ==
      if LastNamed(devices, name).None? then None else Some(DeviceOutputs(net, devices[LastNamed(devices, name).value]))
    decreases |devices|
  {
    if devices != [] {
      var init, last := devices[..|devices| - 1], devices[|devices| - 1];
      AllOutputsGet(net, init, name);
      if last.name != name {
        PutOther(AllOutputs(net, init), last.name, DeviceOutputs(net, last), name);
      }
    }
  }

  /** The devices appear under their names in the order the names first appear, each name once. */
  lemma {:induction false} AllOutputsKeys(net: Network, devices: seq<Device>)
    ensures Keys(AllOutputs(net, devices)) == FirstAppearances(Names(devices))
    ensures DistinctKeys(AllOutputs(net, devices))
    decreases |devices|
  {
    if devices != [] {
      var init := devices[..|devices| - 1];
      assert Names(devices)[..|devices| - 1] == Names(init);
      AllOutputsKeys(net, init);
    }
  }

  /** A file `save_output` writes: where it goes and what it holds. */
  datatype SavedFile = SavedFile(path: string, doc: Document)

  /** `save_output` at the moment whose stamp is `timestamp`. */
  function SaveOutput(deviceType: string, outputs: Dict<string, Dict<string, string>>, summary: string, timestamp: string): (f: SavedFile)
    ensures Keys(f.doc) == ["device_type", "timestamp", "outputs", "summary"]
    ensures f.doc[2].1 == NestedTable(outputs)
  {
    SavedFile(
      PathJoin(PathJoin("output", deviceType), timestamp + ".yaml"),
      [("device_type", Str(deviceType)), ("timestamp", Str(timestamp)), ("outputs", NestedTable(outputs)), ("summary", Str(summary))])
  }

  /** A type name that is one relative path component. */
  ghost predicate PlainName(s: string) {
    s != [] && forall i :: 0 <= i < |s| ==> s[i] != '/'
  }

  /** The file lands in `output/<type>/`, named by its stamp, next to the other `*.yaml` files of that type. */
  lemma SavedPath(deviceType: string, outputs: Dict<string, Dict<string, string>>, summary: string, m: Instant)
    requires PlainName(deviceType)
    ensures SaveOutput(deviceType, outputs, summary, Stamp(m)).path == "output/" + deviceType + "/" + Stamp(m) + ".yaml"
    ensures Basename(SaveOutput(deviceType, outputs, summary, Stamp(m)).path) == Stamp(m) + ".yaml"
  {
    var name := Stamp(m) + ".yaml";
    StampFileName(m);
    var dir := PathJoin("output", deviceType);
    assert dir == "output/" + deviceType;
    BasenameOfJoin(dir, name);
    assert dir + "/" + name == "output/" + deviceType + "/" + Stamp(m) + ".yaml";
  }

  /** Reading the saved file back, as the collaboration script does, gives what was saved. */
  lemma SaveLoadRoundTrip(deviceType: string, outputs: Dict<string, Dict<string, string>>, summary: string, timestamp: string)
    ensures Collab.LoadSummary(SaveOutput(deviceType, outputs, summary, timestamp).doc) == Collab.LoadedSummary(summary, timestamp, deviceType)
  {
    var doc := SaveOutput(deviceType, outputs, summary, timestamp).doc;
    SavedKeysDistinct(deviceType, outputs, summary, timestamp);
    assert doc[0].0 == "device_type" && doc[1].0 == "timestamp" && doc[3].0 == "summary";
  }

  /** The four keys differ, so each reads back its own entry. */
  lemma SavedKeysDistinct(deviceType: string, outputs: Dict<string, Dict<string, string>>, summary: string, timestamp: string)
    ensures DistinctKeys(SaveOutput(deviceType, outputs, summary, timestamp).doc)
  {
    assert "device_type"[0] != "timestamp"[0] && "device_type"[0] != "outputs"[0] && "device_type"[0] != "summary"[0];
    assert "timestamp"[0] != "outputs"[0] && "timestamp"[0] != "summary"[0] && "outputs"[0] != "summary"[0];
  }

  /** The saved file holds the outputs under "outputs". */
  lemma SavedOutputsEntry(deviceType: string, outputs: Dict<string, Dict<string, string>>, summary: string, timestamp: string)
    ensures Get(SaveOutput(deviceType, outputs, summary, timestamp).doc, "outputs") == Some(NestedTable(outputs))
  {
    var doc := SaveOutput(deviceType, outputs, summary, timestamp).doc;
    SavedKeysDistinct(deviceType, outputs, summary, timestamp);
    assert doc[2].0 == "outputs";
  }

  /** What one pass of the main loop leaves behind: the saved file and the command it launches. */
  datatype Round = Round(deviceType: string, saved: SavedFile, launched: string)

  const CollabScript: string := "python analyze_and_collab.py "

  /** `os.system(f"python analyze_and_collab.py {device_type}")`: the notifier, given the type as its one argument. */
  function CollabCommand(deviceType: string): (r: string)
    ensures |r| == |CollabScript| + |deviceType|
    ensures r[..|CollabScript|] == CollabScript && r[|CollabScript|..] == deviceType
  {
    CollabScript + deviceType
  }

  /**
   * One pass for one type: collect every device of the group, build the
   * prompt, ask the model (`model` stands for the chat endpoint), save at the
   * moment `now`, and launch the collaboration script.
   */
  function RoundFor(net: Network, model: string -> Result<string, string>, deviceType: string, group: seq<Device>, now: Instant): (r: Round)
    ensures r.deviceType == deviceType && r.launched == CollabCommand(deviceType)
  {
    var allOutputs := AllOutputs(net, group);
    var summary := AnalyzeWithMistral(model(Aggregate(allOutputs, deviceType)));
    Round(deviceType, SaveOutput(deviceType, allOutputs, summary, Stamp(now)), CollabCommand(deviceType))
  }

  /** The passes over all groups, in order; `clock(k)` is the moment the k-th file is saved. */
  function Rounds(net: Network, model: string -> Result<string, string>, groups: Dict<string, seq<Device>>,
                  clock: nat -> Instant): (r: seq<Round>)
    ensures |r| == |groups|
    ensures forall k :: 0 <= k < |groups| ==> r[k].deviceType == groups[k].0 && r[k].launched == CollabCommand(groups[k].0)
  {
    var r := seq(|groups|, k requires 0 <= k < |groups| => RoundFor(net, model, groups[k].0, groups[k].1, clock(k)));
    assert forall k :: 0 <= k < |groups| ==> r[k] == RoundFor(net, model, groups[k].0, groups[k].1, clock(k));
    r
  }

  /** How the main program ends: the passes it completed, and the error that stopped it, if one did. */
  datatype Run = Run(rounds: seq<Round>, crash: Option<string>)

  /**
   * The main program over the groups, with `apiKey` what `MISTRAL_API_KEY` holds.
   * With a key every pass completes. Without one, `get_mistral_client` raises in
   * the first pass, after its devices were contacted but before anything is saved
   * or launched, and the `ValueError` ends the program (an empty inventory never
   * reaches it).
   */
  function MainRun(net: Network, model: string -> Result<string, string>, apiKey: Option<string>,
                   groups: Dict<string, seq<Device>>, clock: nat -> Instant): (r: Run)
    ensures Auth.KeyPresent(apiKey) ==> r.crash == None && r.rounds == Rounds(net, model, groups, clock)
    ensures !Auth.KeyPresent(apiKey) ==> r.rounds == [] && (r.crash.Some? <==> groups != [])
    ensures r.crash.Some? ==> r.crash.value == Auth.MissingKeyMessage
  {
    if Auth.KeyPresent(apiKey) then Run(Rounds(net, model, groups, clock), None)
    else if groups == [] then Run([], None)
    else Run([], Some(Auth.MissingKeyMessage))
  }

  /** Without a key, an inventory with any device saves no file and launches no notifier. */
  lemma {:induction false} MissingKeySavesNothing(net: Network, model: string -> Result<string, string>, apiKey: Option<string>,
                                                  devices: seq<Device>, clock: nat -> Instant)
    requires !Auth.KeyPresent(apiKey) && devices != []
    ensures MainRun(net, model, apiKey, GroupsOf(devices), clock) == Run([], Some(Auth.MissingKeyMessage))
  {
    GroupsKeys(devices);
    assert Types(devices)[0] in Types(devices);
    assert Keys(GroupsOf(devices)) != [];
  }

  /** The main program: group, then one pass per type in the order the types first appear. */
  method ProcessDevices(net: Network, model: string -> Result<string, string>, apiKey: Option<string>,
                        devices: seq<Device>, clock: nat -> Instant)
    returns (run: Run)
    ensures run == MainRun(net, model, apiKey, GroupsOf(devices), clock)
  {
    var devicesByType := GroupByType(devices);
    run := ProcessGroups(net, model, apiKey, devicesByType, clock);
  }

  /** The loop `for device_type, device_list in devices_by_type.items()`; an uncaught error leaves it. */
  method ProcessGroups(net: Network, model: string -> Result<string, string>, apiKey: Option<string>,
                       devicesByType: Dict<string, seq<Device>>, clock: nat -> Instant)
    returns (run: Run)
    ensures run == MainRun(net, model, apiKey, devicesByType, clock)
  {
    ghost var pass := (j: nat) requires j < |devicesByType| => RoundFor(net, model, devicesByType[j].0, devicesByType[j].1, clock(j));
    var rounds := [];
    var k := 0;
    while k < |devicesByType|
      invariant 0 <= k <= |devicesByType|
      invariant |rounds| == k
      invariant k > 0 ==> Auth.KeyPresent(apiKey)
      invariant forall j :: 0 <= j < k ==> pass.requires(j) && rounds[j] == pass(j)
    {
      var round := ProcessType(net, model, apiKey, devicesByType[k].0, devicesByType[k].1, clock(k));
      if round.Err? {
        return Run(rounds, Some(round.error));
      }
      SnocPointwise(rounds, round.value, k, pass);
      rounds := rounds + [round.value];
      k := k + 1;
    }
    run := Run(rounds, None);
  }

  /** Appending the k-th element keeps "element j is f(j)" for every j up to k. */
  lemma SnocPointwise<T>(xs: seq<T>, x: T, k: nat, f: nat --> T)
    requires |xs| == k && f.requires(k) && x == f(k)
    requires forall j :: 0 <= j < k ==> f.requires(j) && xs[j] == f(j)
    ensures forall j :: 0 <= j < k + 1 ==> f.requires(j) && (xs + [x])[j] == f(j)
  {
  }

  /**
   * One pass of the main loop: collect, aggregate, build the client, summarise, save, launch.
   * Building the client is outside any `try`, so its `ValueError` ends the pass unsaved.
   */
  method ProcessType(net: Network, model: string -> Result<string, string>, apiKey: Option<string>,
                     deviceType: string, deviceList: seq<Device>, now: Instant)
    returns (round: Result<Round, string>)
    ensures Auth.KeyPresent(apiKey) ==> round == Ok(RoundFor(net, model, deviceType, deviceList, now))
    ensures !Auth.KeyPresent(apiKey) ==> round == Err(Auth.MissingKeyMessage)
  {
    var allOutputs := CollectAll(net, deviceList);
    var aggregatedInput := AggregateDeviceInfo(allOutputs, deviceType);
    var client := Auth.GetMistralClient(apiKey);
    if client.Err? {
      return Err(client.error);
    }
    var summary := AnalyzeWithMistral(model(aggregatedInput));
    var saved := SaveOutput(deviceType, allOutputs, summary, Stamp(now));
    round := Ok(Round(deviceType, saved, CollabCommand(deviceType)));
  }

  /**
   * The main program saves one file per type, the types in order of first
   * appearance, each file holding every device of its type and reading back
   * as the summary the model gave.
   */
  lemma RoundsCoverTypes(net: Network, model: string -> Result<string, string>, devices: seq<Device>, clock: nat -> Instant, k: nat)
    requires k < |FirstAppearances(Types(devices))|
    ensures var groups := GroupsOf(devices);
      var t := FirstAppearances(Types(devices))[k];
      var rs := Rounds(net, model, groups, clock);
      |groups| == |FirstAppearances(Types(devices))| && |rs| == |groups|
      && rs[k] == RoundFor(net, model, t, OfType(devices, t), clock(k))
  {
    var groups := GroupsOf(devices);
    GroupsKeys(devices);
    var t := groups[k].0;
    assert Keys(groups)[k] == t;
    GroupsOfGet(devices, t);
    assert Get(groups, t) == Some(groups[k].1);
  }

  /** What each pass saves and launches, spelled out: the file reads back as the model's summary of that type. */
  lemma RoundContents(net: Network, model: string -> Result<string, string>, deviceType: string, group: seq<Device>, now: Instant)
    ensures var r := RoundFor(net, model, deviceType, group, now);
      var allOutputs := AllOutputs(net, group);
      r.launched == "python analyze_and_collab.py " + deviceType
      && Collab.LoadSummary(r.saved.doc) == Collab.LoadedSummary(AnalyzeWithMistral(model(Aggregate(allOutputs, deviceType))), Stamp(now), deviceType)
      && Get(r.saved.doc, "outputs") == Some(NestedTable(allOutputs))
  {
    var allOutputs := AllOutputs(net, group);
    var summary := AnalyzeWithMistral(model(Aggregate(allOutputs, deviceType)));
    SaveLoadRoundTrip(deviceType, allOutputs, summary, Stamp(now));
    SavedOutputsEntry(deviceType, allOutputs, summary, Stamp(now));
  }
}
