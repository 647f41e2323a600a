# mistral-4-cisco, modelled in Dafny

The repository is a set of Python scripts that poll Cisco devices over SSH, hand
the collected command outputs to a Mistral language model, store the model's
summary as a timestamped YAML record, and notify a Webex team space. A direct
message also goes to one person when the summary looks critical. This project
models the logic of those scripts and proves what each step promises:

- `mistral.py`, the batch pipeline:
  - one SSH session per command, with a connection test first;
  - `devices_by_type` grouping, and the `all_outputs` mapping keyed by name;
  - the prompt builder, with its one-device and many-device preambles;
  - the sentinel on a model failure;
  - the `output/<type>/<timestamp>.yaml` record;
  - the launch of the collaboration script for each type;
  - the end of the run when `MISTRAL_API_KEY` is unset and `get_mistral_client` (mistral_auth.py) raises.
- `analyze_and_collab.py`, the notifier:
  - the newest record of a type;
  - the keyword scan over the last 2000 characters;
  - the excerpt of flagged lines;
  - the team message, always, and the escalation, only when critical.
- `troubleshoot.py`, the interactive helper:
  - the three newest records, offered as a numbered menu;
  - the menu loop;
  - the troubleshooting prompt, with the raw outputs cut to 3000 characters;
  - its outcomes.
- `nxos_mistral.py`, the earlier single-switch script:
  - SSH with no `try`, so a failing client is never closed;
  - per-command error capture;
  - the Nexus prompt;
  - `choose_device`, with Python's negative indexing;
  - the record under `nxos/output/<device>/`.

The outside world is passed in as values:
- SSH is a `Network`: a probe result per login, and an outcome per login and command.
- The model is `string -> Result<string, string>`: a reply, or the text of an exception.
- `glob` and `getmtime` are `(path, mtime)` listings.
- `yaml.safe_load` is a loaded `Document`, and `yaml.dump` is a function passed in.
- The clock is a parameter of type `Instant`.
- `os.getenv("MISTRAL_API_KEY")` is an `Option<string>` parameter.
- `input()` lines are a sequence of strings.
- The Webex client is an `Outbox` whose posted payloads are recorded.

Python `dict`s are sequences of key/value pairs with insertion order, in which
assigning to a present key replaces its value in place (`OrderedDict`).

Facts about the code that shape the model:
- The severity keyword list is exactly the eight entries at analyze_and_collab.py:15-24. The last one is the mixed-case "Unable to connect". The summary is uppercased before the scan, so that entry can never match; `Severity.MixedCaseKeywordInert` proves this.
- mistral.py opens one SSH session for the connection test and one more for each command. Each is closed by its `finally` clause (mistral.py:9-27, 40-56).
- nxos_mistral.py has no `try` around its SSH session, so a client whose command raises is never closed (nxos_mistral.py:8-15).
- troubleshoot.py asks one question per run. `troubleshoot_with_mistral` receives an `agent_id` but never uses it (troubleshoot.py:63-112).

## Model

| member | source | states |
|---|---|---|
| Severity.IsCritical | analyze_and_collab.py:51-53 | critical exactly when one of the 8 keywords occurs in the uppercased last 2000 characters |
| Severity.SummaryTail | analyze_and_collab.py:52 | `summary[-2000:]`: the last 2000 characters, or the whole of a shorter summary |
| Severity.AnyKeywordIn | analyze_and_collab.py:53 | `any(keyword in text ...)`: true exactly when some keyword of the list occurs in the text |
| Severity.IsCriticalIgnoresPrefix | analyze_and_collab.py:52 | text in front of the last 2000 characters changes neither the scanned tail nor the verdict |
| Severity.IsCriticalOnShortSummary | analyze_and_collab.py:52 | a summary of at most 2000 characters is scanned whole |
| Severity.LowerCaseKeywordNeverMatches | analyze_and_collab.py:23 | a keyword with a lower-case letter never occurs in uppercased text |
| Severity.MixedCaseKeywordInert | analyze_and_collab.py:15-24 | dropping "Unable to connect" from the list gives the same answer for any uppercased text |
| Severity.IsCriticalWithoutMixedCaseKeyword | analyze_and_collab.py:51-53 | `is_critical` agrees with the scan over the 7 upper-case keywords |
| Severity.MatchingLinesWithoutMixedCaseKeyword | analyze_and_collab.py:113-117 | the flagged lines are the same with or without "Unable to connect" |
| Severity.ExcerptWithoutMixedCaseKeyword | analyze_and_collab.py:112-117 | the excerpt's matching lines do not depend on that entry |
| Severity.MatchingLinesAppend | analyze_and_collab.py:113-117 | the comprehension distributes over concatenation of line lists (keeps order) |
| Severity.MatchingLinesComplete | analyze_and_collab.py:113-117 | every flagged line contributes its stripped form |
| Severity.MatchingLineFacts | analyze_and_collab.py:113-117 | every kept line is stripped, nonempty, free of line breaks and still flagged |
| Severity.MatchingLines | analyze_and_collab.py:112-117 | every matching line of the tail is stripped, nonempty, free of line breaks and still holds a keyword |
| Severity.ExcerptLines | analyze_and_collab.py:119 | at most 5 lines, a prefix of the matching lines, all of them when there are at most 5 |
| Severity.Excerpt | analyze_and_collab.py:118-120 | the fixed notice when no line matched; otherwise splitting the excerpt gives back its (at most 5) lines, each stripped and still flagged |
| Severity.CriticalSummaryHasFlaggedLine | analyze_and_collab.py:111-117 | a critical summary has a flagged line in its tail, because no keyword spans a line break |
| Severity.CriticalSummaryHasMatchingLine | analyze_and_collab.py:118-120 | for a critical summary the notice fallback cannot happen |
| Collab.YamlPattern | analyze_and_collab.py:29-30 | the glob pattern is `output/<type>/*.yaml` |
| Collab.LatestYaml | analyze_and_collab.py:28-32 | None exactly when nothing is listed, otherwise a listed file with the greatest mtime |
| Collab.LatestYamlIsFirstNewest | analyze_and_collab.py:31-32 | among files tied at the newest mtime the first listed wins (stable sort) |
| Collab.LoadSummary | analyze_and_collab.py:36-43 | each field is the stored string, or "", "" and "unknown" when the key is missing |
| Collab.ShowOptional | analyze_and_collab.py:87 | an unset variable prints as `None` |
| Collab.StatusLine | analyze_and_collab.py:94-97 | the warning line when critical, the all-clear line otherwise |
| Collab.ReportPath | analyze_and_collab.py:104 | the report path starts with `output/`, and its basename is the file name |
| Collab.TeamMessage | analyze_and_collab.py:100-106 | the team message opens with its "Network Analysis Completed" heading |
| Collab.EscalationMessage | analyze_and_collab.py:121-127 | the escalation opens with its "Critical Network Issue Detected" heading and ends with a line break |
| Collab.Outbox.constructor | analyze_and_collab.py:57-76 | nothing has been posted yet |
| Collab.Outbox.Send | analyze_and_collab.py:58-76 | appends one payload, to a room or to a person as `is_room` says |
| Collab.NotifyTeam | analyze_and_collab.py:81-129 | posts exactly the messages of `Notifications`, after what was already posted |
| Collab.Announce | analyze_and_collab.py:91-128 | posts the team message, then the escalation exactly when critical |
| Collab.Reported | analyze_and_collab.py:82-88 | no record exactly when no file is listed |
| Collab.Notifications | analyze_and_collab.py:81-128 | nothing is posted exactly when no file is listed |
| Collab.Dispatch | analyze_and_collab.py:91-128 | one or two messages; the first to the space, with the team text built from the status line the verdict selects; a second, the escalation with the excerpt, to the person exactly when critical |
| Collab.NotificationShape | analyze_and_collab.py:81-128 | the same for the newest listed record; its team message shows the "Critical issue detected" line when critical and the "No major issues" line when not |
| Collab.TeamMessageCarriesVerdict | analyze_and_collab.py:94-108 | the team message shows the status line chosen by `is_critical` |
| Collab.TeamMessageMentions | analyze_and_collab.py:100-106 | the team message shows the status, type, timestamp, report path and chat link |
| Collab.EscalationMentions | analyze_and_collab.py:121-127 | the escalation shows the excerpt, type, timestamp, report path and chat link |
| Collab.EscalationCarriesExcerpt | analyze_and_collab.py:111-128 | for a critical record the direct message holds each of 1 to 5 stripped flagged lines |
| Collector.CommandsDistinct | mistral.py:61-68 | the six commands are pairwise different |
| Collector.CommandOutput | mistral.py:21-25 | the decoded output, or "Error: " + reason when connecting or running raises |
| Collector.ErrorText | mistral.py:25 | `"Error: "` followed by the failure's message, which can be read back unchanged |
| Collector.SshClient.constructor | mistral.py:10-11 | a new client is neither connected nor closed |
| Collector.SshClient.Connect | mistral.py:13-20 | the client is logged in to that login; whether it was closed is unchanged |
| Collector.SshClient.Close | mistral.py:26-27 | the client is closed and no longer logged in |
| Collector.SshConnectAndRunCommand | mistral.py:9-27 | returns the command's output or its error text, and the client ends closed on every path |
| Collector.TestSshConnection | mistral.py:40-56 | true exactly when the connection succeeds; the client ends closed either way |
| Collector.OutputsOf | mistral.py:79-84 | entry k is command k with its own session's output |
| Collector.UnreachableOutputs | mistral.py:77 | every command maps to "Unable to connect" |
| Collector.CollectDeviceInfo | mistral.py:60-84 | the probe first; after a failed probe the sentinel mapping is returned before the command loop, otherwise all six are sent in order |
| Collector.DeviceOutputs | mistral.py:60-84 | `collect_device_info` yields an entry for each of the six commands, in list order |
| Collector.RunCommands | mistral.py:79-84 | runs the commands in list order, storing each output under its command |
| Collector.NextCommandIsNew | mistral.py:81 | each assignment adds a new key |
| Collector.DeviceOutputsKeys | mistral.py:60-84 | the keys are exactly the six commands in list order, each once |
| Collector.UnreachableDeviceOutputs | mistral.py:75-77 | an unreachable device reads "Unable to connect" for every command |
| Collector.ReachableDeviceOutputs | mistral.py:79-84 | a reachable device reads, per command, what that command's session gave |
| Aggregator.AggregateDeviceInfo | mistral.py:88-127 | the text is the preamble chosen by the device count followed by every device block in mapping order |
| Aggregator.Preamble | mistral.py:89-119 | after the common opening the preamble goes on "a single device" for one device, and "multiple devices" for any other count |
| Aggregator.DeviceBlock | mistral.py:124-126 | a device block opens with the device heading, and is only that heading when the device has no outputs |
| Aggregator.Aggregate | mistral.py:88-127 | the prompt opens with the preamble chosen by its number of devices |
| Aggregator.AppendDevices | mistral.py:123-126 | the outer loop appends one device block per device, in order |
| Aggregator.AppendDevice | mistral.py:124-126 | a device block is its heading `\n\n### name ###\n` followed by `\n\n#### cmd ####\n` + output per command |
| Aggregator.SinglePreambleIffOneDevice | mistral.py:89-119 | the text starts with the one-device preamble exactly when there is one device, and with the many-device one exactly otherwise |
| Aggregator.OutputAppearsVerbatim | mistral.py:123-126 | every device heading and every command section, with its output verbatim, occurs in the text |
| Aggregator.DeviceSectionsAppend | mistral.py:123-126 | more devices only append blocks after the existing ones |
| Summarizer.AnalyzeWithMistral | mistral.py:131-147 | "Error during analysis" when the call raises, otherwise a stripped reply no longer than the reply |
| Summarizer.SummaryIsTrimmedReply | mistral.py:144 | the summary is a slice of the reply with only blanks before and after it |
| Summarizer.SummaryKeepsText | mistral.py:144 | every non-blank character of the reply is kept, at its shifted position |
| Summarizer.AnalyzeSummaryAgain | mistral.py:144 | stripping a summary again changes nothing |
| Clock.Padded | mistral.py:152 | a zero-padded field of exactly `w` digits |
| Clock.PaddedValue | mistral.py:152 | the padded digits read back as the number |
| Clock.Stamp | mistral.py:152 | 19 characters of digits, `-` and `_` (`%Y-%m-%d_%H-%M-%S`) |
| Clock.StampRoundTrip | mistral.py:152 | the stamp reads back as the moment |
| Clock.StampInjective | mistral.py:152 | distinct moments get distinct stamps, so distinct file names |
| Clock.StampFileName | mistral.py:156 | the file name `<stamp>.yaml` has no slash |
| Pipeline.TypeOf | mistral.py:177 | the device's type, or "unknown" when it has none |
| Pipeline.FirstAppearances | mistral.py:178-179 | each value once, exactly the values present |
| Pipeline.OfType | mistral.py:176-180 | only devices of the list of that type |
| Pipeline.GroupByType | mistral.py:175-180 | the loop builds `GroupsOf(devices)` |
| Pipeline.GroupsOf | mistral.py:175-180 | `devices_by_type` after its loop; what it holds is stated by `GroupsOfGet`, `GroupsKeys` and `DeviceInExactlyOneGroup` |
| Pipeline.AddToGroup | mistral.py:178-180 | the type's list gets the device appended, created empty first when the type is new |
| Pipeline.GroupsStep | mistral.py:176-180 | one more device extends its own type's group |
| Pipeline.GroupsOfGet | mistral.py:175-180 | each type's group is exactly its devices in list order; a type with none has no group |
| Pipeline.GroupsKeys | mistral.py:175-180 | the groups come in first-appearance order of the types, each type once |
| Pipeline.OfTypeComplete | mistral.py:176-180 | every device is in its own type's list |
| Pipeline.DeviceInExactlyOneGroup | mistral.py:175-180 | a device belongs to the group of type t exactly when t is its type |
| Pipeline.CollectAll | mistral.py:185-187 | `all_outputs` after the loop is `AllOutputs(devices)` |
| Pipeline.AllOutputs | mistral.py:185-187 | `all_outputs` after its loop; what it holds is stated by `AllOutputsGet` and `AllOutputsKeys` |
| Pipeline.LastNamed | mistral.py:186-187 | the position of the last device with that name, if any |
| Pipeline.AllOutputsGet | mistral.py:185-187 | under each name is what the last device of that name produced (a later duplicate overwrites) |
| Pipeline.AllOutputsKeys | mistral.py:185-187 | names appear once each, in first-appearance order |
| Pipeline.SaveOutput | mistral.py:151-167 | the record has exactly the keys device_type, timestamp, outputs, summary, and the nested outputs |
| Pipeline.SavedPath | mistral.py:153-156 | the path is `output/<type>/<stamp>.yaml`, whose basename is `<stamp>.yaml` |
| Pipeline.SaveLoadRoundTrip | mistral.py:158-167 | the collaboration script reads back the saved summary, timestamp and type |
| Pipeline.SavedKeysDistinct | mistral.py:159-164 | the four keys differ |
| Pipeline.SavedOutputsEntry | mistral.py:162 | the record holds the outputs under "outputs" |
| Pipeline.ProcessDevices | mistral.py:172-202 | the run `MainRun` describes over the groups in the order the types first appear |
| Pipeline.ProcessGroups | mistral.py:182-202 | the loop proved equal to `MainRun`: with a key round k is the pass over the k-th group; without one the first pass raises and the loop ends with nothing saved |
| Pipeline.MainRun | mistral.py:182-202 | with a key, every pass completes and nothing crashes; without one no round is saved, and the run ends with the `ValueError` exactly when there is a group |
| Pipeline.MissingKeySavesNothing | mistral.py:172-202 | without a key, a non-empty inventory saves no file and launches no notifier, ending with the missing-key error |
| Pipeline.Rounds | mistral.py:182-202 | one pass per group, in order; pass k is about the k-th type and launches the notifier for it |
| Pipeline.RoundFor | mistral.py:185-202 | a pass is about its own type and launches the notifier for that type |
| Pipeline.ProcessType | mistral.py:185-202 | with a key, a pass collects, aggregates, summarises, saves and launches the collaboration command; without one it ends with the missing-key error before saving |
| Pipeline.RoundsCoverTypes | mistral.py:175-202 | round k saves the k-th type's file holding exactly that type's devices |
| Pipeline.RoundContents | mistral.py:185-202 | each pass's file reads back as the model's summary of that type and the launched command names the type |
| Pipeline.CollabCommand | mistral.py:202 | the launched command is the notifier script followed by the device type, which can be read back unchanged |
| Troubleshoot.Truncate | troubleshoot.py:77-80 | at most 3000 + notice characters; unchanged up to 3000; starts with the first min(len, 3000) characters; a longer text ends with the notice |
| Troubleshoot.TruncateIdempotent | troubleshoot.py:78-80 | cutting a cut text again changes nothing |
| Troubleshoot.PromptOrder | troubleshoot.py:82-94 | the prompt holds the device type, then the summary, then the outputs, then the question, at their positions, and ends with the closing request |
| Troubleshoot.PromptBounded | troubleshoot.py:77-94 | the prompt's size is bounded independently of the size of the dumped outputs |
| Troubleshoot.Prompt | troubleshoot.py:82-94 | the prompt's length is the sum of the lengths of its fixed text and its four inserted parts |
| Troubleshoot.PromptFor | troubleshoot.py:72-94 | the prompt for a loaded record; where its parts and defaults land is stated by `PromptOrder` and `PromptForDefaults` |
| Troubleshoot.PromptForDefaults | troubleshoot.py:72-94 | a missing type shows "unknown", a missing summary "No summary available", missing outputs dump an empty mapping |
| Troubleshoot.TroubleshootWithMistral | troubleshoot.py:63-112 | the file-not-found, YAML-error and None-data paths end as such; a document that is not a mapping ends as analysis failed with its error; a loaded mapping ends as `GuidanceFrom` of the answer to its prompt |
| Troubleshoot.GuidanceFrom | troubleshoot.py:96-112 | a raised call ends as analysis failed with its message; a reply ends as stripped guidance no longer than the reply |
| Troubleshoot.GuidanceIsTrimmedReply | troubleshoot.py:102 | the guidance is one piece of the reply with only blanks before and after it, and every non-blank character of the reply is kept |
| Troubleshoot.NoDataNeverAsks | troubleshoot.py:68-70 | without a loaded mapping the model plays no part in the outcome |
| Troubleshoot.OnlyThePromptIsAsked | troubleshoot.py:96-102 | a loaded record's outcome depends on the model only through the answer to its prompt |
| Troubleshoot.MostRecentYamlFiles | troubleshoot.py:31-39 | [] when the directory is missing; otherwise min(n, listed) listed files, newest first |
| Troubleshoot.NothingNewerLeftOut | troubleshoot.py:37-39 | no file left out is newer than a file returned |
| Troubleshoot.MenuLine | troubleshoot.py:49-51 | the i-th line starts with the number i + 1 |
| Troubleshoot.MenuIndex | troubleshoot.py:55-56 | a position exactly when the line reads as a number from 1 to the count, at that number minus one |
| Troubleshoot.Attempts | troubleshoot.py:53-61 | all lines before the stopping point are rejected, the line there is accepted |
| Troubleshoot.Selection | troubleshoot.py:41-61 | no files exactly when none are listed; a chosen path is one of the listed files; the input runs out exactly when no line is acceptable |
| Troubleshoot.SelectionReadsFirstAccepted | troubleshoot.py:53-61 | the chosen record is `files[int(line) - 1]` for the first line `int()` reads as 1 to the count, every earlier line rejected |
| Troubleshoot.AcceptedLineSelects | troubleshoot.py:53-61 | after rejected lines, any line `int()` reads as `i + 1` selects the `i`-th record |
| Troubleshoot.ChooseYamlFile | troubleshoot.py:41-61 | the loop makes the choice `Selection` describes for the three newest records |
| Troubleshoot.ReadChoice | troubleshoot.py:53-61 | reads lines until one is accepted; input that runs out reads everything |
| Troubleshoot.TypedNumberSelects | troubleshoot.py:49-61 | after any rejected lines, typing the number printed before a record selects that record |
| Troubleshoot.ZeroIsRejected | troubleshoot.py:55-56 | "0" selects nothing |
| Decimal.ParseInt | troubleshoot.py:55 | `int()`: a line reads as a number exactly when, stripped, it is an optionally signed numeral with single inner underscores |
| Decimal.ShowNat | troubleshoot.py:51 | `str(n)`: nonempty digits, no leading zero |
| Decimal.ParseShowInt | troubleshoot.py:51-55 | a printed number reads back as itself |
| Decimal.NoDigitNoNumber | troubleshoot.py:55-61 | a line without a digit is a `ValueError` |
| Decimal.BlanksAroundTwo | troubleshoot.py:55 | " 2" followed by a line break reads as 2 |
| Decimal.PlusTwo | troubleshoot.py:55 | "+2" reads as 2 |
| Decimal.PaddedTwo | troubleshoot.py:55 | "02" and "0_2" read as 2 |
| Decimal.MalformedTwo | troubleshoot.py:55 | "2_" and "2 2" are `ValueError`s |
| Nxos.Raised | nxos_mistral.py:11-15 | the output when the session completes, otherwise the failure's message |
| Nxos.SshConnectAndRunCommand | nxos_mistral.py:8-15 | the failure propagates; the client is closed only after success, and a command failure leaves it logged in |
| Nxos.CaughtFailureIsCommandOutput | nxos_mistral.py:45-48 | the caught failure becomes the same "Error: " text as in mistral.py |
| Nxos.CollectDeviceInfo | nxos_mistral.py:31-49 | every command runs in order, each entry holding its own output or error text |
| Nxos.CollectedEntry | nxos_mistral.py:41-49 | the keys are the six commands in order and each holds what its own session produced |
| Nxos.SameAsMistralCollector | nxos_mistral.py:31-49 | for a reachable device the mapping equals the one mistral.py collects |
| Nxos.AggregateDeviceInfo | nxos_mistral.py:52-56 | the Nexus preamble followed by `\n\n### cmd ###\n` + output per entry in order |
| Nxos.NxosAggregate | nxos_mistral.py:52-56 | the prompt opens with the fixed Nexus preamble, and is only that when nothing was collected |
| Nxos.NxosOutputVerbatim | nxos_mistral.py:53-55 | the text starts with the preamble and every output occurs verbatim under its heading |
| Nxos.NxosAggregateAppend | nxos_mistral.py:54-55 | more entries only append sections |
| Nxos.DeviceMenuLine | nxos_mistral.py:25-26 | the i-th line starts with the number i + 1 |
| Nxos.ChooseDevice | nxos_mistral.py:23-28 | a non-number fails; a number k succeeds exactly when 1 - len <= k <= len, picking `devices[k-1]` for positive k and counting from the end otherwise |
| Nxos.PyIndex | nxos_mistral.py:28 | `devices[choice]` succeeds exactly when -len <= choice < len, at position choice mod len |
| Nxos.TypedDeviceNumber | nxos_mistral.py:25-28 | typing the number printed before a device selects it |
| Nxos.ZeroSelectsLast | nxos_mistral.py:27-28 | "0" selects the last device |
| Nxos.SaveOutput | nxos_mistral.py:72-79 | the record has exactly the keys device, timestamp, outputs, summary |
| Nxos.SavedPath | nxos_mistral.py:73-77 | the path is `nxos/output/<device>/<stamp>.yaml` |
| Nxos.SavedRecordFields | nxos_mistral.py:79 | distinct keys, the device name and outputs stored, and the record reads in the notifier as of type "unknown" |
| Nxos.Run | nxos_mistral.py:84-99 | the script stores the record `Session` describes |
| Nxos.Session | nxos_mistral.py:84-99 | the run stores nothing exactly when `choose_device` raises or the key is missing; a bad choice ends with its error, a missing key with the client's error |
| Nxos.SessionRecord | nxos_mistral.py:84-99 | choosing device i stores a record exactly when the key is set, holding its outputs, and a failed model call stores the sentinel summary |
| Files.SortNewestFirst | troubleshoot.py:38 | newest first, the same files |
| Files.InsertByMtime | troubleshoot.py:38 | inserting into a newest-first list keeps it newest first and adds exactly that file |
| Files.SortedHeadIsFirstNewest | analyze_and_collab.py:31-32 | the head of the sort is the first listed file of the greatest mtime |
| OrderedDict.Put | mistral.py:187 | assignment replaces a present key's value in place, or appends a new key |
| OrderedDict.PutTwice | mistral.py:178-180 | assigning a key twice keeps only the second value |
| OrderedDict.Get | analyze_and_collab.py:40-42 | a value exactly when the key is present; with distinct keys, the value stored under it |
| Records.GetStr | troubleshoot.py:72-74 | `data.get(key, default)` of a string value, the default when missing |
| Text.Strip | mistral.py:144 | a slice of the input, with no blank at either end |
| Text.StripTrimsOnlyBlanks | mistral.py:144 | only blanks lie outside the stripped piece, and every non-blank character is kept |
| Text.Upper | analyze_and_collab.py:52 | `.upper()`: the same length, each character uppercased, no lower-case letter left |
| Text.Contains | analyze_and_collab.py:53 | `needle in hay`: true exactly when the needle occurs at some position |
| Text.Tail | analyze_and_collab.py:52 | `s[-n:]`: the last n characters, or all of a shorter text |
| Text.StripIdempotent | troubleshoot.py:102 | stripping twice is stripping once |
| Text.SplitLines | analyze_and_collab.py:115 | `splitlines()`: line pieces without line breaks |
| Text.SplitLinesJoin | analyze_and_collab.py:119 | splitting lines joined by "\n" gives them back |
| Text.Join | analyze_and_collab.py:119 | `"\n".join`: no parts join to the empty text; `SplitLinesJoin` states that splitting the joined lines gives them back |
| Text.PathJoin | mistral.py:153-156 | `os.path.join` with an absolute second part replacing the first |
| Auth.GetMistralClient | mistral_auth.py:4-8 | a client exactly when the key is set and non-empty, built with that key; otherwise the `ValueError` with its message |
| Auth.UnsetOrEmptyKeyFails | mistral_auth.py:5-7 | an unset and an empty variable both raise |
| Text.Basename | analyze_and_collab.py:86 | the part after the last slash |
| Text.BasenameOfJoin | analyze_and_collab.py:86 | the basename of `dir/name` is `name` |

## Left out

- SSH itself (paramiko, host-key policy, timeouts). Each session is an outcome supplied by `Network`.
- The Mistral SDK (`chat.complete`, `beta.agents.create`, the model names, `max_tokens`). Each call is a `Result` supplied by the caller. So is `create_troubleshooting_agent`, whose agent id `troubleshoot_with_mistral` never uses.
- The `Mistral(api_key=...)` object is only the key it holds (`Auth.Client`); nothing checks the key's validity.
- Pipeline.MainRun: without a key the first pass's devices have already been contacted over SSH when the run stops; the network is a pure function here, so those sessions leave no trace in the result.
- Webex HTTP (`requests.post`, status-code logging). Only the payloads appended to the outbox are modelled.
- YAML dumping and parsing are not modelled. A loaded file is a `Document`, and `yaml.dump` is a function parameter. `yaml.dump` sorts keys, so a reloaded record does not keep the saved key order; every read here is by key.
- `Records.GetStr`: a stored value is either a string or a mapping (`Records.Value`). A mapping where a string is expected is read as the key's default. Python does not do that: it prints such a value (`str()`) where it only formats it, and it raises where it calls a string method on it.
- Collab.LoadSummary: a `summary` that is not a string makes `is_critical` raise (`summary[-2000:].upper()`, analyze_and_collab.py:52) before anything is posted. The model reads such a summary as "" and posts the quiet team message. A non-string `timestamp` or `device_type` is printed with `str()` in the messages; the model shows the default instead.
- Collab.NotifyTeam: the crash paths of `main` are not modelled. An empty YAML file makes `safe_load` return None, and `data.get` then raises (analyze_and_collab.py:40). A file that does not parse raises `yaml.YAMLError`, and an unreadable one raises `OSError`. `read` always returns a `Document`, so the model always goes on to post.
- `glob`, `os.path.getmtime`, `os.path.exists` and `os.makedirs` are listings and predicates passed in. So is `datetime.now`; the model has no clock of its own.
- `os.system` at mistral.py:202 is recorded as the command string it runs, not executed.
- `load_devices` in both scripts: reading the inventory file, and its file-not-found branch.
- `print` output and the interactive prompts. `input()` is a sequence of lines.
- `troubleshoot.py`'s `__main__` driver: the type prompt, the question prompt and the agent check, and `get_mistral_client` raising at troubleshoot.py:115 before anything else when the key is missing.
- `prompt.format(device_type=...)` at mistral.py:121 is taken as the identity. It only differs when the type contains braces.
- Text.Upper, Text.SplitLines, Text.Strip: `.upper()` maps only ASCII letters, and `splitlines()` and `strip()` use the Unicode line-break and whitespace sets; case mappings beyond ASCII are not modelled.
- Decimal.ParseInt: non-ASCII decimal digits, which Python's `int()` also accepts, are not modelled.
- Clock.Stamp: only four-digit years (1000-9999) are modelled; `%Y` prints other years with a different width.
- Files.SortNewestFirst is a stable insertion sort on values, not Python's in-place `list.sort`. The result is the same list; the in-place update is not modelled.
- Tie order among equal mtimes depends on the unspecified `glob` order. The model keeps the listed order, and its lemmas say which maximal file is taken.
- Failures during a read, such as partial output or a decode error, are not told apart: each counts as a `CommandFailed` outcome.
