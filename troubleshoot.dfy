/**
 * troubleshoot.py: list the newest stored analyses of a device type, let the
 * engineer pick one from a numbered menu, and ask the model for
 * troubleshooting steps about it, with the raw outputs cut to a fixed size.
 */
module Troubleshoot {
  import opened Wrappers
  import opened Text
  import opened OrderedDict
  import opened Records
  import opened Files
  import opened Decimal
  import Collab

  /** The longest outputs text the prompt carries as it is. */
  const MaxOutputChars: nat := 3000

  /** What replaces everything after the first 3000 characters. */
  const TruncationNotice: string := "\n... [truncated due to token limit]"

  function Min(a: nat, b: nat): nat {
    if a <= b then a else b
  }

  /** The dumped outputs as they enter the prompt: kept whole up to 3000 characters, otherwise cut there and marked. */
  function Truncate(s: string): (r: string)
    ensures |r| <= MaxOutputChars + |TruncationNotice|
    ensures |s| <= MaxOutputChars ==> r == s
    ensures Min(|s|, MaxOutputChars) <= |r| && r[..Min(|s|, MaxOutputChars)] == s[..Min(|s|, MaxOutputChars)]
    ensures |s| > MaxOutputChars ==> |r| == MaxOutputChars + |TruncationNotice| && r[MaxOutputChars..] == TruncationNotice
  {
    if |s| > MaxOutputChars then s[..MaxOutputChars] + TruncationNotice else s
  }

  /** Cutting again changes nothing: a cut text is cut back to itself. */
  lemma TruncateIdempotent(s: string)
    ensures Truncate(Truncate(s)) == Truncate(s)
  {
    if |s| > MaxOutputChars {
      var r := Truncate(s);
      assert r[..MaxOutputChars] == s[..MaxOutputChars];
    }
  }

  // The fixed parts of the prompt, in order.
  const Intro: string := "You are an expert network troubleshooting assistant. "
  const ProvidedData: string := "A network engineer has provided you with the following data from devices of type '"
  const WithSummary: string := "', along with an initial AI-generated summary."
  const SummaryHeading: string := "\n\n\nInitial AI Summary:\n"
  const OutputsHeading: string := "\n\nRaw Device Outputs:\n"
  const QuestionHeading: string := "\n\nThe engineer has the following question:\n"
  const Closing: string := "\n\nProvide specific, actionable troubleshooting steps to address the engineer's question, referencing the raw device outputs as needed."

  /** Everything in front of the summary. */
  function Lead(deviceType: string): string {
    Intro + ProvidedData + deviceType + WithSummary + SummaryHeading
  }

  /** The f-string sent to the model. */
  function Prompt(deviceType: string, summary: string, outputs: string, question: string): (p: string)
    ensures |p| == |Lead(deviceType)| + |summary| + |OutputsHeading| + |outputs| + |QuestionHeading| + |question| + |Closing|
  {
    Lead(deviceType) + summary + OutputsHeading + outputs + QuestionHeading + question + Closing
  }

  /**
   * The prompt carries the device type, then the summary right after its
   * heading, then the outputs right after theirs, then the question, and ends
   * with the closing request.
   */
  lemma PromptOrder(deviceType: string, summary: string, outputs: string, question: string)
    ensures var p := Prompt(deviceType, summary, outputs, question);
      var i := |Lead(deviceType)|;
      var j := i + |summary| + |OutputsHeading|;
      var k := j + |outputs| + |QuestionHeading|;
      OccursAt(deviceType, p, |Intro + ProvidedData|)
      && OccursAt(summary, p, i)
      && OccursAt(outputs, p, j)
      && OccursAt(question, p, k)
      && OccursAt(Closing, p, k + |question|) && k + |question| + |Closing| == |p|
  {
    DeviceTypeInPrompt(deviceType, summary, outputs, question);
    SummaryInPrompt(deviceType, summary, outputs, question);
    OutputsInPrompt(deviceType, summary, outputs, question);
    QuestionInPrompt(deviceType, summary, outputs, question);
  }

  lemma DeviceTypeInPrompt(deviceType: string, summary: string, outputs: string, question: string)
    ensures OccursAt(deviceType, Prompt(deviceType, summary, outputs, question), |Intro + ProvidedData|)
  {
    var head := Intro + ProvidedData;
    OccursAtEnd(head, deviceType);
    OccursExtended(deviceType, head + deviceType, |head|, WithSummary);
    OccursExtended(deviceType, head + deviceType + WithSummary, |head|, SummaryHeading);
    RunsToPrompt(deviceType, Lead(deviceType), |head|, deviceType, summary, outputs, question);
  }

  lemma SummaryInPrompt(deviceType: string, summary: string, outputs: string, question: string)
    ensures OccursAt(summary, Prompt(deviceType, summary, outputs, question), |Lead(deviceType)|)
  {
    var lead := Lead(deviceType);
    OccursAtEnd(lead, summary);
    OutputsToPrompt(summary, lead + summary, |lead|, outputs, question);
  }

  lemma OutputsInPrompt(deviceType: string, summary: string, outputs: string, question: string)
    ensures OccursAt(outputs, Prompt(deviceType, summary, outputs, question), |Lead(deviceType)| + |summary| + |OutputsHeading|)
  {
    var before := Lead(deviceType) + summary + OutputsHeading;
    OccursAtEnd(before, outputs);
    OccursExtended(outputs, before + outputs, |before|, QuestionHeading);
    OccursExtended(outputs, before + outputs + QuestionHeading, |before|, question);
    OccursExtended(outputs, before + outputs + QuestionHeading + question, |before|, Closing);
  }

  lemma QuestionInPrompt(deviceType: string, summary: string, outputs: string, question: string)
    ensures var k := |Lead(deviceType)| + |summary| + |OutputsHeading| + |outputs| + |QuestionHeading|;
      OccursAt(question, Prompt(deviceType, summary, outputs, question), k)
      && OccursAt(Closing, Prompt(deviceType, summary, outputs, question), k + |question|)
  {
    var asked := Lead(deviceType) + summary + OutputsHeading + outputs + QuestionHeading;
    OccursAtEnd(asked, question);
    OccursExtended(question, asked + question, |asked|, Closing);
    OccursAtEnd(asked + question, Closing);
  }

  /** An occurrence inside the lead stays where it is in the whole prompt. */
  lemma RunsToPrompt(x: string, lead: string, i: int, deviceType: string, summary: string, outputs: string, question: string)
    requires lead == Lead(deviceType) && OccursAt(x, lead, i)
    ensures OccursAt(x, Prompt(deviceType, summary, outputs, question), i)
  {
    OccursExtended(x, lead, i, summary);
    OutputsToPrompt(x, lead + summary, i, outputs, question);
  }

  /** An occurrence in front of the outputs heading stays where it is in the whole prompt. */
  lemma OutputsToPrompt(x: string, front: string, i: int, outputs: string, question: string)
    requires OccursAt(x, front, i)
    ensures OccursAt(x, front + OutputsHeading + outputs + QuestionHeading + question + Closing, i)
  {
    OccursExtended(x, front, i, OutputsHeading);
    OccursExtended(x, front + OutputsHeading, i, outputs);
    OccursExtended(x, front + OutputsHeading + outputs, i, QuestionHeading);
    OccursExtended(x, front + OutputsHeading + outputs + QuestionHeading, i, question);
    OccursExtended(x, front + OutputsHeading + outputs + QuestionHeading + question, i, Closing);
  }

  /** The prompt's size is bounded by its variable parts, whatever the size of the outputs. */
  lemma PromptBounded(deviceType: string, summary: string, dumped: string, question: string)
    ensures |Prompt(deviceType, summary, Truncate(dumped), question)|
      <= |Lead(deviceType)| + |summary| + |OutputsHeading| + MaxOutputChars + |TruncationNotice| + |QuestionHeading| + |question| + |Closing|
  {
    var t := Truncate(dumped);
    assert |t| <= MaxOutputChars + |TruncationNotice|;
  }

  const UnknownType: string := "unknown"
  const NoSummary: string := "No summary available"

  /** The prompt for a loaded record: missing keys read as their defaults, the dumped outputs cut to size. */
  function PromptFor(doc: Document, dump: Value -> string, question: string): string {
    var deviceType := GetStr(doc, "device_type", UnknownType);
    var outputs := GetValue(doc, "outputs", Table([]));
    var summary := GetStr(doc, "summary", NoSummary);
    Prompt(deviceType, summary, Truncate(dump(outputs)), question)
  }

  /**
   * A record without a summary is described as having none, one without a
   * device type as of type "unknown", and one without outputs has an empty
   * mapping dumped in their place.
   */
  lemma PromptForDefaults(doc: Document, dump: Value -> string, question: string)
    ensures var p := PromptFor(doc, dump, question);
      var i := |Lead(GetStr(doc, "device_type", UnknownType))|;
      (Get(doc, "device_type").None? ==> OccursAt(UnknownType, p, |Intro + ProvidedData|))
      && (Get(doc, "summary").None? ==> OccursAt(NoSummary, p, i))
      && (forall s :: Get(doc, "summary") == Some(Str(s)) ==> OccursAt(s, p, i))
      && (Get(doc, "outputs").None? ==> OccursAt(Truncate(dump(Table([]))), p, i + |GetStr(doc, "summary", NoSummary)| + |OutputsHeading|))
  {
    var deviceType := GetStr(doc, "device_type", UnknownType);
    var summary := GetStr(doc, "summary", NoSummary);
    var outputs := GetValue(doc, "outputs", Table([]));
    DeviceTypeInPrompt(deviceType, summary, Truncate(dump(outputs)), question);
    SummaryInPrompt(deviceType, summary, Truncate(dump(outputs)), question);
    OutputsInPrompt(deviceType, summary, Truncate(dump(outputs)), question);
  }

  /** What opening the file and `yaml.safe_load` give; `NotAMapping` is a document whose `.get` raises. */
  datatype Loaded =
    | FileMissing
    | ParseError(reason: string)
    | NullDocument
    | NotAMapping(reason: string)
    | Mapping(doc: Document)

  /** How `troubleshoot_with_mistral` ends: one of its three error reports, the early return, or the guidance. */
  datatype Outcome =
    | NotFound
    | BadYaml(reason: string)
    | NoData
    | AnalysisFailed(reason: string)
    | Guidance(text: string)

  /** What becomes of the chat call's answer: the trimmed reply, or the message of the exception it raised. */
  function GuidanceFrom(reply: Result<string, string>): (r: Outcome)
    ensures reply.Err? ==> r == AnalysisFailed(reply.error)
    ensures reply.Ok? ==> r.Guidance? && IsStripped(r.text) && |r.text| <= |reply.value|
  {
    match reply
    case Err(e) => AnalysisFailed(e)
    case Ok(content) => Guidance(Strip(content))
  }

  /**
   * The guidance is the reply with its blanks trimmed: one piece of the
   * reply, with only blanks before and after it, and every non-blank
   * character of the reply kept.
   */
  lemma GuidanceIsTrimmedReply(content: string)
    ensures var g, lo := GuidanceFrom(Ok(content)).text, StripStart(content);
      lo + |g| <= |content| && content[lo..lo + |g|] == g
      && (forall i :: 0 <= i < lo ==> IsSpace(content[i]))
      && (forall i :: lo + |g| <= i < |content| ==> IsSpace(content[i]))
      && (forall i :: 0 <= i < |content| && !IsSpace(content[i]) ==> lo <= i < lo + |g| && g[i - lo] == content[i])
  {
    assert GuidanceFrom(Ok(content)).text == Strip(content);
    StripTrimsOnlyBlanks(content);
  }

  /**
   * `troubleshoot_with_mistral`: `ask` is the chat call, answering with the
   * reply text or the message of the exception it raised; `dump` is
   * `yaml.dump(..., default_flow_style=False)`.
   */
  function TroubleshootWithMistral(loaded: Loaded, dump: Value -> string, ask: string -> Result<string, string>, question: string): (r: Outcome)
    ensures loaded.FileMissing? <==> r.NotFound?
    ensures loaded.ParseError? <==> r.BadYaml?
    ensures loaded.NullDocument? <==> r.NoData?
    ensures r.Guidance? ==> loaded.Mapping? && IsStripped(r.text)
    ensures loaded.Mapping? ==> (r.Guidance? <==> ask(PromptFor(loaded.doc, dump, question)).Ok?)
    ensures loaded.Mapping? && r.Guidance? ==> |r.text| <= |ask(PromptFor(loaded.doc, dump, question)).value|
    ensures loaded.NotAMapping? ==> r == AnalysisFailed(loaded.reason)
    ensures loaded.Mapping? ==> r == GuidanceFrom(ask(PromptFor(loaded.doc, dump, question)))
  {
    match loaded
    case FileMissing => NotFound
    case ParseError(e) => BadYaml(e)
    case NullDocument => NoData
    case NotAMapping(e) => AnalysisFailed(e)
    case Mapping(doc) =>
      GuidanceFrom(ask(PromptFor(doc, dump, question)))
  }

  /** The model is consulted only for a loaded mapping: with no data, any model gives the same outcome. */
  lemma NoDataNeverAsks(loaded: Loaded, dump: Value -> string, ask1: string -> Result<string, string>, ask2: string -> Result<string, string>, question: string)
    requires !loaded.Mapping?
    ensures TroubleshootWithMistral(loaded, dump, ask1, question) == TroubleshootWithMistral(loaded, dump, ask2, question)
    ensures TroubleshootWithMistral(loaded, dump, ask1, question).AnalysisFailed? ==> loaded.NotAMapping?
  {
  }

  /** A loaded record's outcome depends on the model only through its answer to that record's prompt. */
  lemma OnlyThePromptIsAsked(doc: Document, dump: Value -> string, ask1: string -> Result<string, string>, ask2: string -> Result<string, string>, question: string)
    requires ask1(PromptFor(doc, dump, question)) == ask2(PromptFor(doc, dump, question))
    ensures TroubleshootWithMistral(Mapping(doc), dump, ask1, question) == TroubleshootWithMistral(Mapping(doc), dump, ask2, question)
  {
  }

  // Picking the record.

  /** `get_most_recent_yaml_files(device_type, n)`: the `n` newest listed records, newest first. */
  function MostRecentYamlFiles(deviceType: string, dirExists: string -> bool, glob: string -> seq<FileEntry>, n: nat): (r: seq<FileEntry>)
    ensures !dirExists(PathJoin("output", deviceType)) ==> r == []
    ensures dirExists(PathJoin("output", deviceType)) ==> |r| == Min(n, |glob(Collab.YamlPattern(deviceType))|)
    ensures NewestFirst(r)
    ensures multiset(r) <= multiset(glob(Collab.YamlPattern(deviceType)))
  {
    if !dirExists(PathJoin("output", deviceType)) then []
    else
      var files := SortNewestFirst(glob(Collab.YamlPattern(deviceType)));
      var m := Min(n, |files|);
      assert files == files[..m] + files[m..];
      files[..m]
  }

  /** No record left out is newer than a record returned. */
  lemma NothingNewerLeftOut(deviceType: string, dirExists: string -> bool, glob: string -> seq<FileEntry>, n: nat, kept: FileEntry, dropped: FileEntry)
    requires kept in MostRecentYamlFiles(deviceType, dirExists, glob, n)
    requires dropped in multiset(glob(Collab.YamlPattern(deviceType))) - multiset(MostRecentYamlFiles(deviceType, dirExists, glob, n))
    ensures dropped.mtime <= kept.mtime
  {
    var files := SortNewestFirst(glob(Collab.YamlPattern(deviceType)));
    var r := MostRecentYamlFiles(deviceType, dirExists, glob, n);
    assert r == files[..|r|];
    PrefixIsNewer(files, |r|, kept, dropped);
  }

  /** In a list sorted newest first, nothing after a prefix is newer than anything in it. */
  lemma PrefixIsNewer(files: seq<FileEntry>, m: nat, kept: FileEntry, dropped: FileEntry)
    requires NewestFirst(files) && m <= |files|
    requires kept in files[..m]
    requires dropped in multiset(files) - multiset(files[..m])
    ensures dropped.mtime <= kept.mtime
  {
    assert files == files[..m] + files[m..];
    assert multiset(files) == multiset(files[..m]) + multiset(files[m..]);
    assert dropped in multiset(files[m..]);
    var b :| 0 <= b < |files[m..]| && files[m..][b] == dropped;
    var a :| 0 <= a < m && files[..m][a] == kept;
    assert files[a] == kept && files[m + b] == dropped;
  }

  /** How many records the menu offers. */
  const MenuSize: nat := 3

  /** The menu line printed for the `i`-th record: its number, counting from 1, and its file name. */
  function MenuLine(files: seq<FileEntry>, i: nat): (line: string)
    requires i < |files|
    ensures ShowInt(i + 1) + ": " <= line
  {
    ShowInt(i + 1) + ": " + Basename(files[i].path)
  }

  /** The menu position an input line selects: `int(line) - 1`, when it is a number and in range. */
  function MenuIndex(count: nat, line: string): (r: Option<nat>)
    ensures r.Some? <==> ParseInt(line).Some? && 1 <= ParseInt(line).value <= count
    ensures r.Some? ==> r.value < count && ParseInt(line) == Some(r.value + 1)
  {
    var v := ParseInt(line);
    if v.Some? && 0 <= v.value - 1 < count then Some((v.value - 1) as nat) else None
  }

  /** How many input lines are read before one selects a record: the first acceptable line's index, or all of them. */
  function Attempts(count: nat, inputs: seq<string>): (k: nat)
    ensures k <= |inputs|
    ensures forall j :: 0 <= j < k ==> MenuIndex(count, inputs[j]).None?
    ensures k < |inputs| ==> MenuIndex(count, inputs[k]).Some?
  {
    if inputs == [] then 0
    else if MenuIndex(count, inputs[0]).Some? then 0
    else 1 + Attempts(count, inputs[1..])
  }

  /** What `choose_yaml_file` ends with: no records, the chosen path, or the end of input (`EOFError`). */
  datatype Choice = NoFiles | Chosen(path: string) | InputExhausted

  /** The choice made among `files` by the given input lines. */
  function Selection(files: seq<FileEntry>, inputs: seq<string>): (c: Choice)
    ensures c == NoFiles <==> files == []
    ensures c.Chosen? ==> exists i :: 0 <= i < |files| && files[i].path == c.path
    ensures c == InputExhausted <==> files != [] && Attempts(|files|, inputs) == |inputs|
  {
    if files == [] then NoFiles
    else
      var k := Attempts(|files|, inputs);
      if k == |inputs| then InputExhausted
      else
        var i := MenuIndex(|files|, inputs[k]).value;
        Chosen(files[i].path)
  }

  /**
   * The record chosen is `files[int(line) - 1]` for the first line `line` that `int()` reads
   * as a number from 1 to the count; every earlier line is rejected.
   */
  lemma SelectionReadsFirstAccepted(files: seq<FileEntry>, inputs: seq<string>)
    ensures var c, k := Selection(files, inputs), Attempts(|files|, inputs);
      c.Chosen? ==>
        k < |inputs| && ParseInt(inputs[k]).Some? && 1 <= ParseInt(inputs[k]).value <= |files|
        && c.path == files[ParseInt(inputs[k]).value - 1].path
        && forall j :: 0 <= j < k ==> MenuIndex(|files|, inputs[j]).None?
  {
    var c, k := Selection(files, inputs), Attempts(|files|, inputs);
    if c.Chosen? {
      var v := MenuIndex(|files|, inputs[k]);
      assert v.Some? && c.path == files[v.value].path;
      assert ParseInt(inputs[k]) == Some(v.value + 1);
      assert ParseInt(inputs[k]).value - 1 == v.value;
    }
  }

  /** The first acceptable line is where the reading stops. */
  lemma {:induction false} AttemptsAt(count: nat, inputs: seq<string>, k: nat)
    requires k <= |inputs|
    requires forall j :: 0 <= j < k ==> MenuIndex(count, inputs[j]).None?
    requires k == |inputs| || MenuIndex(count, inputs[k]).Some?
    ensures Attempts(count, inputs) == k
    decreases k
  {
    if k > 0 {
      assert MenuIndex(count, inputs[0]).None?;
      assert forall j :: 0 <= j < k - 1 ==> inputs[1..][j] == inputs[j + 1];
      AttemptsAt(count, inputs[1..], k - 1);
    }
  }

  /**
   * `choose_yaml_file(device_type)`: it offers the three newest records and
   * reads lines until one names a listed number; `used` is how many it read.
   */
  method ChooseYamlFile(deviceType: string, dirExists: string -> bool, glob: string -> seq<FileEntry>, inputs: seq<string>)
    returns (choice: Choice, used: nat)
    ensures choice == Selection(MostRecentYamlFiles(deviceType, dirExists, glob, MenuSize), inputs)
    ensures used <= |inputs|
    ensures choice.InputExhausted? ==> used == |inputs|
  {
    var files := MostRecentYamlFiles(deviceType, dirExists, glob, MenuSize);
    if files == [] {
      return NoFiles, 0;
    }
    choice, used := ReadChoice(files, inputs);
  }

  /** The `while True` loop of `choose_yaml_file`: read lines until one names a listed number. */
  method ReadChoice(files: seq<FileEntry>, inputs: seq<string>) returns (choice: Choice, used: nat)
    requires files != []
    ensures choice == Selection(files, inputs)
    ensures used <= |inputs|
    ensures choice.InputExhausted? ==> used == |inputs|
  {
    used := 0;
    while used < |inputs|
      invariant used <= |inputs|
      invariant forall j :: 0 <= j < used ==> MenuIndex(|files|, inputs[j]).None?
    {
      var index := MenuIndex(|files|, inputs[used]);
      used := used + 1;
      if index.Some? {
        AttemptsAt(|files|, inputs, used - 1);
        return Chosen(files[index.value].path), used;
      }
    }
    AttemptsAt(|files|, inputs, used);
    choice := InputExhausted;
  }

  /**
   * Rejected lines are skipped: the first line that `int()` reads as `i + 1` selects the `i`-th
   * record, however it is written (" 2", "+2", "02" and "0_2" all select the second).
   */
  lemma AcceptedLineSelects(files: seq<FileEntry>, rejected: seq<string>, line: string, i: nat, later: seq<string>)
    requires i < |files| && ParseInt(line) == Some(i + 1)
    requires forall j :: 0 <= j < |rejected| ==> MenuIndex(|files|, rejected[j]).None?
    ensures Selection(files, rejected + [line] + later) == Chosen(files[i].path)
  {
    var inputs := rejected + [line] + later;
    assert inputs[|rejected|] == line;
    assert forall j :: 0 <= j < |rejected| ==> inputs[j] == rejected[j];
    AttemptsAt(|files|, inputs, |rejected|);
  }

  /** In particular, typing the number printed in front of a record selects that record. */
  lemma TypedNumberSelects(files: seq<FileEntry>, rejected: seq<string>, i: nat, later: seq<string>)
    requires i < |files|
    requires forall j :: 0 <= j < |rejected| ==> MenuIndex(|files|, rejected[j]).None?
    ensures MenuLine(files, i) == ShowInt(i + 1) + ": " + Basename(files[i].path)
    ensures Selection(files, rejected + [ShowInt(i + 1)] + later) == Chosen(files[i].path)
  {
    ParseShowInt(i + 1);
    AcceptedLineSelects(files, rejected, ShowInt(i + 1), i, later);
  }

  /** "0" is rejected: the menu counts from 1 and a negative position is never accepted. */
  lemma ZeroIsRejected(count: nat)
    ensures MenuIndex(count, "0").None?
  {
    ParseShowInt(0);
    assert ShowInt(0) == "0";
  }
}
