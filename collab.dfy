/**
 * analyze_and_collab.py: pick the newest stored analysis of a device type,
 * tell the team space about it, and message one person directly when the
 * summary looks critical.
 */
module Collab {
  import opened Wrappers
  import opened Text
  import opened Files
  import opened OrderedDict
  import opened Records
  import opened Severity

  /** The Webex target of a message: a room, or a person addressed directly. */
  datatype Target = Room(roomId: Option<string>) | Person(toPersonId: Option<string>)

  /** The JSON body `send_webex_message` posts: the markdown text and the target. */
  datatype Payload = Payload(markdown: string, target: Target)

  /** The environment variables the script reads; each may be unset. */
  datatype Env = Env(space: Option<string>, person: Option<string>, chatLink: Option<string>)

  /** `glob.glob(os.path.join(os.path.join("output", device_type), "*.yaml"))`: the pattern listed. */
  function YamlPattern(deviceType: string): (r: string)
    ensures deviceType != [] && deviceType[0] != '/' && deviceType[|deviceType| - 1] != '/' ==>
      r == "output/" + deviceType + "/*.yaml"
  {
    PathJoin(PathJoin("output", deviceType), "*.yaml")
  }

  /** `get_latest_yaml`: the listed file with the newest modification time, if any. */
  function LatestYaml(files: seq<FileEntry>): (r: Option<FileEntry>)
    ensures r.None? <==> files == []
    ensures r.Some? ==> r.value in files
    ensures r.Some? ==> forall g :: g in files ==> g.mtime <= r.value.mtime
  {
    var sorted := SortNewestFirst(files);
    if sorted == [] then None
    else
      SortedHeadIsNewest(files);
      Some(sorted[0])
  }

  /** Among files of equal newest time the first one listed wins. */
  lemma LatestYamlIsFirstNewest(files: seq<FileEntry>)
    requires files != []
    ensures LatestYaml(files) == Some(files[FirstNewest(files)])
  {
    SortedHeadIsFirstNewest(files);
  }

  /** What `load_summary_from_yaml` returns; a missing key reads as its default. */
  datatype LoadedSummary = LoadedSummary(summary: string, timestamp: string, deviceType: string)

  function LoadSummary(doc: Document): (r: LoadedSummary)
    ensures Get(doc, "summary").None? ==> r.summary == ""
    ensures Get(doc, "timestamp").None? ==> r.timestamp == ""
    ensures Get(doc, "device_type").None? ==> r.deviceType == "unknown"
    ensures forall s :: Get(doc, "summary") == Some(Str(s)) ==> r.summary == s
    ensures forall s :: Get(doc, "timestamp") == Some(Str(s)) ==> r.timestamp == s
    ensures forall s :: Get(doc, "device_type") == Some(Str(s)) ==> r.deviceType == s
  {
    LoadedSummary(GetStr(doc, "summary", ""), GetStr(doc, "timestamp", ""), GetStr(doc, "device_type", "unknown"))
  }

  /** How an f-string shows an optional text: `None` when it is unset. */
  function ShowOptional(o: Option<string>): (r: string)
    ensures o.Some? ==> r == o.value
    ensures o.None? ==> r == "None"
  {
    if o.Some? then o.value else "None"
  }

  const CriticalStatus: string := "\U{26A0}\U{FE0F} Critical issue detected \U{2014} Alexander has been notified directly."
  const QuietStatus: string := "\U{2705} No major issues detected."

  /** `short_issue`. */
  function StatusLine(critical: bool): (r: string)
    ensures r == CriticalStatus <==> critical
    ensures r == QuietStatus <==> !critical
  {
    if critical then CriticalStatus else QuietStatus
  }

  const TeamHeading: string := "\U{2705} **Network Analysis Completed**"
  const EscalationHeading: string := "\U{1F6A8} **Critical Network Issue Detected**"

  const Indent16: string := "                "
  const Indent24: string := "                        "

  /** `output/<type>/<file>`, as both messages cite the report; a file name without a slash is its basename. */
  function ReportPath(deviceType: string, fileName: string): (r: string)
    ensures "output/" <= r
    ensures (forall i :: 0 <= i < |fileName| ==> fileName[i] != '/') ==> Basename(r) == fileName
  {
    var dir := "output/" + deviceType;
    BasenameOfJoinWhenSlashFree(dir, fileName);
    dir + "/" + fileName
  }

  /** The lines of `team_msg`; the triple-quoted f-string holds them separated by `\n`. */
  function TeamLines(deviceType: string, timestamp: string, status: string, fileName: string, chat: string): seq<string> {
    [ TeamHeading,
      Indent16 + "**Device Type**: `" + deviceType + "`  ",
      Indent16 + "**Timestamp**: `" + timestamp + "`  ",
      Indent16 + status + "  ",
      Indent16 + "\U{1F4C1} **Report**: `" + ReportPath(deviceType, fileName) + "`  ",
      Indent16 + "\U{1F4AC} [Open La Chat](" + chat + ")",
      Indent16 ]
  }

  /** The team message opens with its "Network Analysis Completed" heading line. */
  function TeamMessage(deviceType: string, timestamp: string, status: string, fileName: string, chat: string): (r: string)
    ensures TeamHeading <= r
  {
    var lines := TeamLines(deviceType, timestamp, status, fileName, chat);
    JoinStartsWithFirst("\n", lines);
    Join("\n", lines)
  }

  /** The lines of `critical_msg`, which ends with a line break after the last one. */
  function EscalationLines(deviceType: string, timestamp: string, excerpt: string, fileName: string, chat: string): seq<string> {
    [ EscalationHeading,
      Indent24 + "A major issue was found during the analysis of `" + deviceType + "` devices at `" + timestamp + "`.",
      Indent24 + "\U{1F50D} **Detected Indicators**:",
      Indent24 + excerpt,
      Indent24 + "\U{1F5C2} **Report**: `" + ReportPath(deviceType, fileName) + "`  ",
      Indent24 + "\U{1F4AC} [Discuss in La Chat](" + chat + ")" ]
  }

  /** The escalation opens with its "Critical Network Issue Detected" heading line and ends with a line break. */
  function EscalationMessage(deviceType: string, timestamp: string, excerpt: string, fileName: string, chat: string): (r: string)
    ensures EscalationHeading <= r && r[|r| - 1] == '\n'
  {
    var lines := EscalationLines(deviceType, timestamp, excerpt, fileName, chat);
    JoinStartsWithFirst("\n", lines);
    Join("\n", lines) + "\n"
  }

  /** What `main` posts about one loaded record: the team message, then the escalation if critical. */
  function Dispatch(loaded: LoadedSummary, fileName: string, env: Env): (n: seq<Payload>)
    ensures 1 <= |n| <= 2 && n[0].target == Room(env.space)
    ensures |n| == 2 <==> IsCritical(loaded.summary)
    ensures |n| == 2 ==> n[1].target == Person(env.person)
    ensures n[0].markdown ==
      TeamMessage(loaded.deviceType, loaded.timestamp, StatusLine(IsCritical(loaded.summary)), fileName, ShowOptional(env.chatLink))
    ensures |n| == 2 ==>
      n[1].markdown == EscalationMessage(loaded.deviceType, loaded.timestamp, Excerpt(loaded.summary), fileName, ShowOptional(env.chatLink))
  {
    var chat := ShowOptional(env.chatLink);
    var critical := IsCritical(loaded.summary);
    var team := TeamMessage(loaded.deviceType, loaded.timestamp, StatusLine(critical), fileName, chat);
    [Payload(team, Room(env.space))]
    + if critical then
        [Payload(EscalationMessage(loaded.deviceType, loaded.timestamp, Excerpt(loaded.summary), fileName, chat),
                 Person(env.person))]
      else []
  }

  /**
   * Everything `main(device_type)` posts, in order, given what `glob` lists
   * for each pattern, what each file holds, and the environment.
   */
  function Notifications(deviceType: string, glob: string -> seq<FileEntry>, read: string -> Document, env: Env): (n: seq<Payload>)
    ensures n == [] <==> glob(YamlPattern(deviceType)) == []
  {
    match LatestYaml(glob(YamlPattern(deviceType)))
    case None => []
    case Some(latest) => Dispatch(LoadSummary(read(latest.path)), Basename(latest.path), env)
  }

  /** The messages posted so far; the HTTP exchange itself is not modelled. */
  class Outbox {
    var posted: seq<Payload>

    constructor()
      ensures posted == []
    {
      posted := [];
    }

    /** `send_webex_message(recipient, message, is_room)`. */
    method Send(recipient: Option<string>, message: string, isRoom: bool)
      modifies this
      ensures posted == old(posted) + [Payload(message, if isRoom then Room(recipient) else Person(recipient))]
    {
      var target := if isRoom then Room(recipient) else Person(recipient);
      posted := posted + [Payload(message, target)];
    }
  }

  /** `main(device_type)`. */
  method NotifyTeam(outbox: Outbox, deviceType: string, glob: string -> seq<FileEntry>, read: string -> Document, env: Env)
    modifies outbox
    ensures outbox.posted == old(outbox.posted) + Notifications(deviceType, glob, read, env)
  {
    var latest := LatestYaml(glob(YamlPattern(deviceType)));
    if latest.None? {
      return;
    }
    var fileName := Basename(latest.value.path);
    var loaded := LoadSummary(read(latest.value.path));
    Announce(outbox, loaded, fileName, env);
  }

  /** The part of `main` after the record is loaded: the team message, then the escalation. */
  method Announce(outbox: Outbox, loaded: LoadedSummary, fileName: string, env: Env)
    modifies outbox
    ensures outbox.posted == old(outbox.posted) + Dispatch(loaded, fileName, env)
  {
    var chat := ShowOptional(env.chatLink);
    var critical := IsCritical(loaded.summary);
    var status := StatusLine(critical);
    var team := TeamMessage(loaded.deviceType, loaded.timestamp, status, fileName, chat);
    outbox.Send(env.space, team, true);
    if critical {
      var excerpt := Excerpt(loaded.summary);
      var alert := EscalationMessage(loaded.deviceType, loaded.timestamp, excerpt, fileName, chat);
      outbox.Send(env.person, alert, false);
    }
  }

  /** The record `main` reports on: the newest listed file, read and decoded. */
  function Reported(deviceType: string, glob: string -> seq<FileEntry>, read: string -> Document): (r: Option<LoadedSummary>)
    ensures r.None? <==> glob(YamlPattern(deviceType)) == []
  {
    var latest := LatestYaml(glob(YamlPattern(deviceType)));
    if latest.Some? then Some(LoadSummary(read(latest.value.path))) else None
  }

  /**
   * When a file is listed the team space always hears first, and a second, direct message
   * goes to the person exactly when the reported summary is critical; the team message
   * carries the warning line when it is critical and the all-clear line when it is not.
   */
  lemma NotificationShape(deviceType: string, glob: string -> seq<FileEntry>, read: string -> Document, env: Env)
    requires glob(YamlPattern(deviceType)) != []
    ensures var n, critical := Notifications(deviceType, glob, read, env), IsCritical(Reported(deviceType, glob, read).value.summary);
      1 <= |n| <= 2 && n[0].target == Room(env.space)
      && (|n| == 2 <==> critical)
      && (|n| == 2 ==> n[1].target == Person(env.person))
      && IsSubstring(StatusLine(critical), n[0].markdown)
      && (critical ==> IsSubstring(CriticalStatus, n[0].markdown))
      && (!critical ==> IsSubstring(QuietStatus, n[0].markdown))
  {
    var latest := LatestYaml(glob(YamlPattern(deviceType))).value;
    var loaded := LoadSummary(read(latest.path));
    assert Reported(deviceType, glob, read).value == loaded;
    assert Notifications(deviceType, glob, read, env) == Dispatch(loaded, Basename(latest.path), env);
    TeamMessageCarriesVerdict(loaded, Basename(latest.path), env);
  }

  /** The team message shows the status line that the summary's verdict selects. */
  lemma TeamMessageCarriesVerdict(loaded: LoadedSummary, fileName: string, env: Env)
    ensures IsSubstring(StatusLine(IsCritical(loaded.summary)), Dispatch(loaded, fileName, env)[0].markdown)
  {
    TeamMessageMentions(loaded.deviceType, loaded.timestamp, StatusLine(IsCritical(loaded.summary)), fileName, ShowOptional(env.chatLink));
  }

  /** A text placed inside one line of a message occurs in the message. */
  lemma InLine(needle: string, pre: string, post: string, lines: seq<string>, k: nat)
    requires k < |lines| && lines[k] == pre + needle + post
    ensures IsSubstring(needle, Join("\n", lines))
  {
    SubstringOfItself(needle);
    SubstringOfConcat(needle, pre, needle, post);
    JoinHasPart("\n", lines, k);
    SubstringTransitive(needle, lines[k], Join("\n", lines));
  }

  /** The team message shows the verdict, the device type, the time, the report path and the chat link. */
  lemma TeamMessageMentions(deviceType: string, timestamp: string, status: string, fileName: string, chat: string)
    ensures var m := TeamMessage(deviceType, timestamp, status, fileName, chat);
      IsSubstring(status, m) && IsSubstring(deviceType, m) && IsSubstring(timestamp, m)
      && IsSubstring(ReportPath(deviceType, fileName), m) && IsSubstring(chat, m)
  {
    var lines := TeamLines(deviceType, timestamp, status, fileName, chat);
    InLine(deviceType, Indent16 + "**Device Type**: `", "`  ", lines, 1);
    InLine(timestamp, Indent16 + "**Timestamp**: `", "`  ", lines, 2);
    InLine(status, Indent16, "  ", lines, 3);
    InLine(ReportPath(deviceType, fileName), Indent16 + "\U{1F4C1} **Report**: `", "`  ", lines, 4);
    InLine(chat, Indent16 + "\U{1F4AC} [Open La Chat](", ")", lines, 5);
  }

  /** The escalation shows the excerpt, the device type, the time, the report path and the chat link. */
  lemma EscalationMentions(deviceType: string, timestamp: string, excerpt: string, fileName: string, chat: string)
    ensures var m := EscalationMessage(deviceType, timestamp, excerpt, fileName, chat);
      IsSubstring(excerpt, m) && IsSubstring(deviceType, m) && IsSubstring(timestamp, m)
      && IsSubstring(ReportPath(deviceType, fileName), m) && IsSubstring(chat, m)
  {
    var lines := EscalationLines(deviceType, timestamp, excerpt, fileName, chat);
    var body := Join("\n", lines);
    var m := body + "\n";
    InLine(deviceType, Indent24 + "A major issue was found during the analysis of `",
           "` devices at `" + timestamp + "`.", lines, 1);
    InLine(timestamp, Indent24 + "A major issue was found during the analysis of `" + deviceType + "` devices at `",
           "`.", lines, 1);
    InLine(excerpt, Indent24, [], lines, 3);
    InLine(ReportPath(deviceType, fileName), Indent24 + "\U{1F5C2} **Report**: `", "`  ", lines, 4);
    InLine(chat, Indent24 + "\U{1F4AC} [Discuss in La Chat](", ")", lines, 5);
    SubstringOfItself(body);
    SubstringOfConcat(body, [], body, "\n");
    assert [] + body + "\n" == m;
    forall t | t in [excerpt, deviceType, timestamp, ReportPath(deviceType, fileName), chat] && IsSubstring(t, body)
      ensures IsSubstring(t, m)
    {
      SubstringTransitive(t, body, m);
    }
  }

  /**
   * When the reported summary is critical the person's message holds each
   * excerpt line: at most five stripped lines of the tail, each with a keyword.
   */
  lemma EscalationCarriesExcerpt(deviceType: string, glob: string -> seq<FileEntry>, read: string -> Document, env: Env)
    requires Reported(deviceType, glob, read).Some?
    requires IsCritical(Reported(deviceType, glob, read).value.summary)
    ensures var n := Notifications(deviceType, glob, read, env);
      var summary := Reported(deviceType, glob, read).value.summary;
      |n| == 2 && 1 <= |ExcerptLines(summary)| <= ExcerptLimit &&
      forall j :: 0 <= j < |ExcerptLines(summary)| ==>
        IsSubstring(ExcerptLines(summary)[j], n[1].markdown) &&
        IsStripped(ExcerptLines(summary)[j]) && LineFlagged(SeverityKeywords, ExcerptLines(summary)[j])
  {
    var n := Notifications(deviceType, glob, read, env);
    var latest := LatestYaml(glob(YamlPattern(deviceType))).value;
    var loaded := LoadSummary(read(latest.path));
    var summary := loaded.summary;
    var chat := ShowOptional(env.chatLink);
    var fileName := Basename(latest.path);
    assert n == Dispatch(loaded, fileName, env);
    CriticalSummaryHasMatchingLine(summary);
    var lines := ExcerptLines(summary);
    var excerpt := Excerpt(summary);
    assert n[1].markdown == EscalationMessage(loaded.deviceType, loaded.timestamp, excerpt, fileName, chat);
    EscalationMentions(loaded.deviceType, loaded.timestamp, excerpt, fileName, chat);
    forall j | 0 <= j < |lines|
      ensures IsSubstring(lines[j], n[1].markdown)
    {
      JoinHasPart("\n", lines, j);
      SubstringTransitive(lines[j], excerpt, n[1].markdown);
    }
  }
}
