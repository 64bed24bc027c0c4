/** The deterministic parts of `NaturalLanguageParser`. Each regular
    expression test of the request is an input signal; what the parser does
    with the signals (the schedule it derives, the operation it picks, the
    patterns and steps it builds and the name it composes) is modelled. */
module NaturalLanguage {
  import opened Strings
  import opened Model
  import opened Validation

  /** A match of the `time` pattern: the hour, the minutes when present, and
      whether the suffix is `pm`. */
  datatype ClockTime = ClockTime(hour: nat, minute: Option<nat>, pm: bool)

  /** The `schedule` patterns; `weekday` is the index (Sunday = 0) of the day
      the `specific` pattern matched. */
  datatype ScheduleSignals = ScheduleSignals(
    daily: bool, hourly: bool, weekly: bool, time: Option<ClockTime>, weekday: Option<nat>)

  /** The `fileOps` patterns that take part in choosing the operation. */
  datatype OperationSignals = OperationSignals(copy: bool, delete: bool, createFolder: bool, archive: bool)

  /** The `targets` patterns. */
  datatype TargetSignals = TargetSignals(screenshots: bool, images: bool, documents: bool, downloads: bool, desktop: bool)

  /** The plain-word tests of `generateWorkflowName`. */
  datatype NameSignals = NameSignals(
    move: bool, copy: bool, delete: bool, archive: bool,
    screenshot: bool, imageOrPhoto: bool, documentOrPdf: bool, download: bool,
    daily: bool, hourly: bool, weekly: bool)

  /** A request: its text, the signals, and the directories the parser would
      join from the home directory (`desktopDir`, `downloadsDir`) or extract
      from the folder phrases (`destination`). */
  datatype Request = Request(
    text: string,
    schedule: ScheduleSignals,
    operations: OperationSignals,
    targets: TargetSignals,
    naming: NameSignals,
    desktopDir: string,
    downloadsDir: string,
    destination: string)

  /** The parser's result: `{ name, description, triggers, steps }`. */
  datatype Parsed = Parsed(name: string, description: string, triggers: seq<Trigger>, steps: seq<Step>)

  /** The hour conversion of `parseSchedule`. */
  function To24Hour(hour: nat, pm: bool): nat {
    if pm && hour != 12 then hour + 12 else if !pm && hour == 12 then 0 else hour
  }

  /** The 12-hour clock reading of a 24-hour hour. */
  function To12Hour(hour24: nat): (nat, bool) {
    if hour24 == 0 then (12, false)
    else if hour24 < 12 then (hour24, false)
    else if hour24 == 12 then (12, true)
    else (hour24 - 12, true)
  }

  /** Every 12-hour reading from 1 to 12, am or pm, lands on a distinct hour
      of the day, and reading it back gives the original. */
  lemma ClockRoundTrip(hour: nat, pm: bool)
    requires 1 <= hour <= 12
    ensures To24Hour(hour, pm) < 24
    ensures To12Hour(To24Hour(hour, pm)) == (hour, pm)
  {
  }

  /** `parseSchedule`: daily (at the given time, else at 9:00), then hourly,
      then weekly on a named day; no trigger otherwise. */
  function ParseSchedule(s: ScheduleSignals): Option<Trigger> {
    if s.daily then
      match s.time
      case Some(t) =>
        var minute := if t.minute.Some? then t.minute.value else 0;
        Some(Trigger("", Schedule(NatToString(minute) + " " + NatToString(To24Hour(t.hour, t.pm)) + " * * *")))
      case None => Some(Trigger("", Schedule("0 9 * * *")))
    else if s.hourly then Some(Trigger("", Schedule("0 * * * *")))
    else if s.weekly && s.weekday.Some? then Some(Trigger("", Schedule("0 9 * * " + NatToString(s.weekday.value))))
    else None
  }

  /** The parser yields a trigger exactly when the request says daily,
      hourly, or weekly with a day; it is always a schedule with a non-empty
      cron and no id. */
  lemma ParseScheduleSpec(s: ScheduleSignals)
    ensures ParseSchedule(s).Some? <==> s.daily || s.hourly || (s.weekly && s.weekday.Some?)
    ensures ParseSchedule(s).Some? ==>
              && ParseSchedule(s).value.id == ""
              && ParseSchedule(s).value.kind.Schedule?
              && ParseSchedule(s).value.kind.cron != ""
  {
  }

  /** The operation of `parseFileOperations`. */
  function Operation(o: OperationSignals): FileOp {
    if o.copy then Copy
    else if o.delete then Delete
    else if o.createFolder then CreateDirectory
    else if o.archive then Archive
    else Move
  }

  /** Copy wins over delete, delete over creating a folder, that over
      archive, and move is the default. */
  lemma OperationPrecedence(o: OperationSignals)
    ensures Operation(o) == Copy <==> o.copy
    ensures Operation(o) == Delete <==> !o.copy && o.delete
    ensures Operation(o) == CreateDirectory <==> !o.copy && !o.delete && o.createFolder
    ensures Operation(o) == Archive <==> !o.copy && !o.delete && !o.createFolder && o.archive
    ensures Operation(o) == Move <==> !o.copy && !o.delete && !o.createFolder && !o.archive
  {
  }

  /** The file patterns the parser emits. */
  datatype Glob = Png | Jpg | Jpeg | Gif | Bmp | Webp | Pdf | Doc | Docx | Txt | ScreenshotAny

  /** The text of a pattern, as written into the step. */
  function GlobText(g: Glob): string {
    match g
    case Png => "*.png"
    case Jpg => "*.jpg"
    case Jpeg => "*.jpeg"
    case Gif => "*.gif"
    case Bmp => "*.bmp"
    case Webp => "*.webp"
    case Pdf => "*.pdf"
    case Doc => "*.doc"
    case Docx => "*.docx"
    case Txt => "*.txt"
    case ScreenshotAny => "*screenshot*.*"
  }

  /** The texts of `patterns`, in order. */
  function GlobTexts(patterns: seq<Glob>): (texts: seq<string>)
    ensures |texts| == |patterns|
  {
    seq(|patterns|, i requires 0 <= i < |patterns| => GlobText(patterns[i]))
  }

  const ScreenshotPatterns: seq<Glob> := [Png, Jpg, ScreenshotAny]
  const ImagePatterns: seq<Glob> := [Jpg, Jpeg, Png, Gif, Bmp, Webp]
  const DocumentPatterns: seq<Glob> := [Pdf, Doc, Docx, Txt]

  /** The file patterns, accumulated target by target. */
  function Patterns(t: TargetSignals): seq<Glob> {
    (if t.screenshots then ScreenshotPatterns else [])
    + (if t.images then ImagePatterns else [])
    + (if t.documents then DocumentPatterns else [])
  }

  /** Screenshot patterns come first, then image patterns, then document
      patterns, each group whole and none left out; a pattern seen twice
      (`*.png`, `*.jpg`) is kept twice. */
  lemma PatternsSpec(t: TargetSignals)
    ensures var p := Patterns(t);
            var a := if t.screenshots then 3 else 0;
            var b := if t.images then 6 else 0;
            && |p| == a + b + (if t.documents then 4 else 0)
            && (t.screenshots ==> p[..3] == ScreenshotPatterns)
            && (t.images ==> p[a..a + 6] == ImagePatterns)
            && (t.documents ==> p[a + b..] == DocumentPatterns)
  {
  }

  /** The source directory: the desktop when named, else the downloads when
      named, else the desktop. */
  function SourceDirectory(r: Request): string {
    if r.targets.desktop then r.desktopDir
    else if r.targets.downloads then r.downloadsDir
    else r.desktopDir
  }

  /** One file operation step per pattern, in order, with fresh ids. */
  function PatternSteps(op: FileOp, source: string, destination: string, patterns: seq<string>,
                        serial: nat): seq<Step> {
    seq(|patterns|, i requires 0 <= i < |patterns| =>
      Step(NatToString(serial + i), FileOperation(op, source, destination, patterns[i]), false))
  }

  /** The pattern steps carry the patterns in order and have distinct ids. */
  lemma PatternStepsSpec(op: FileOp, source: string, destination: string, patterns: seq<string>, serial: nat)
    ensures var steps := PatternSteps(op, source, destination, patterns, serial);
            && |steps| == |patterns|
            && (forall i :: 0 <= i < |steps| ==>
                 steps[i] == Step(NatToString(serial + i), FileOperation(op, source, destination, patterns[i]), false))
            && forall i, j :: 0 <= i < j < |steps| ==> steps[i].id != steps[j].id
  {
    var steps := PatternSteps(op, source, destination, patterns, serial);
    forall i, j | 0 <= i < j < |steps|
      ensures steps[i].id != steps[j].id
    {
      if steps[i].id == steps[j].id {
        NatToStringInjective(serial + i, serial + j);
      }
    }
  }

  /** `parseFileOperations`: one step per pattern, or a single directory
      creation at the destination, or none. Step ids are fresh ids rendered
      from `serial` onwards. */
  function ParseFileOperations(r: Request, serial: nat): seq<Step> {
    var op := Operation(r.operations);
    var patterns := Patterns(r.targets);
    if |patterns| > 0 then PatternSteps(op, SourceDirectory(r), r.destination, GlobTexts(patterns), serial)
    else if op == CreateDirectory then
      [Step(NatToString(serial), FileOperation(op, r.destination, "", ""), false)]
    else []
  }

  /** The steps use one operation throughout, carry the patterns in order
      and have distinct ids; without patterns only a directory creation
      yields a step. */
  lemma ParseFileOperationsSpec(r: Request, serial: nat)
    ensures var steps := ParseFileOperations(r, serial);
            var patterns := Patterns(r.targets);
            && (|patterns| > 0 ==>
                  && |steps| == |patterns|
                  && (forall i :: 0 <= i < |steps| ==>
                       && steps[i].kind.FileOperation? && steps[i].kind.operation == Operation(r.operations)
                       && steps[i].kind.pattern == GlobText(patterns[i]) && steps[i].kind.source == SourceDirectory(r)))
            && (|patterns| == 0 ==> |steps| == if Operation(r.operations) == CreateDirectory then 1 else 0)
            && forall i, j :: 0 <= i < j < |steps| ==> steps[i].id != steps[j].id
  {
    var patterns := Patterns(r.targets);
    if |patterns| > 0 {
      PatternStepsSpec(Operation(r.operations), SourceDirectory(r), r.destination, GlobTexts(patterns), serial);
    }
  }

  /** The words `generateWorkflowName` composes a name from, and the
      fallback name it uses when it finds none. */
  datatype Word =
    | DailyWord | HourlyWord | WeeklyWord
    | MoveWord | CopyWord | DeleteWord | ArchiveWord
    | ScreenshotsWord | ImagesWord | DocumentsWord | DownloadsWord
    | CustomWorkflow

  function WordText(w: Word): (text: string)
    ensures text != ""
  {
    match w
    case DailyWord => "Daily"
    case HourlyWord => "Hourly"
    case WeeklyWord => "Weekly"
    case MoveWord => "Move"
    case CopyWord => "Copy"
    case DeleteWord => "Delete"
    case ArchiveWord => "Archive"
    case ScreenshotsWord => "Screenshots"
    case ImagesWord => "Images"
    case DocumentsWord => "Documents"
    case DownloadsWord => "Downloads"
    case CustomWorkflow => "Custom Workflow"
  }

  function Timing(n: NameSignals): seq<Word> {
    (if n.daily then [DailyWord] else []) + (if n.hourly then [HourlyWord] else [])
    + (if n.weekly then [WeeklyWord] else [])
  }

  function Actions(n: NameSignals): seq<Word> {
    (if n.move then [MoveWord] else []) + (if n.copy then [CopyWord] else [])
    + (if n.delete then [DeleteWord] else []) + (if n.archive then [ArchiveWord] else [])
  }

  function Targets(n: NameSignals): seq<Word> {
    (if n.screenshot then [ScreenshotsWord] else []) + (if n.imageOrPhoto then [ImagesWord] else [])
    + (if n.documentOrPdf then [DocumentsWord] else []) + (if n.download then [DownloadsWord] else [])
  }

  /** The texts of `words`, in order. */
  function Texts(words: seq<Word>): (texts: seq<string>)
    ensures |texts| == |words|
  {
    seq(|words|, i requires 0 <= i < |words| => WordText(words[i]))
  }

  /** `generateWorkflowName`: timing words, then actions, then targets,
      joined by spaces, or `"Custom Workflow"` when there are none. */
  function WorkflowName(n: NameSignals): (name: string)
    ensures name != ""
  {
    var found := Timing(n) + Actions(n) + Targets(n);
    var words := if |found| > 0 then found else [CustomWorkflow];
    assert forall i :: 0 <= i < |words| ==> Texts(words)[i] == WordText(words[i]) != "";
    JoinNonEmpty(Texts(words), " ");
    Join(Texts(words), " ")
  }

  /** With at least one word found, the name starts with the first of them. */
  lemma NameStartsWithFirstWord(n: NameSignals)
    requires Timing(n) + Actions(n) + Targets(n) != []
    ensures StartsWith(WorkflowName(n), WordText((Timing(n) + Actions(n) + Targets(n))[0]))
  {
    var words := Timing(n) + Actions(n) + Targets(n);
    assert (if |words| > 0 then words else [CustomWorkflow]) == words;
    JoinStartsWith(Texts(words), " ");
  }

  /** Timing words come first, then actions, then targets: the name starts
      with the first timing word, or with the first action when there is no
      timing word, or with the first target when there is neither. */
  lemma WorkflowNameSpec(n: NameSignals)
    ensures |Timing(n)| > 0 ==> StartsWith(WorkflowName(n), WordText(Timing(n)[0]))
    ensures Timing(n) == [] && |Actions(n)| > 0 ==> StartsWith(WorkflowName(n), WordText(Actions(n)[0]))
    ensures Timing(n) == [] && Actions(n) == [] && |Targets(n)| > 0 ==>
              StartsWith(WorkflowName(n), WordText(Targets(n)[0]))
    ensures n.daily ==> StartsWith(WorkflowName(n), "Daily")
  {
    var words := Timing(n) + Actions(n) + Targets(n);
    if words != [] {
      NameStartsWithFirstWord(n);
      if Timing(n) == [] {
        assert words == Actions(n) + Targets(n);
      }
    }
  }

  /** No word found is a prefix of `"Custom Workflow"`. */
  lemma NotCustomPrefix(w: Word)
    requires w != CustomWorkflow
    ensures !StartsWith(WordText(CustomWorkflow), WordText(w))
  {
    var t := WordText(w);
    assert |t| >= 4 && (t[0] != 'C' || t[1] != 'u');
    assert WordText(CustomWorkflow)[..2] == "Cu";
  }

  /** The name is `"Custom Workflow"` exactly when none of the eleven words
      is signalled. */
  lemma WorkflowNameFallback(n: NameSignals)
    ensures WorkflowName(n) == "Custom Workflow" <==>
              !(n.daily || n.hourly || n.weekly || n.move || n.copy || n.delete || n.archive
                || n.screenshot || n.imageOrPhoto || n.documentOrPdf || n.download)
  {
    var words := Timing(n) + Actions(n) + Targets(n);
    if words != [] {
      NameStartsWithFirstWord(n);
      assert CustomWorkflow !in words;
      NotCustomPrefix(words[0]);
    }
  }

  /** `parse(request)`: the schedule trigger if any, the file operation steps
      and the composed name; the description is the request itself. */
  function Parse(r: Request, serial: nat): Parsed {
    var schedule := ParseSchedule(r.schedule);
    Parsed(WorkflowName(r.naming), r.text,
           if schedule.Some? then [schedule.value] else [],
           ParseFileOperations(r, serial))
  }

  /** The parsed steps pass validation when the directories are non-empty. */
  lemma ParsedStepsValid(r: Request, serial: nat)
    requires r.desktopDir != "" && r.downloadsDir != ""
    ensures AllStepErrors(ParseFileOperations(r, serial)) == []
  {
    var steps := ParseFileOperations(r, serial);
    var patterns := Patterns(r.targets);
    var op := Operation(r.operations);
    var source := SourceDirectory(r);
    assert op != Unspecified && source != "";
    if |patterns| > 0 {
      PatternStepsSpec(op, source, r.destination, GlobTexts(patterns), serial);
      forall i | 0 <= i < |steps|
        ensures StepOk(steps[i])
      {
        assert steps[i].kind == FileOperation(op, source, r.destination, GlobTexts(patterns)[i]);
      }
    } else if op == CreateDirectory {
      assert StepOk(steps[0]);
    }
    AllStepErrorsEmpty(steps);
  }

  /** A workflow built from a parse fails validation only on its cron: when
      the directories the parser joins are non-empty, the only possible
      error is the schedule's cron being rejected. */
  lemma ParsedValidation(env: Env, r: Request, serial: nat, w: Workflow)
    requires r.desktopDir != "" && r.downloadsDir != ""
    requires var p := Parse(r, serial); w.name == p.name && w.triggers == p.triggers && w.steps == p.steps
    ensures var s := ParseSchedule(r.schedule);
            ValidateWorkflow(env, w)
              == if s.Some? && !env.cronValid(s.value.kind.cron)
                 then ["Invalid cron expression: " + s.value.kind.cron] else []
  {
    WorkflowNameSpec(r.naming);
    ParseScheduleSpec(r.schedule);
    ParsedStepsValid(r, serial);
    var ts := w.triggers;
    if |ts| == 1 {
      assert AllTriggerErrors(env, ts) == TriggerErrors(env, ts[0]) + AllTriggerErrors(env, []);
    }
  }
}
