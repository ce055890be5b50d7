/**
 * The report normalization of `flask/app/views.py`: the field parsers
 * (`parse_exception`, `parse_stacktrace`, `parse_arch`, `parse_os_name`,
 * `parse_os_version`, `parse_user`, `parse_event_log`) and the event
 * assembly inside `sentry_capture_report`. What the source hands to the
 * SDK's scope (contexts, user, extras, breadcrumbs, the event dictionary
 * and the user feedback) is returned here as a `Capture` value.
 */
module Views {
  import opened Wrappers
  import opened Strings
  import opened Json
  import opened Reports

  const UndefinedErrorType := "UndefinedError"
  const MissingText := "<Exception text is missing>"
  const UndefinedUser := "<Undefined>"

  // ================================================================ exception

  /** One frame of the stack trace dictionary. */
  datatype Frame = Frame(inApp: bool, functionName: Value, lineno: Value, contextLine: Value)

  /** The 4-tuple `(type, value, module, stacktrace)` that `parse_exception` returns. */
  datatype ParsedException = ParsedException(
    errorType: string,
    value: string,
    moduleName: string,
    stacktrace: Option<seq<Frame>>)

  /** The frame of one stack entry: positions 0, 1 and 2 of the entry, marked as in-app. */
  function FrameOf(e: StackEntry): (f: Frame)
    ensures f.inApp
  {
    Frame(true, e.functionName, e.line, e.contextLine)
  }

  /** One frame per stack entry, in the order of the entries. */
  function Frames(stack: seq<StackEntry>): (r: seq<Frame>)
    ensures |r| == |stack|
    ensures forall k :: 0 <= k < |stack| ==> r[k] == FrameOf(stack[k])
  {
    if stack == [] then [] else [FrameOf(stack[0])] + Frames(stack[1..])
  }

  /** What `parse_stacktrace` computes: nothing for an absent or empty stack. */
  function StackTraceOf(report: Report): (r: Option<seq<Frame>>)
    ensures var stack := report.errorInfo.applicationErrorInfo.stack;
      (r.None? <==> stack.None? || stack.value == []) &&
      (r.Some? ==> |r.value| == |stack.value| && forall k :: 0 <= k < |stack.value| ==> r.value[k] == FrameOf(stack.value[k]))
  {
    var stack := report.errorInfo.applicationErrorInfo.stack;
    if stack.None? || stack.value == [] then None else Some(Frames(stack.value))
  }

  /** `parse_stacktrace`: appends one frame per stack entry to a list. */
  method ParseStacktrace(report: Report) returns (stacktrace: Option<seq<Frame>>)
    ensures stacktrace == StackTraceOf(report)
    ensures var stack := report.errorInfo.applicationErrorInfo.stack;
      stacktrace.None? <==> stack.None? || stack.value == []
    ensures stacktrace.Some? ==>
      var stack := report.errorInfo.applicationErrorInfo.stack.value;
      |stacktrace.value| == |stack| &&
      forall k :: 0 <= k < |stack| ==>
        stacktrace.value[k].inApp &&
        stacktrace.value[k].functionName == stack[k].functionName &&
        stacktrace.value[k].lineno == stack[k].line &&
        stacktrace.value[k].contextLine == stack[k].contextLine
  {
    var stack := report.errorInfo.applicationErrorInfo.stack;
    if stack.None? || stack.value == [] {
      return None;
    }
    var entries := stack.value;
    var frames: seq<Frame> := [];
    for i := 0 to |entries|
      invariant |frames| == i
      invariant forall k :: 0 <= k < i ==>
        frames[k] == Frame(true, entries[k].functionName, entries[k].line, entries[k].contextLine)
    {
      var entry := entries[i];
      frames := frames + [Frame(true, entry.functionName, entry.line, entry.contextLine)];
    }
    assert frames == Frames(entries);
    stacktrace := Some(frames);
  }

  /** The module part of an exception text: every `{` and `}` removed. */
  function StripBraces(s: string): (r: string)
    ensures r == Without(Without(s, '{'), '}')
    ensures '{' !in r && '}' !in r
  {
    DeleteCharIsWithout(s, '{');
    DeleteCharIsWithout(Replace(s, "{", ""), '}');
    ReplaceKeepsAbsent(Replace(s, "{", ""), "}", "", '{');
    Replace(Replace(s, "{", ""), "}", "")
  }

  /** There is no usable error entry: `errors` is absent or empty. */
  predicate NoErrors(report: Report)
  {
    var errors := report.errorInfo.applicationErrorInfo.errors;
    errors.None? || errors.value == []
  }

  /** The first error entry, the only one the parser reads. */
  function FirstError(report: Report): ErrorEntry
    requires !NoErrors(report)
  {
    report.errorInfo.applicationErrorInfo.errors.value[0]
  }

  /**
   * `parse_exception`. The source's second arm `elif len(parts) == 2`
   * repeats the first test, is never taken, and is not written here.
   */
  function ParseException(report: Report): (r: ParsedException)
    ensures r.stacktrace == StackTraceOf(report)
    ensures NoErrors(report) ==>
      r.errorType == UndefinedErrorType && r.value == MissingText && r.moduleName == ""
    ensures !NoErrors(report) ==> r.errorType == Join(FirstError(report).types, ", ")
    ensures !NoErrors(report) && Count(FirstError(report).text, ':') != 1 ==>
      r.moduleName == "" && r.value == MissingText
    ensures '{' !in r.moduleName && '}' !in r.moduleName
  {
    var stacktrace := StackTraceOf(report);
    var errors := report.errorInfo.applicationErrorInfo.errors;
    if errors.None? || errors.value == [] then
      ParsedException(UndefinedErrorType, MissingText, "", stacktrace)
    else
      var error := errors.value[0];
      var parts := Split(error.text, ':');
      var errorType := Join(error.types, ", ");
      if |parts| == 2 then
        ParsedException(errorType, parts[1], StripBraces(parts[0]), stacktrace)
      else
        ParsedException(errorType, MissingText, "", stacktrace)
  }

  /**
   * An exception text with exactly one colon, at position `k`: the module is
   * the text before it with the braces removed, the value is the text after it.
   */
  lemma ExceptionWithOneColon(report: Report, k: nat)
    requires !NoErrors(report)
    requires var text := FirstError(report).text;
      k < |text| && text[k] == ':' && ':' !in text[..k] && ':' !in text[k + 1..]
    ensures var text := FirstError(report).text;
      ParseException(report).moduleName == Without(Without(text[..k], '{'), '}') &&
      ParseException(report).value == text[k + 1..]
  {
    var text := FirstError(report).text;
    assert text == text[..k] + [':'] + text[k + 1..];
    SplitAppend(text[..k], text[k + 1..], ':');
    SplitNone(text[..k], ':');
    SplitNone(text[k + 1..], ':');
  }

  /**
   * In the two-part case the text is rebuilt from the parts: it is the
   * module part before brace removal, a colon, and the value.
   */
  lemma ExceptionTextRebuilt(report: Report)
    requires !NoErrors(report)
    requires Count(FirstError(report).text, ':') == 1
    ensures var parts := Split(FirstError(report).text, ':');
      FirstError(report).text == parts[0] + [':'] + ParseException(report).value &&
      ParseException(report).moduleName == StripBraces(parts[0])
  {
    var text := FirstError(report).text;
    JoinSplit(text, ':');
  }

  /** The exception type for a single-element type list is that element unchanged. */
  lemma ExceptionTypeSingle(report: Report)
    requires !NoErrors(report) && |FirstError(report).types| == 1
    ensures ParseException(report).errorType == FirstError(report).types[0]
  {
    JoinShort(FirstError(report).types, ", ");
  }

  // ============================================================ architecture, OS

  /** `parse_arch` */
  function ParseArch(report: Report): (r: string)
    ensures r == "x86" <==> EndsWith(report.clientInfo.platformType, "x86")
    ensures r == "x86" || r == "x86_64"
  {
    if EndsWith(report.clientInfo.platformType, "x86") then "x86" else "x86_64"
  }

  /**
   * `parse_os_name`: a case-insensitive prefix test. The three prefixes
   * exclude each other, so each name is given exactly when its prefix
   * matches, whatever the order of the tests.
   */
  function ParseOsName(report: Report): (r: string)
    ensures r in {"Windows", "macOS", "Linux", "Unknown"}
    ensures r == "Windows" <==> StartsWith(Lower(report.clientInfo.platformType), "windows")
    ensures r == "macOS" <==> StartsWith(Lower(report.clientInfo.platformType), "macos")
    ensures r == "Linux" <==> StartsWith(Lower(report.clientInfo.platformType), "linux")
  {
    var platformType := Lower(report.clientInfo.platformType);
    OsPrefixesExclusive(platformType);
    if StartsWith(platformType, "windows") then "Windows"
    else if StartsWith(platformType, "macos") then "macOS"
    else if StartsWith(platformType, "linux") then "Linux"
    else "Unknown"
  }

  /** No string starts with two of `windows`, `macos` and `linux`: they differ in their first letter. */
  lemma OsPrefixesExclusive(s: string)
    ensures StartsWith(s, "windows") ==> !StartsWith(s, "macos") && !StartsWith(s, "linux")
    ensures StartsWith(s, "macos") ==> !StartsWith(s, "linux")
  {
    if StartsWith(s, "windows") {
      assert s[0] == s[..7][0] == 'w';
    }
    if StartsWith(s, "macos") {
      assert s[0] == s[..5][0] == 'm';
    }
    if StartsWith(s, "linux") {
      assert s[0] == s[..5][0] == 'l';
    }
  }

  /**
   * `parse_os_version`: lower-case, then these replacements in this order.
   * The result has no space, no parenthesis and no ASCII upper-case letter.
   */
  function ParseOsVersion(report: Report): (r: string)
    ensures ' ' !in r && '(' !in r && ')' !in r
    ensures forall c :: c in r ==> !IsUpper(c)
  {
    var v0 := Lower(report.clientInfo.systemInfo.osVersion);
    var v1 := Replace(v0, "microsoft", "");
    var v2 := Replace(v1, "windows 10", "");
    var v3 := Replace(v2, "windows 8.1", "");
    var v4 := Replace(v3, "version", "");
    var v5 := Replace(v4, "build", ".");
    var v6 := Replace(v5, "(", "");
    var v7 := Replace(v6, ")", "");
    LowerHasNoUpper(report.clientInfo.systemInfo.osVersion);
    ReplaceChars(v0, "microsoft", "");
    ReplaceChars(v1, "windows 10", "");
    ReplaceChars(v2, "windows 8.1", "");
    ReplaceChars(v3, "version", "");
    ReplaceChars(v4, "build", ".");
    ReplaceChars(v5, "(", "");
    ReplaceChars(v6, ")", "");
    ReplaceChars(v7, " ", "");
    DeleteCharIsWithout(v5, '(');
    DeleteCharIsWithout(v6, ')');
    DeleteCharIsWithout(v7, ' ');
    Replace(v7, " ", "")
  }

  // ===================================================================== user

  datatype UserIdentity = UserIdentity(id: string, username: string)

  /** What `parse_user` computes. */
  function UserOf(report: Report): (u: UserIdentity)
    ensures var name := report.sessionInfo.userName;
      (name.None? || name.value == [] ==> u.username == UndefinedUser) &&
      (name.Some? && name.value != [] ==> u.username == name.value)
    ensures u.id == u.username + report.sessionInfo.dataSeparation
    ensures u.username != [] && StartsWith(u.id, u.username)
  {
    var name := report.sessionInfo.userName;
    var username := if name.None? || name.value == [] then UndefinedUser else name.value;
    var sep := report.sessionInfo.dataSeparation;
    UserIdentity(if sep != [] then username + sep else username, username)
  }

  /** `parse_user`: the id starts as the user name and grows by the data-separation tag. */
  method ParseUser(report: Report) returns (userId: string, userName: string)
    ensures UserIdentity(userId, userName) == UserOf(report)
    ensures userId == userName + report.sessionInfo.dataSeparation
  {
    userName := if report.sessionInfo.userName.Some? then report.sessionInfo.userName.value else "";
    var dataSep := report.sessionInfo.dataSeparation;
    if userName == "" {
      userName := UndefinedUser;
    }
    userId := userName;
    if dataSep != "" {
      userId := userId + dataSep;
    }
  }

  // ================================================================ event log

  datatype Breadcrumb = Breadcrumb(category: string, message: string, level: string, timestamp: Value)

  /** The breadcrumb level of a log event: `error` exactly for level `Error`. */
  function LevelOf(e: LogEvent): (r: string)
    ensures r == "error" <==> e.level == "Error"
    ensures r == "error" || r == "info"
  {
    if e.level == "Error" then "error" else "info"
  }

  /**
   * The multi-line breadcrumb message: the event name, then one line each
   * for a non-empty meta, data and comment, in that order.
   */
  function MessageOf(e: LogEvent): (m: string)
    ensures StartsWith(m, "Event: " + e.eventName)
  {
    var m0 := "Event: " + e.eventName;
    var m1 := if e.meta != "" then m0 + "\nMeta:  " + e.meta else m0;
    var m2 := if e.data != "" then m1 + "\nData:  " + e.data else m1;
    if e.comment != "" then m2 + "\nComment:\n" + e.comment else m2
  }

  function BreadcrumbOf(e: LogEvent): (b: Breadcrumb)
    ensures b.category == "log" && b.timestamp == e.date
  {
    Breadcrumb("log", MessageOf(e), LevelOf(e), e.date)
  }

  /** One breadcrumb per log event, in the order of the events. */
  function Breadcrumbs(log: seq<LogEvent>): (r: seq<Breadcrumb>)
    ensures |r| == |log|
    ensures forall k :: 0 <= k < |log| ==> r[k] == BreadcrumbOf(log[k])
  {
    if log == [] then [] else [BreadcrumbOf(log[0])] + Breadcrumbs(log[1..])
  }

  /** The events of `additionalData.EventLog`, or none when either is absent or empty. */
  function EventLog(report: Report): (r: seq<LogEvent>)
    ensures report.additionalData.None? || report.additionalData.value.eventLog.None? ==> r == []
    ensures report.additionalData.Some? && report.additionalData.value.eventLog.Some? ==>
      r == report.additionalData.value.eventLog.value
  {
    match report.additionalData
    case None => []
    case Some(additional) =>
      match additional.eventLog
      case None => []
      case Some(log) => log
  }

  /** What `parse_event_log` adds to the scope. */
  function EventLogOf(report: Report): (r: seq<Breadcrumb>)
    ensures |r| == |EventLog(report)|
  {
    Breadcrumbs(EventLog(report))
  }

  /** The message of one event, grown with `+=` as in `parse_event_log`. */
  method EventMessage(event: LogEvent) returns (message: string)
    ensures message == MessageOf(event)
  {
    message := "Event: " + event.eventName;
    if event.meta != "" {
      message := message + "\nMeta:  " + event.meta;
    }
    if event.data != "" {
      message := message + "\nData:  " + event.data;
    }
    if event.comment != "" {
      message := message + "\nComment:\n" + event.comment;
    }
  }

  /** The breadcrumb of one event: its level, its message, category `log` and the event's date. */
  method EventBreadcrumb(event: LogEvent) returns (crumb: Breadcrumb)
    ensures crumb == BreadcrumbOf(event)
  {
    var level;
    if event.level == "Error" {
      level := "error";
    } else {
      level := "info";
    }
    var message := EventMessage(event);
    crumb := Breadcrumb("log", message, level, event.date);
  }

  /** `parse_event_log`: builds each message with `+=` and pushes one breadcrumb per event. */
  method ParseEventLog(report: Report) returns (crumbs: seq<Breadcrumb>)
    ensures crumbs == EventLogOf(report)
    ensures report.additionalData.None? || report.additionalData.value.eventLog.None? ==> crumbs == []
    ensures |crumbs| == |EventLog(report)|
    ensures forall k :: 0 <= k < |crumbs| ==>
      crumbs[k].category == "log" &&
      crumbs[k].timestamp == EventLog(report)[k].date &&
      (crumbs[k].level == "error" <==> EventLog(report)[k].level == "Error")
  {
    crumbs := [];
    var additionalData := report.additionalData;
    if additionalData.None? {
      return;
    }
    var eventLog := additionalData.value.eventLog;
    if eventLog.None? || eventLog.value == [] {
      return;
    }
    var log := eventLog.value;
    for i := 0 to |log|
      invariant |crumbs| == i
      invariant forall k :: 0 <= k < i ==> crumbs[k] == BreadcrumbOf(log[k])
    {
      var crumb := EventBreadcrumb(log[i]);
      crumbs := crumbs + [crumb];
    }
  }

  /** A line of a message, with its heading, that is present only for a non-empty field. */
  function OptionalLine(heading: string, field: string): seq<string>
  {
    if field != "" then [heading + field] else []
  }

  /**
   * The lines of the message of `e`: the event line, then the meta and data
   * lines of the non-empty fields, then for a non-empty comment its heading
   * and its text.
   */
  function MessageItems(e: LogEvent): seq<string>
  {
    ["Event: " + e.eventName] +
    OptionalLine("Meta:  ", e.meta) +
    OptionalLine("Data:  ", e.data) +
    (if e.comment != "" then ["Comment:", e.comment] else [])
  }

  /** A non-empty field adds a newline, its heading and its text to the joined lines. */
  lemma JoinOptionalLine(items: seq<string>, heading: string, field: string)
    requires items != []
    ensures Join(items + OptionalLine(heading, field), "\n") ==
      if field != "" then Join(items, "\n") + ("\n" + heading) + field else Join(items, "\n")
  {
    if field != "" {
      JoinSnoc(items, heading + field, "\n");
      assert Join(items, "\n") + "\n" + (heading + field) == Join(items, "\n") + ("\n" + heading) + field;
    } else {
      assert items + [] == items;
    }
  }

  /** A non-empty comment adds its heading line and its text line to the joined lines. */
  lemma JoinCommentLines(items: seq<string>, comment: string)
    requires items != []
    ensures Join(items + ["Comment:", comment], "\n") == Join(items, "\n") + "\nComment:\n" + comment
  {
    JoinSnoc(items, "Comment:", "\n");
    JoinSnoc(items + ["Comment:"], comment, "\n");
    assert items + ["Comment:"] + [comment] == items + ["Comment:", comment];
    assert "\nComment:\n" == "\n" + "Comment:" + "\n";
    assert Join(items, "\n") + "\n" + "Comment:" + "\n" + comment ==
      Join(items, "\n") + ("\n" + "Comment:" + "\n") + comment;
  }

  /**
   * For every event, the message is its lines joined by newlines. A field
   * that itself holds newlines is copied into the message unchanged.
   */
  lemma MessageJoin(e: LogEvent)
    ensures MessageOf(e) == Join(MessageItems(e), "\n")
  {
    var m0 := "Event: " + e.eventName;
    var items0 := [m0];
    assert "\nMeta:  " == "\n" + "Meta:  ";
    assert "\nData:  " == "\n" + "Data:  ";
    JoinOptionalLine(items0, "Meta:  ", e.meta);
    var items1 := items0 + OptionalLine("Meta:  ", e.meta);
    var m1 := if e.meta != "" then m0 + "\nMeta:  " + e.meta else m0;
    assert Join(items1, "\n") == m1;
    JoinOptionalLine(items1, "Data:  ", e.data);
    var items2 := items1 + OptionalLine("Data:  ", e.data);
    var m2 := if e.data != "" then m1 + "\nData:  " + e.data else m1;
    assert Join(items2, "\n") == m2;
    if e.comment != "" {
      JoinCommentLines(items2, e.comment);
      assert MessageItems(e) == items2 + ["Comment:", e.comment];
    } else {
      assert MessageItems(e) == items2 + [];
      assert items2 + [] == items2;
    }
  }

  /**
   * When no field holds a newline, splitting the message at newlines gives
   * back exactly its lines: the event line, then the meta, data and comment
   * lines that are present, in that order.
   */
  lemma MessageLines(e: LogEvent)
    requires '\n' !in e.eventName && '\n' !in e.meta && '\n' !in e.data && '\n' !in e.comment
    ensures Split(MessageOf(e), '\n') ==
      ["Event: " + e.eventName] +
      OptionalLine("Meta:  ", e.meta) +
      OptionalLine("Data:  ", e.data) +
      (if e.comment != "" then ["Comment:", e.comment] else [])
  {
    MessageJoin(e);
    var items := MessageItems(e);
    forall k | 0 <= k < |items|
      ensures '\n' !in items[k]
    {
      assert items[k] in items;
    }
    SplitJoin(items, '\n');
  }

  // ======================================================= event composition

  /** The user feedback record sent beside the event. */
  datatype Feedback = Feedback(eventId: string, name: string, comments: string)

  /** Everything `sentry_capture_report` hands to the SDK for one report. */
  datatype Capture = Capture(
    level: string,
    contexts: map<string, Value>,
    user: UserIdentity,
    extras: map<string, Value>,
    breadcrumbs: seq<Breadcrumb>,
    event: Value,
    feedback: Option<Feedback>)

  /** The dictionary of one frame: `in_app`, `function`, `lineno` and `context_line`. */
  function FrameJson(f: Frame): (v: Value)
    ensures v.JObject? && v.fields.Keys == {"in_app", "function", "lineno", "context_line"}
    ensures v.fields["in_app"] == JBool(f.inApp) && v.fields["function"] == f.functionName
    ensures v.fields["lineno"] == f.lineno && v.fields["context_line"] == f.contextLine
  {
    JObject(map["in_app" := JBool(f.inApp), "function" := f.functionName,
                "lineno" := f.lineno, "context_line" := f.contextLine])
  }

  /** The `{'frames': [...]}` dictionary of a stack trace. */
  function StackTraceJson(frames: seq<Frame>): (v: Value)
    ensures v.JObject? && v.fields.Keys == {"frames"}
    ensures v.fields["frames"].JArray? && |v.fields["frames"].items| == |frames|
    ensures forall k :: 0 <= k < |frames| ==> v.fields["frames"].items[k] == FrameJson(frames[k])
  {
    JObject(map["frames" := JArray(seq(|frames|, k requires 0 <= k < |frames| => FrameJson(frames[k])))])
  }

  /**
   * The exception dictionary: the `stacktrace` key is present exactly when
   * there is a stack trace, and is left out otherwise rather than set to null.
   */
  function ExceptionRecord(exc: ParsedException): (r: map<string, Value>)
    ensures "stacktrace" in r <==> exc.stacktrace.Some?
    ensures r.Keys == {"type", "value", "module"} + (if exc.stacktrace.Some? then {"stacktrace"} else {})
    ensures r["type"] == JStr(exc.errorType) && r["value"] == JStr(exc.value) && r["module"] == JStr(exc.moduleName)
    ensures exc.stacktrace.Some? ==> r["stacktrace"] == StackTraceJson(exc.stacktrace.value)
  {
    if exc.stacktrace.Some? then
      map["type" := JStr(exc.errorType), "value" := JStr(exc.value), "module" := JStr(exc.moduleName),
          "stacktrace" := StackTraceJson(exc.stacktrace.value)]
    else
      map["type" := JStr(exc.errorType), "value" := JStr(exc.value), "module" := JStr(exc.moduleName)]
  }

  /** The `exception.values` list of an event dictionary; empty when the event has none. */
  function ExceptionValues(event: Value): seq<Value>
  {
    if event.JObject? && "exception" in event.fields && event.fields["exception"].JObject? &&
       "values" in event.fields["exception"].fields && event.fields["exception"].fields["values"].JArray?
    then event.fields["exception"].fields["values"].items
    else []
  }

  /** The event dictionary passed to `capture_event`: one exception, the release and the timestamp. */
  function EventJson(report: Report, exc: ParsedException): (v: Value)
    ensures v.JObject? && v.fields.Keys == {"exception", "release", "timestamp", "sdk", "platform"}
    ensures v.fields["release"] == report.configInfo.version && v.fields["timestamp"] == report.time
    ensures ExceptionValues(v) == [JObject(ExceptionRecord(exc))]
    ensures v.fields["sdk"] == JObject(map["name" := JStr("sentry.bsl"), "version" := JStr("0.0.1")])
    ensures v.fields["platform"] == JStr("Other")
  {
    JObject(map[
      "exception" := JObject(map["values" := JArray([JObject(ExceptionRecord(exc))])]),
      "release" := report.configInfo.version,
      "timestamp" := report.time,
      "sdk" := JObject(map["name" := JStr("sentry.bsl"), "version" := JStr("0.0.1")]),
      "platform" := JStr("Other")])
  }

  /** The `device` context: family `Desktop`, the parsed architecture and four copied system fields. */
  function DeviceContext(report: Report): (v: Value)
    ensures v.JObject? && v.fields.Keys == {"family", "arch", "name", "manufacturer", "memory_size", "free_memory"}
    ensures v.fields["family"] == JStr("Desktop") && v.fields["arch"] == JStr(ParseArch(report))
    ensures v.fields["name"] == report.clientInfo.systemInfo.clientID
    ensures v.fields["manufacturer"] == report.clientInfo.systemInfo.processor
    ensures v.fields["memory_size"] == report.clientInfo.systemInfo.fullRAM
    ensures v.fields["free_memory"] == report.clientInfo.systemInfo.freeRAM
  {
    var system := report.clientInfo.systemInfo;
    JObject(map["family" := JStr("Desktop"), "arch" := JStr(ParseArch(report)),
                "name" := system.clientID, "manufacturer" := system.processor,
                "memory_size" := system.fullRAM, "free_memory" := system.freeRAM])
  }

  /** The `os` context: the parsed name and the normalized version. */
  function OsContext(report: Report): (v: Value)
    ensures v.JObject? && v.fields.Keys == {"name", "version"}
    ensures v.fields["name"] == JStr(ParseOsName(report)) && v.fields["version"] == JStr(ParseOsVersion(report))
  {
    JObject(map["name" := JStr(ParseOsName(report)), "version" := JStr(ParseOsVersion(report))])
  }

  /** The `runtime` context: the application name and the server's application version. */
  function RuntimeContext(report: Report): (v: Value)
    ensures v.JObject? && v.fields.Keys == {"name", "version"}
    ensures v.fields["name"] == report.clientInfo.appName && v.fields["version"] == report.serverInfo.appVersion
  {
    JObject(map["name" := report.clientInfo.appName, "version" := report.serverInfo.appVersion])
  }

  /** The `app` context: four fields of the configuration. */
  function AppContext(report: Report): (v: Value)
    ensures v.JObject? && v.fields.Keys == {"app_identifier", "app_name", "app_version", "app_build"}
    ensures v.fields["app_identifier"] == report.configInfo.name && v.fields["app_name"] == report.configInfo.description
    ensures v.fields["app_version"] == report.configInfo.version && v.fields["app_build"] == report.configInfo.hash
  {
    var config := report.configInfo;
    JObject(map["app_identifier" := config.name, "app_name" := config.description,
                "app_version" := config.version, "app_build" := config.hash])
  }

  /** The four contexts set on the scope, under their names. */
  function Contexts(report: Report): (r: map<string, Value>)
    ensures r.Keys == {"device", "os", "runtime", "app"}
    ensures r["device"] == DeviceContext(report) && r["os"] == OsContext(report)
    ensures r["runtime"] == RuntimeContext(report) && r["app"] == AppContext(report)
  {
    map["device" := DeviceContext(report), "os" := OsContext(report),
        "runtime" := RuntimeContext(report), "app" := AppContext(report)]
  }

  /** The nine named extra attributes. */
  function Extras(report: Report): (r: map<string, Value>)
    ensures r.Keys == {"CompatibilityMode", "ChangeEnabled", "DBMS", "ServerType",
      "ConfigurationInterfaceLanguageCode", "PlatformInterfaceLanguageCode", "LocaleCode",
      "InfoBaseLocaleCode", "DataSeparation"}
    ensures r["CompatibilityMode"] == report.configInfo.compatibilityMode
    ensures r["ChangeEnabled"] == report.configInfo.changeEnabled
    ensures r["DBMS"] == report.serverInfo.dbms && r["ServerType"] == report.serverInfo.serverType
    ensures r["ConfigurationInterfaceLanguageCode"] == report.sessionInfo.configurationInterfaceLanguageCode
    ensures r["PlatformInterfaceLanguageCode"] == report.sessionInfo.platformInterfaceLanguageCode
    ensures r["LocaleCode"] == report.sessionInfo.localeCode
    ensures r["InfoBaseLocaleCode"] == report.infoBaseInfo.localeCode
    ensures r["DataSeparation"] == JStr(report.sessionInfo.dataSeparation)
  {
    map[
      "CompatibilityMode" := report.configInfo.compatibilityMode,
      "ChangeEnabled" := report.configInfo.changeEnabled,
      "DBMS" := report.serverInfo.dbms,
      "ServerType" := report.serverInfo.serverType,
      "ConfigurationInterfaceLanguageCode" := report.sessionInfo.configurationInterfaceLanguageCode,
      "PlatformInterfaceLanguageCode" := report.sessionInfo.platformInterfaceLanguageCode,
      "LocaleCode" := report.sessionInfo.localeCode,
      "InfoBaseLocaleCode" := report.infoBaseInfo.localeCode,
      "DataSeparation" := JStr(report.sessionInfo.dataSeparation)]
  }

  /** The user feedback: only for a non-empty user description, tagged with the event's id. */
  function FeedbackOf(report: Report, lastEventId: string): (r: Option<Feedback>)
    ensures var d := report.errorInfo.userDescription;
      r.Some? <==> d.Some? && d.value != []
    ensures r.Some? ==>
      r.value == Feedback(lastEventId, UserOf(report).username, report.errorInfo.userDescription.value)
  {
    var description := report.errorInfo.userDescription;
    if description.Some? && description.value != "" then
      Some(Feedback(lastEventId, UserOf(report).username, description.value))
    else
      None
  }

  /** The stack of the report is present and not empty. */
  predicate HasStack(report: Report)
  {
    var stack := report.errorInfo.applicationErrorInfo.stack;
    stack.Some? && stack.value != []
  }

  /**
   * What `sentry_capture_report` hands to the SDK for `report`;
   * `lastEventId` is the identifier the SDK assigns to the captured event.
   */
  function CaptureOf(report: Report, lastEventId: string): (c: Capture)
    ensures c.level == "error"
    ensures c.contexts == Contexts(report)
    ensures |c.breadcrumbs| == |EventLog(report)|
    ensures c.feedback.Some? <==> report.errorInfo.userDescription.Some? && report.errorInfo.userDescription.value != []
    ensures c.user == UserOf(report) && c.extras == Extras(report)
    ensures c.breadcrumbs == EventLogOf(report) && c.feedback == FeedbackOf(report, lastEventId)
    ensures c.event == EventJson(report, ParseException(report))
  {
    Capture(
      "error",
      Contexts(report),
      UserOf(report),
      Extras(report),
      EventLogOf(report),
      EventJson(report, ParseException(report)),
      FeedbackOf(report, lastEventId))
  }

  /**
   * The captured event carries exactly one exception, whose `stacktrace`
   * key is present exactly when the report has a non-empty stack.
   */
  lemma CapturedStacktrace(report: Report, lastEventId: string)
    ensures var values := ExceptionValues(CaptureOf(report, lastEventId).event);
      |values| == 1 && values[0].JObject? &&
      ("stacktrace" in values[0].fields <==> HasStack(report))
  {
    var exc := ParseException(report);
    assert exc.stacktrace.Some? <==> HasStack(report);
    assert ExceptionValues(CaptureOf(report, lastEventId).event) == [JObject(ExceptionRecord(exc))];
  }

  /**
   * `sentry_capture_report`: sets the level, the contexts, the user and the
   * extras one after another, adds the breadcrumbs, captures the event and
   * then the optional feedback.
   */
  method SentryCaptureReport(report: Report, lastEventId: string) returns (c: Capture)
    ensures c == CaptureOf(report, lastEventId)
  {
    var level := "error";
    var exc := ParseException(report);
    var userId, userName := ParseUser(report);

    var contexts: map<string, Value> := map[];
    contexts := contexts["device" := DeviceContext(report)];
    contexts := contexts["os" := OsContext(report)];
    contexts := contexts["runtime" := RuntimeContext(report)];
    contexts := contexts["app" := AppContext(report)];

    var user := UserIdentity(userId, userName);

    var extras: map<string, Value> := map[];
    extras := extras["CompatibilityMode" := report.configInfo.compatibilityMode];
    extras := extras["ChangeEnabled" := report.configInfo.changeEnabled];
    extras := extras["DBMS" := report.serverInfo.dbms];
    extras := extras["ServerType" := report.serverInfo.serverType];
    extras := extras["ConfigurationInterfaceLanguageCode" := report.sessionInfo.configurationInterfaceLanguageCode];
    extras := extras["PlatformInterfaceLanguageCode" := report.sessionInfo.platformInterfaceLanguageCode];
    extras := extras["LocaleCode" := report.sessionInfo.localeCode];
    extras := extras["InfoBaseLocaleCode" := report.infoBaseInfo.localeCode];
    extras := extras["DataSeparation" := JStr(report.sessionInfo.dataSeparation)];

    var crumbs := ParseEventLog(report);

    var exception: map<string, Value>;
    if exc.stacktrace.Some? {
      exception := map["type" := JStr(exc.errorType), "value" := JStr(exc.value),
                       "module" := JStr(exc.moduleName), "stacktrace" := StackTraceJson(exc.stacktrace.value)];
    } else {
      exception := map["type" := JStr(exc.errorType), "value" := JStr(exc.value),
                       "module" := JStr(exc.moduleName)];
    }
    var event := JObject(map[
      "exception" := JObject(map["values" := JArray([JObject(exception)])]),
      "release" := report.configInfo.version,
      "timestamp" := report.time,
      "sdk" := JObject(map["name" := JStr("sentry.bsl"), "version" := JStr("0.0.1")]),
      "platform" := JStr("Other")]);

    var feedback: Option<Feedback> := None;
    var userFeedback := report.errorInfo.userDescription;
    if userFeedback.Some? && userFeedback.value != "" {
      feedback := Some(Feedback(lastEventId, userName, userFeedback.value));
    }
    c := Capture(level, contexts, user, extras, crumbs, event, feedback);
  }
}
