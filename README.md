# Report normalization of the crash-report relay

The relay receives crash reports from a desktop application platform. It
turns each report into one error event for an error-tracking SDK, and
`flask/app/views.py` holds the normalization that does it. This project
models that normalization in Dafny and proves what it promises:

- the exception triple and its optional stack trace (`parse_exception`,
  `parse_stacktrace`);
- the CPU architecture and the OS name taken from the platform type
  (`parse_arch`, `parse_os_name`);
- the fixed chain of substitutions that normalizes the OS version
  (`parse_os_version`);
- the user identity with its `<Undefined>` default (`parse_user`);
- one breadcrumb per event-log entry with its multi-line message
  (`parse_event_log`);
- the assembly of the event inside `sentry_capture_report`, in which the
  exception record has a `stacktrace` key only when there is a stack, and
  the user-feedback record, which exists only for a non-empty user
  description.

Files:

- `wrappers.dfy`: `Option`.
- `json.dfy`: JSON values. Fields that the relay copies without looking at
  them are kept opaque.
- `reports.dfy`: the incoming report as a typed record. A key read with
  `.get()` is an `Option`.
- `strings.dfy`: the Python string operations the parsers use and their
  laws. These are `lower()`, `startswith`, `endswith`, `split` on one
  character, `replace` and `join`.
- `views.dfy`: the parsers and the event assembly. The loops of the source
  (`parse_stacktrace`, `parse_event_log`, the `+=` message, `parse_user`,
  the scope set-up in `sentry_capture_report`) are methods. Each one is
  proved equal to a function that states what it computes.
- `cases.dfy`: the worked examples. These are the two OS version strings
  named in the comment of `parse_os_version`, in general form and as the
  concrete strings, plus examples for the exception, user, architecture,
  OS name and breadcrumb rules.

The comment at `flask/app/views.py:215` gives `10.0.19041` as the result
for `Microsoft Windows 10 version 10.0  (Build 19042)`. The code returns
`10.0.19042`. The comment's number is the only thing wrong, so the model
follows the code and proves `10.0.19042` (`Cases.OsVersionWindows10`).

## Model

| member | source | states |
|---|---|---|
| Views.FrameOf | flask/app/views.py:190-195 | a frame is always marked in-app |
| Views.Frames | flask/app/views.py:189-195 | one frame per stack entry, in entry order, each built from positions 0, 1 and 2 of its entry |
| Views.StackTraceOf | flask/app/views.py:184-196 | no stack trace exactly when the stack is absent or empty; otherwise one frame per entry, pointwise `FrameOf` |
| Views.ParseStacktrace | flask/app/views.py:184-196 | the loop yields nothing exactly when the stack is absent or empty; otherwise one in-app frame per entry, same length, same order, function/lineno/context_line copied from the entry |
| Views.StripBraces | flask/app/views.py:169-171 | the module text is its input with every `{` and every `}` removed, not only those at the ends; no brace is left |
| Views.ParseException | flask/app/views.py:156-182 | with no errors: exactly `UndefinedError`, `<Exception text is missing>` and the empty module. The stack trace is computed in every case. The type is the type list joined with `, `. A text whose colon count is not one gives the empty module and the missing-text value. The module never holds a brace |
| Views.ExceptionWithOneColon | flask/app/views.py:167-172 | for a text with exactly one colon, the module is the text before it with its braces removed and the value is the text after it |
| Views.ExceptionTextRebuilt | flask/app/views.py:167-172 | in the two-part case the error text is the first part, a colon and the value, so no character is lost |
| Views.ExceptionTypeSingle | flask/app/views.py:180 | a one-element type list gives that element unchanged as the type |
| Views.ParseArch | flask/app/views.py:198-200 | `x86` exactly when the platform type ends with `x86`, `x86_64` otherwise |
| Views.ParseOsName | flask/app/views.py:202-211 | the name is one of `Windows`, `macOS`, `Linux`, `Unknown`; each of the first three is given exactly when the lower-cased platform type starts with its prefix |
| Views.OsPrefixesExclusive | flask/app/views.py:204-209 | no string starts with two of the prefixes, so the order of the tests does not matter |
| Views.ParseOsVersion | flask/app/views.py:213-229 | after the substitution chain the version holds no space, no parenthesis and no ASCII upper-case letter |
| Views.UserOf | flask/app/views.py:231-242 | the user name is `<Undefined>` when `userName` is absent or empty and is unchanged otherwise; the id is the name followed by the data-separation tag, so the name is a non-empty prefix of the id |
| Views.ParseUser | flask/app/views.py:231-242 | the step-by-step id and name equal `UserOf`; the id is the name plus the data-separation tag |
| Views.LevelOf | flask/app/views.py:253-256 | breadcrumb level `error` exactly for event level `Error`, `info` for every other level |
| Views.MessageOf | flask/app/views.py:258-265 | the message starts with `Event: ` and the event name |
| Views.MessageJoin | flask/app/views.py:258-265 | for every event, the message is its lines joined by newlines: the event line, then `Meta:  ` and `Data:  ` with their fields when non-empty, then `Comment:` and the comment when non-empty; fields holding newlines are copied unchanged |
| Views.MessageLines | flask/app/views.py:258-265 | when no field holds a newline, splitting the message at newlines gives back exactly those lines: the lines of the message are the event line, then the `Meta:  ` and `Data:  ` lines for non-empty fields, then `Comment:` and the comment for a non-empty comment, in that order |
| Views.BreadcrumbOf | flask/app/views.py:267-272 | category `log` and the event's date as timestamp |
| Views.Breadcrumbs | flask/app/views.py:252-272 | one breadcrumb per event, in the order of the events |
| Views.EventLog | flask/app/views.py:244-250 | no events when `additionalData` or `EventLog` is absent; otherwise the log as given |
| Views.EventLogOf | flask/app/views.py:244-252 | as many breadcrumbs as there are events; none when `additionalData` or `EventLog` is absent |
| Views.EventMessage | flask/app/views.py:258-265 | the message grown with `+=` equals `MessageOf` |
| Views.EventBreadcrumb | flask/app/views.py:253-272 | the breadcrumb pushed for one event equals `BreadcrumbOf` |
| Views.ParseEventLog | flask/app/views.py:244-272 | the loop pushes `EventLogOf`: nothing when the additional data or the log is absent; otherwise one breadcrumb per entry, category `log`, date as timestamp, level `error` exactly for `Error` |
| Views.FrameJson | flask/app/views.py:190-195 | a frame dictionary has exactly the keys `in_app`, `function`, `lineno` and `context_line`, holding the frame's flag, function name, line number and context line |
| Views.StackTraceJson | flask/app/views.py:190-196 | the stack trace dictionary has the single key `frames`, holding the frames' dictionaries in frame order |
| Views.ExceptionRecord | flask/app/views.py:120-132 | the record has the keys type, value and module, plus `stacktrace` exactly when there is a stack trace, and then that key holds the stack trace's dictionary |
| Views.EventJson | flask/app/views.py:134-145 | the event has exactly the keys exception, release, timestamp, sdk and platform; release is the configuration version, timestamp the report time, `exception.values` holds exactly the one exception record, `sdk` is the record `sentry.bsl`/`0.0.1` and `platform` is `Other` |
| Views.DeviceContext | flask/app/views.py:80-87 | the `device` context has exactly six keys: family `Desktop`, the parsed architecture, and client ID, processor, full and free RAM copied from the system information |
| Views.OsContext | flask/app/views.py:88-91 | the `os` context has exactly the parsed OS name and the normalized OS version |
| Views.RuntimeContext | flask/app/views.py:92-95 | the `runtime` context has exactly the application name and the server's application version |
| Views.AppContext | flask/app/views.py:96-101 | the `app` context has exactly the configuration's name, description, version and hash, under `app_identifier`, `app_name`, `app_version` and `app_build` |
| Views.Contexts | flask/app/views.py:80-101 | exactly the contexts device, os, runtime and app, each holding its context dictionary |
| Views.Extras | flask/app/views.py:108-116 | exactly the nine named extra attributes are set, each holding the report field the source copies into it (`DataSeparation` as a string) |
| Views.FeedbackOf | flask/app/views.py:148-151 | a feedback record exists exactly when the user description is present and non-empty; it carries the event id, the user name and the description |
| Views.CaptureOf | flask/app/views.py:68-151 | level `error`; the contexts are `Contexts`, the user `UserOf`, the extras `Extras`, the breadcrumbs `EventLogOf` (one per event-log entry), the event `EventJson` of the parsed exception and the feedback `FeedbackOf`, which exists exactly for a non-empty description |
| Views.CapturedStacktrace | flask/app/views.py:120-136 | the captured event holds exactly one exception object, which has a `stacktrace` key exactly when the report has a non-empty stack |
| Views.SentryCaptureReport | flask/app/views.py:68-151 | the step-by-step scope set-up and event build equal `CaptureOf` |
| Strings.Lower | flask/app/views.py:203 | lower-casing keeps the length (each ASCII letter is mapped in place); its laws are `LowerHasNoUpper`, `LowerAppend` and `LowerNoUpper` |
| Strings.Join | flask/app/views.py:180 | the joined text starts with the first item; its laws are `JoinShort`, `JoinSnoc`, `JoinSplit` and `SplitJoin` |
| Strings.JoinSnoc | flask/app/views.py:258-265 | joining one more item appends the separator and the item |
| Strings.Replace | flask/app/views.py:220-227 | a replacement no longer than the pattern never lengthens the text; the scan is pinned down by `ReplaceHit` (an occurrence at the front is replaced and the scan resumes after it), `ReplaceMiss` (any other position is copied) and `ReplaceSkip` |
| Strings.StartsWithConcat | flask/app/views.py:204-208 | `s.startswith(p)` holds exactly when `s` is `p` followed by some text; the empty prefix always matches |
| Strings.EndsWithConcat | flask/app/views.py:200 | `s.endswith(p)` holds exactly when `s` is some text followed by `p`; the empty suffix always matches |
| Strings.Split | flask/app/views.py:167 | `split(':')` gives one more piece than there are colons |
| Strings.SplitAppend | flask/app/views.py:167 | splitting at a separator splits both sides independently |
| Strings.SplitNone | flask/app/views.py:167 | a text without the separator is a single piece |
| Strings.JoinSplit | flask/app/views.py:167 | joining the pieces of a split with the separator gives the text back |
| Strings.SplitJoin | flask/app/views.py:167 | splitting a join of separator-free pieces gives the pieces back |
| Strings.JoinShort | flask/app/views.py:180 | joining no items gives the empty string; joining one item gives it unchanged |
| Strings.DeleteCharIsWithout | flask/app/views.py:170-171 | replacing a one-character pattern by nothing removes every occurrence and keeps the rest in order |
| Strings.LowerHasNoUpper | flask/app/views.py:203 | no upper-case letter is left after `lower()` |
| Strings.LowerAppend | flask/app/views.py:219 | lower-casing distributes over concatenation |
| Strings.LowerNoUpper | flask/app/views.py:219 | a text without upper-case letters is its own lower-casing |
| Strings.ReplaceKeepsAbsent | flask/app/views.py:220-227 | a character in neither the input nor the replacement is not in the result |
| Strings.ReplaceChars | flask/app/views.py:220-227 | every character of the result comes from the input or the replacement |
| Strings.ReplaceSkip | flask/app/views.py:220-227 | characters that cannot start the pattern are copied unchanged |
| Strings.ReplaceHit | flask/app/views.py:220-227 | an occurrence at the front is replaced and scanning resumes after it |
| Strings.ReplaceMiss | flask/app/views.py:220-227 | a position where the pattern does not start is copied |
| Strings.ReplaceOnce | flask/app/views.py:220-227 | a single occurrence with no other start character around is replaced once |
| Strings.ReplaceToken | flask/app/views.py:220-227 | a leading piece holding one occurrence is rewritten and scanning continues on the rest |
| Strings.ReplaceAbsent | flask/app/views.py:220-227 | a text without the pattern's first character is left unchanged |
| Strings.ReplaceCharAppend | flask/app/views.py:227 | replacing one character distributes over concatenation |
| Cases.DeleteMicrosoft | flask/app/views.py:220 | deleting `microsoft` leaves the following space |
| Cases.KeepWindows81 | flask/app/views.py:221 | `windows 10` does not occur in a Windows 8.1 string, so that step changes nothing |
| Cases.DeleteWindowsWord | flask/app/views.py:221-222 | the `windows 10` and `windows 8.1` steps remove their word pair after the leading space and keep the rest |
| Cases.DeleteVersion | flask/app/views.py:223 | the `version` step removes the word |
| Cases.BuildToDot | flask/app/views.py:224 | `build` becomes `.` |
| Cases.DeleteOpen | flask/app/views.py:225 | the opening parenthesis goes |
| Cases.DeleteClose | flask/app/views.py:226 | the closing parenthesis goes |
| Cases.DeleteSpaces | flask/app/views.py:227 | deleting the spaces leaves `<version>.<build>` |
| Cases.TailSteps | flask/app/views.py:223-227 | the last five steps turn `  version <d>  (build <e>)` into `<d>.<e>` |
| Cases.OsVersionWindows81Shape | flask/app/views.py:213-229 | `Microsoft Windows 8.1 version <d>  (Build <e>)` becomes `<d>.<e>` for all version and build numbers |
| Cases.OsVersionWindows10Shape | flask/app/views.py:213-229 | `Microsoft Windows 10 version <d>  (Build <e>)` becomes `<d>.<e>` for all version and build numbers |
| Cases.OsVersionWindows81 | flask/app/views.py:216-217 | `Microsoft Windows 8.1 version 6.3  (Build 9600)` becomes `6.3.9600` |
| Cases.OsVersionWindows10 | flask/app/views.py:214-215 | `Microsoft Windows 10 version 10.0  (Build 19042)` becomes `10.0.19042` |
| Cases.ExceptionExample | flask/app/views.py:164-182 | `{Form}:Boom` with types `E1`, `E2` gives type `E1, E2`, value `Boom`, module `Form` |
| Cases.ExceptionTwoColons | flask/app/views.py:167-178 | a text with two colons gives the empty module and the missing-text value |
| Cases.UserUndefinedExample | flask/app/views.py:231-242 | no user name and tag `S1` give name `<Undefined>` and id `<Undefined>S1` |
| Cases.ArchExamples | flask/app/views.py:198-200 | `Windows_x86` gives `x86`; `Windows_x86_64` gives `x86_64` |
| Cases.OsNameExample | flask/app/views.py:202-211 | `Linux_x86_64` gives `Linux` |
| Cases.BreadcrumbExample | flask/app/views.py:252-272 | an `Error` event with a name and a comment only gives category `log`, level `error` and the message `Event: Start`, `Comment:`, `c` on three lines |

`Views.NoErrors`, `Views.FirstError` and `Views.HasStack` are helpers without a contract of their own. They name the source's tests `not errors` (flask/app/views.py:161), the entry `errors[0]` (flask/app/views.py:164) and the truth of the stack (flask/app/views.py:120 and 186), and the contracts above are stated with them.

## Left out

- The HTTP endpoints, the saving and unpacking of the uploaded zip file and `json.load` (flask/app/views.py:25-66). These are web and filesystem I/O.
- Attachment globbing and `scope.add_attachment` (flask/app/views.py:74-75). These are filesystem enumeration and SDK state.
- The SDK calls themselves: `set_level`, `set_context`, `set_user`, `set_extra`, `add_breadcrumb`, `capture_event` and `flush`. They act on a hidden global scope and a network transport. Their arguments are returned in a `Capture` value instead.
- `last_event_id()` is an SDK call. The identifier it returns is a parameter of `CaptureOf` and `SentryCaptureReport`.
- The envelope that `capture_user_feedback` builds and its transport (flask/app/views.py:274-289). Only the `{event_id, name, comments}` record and the rule for when it is sent are modelled.
- The `SENTRY_DSN` check and `exit(1)` at start-up (flask/app/views.py:14-23). This is a process-level side effect.
- The `KeyError` raised for a missing required key. The report is a typed record, so every key the source reads with `[]` is present. Keys it reads with `.get()` are options and their absence is modelled.
- The values copied into the contexts, the extras, the frames and the event (client ID, RAM, versions, locale codes, the three positions of a stack entry and so on) are opaque JSON values. Nothing in the source inspects them.
- Dictionary key order. Dafny maps are unordered, so the model states key sets.
- The second arm `elif len(parts) == 2` at flask/app/views.py:173 repeats the first test and can never be taken, so it is not written.
- Strings.Lower: lower-cases ASCII letters only. Python's `str.lower()` also maps non-ASCII letters. None of the prefixes or patterns the parsers test contains such a letter, so `parse_os_name` and the substitutions decide the same way. But `parse_os_version` returns the lower-cased text itself. For a version string holding a non-ASCII capital, the model keeps that capital where Python lower-cases it. For `İ`, Python's result is even one character longer.
- Json.Value: numbers follow the JSON reading of the report, with `JInt` and `JReal`. A value that is only copied is carried as it came.
- Views.CaptureOf: states each part of the capture as the builder that makes it. What the user, the extras, the event and the contents of the breadcrumbs and the feedback hold is stated by the contracts of UserOf, Extras, EventJson, EventLogOf and FeedbackOf and by CapturedStacktrace, not repeated here.
