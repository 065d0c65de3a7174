# MetricsLogger: event monitor and InfluxDB encoder, in Dafny

This project models the core of the Unreal Engine MetricsLogger editor plugin. The plugin watches the editor's analytics events, times builds, cooks, packaging runs and global shader compilation, and reports each completed interval to an InfluxDB server as one point of the line protocol.

It models three parts:

- **`MetricsModel`** (`MetricsModel.dfy`). The event kinds, the `EventMetaData` record, and the measurement name of each kind.
- **`MetricsLoggerEventMonitor`** (`MetricsLoggerEventMonitor.dfy`). The monitor object `EventMonitor`.
  - It keeps the plugin's flags and pending records as fields, and its name-to-handler table as a map.
  - Each handler is proved to take one step of a pure state machine (`HandlerStep`, `TickStep`, `ShaderStartStep`, `ProcessEventStep`).
  - Every record it hands to the logger is appended to the ghost sequence `logged`.
- **`MonitorTraces`** (`MonitorTraces.dfy`). Whole runs of the monitor over a sequence of stimuli: analytics events, shader-compilation starts and editor ticks. Two facts are proved for every run:
  - each record logged is well formed, provided the clock does not run backwards;
  - the monitor never logs more cook, package or shader records than it saw starts of that kind.
- **`InfluxDBLogger`** (`InfluxDBLogger.dfy`). The line-protocol encoder (space escaping, tag set, line layout) and the write request for InfluxDB v1 and v2.
  - It includes the object `InfluxDBLogger`, whose issued requests are appended to the ghost sequence `sent`.
  - The lemma `LineSections` proves that a line has exactly two unescaped spaces. So a reader splits it into the intended measurement-and-tags, field-set and timestamp sections, the measurement names the event kind, and the timestamp is the start time.

`Optional.dfy` and `Text.dfy` hold shared helpers:

- an option type;
- ASCII case folding;
- decimal rendering of integers, with a parser proved to invert it.

**Time.** Time is whole seconds since the Unix epoch. Every handler receives the clock reading `now`, which replaces `FDateTime::UtcNow`. A default-constructed `FDateTime` (tick 0, year 1) is `DefaultDateTime`, i.e. -62135596800.

**Injected functions.** `FCString::Atoi` is the function `parseInt` given to the monitor. The shader compiling manager's `IsCompiling()` is the `isCompiling` argument of `Tick`. A missing manager corresponds to `isCompiling == true`.

**Determinism.** Encoding is deterministic by construction: `ToLineProtocol` is a function of the record, the tag string, the user name and the settings.

**Behaviour that is easy to misread:**

- Event names are compared ignoring case. Unreal's `FString` `==` ignores case, and so does a `TMap<FString, …>` lookup. The recompile attribute names `Duration` and `Result`, and the value `Succeeded`, are compared the same way. The model folds ASCII case (`Text.Fold`). It keys the handler table by folded names, so handler lookups ignore ASCII case.
- The constructor registers seven event names: recompile, plus start/completed/failed for cook and for package.
- Recompile checks only that the last `Duration` value is non-empty, not that it parses.
  - A value `Atoi` reads as negative makes the record's start later than its finish.
  - `RecompileRecord` states this, and `WellFormedRecord` exempts build records from the start-before-finish requirement.

## Model

| member | source | states |
|---|---|---|
| MetricsModel.NewEventMetaData | Source/MetricsLogger/Private/MetricsModel.h:29-35 | a fresh record has duration 0, is not successful, and both of its dates are the default date |
| MetricsModel.LogEventTypeToString | Source/MetricsLogger/Private/MetricsModel.h:40-57 | every measurement name is non-empty and ends in `_event` |
| MetricsModel.LogEventTypeNamePlain | Source/MetricsLogger/Private/MetricsModel.h:40-57 | no measurement name contains a space, a comma or a backslash, so none needs line-protocol escaping |
| MetricsModel.LogEventTypeNameRoundTrip | Source/MetricsLogger/Private/MetricsModel.h:43-56 | BUILD, COOK, PACKAGE, SHADER and UKNOWN map to build_event, cook_event, package_event, shader_event and uknown_event: each name reads back as the kind it came from |
| MetricsModel.LogEventTypeNameInjective | Source/MetricsLogger/Private/MetricsModel.h:20-57 | no two event kinds share a measurement name |
| MetricsLoggerEventMonitor.DefaultHandlersRoute | Source/MetricsLogger/Private/MetricsLoggerEventMonitor.cpp:20-59 | in the registered table, a name reaches the recompile, cook start/stop/fail or package start/stop/fail handler exactly when it equals that handler's event name up to case |
| MetricsLoggerEventMonitor.GuardedStart | Source/MetricsLogger/Private/MetricsLoggerEventMonitor.cpp:114-123 | a start while an interval is open changes nothing; otherwise it opens a fresh record of the kind, started now, with duration 0 and no success |
| MetricsLoggerEventMonitor.GuardedFinish | Source/MetricsLogger/Private/MetricsLoggerEventMonitor.cpp:135-146 | a stop while idle changes nothing and logs nothing; while open it logs exactly one record, of the pending kind and start, finished now, with duration finish minus start and the given success, and closes the interval |
| MetricsLoggerEventMonitor.LastValue | Source/MetricsLogger/Private/MetricsLoggerEventMonitor.cpp:91-100 | no value exactly when no attribute has the name (up to case); otherwise the value of the last attribute with that name |
| MetricsLoggerEventMonitor.RecompileScanStep | Source/MetricsLogger/Private/MetricsLoggerEventMonitor.cpp:94-99 | one attribute updates at most one of the scanned duration and success, Duration taking precedence over Result |
| MetricsLoggerEventMonitor.ResultSucceededMeans | Source/MetricsLogger/Private/MetricsLoggerEventMonitor.cpp:97-98 | a recompile is successful exactly when the last Result attribute's value is Succeeded up to case |
| MetricsLoggerEventMonitor.RecompileRecord | Source/MetricsLogger/Private/MetricsLoggerEventMonitor.cpp:103-111 | a BUILD record exists exactly when the last Duration value is non-empty; it finishes now, lasts what Atoi reads from that value, starts that many seconds earlier, and starts no later than it finishes exactly when that duration is non-negative |
| MetricsLoggerEventMonitor.HandlerStep | Source/MetricsLogger/Private/MetricsLoggerEventMonitor.cpp:86-183 | no named-event handler touches the shader slot; recompile changes no state; cook handlers leave the package slot and package handlers the cook slot alone; starts log nothing |
| MetricsLoggerEventMonitor.ProcessEventStep | Source/MetricsLogger/Private/MetricsLoggerEventMonitor.cpp:67-75 | a name with no registered handler changes nothing and logs nothing |
| MetricsLoggerEventMonitor.ShaderStartStep | Source/MetricsLogger/Private/MetricsLoggerEventMonitor.cpp:185-192 | a shader start always opens a fresh SHADER record started now, even while one is open, logs nothing and leaves the cook and package slots alone |
| MetricsLoggerEventMonitor.TickStep | Source/MetricsLogger/Private/MetricsLoggerEventMonitor.cpp:77-84 | a tick logs one record exactly when a shader interval is open and the compiler is idle; that record keeps the pending kind and start, finishes now, lasts finish minus start, is a success, and closes the interval, which keeps that record as its pending one; otherwise nothing changes |
| MetricsLoggerEventMonitor.TickFiresOncePerStart | Source/MetricsLogger/Private/MetricsLoggerEventMonitor.cpp:194-203 | after a tick has logged the shader record, any further tick logs nothing and changes nothing |
| MetricsLoggerEventMonitor.DuplicateStartKeepsFirst | Source/MetricsLogger/Private/MetricsLoggerEventMonitor.cpp:117-146 | a second cook start before the stop is swallowed, and the record logged at the stop is measured from the first start |
| MetricsLoggerEventMonitor.EventMonitor.constructor | Source/MetricsLogger/Private/MetricsLoggerEventMonitor.cpp:30-65 | the table holds exactly the seven registered names; both flags and the shader flag start false; nothing has been logged |
| MetricsLoggerEventMonitor.EventMonitor.ProcessEvent | Source/MetricsLogger/Private/MetricsLoggerEventMonitor.cpp:67-75 | the fields and the log change exactly as the registered handler's step says, and not at all for an unregistered name |
| MetricsLoggerEventMonitor.EventMonitor.Tick | Source/MetricsLogger/Private/MetricsLoggerEventMonitor.cpp:77-84 | the fields and the log change exactly as `TickStep` says |
| MetricsLoggerEventMonitor.EventMonitor.OnRecompile | Source/MetricsLogger/Private/MetricsLoggerEventMonitor.cpp:86-112 | the loop keeps the last Duration value and the last Result verdict seen; the log grows by exactly the record `RecompileRecord` gives, or by nothing |
| MetricsLoggerEventMonitor.EventMonitor.OnCookStart | Source/MetricsLogger/Private/MetricsLoggerEventMonitor.cpp:114-123 | the cook slot takes the guarded start; only the cook fields may change |
| MetricsLoggerEventMonitor.EventMonitor.OnCookStop | Source/MetricsLogger/Private/MetricsLoggerEventMonitor.cpp:125-128 | the cook slot takes the guarded finish with success |
| MetricsLoggerEventMonitor.EventMonitor.OnCookFailed | Source/MetricsLogger/Private/MetricsLoggerEventMonitor.cpp:130-133 | the cook slot takes the guarded finish without success |
| MetricsLoggerEventMonitor.EventMonitor.LogCookEvent | Source/MetricsLogger/Private/MetricsLoggerEventMonitor.cpp:135-146 | the cook fields and the log change exactly as `GuardedFinish` says |
| MetricsLoggerEventMonitor.EventMonitor.OnPackageStart | Source/MetricsLogger/Private/MetricsLoggerEventMonitor.cpp:149-159 | the package slot takes the guarded start; only the package fields may change |
| MetricsLoggerEventMonitor.EventMonitor.OnPackageStop | Source/MetricsLogger/Private/MetricsLoggerEventMonitor.cpp:161-164 | the package slot takes the guarded finish with success |
| MetricsLoggerEventMonitor.EventMonitor.OnPackageFailed | Source/MetricsLogger/Private/MetricsLoggerEventMonitor.cpp:166-169 | the package slot takes the guarded finish without success |
| MetricsLoggerEventMonitor.EventMonitor.LogPackageEvent | Source/MetricsLogger/Private/MetricsLoggerEventMonitor.cpp:171-183 | the package fields and the log change exactly as `GuardedFinish` says (the flag is cleared before the record is logged) |
| MetricsLoggerEventMonitor.EventMonitor.OnShaderStart | Source/MetricsLogger/Private/MetricsLoggerEventMonitor.cpp:185-192 | the shader fields become a fresh open SHADER interval started now, unconditionally |
| MetricsLoggerEventMonitor.EventMonitor.LogShaderEvent | Source/MetricsLogger/Private/MetricsLoggerEventMonitor.cpp:194-203 | closes the shader interval as a success and logs its record |
| MonitorTraces.ApplyWellFormed | Source/MetricsLogger/Private/MetricsLoggerEventMonitor.cpp:67-203 | one stimulus at a time no earlier than the last keeps every open interval of its slot's kind and started in the past, and logs only well-formed records |
| MonitorTraces.RunLogsWellFormedRecords | Source/MetricsLogger/Private/MetricsLoggerEventMonitor.cpp:67-203 | over any run whose clock does not run backwards, every record logged has a known kind and a duration equal to finish minus start, and every cook, package or shader record starts no later than it finishes |
| MonitorTraces.InitialRunLogsWellFormedRecords | Source/MetricsLogger/Private/MetricsLoggerEventMonitor.h:86-95 | the same from the state the constructor leaves, for every run whose clock does not run backwards, the empty run included |
| MonitorTraces.ApplyCount | Source/MetricsLogger/Private/MetricsLoggerEventMonitor.cpp:114-203 | one stimulus logs a cook, package or shader record only by closing an open interval of that kind, and opens one only if it is a start of that kind |
| MonitorTraces.RunCount | Source/MetricsLogger/Private/MetricsLoggerEventMonitor.cpp:114-203 | over any run, records of a timed kind plus the interval left open never exceed the starts seen plus the interval open before |
| MonitorTraces.RunLogsAtMostOnePerStart | Source/MetricsLogger/Private/MetricsLoggerEventMonitor.cpp:114-203 | from the constructor's state, every cook, package or shader record answers its own start |
| MonitorTraces.NoShaderRecordWithoutStart | Source/MetricsLogger/Private/MetricsLoggerEventMonitor.h:94 | with the shader flag initialised to false, no shader record is logged in a run that never saw shader compilation start |
| MonitorTraces.SpuriousShaderRecordAsWritten | Source/MetricsLogger/Private/MetricsLoggerEventMonitor.h:94-95 | with the flag left uninitialised and reading true, one idle tick logs a record, of whatever kind the uninitialised `type` holds, that no shader start preceded, dated from the year 1; when that kind is SHADER it is a shader record without a start |
| MonitorTraces.CookRunExample | Source/MetricsLogger/Private/MetricsLoggerEventMonitor.cpp:114-146 | a cook started at 100 and completed at 142 is logged once, as a successful 42-second COOK record |
| MonitorTraces.RecompileRunExample | Source/MetricsLogger/Private/MetricsLoggerEventMonitor.cpp:86-112 | a recompile at 500 reporting Duration 30 and Result Succeeded is logged as a successful BUILD record from 470 to 500 |
| MonitorTraces.UnknownEventIgnored | Source/MetricsLogger/Private/MetricsLoggerEventMonitor.cpp:72-74 | an unregistered event name leaves the monitor unchanged and logs nothing |
| InfluxDBLogger.EscapeSpaces | Source/MetricsLogger/Private/InfluxDBLogger.cpp:25-35 | every space of the result is escaped by a backslash; the result is empty only for an empty value; a value without spaces is unchanged |
| InfluxDBLogger.EscapeSpacesRoundTrip | Source/MetricsLogger/Private/InfluxDBLogger.cpp:25-35 | unescaping the escaped value gives the value back |
| InfluxDBLogger.EscapeThenRemoveBackslashes | Source/MetricsLogger/Private/InfluxDBLogger.cpp:25-35 | for a value without backslashes, removing every backslash from the escaped value gives the value back |
| InfluxDBLogger.TagStringEscaped | Source/MetricsLogger/Private/InfluxDBLogger.cpp:25-35 | every space in the tag set is escaped, whatever the host metadata holds |
| InfluxDBLogger.LineSections | Source/MetricsLogger/Private/InfluxDBLogger.cpp:128-150 | the line has exactly two unescaped spaces, separating measurement-and-tags, fields and timestamp; the measurement reads back as the event kind; the timestamp reads back as the start time |
| InfluxDBLogger.UserHiddenWhenNotLogged | Source/MetricsLogger/Private/InfluxDBLogger.cpp:135 | with user logging off the user tag is N/A and the user name does not affect the line |
| InfluxDBLogger.SuccessTag | Source/MetricsLogger/Private/InfluxDBLogger.cpp:134-142 | the success tag follows the tag set and reads True exactly for a successful event |
| InfluxDBLogger.LogRequest | Source/MetricsLogger/Private/InfluxDBLogger.cpp:38-109 | a request is issued exactly when logging is enabled and the selected version's URL and credentials are all non-empty; it is a POST of the encoded line as plain UTF-8 text to that version's write URL, with an Authorization header, equal to the token, exactly for V2, and no other header |
| InfluxDBLogger.WriteUrlShape | Source/MetricsLogger/Private/InfluxDBLogger.cpp:69-91 | both write URLs start with the base URL and the version's write path and end with second precision |
| InfluxDBLogger.InfluxDBLogger.constructor | Source/MetricsLogger/Private/InfluxDBLogger.cpp:21-36 | the tag set is built once from the escaped host metadata, and no request has been issued |
| InfluxDBLogger.InfluxDBLogger.Log | Source/MetricsLogger/Private/InfluxDBLogger.cpp:38-50 | the issued requests grow by exactly the request `LogRequest` gives for the encoded line, or by nothing |
| InfluxDBLogger.InfluxDBLogger.LogV1 | Source/MetricsLogger/Private/InfluxDBLogger.cpp:53-72 | with an incomplete v1 configuration nothing is issued; otherwise one request to the v1 write URL without authorization |
| InfluxDBLogger.InfluxDBLogger.LogV2 | Source/MetricsLogger/Private/InfluxDBLogger.cpp:75-94 | with an incomplete v2 configuration nothing is issued; otherwise one request to the v2 write URL authorised by the token |
| InfluxDBLogger.InfluxDBLogger.SendLog | Source/MetricsLogger/Private/InfluxDBLogger.cpp:96-109 | exactly one request is issued, configured setter by setter as a POST with its content type and, when given, its authorization |
| Text.IntToStringRoundTrip | Source/MetricsLogger/Private/InfluxDBLogger.cpp:139 | an integer printed in decimal reads back as itself |
| Text.EqualsIgnoreCaseMeans | Source/MetricsLogger/Private/MetricsLoggerEventMonitor.cpp:94-98 | two strings compare equal up to case exactly when they have the same length and each character is the same or the other-case ASCII letter of the other |

## Left out

- The HTTP transfer and its completion callback (`ProcessRequest`, `OnLogSendComplete`). They are asynchronous I/O with diagnostic logging only; the model stops at the issued request.
- Every `UE_LOG` call. They are diagnostics only.
- Plugin start-up, the settings object and the wiring of the global analytics callback (`MetricsLoggerModule.cpp`, `MetricsLoggerSettings.h`). This is host lifecycle; the settings are the immutable parameter `Settings`.
- The host metadata queries (`IMetricsLogger.cpp`). They are platform calls; the values are opaque strings in `HostMetadata`. The model does include the user name's space escaping (IMetricsLogger.cpp:44-45) in `InfluxDBLogger.InfluxDBLogger.constructor`.
- The tickable-object overrides in the monitor's header, and the shader manager global, which becomes the `isCompiling` argument.
- Floating point. Durations are whole seconds, so `%.2f` prints the integer followed by `.00`. Fractional seconds and `GetTotalSeconds` rounding are not modelled.
- printf widths. `event_start` and `event_finish` go through `%d` while the trailing timestamp uses `%lld`; all three are modelled as unbounded integers, so 32-bit truncation of `%d` is not captured.
- `FCString::Atoi`. It is a library parser, modelled as the injected function `parseInt`.
- Case folding beyond ASCII. Unreal's case-insensitive comparison also folds other characters.
- The kind of a default-initialised pending record. The monitor's `CurrentCookEvent`, `CurrentPackageEvent` and `CurrentShaderEvent` are default-initialised, not value-initialised, so their kind is indeterminate until first set. The constructor gives them the kind Unknown; only the shader record can be logged before it is set (see Findings).
- MetricsLoggerEventMonitor.EventMonitor.eventHandlers is a `const`. The source never changes the table after construction, and the handlers are the enum `Handler` rather than closures.
- InfluxDBLogger.LineSections requires, when user logging is on, that the user name not end in a backslash. Such a name would escape the space after it and merge the first two sections.

## Findings

| source | as written | input that shows it | evidently intended | confidence | as-written member | corrected member |
|---|---|---|---|---|---|---|
| Source/MetricsLogger/Private/MetricsLoggerEventMonitor.h:94 | `shaderCompileInProgress` has no initialiser, unlike `cookInProgress` and `packageInProgress` (lines 87, 91) | storage of the flag reading true, then one editor tick while no shaders compile: a record of whatever kind the uninitialised `type` holds (SHADER among them) is logged that no shader start preceded, starting at 0001-01-01 and lasting over 62 billion seconds | the flag starts false, so a shader record is logged only after a shader compilation start | not executed | MonitorTraces.SpuriousShaderRecordAsWritten | MonitorTraces.NoShaderRecordWithoutStart |
