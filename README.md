# go-logz logger core, modelled in Dafny

This project models the core of the `logger` package of go-logz, a leveled,
structured logging library. Callers send a message with a severity level and
an optional key/value context. The logger drops messages less severe than
its threshold. It formats each remaining message once, as a text line, a
JSON object or through a caller-supplied callback. It then hands the
formatted string to every configured output sink in order. Sinks are built
by factories (console, writer, file, split by level) and combined by two
wrappers (multi-output and level filter).

Modules, one per concern:

- `Levels` (`levels.dfy`): the eight severity levels, Emergency = 0 to
  Debug = 7. This is the numbering of section 6.2.1 of RFC 5424. The module
  also holds their names and the one ordering rule `level <= threshold`.
- `Outputs` (`outputs.dfy`): the sink factories and combinators of
  `outputs.go`.
  - A sink is a `Sink` value naming the factory that built it. A caller's
    own function is `FuncSink`.
  - The spec function `Deliver` gives the ordered events one call
    produces. An event is a line written to a stream, or a call into a
    caller function.
  - The method `Emit` performs the call on a `Trace` object, the model of
    the streams. Its multi-output case is the source's loop over sinks.
- `Formatting` (`formatting.dfy`): `formatMessage`.
  - The timestamp is a parameter.
  - `json.Marshal` is an encoder function `enc` over the key/value map.
  - JSON mode is specified through the map that would be encoded.
- `Logging` (`logging.dfy`): the `Logger` class.
  - The constructor `NewLogger` copies the options and then overwrites
    the fields that need a default.
  - `ShouldLog` is `shouldLog`.
  - `OutputMessage` is the loop of `outputMessage`.
  - `Log` and the eight per-level methods append to a `Trace`.
  - The spec function `Emitted` states what one call appends.
- `Wrappers` (`wrappers.dfy`): an `Option` type for Go's nil-able
  callback and error values.

## Model

| member | source | states |
|---|---|---|
| `Levels.Name` | pkg/logger/main.go:27-47 | Each of the levels 0..7 maps to its upper-case name (EMERGENCY … DEBUG). The result is "UNKNOWN" exactly when the integer is outside 0..7. |
| `Levels.NameInjective` | pkg/logger/main.go:27-47 | Two defined levels with the same name are the same level. |
| `Levels.NameIsUpperCase` | pkg/logger/main.go:27-47 | Every name, including "UNKNOWN", is a non-empty string of the letters A-Z. |
| `Outputs.FileOutput` | pkg/logger/outputs.go:21-30 | Exactly one of sink and error is returned. The sink comes back iff the open succeeded, and it appends message plus newline to the named file at every level. On failure there is no sink, and the error text is "failed to open log file ", the file name, ": " and the cause's text. |
| `Outputs.Route` | pkg/logger/outputs.go:12 | The console sink (and the split sink, line 42, by the same test) picks the error stream for every level <= Error (Emergency through Error, and any negative value) and the info stream otherwise. |
| `Outputs.Deliver` | pkg/logger/outputs.go:10-66 | No sink alters its input, however deeply nested: every write is exactly the message plus a newline, and every call receives the original level and message. A console, writer, file, split or caller-function sink makes exactly one write or call. |
| `Outputs.FanOut` | pkg/logger/outputs.go:51-57 | Every event of a list of sinks called in turn carries the original level and message unchanged. |
| `Outputs.Emit` | pkg/logger/outputs.go:10-66 | Calling a sink appends exactly `Deliver(s, level, message)` to the trace and leaves the earlier trace untouched. This covers the console, writer, file, split, multi-output and level-filter closures. |
| `Outputs.FanOutAppend` | pkg/logger/outputs.go:51-57 | Calling the sinks of `a` and then those of `b` produces the same events as calling the sinks of `a + b`. |
| `Outputs.MultiInOrder` | pkg/logger/outputs.go:51-57 | A multi-output sink's events are each inner sink's events, concatenated in argument order. Every inner sink gets the same level and message. |
| `Outputs.MultiEmpty` | pkg/logger/outputs.go:51-57 | A multi-output sink with no sinks produces no event. |
| `Outputs.FanOutCallsEachOnce` | pkg/logger/outputs.go:51-57 | Caller functions in a list are each called exactly once, in list order, with the original level and message. |
| `Outputs.LeafDeliversOnce` | pkg/logger/outputs.go:10-48 | Each console, writer, file, split or caller-function sink makes exactly one write or call per message. Console and split send levels <= Error to the error stream and the rest to the info stream. A writer writes message plus newline whatever the level. |
| `Outputs.SplitOverStdIsConsole` | pkg/logger/outputs.go:40-48 | A split sink over standard error and standard output behaves exactly like the console sink. |
| `Outputs.FilterGates` | pkg/logger/outputs.go:60-66 | A level filter forwards to its sink iff `level <= minLevel`. Otherwise it produces no event. |
| `Outputs.FilterOnlyPasses` | pkg/logger/outputs.go:60-66 | Every caller function behind a level filter is called only with levels within the filter's threshold. |
| `Outputs.FilterNesting` | pkg/logger/outputs.go:60-66 | Nesting filters with thresholds a and b behaves like one filter with threshold min(a, b). |
| `Formatting.JsonRecord` | pkg/logger/main.go:138-148 | JSON mode's map has keys {timestamp, level, message}, plus prefix when the prefix is non-empty, plus the context's keys. Every context entry appears unchanged, so context values win on a collision. Without a collision, the fixed fields hold the timestamp, the level name, the message and the prefix. |
| `Formatting.FormatMessage` | pkg/logger/main.go:129-168 | A set callback decides the result alone, from the context as given. Without a callback, the format "json" exactly selects the encoded JSON map, and every other format selects the text line. |
| `Formatting.TextLine` | pkg/logger/main.go:154-167 | The text line ends with one space and the message. It starts with "[prefix] " when the prefix is non-empty, and with "[timestamp] " otherwise. |
| `Formatting.TextLineIsSpaceJoined` | pkg/logger/main.go:155-167 | The text line is the single-space join of its segments in this order: "[prefix]" (only when non-empty), "[timestamp]", "[LEVEL]", the encoded context (only when non-empty), then the message. |
| `Formatting.TextLineHasLevelTag` | pkg/logger/main.go:155-160 | "[LEVELNAME]" always occurs in the text line. |
| `Formatting.JsonRecordFields` | pkg/logger/main.go:138-148 | Without key collisions, the JSON map has exactly the fixed keys plus the context's keys. Its "message" and "level" entries are the input message and the level's name. |
| `Formatting.JsonExample` | pkg/logger/main.go:137-151 | Level Info, message "hello", an empty prefix and the context {"k": "v"} give exactly the map {k: "v", level: "INFO", message: "hello", timestamp: ts}. |
| `Formatting.PlainTextLine` | pkg/logger/main.go:154-167 | With no prefix, no context and no callback, a text-mode call formats as "[timestamp] [LEVEL] message". |
| `Formatting.TextExample` | pkg/logger/main.go:154-167 | Prefix "svc", level Error, message "y" and a one-entry context format as "[svc] [ts] [ERROR] <encoded context> y". |
| `Logging.ContextArg` | pkg/logger/main.go:185-190 | Only the first context argument is used; with no argument the context is empty. |
| `Logging.DefaultConsoleOutput` | pkg/logger/main.go:120-126 | The default sink writes message plus newline to standard error for levels <= Error, and to standard output otherwise. |
| `Logging.Logger.NewLogger` | pkg/logger/main.go:96-117 | An in-range level is kept, and any other level becomes Info. An empty format becomes "string", and a non-empty one is kept. An empty sink list becomes exactly the default console sink, and a non-empty list is kept. Prefix and callback are copied. The result satisfies `Valid()`. |
| `Logging.Logger.ShouldLog` | pkg/logger/main.go:171-173 | A message is emitted iff its level is numerically at most the threshold. A constructed logger therefore always emits Emergency and never a level above Debug. |
| `Logging.Logger.Emitted` | pkg/logger/main.go:183-194 | A filtered level produces no event. Otherwise every event carries the original level and the one string formatted from the call (first context argument, or an empty map). |
| `Logging.Logger.OutputMessage` | pkg/logger/main.go:176-180 | Every configured sink is called once, in list order, with the same level and string. The trace grows by exactly their events. |
| `Logging.Logger.Log` | pkg/logger/main.go:183-194 | A message less severe than the threshold (numerically greater) leaves the trace unchanged. Otherwise the trace grows by the fan-out of one formatted string, built from the first context argument or from an empty map. |
| `Logging.Logger.Emergency` | pkg/logger/main.go:197-199 | Appends exactly what `Log` at level Emergency with the same arguments appends. |
| `Logging.Logger.Alert` | pkg/logger/main.go:202-204 | Appends exactly what `Log` at level Alert with the same arguments appends. |
| `Logging.Logger.Critical` | pkg/logger/main.go:207-209 | Appends exactly what `Log` at level Critical with the same arguments appends. |
| `Logging.Logger.Error` | pkg/logger/main.go:212-214 | Appends exactly what `Log` at level Error with the same arguments appends. |
| `Logging.Logger.Warning` | pkg/logger/main.go:217-219 | Appends exactly what `Log` at level Warning with the same arguments appends. |
| `Logging.Logger.Notice` | pkg/logger/main.go:222-224 | Appends exactly what `Log` at level Notice with the same arguments appends. |
| `Logging.Logger.Info` | pkg/logger/main.go:227-229 | Appends exactly what `Log` at level Info with the same arguments appends. |
| `Logging.Logger.Debug` | pkg/logger/main.go:232-234 | Appends exactly what `Log` at level Debug with the same arguments appends. |
| `Logging.ThresholdMonotone` | pkg/logger/main.go:171-173 | Two loggers that differ only in their threshold emit the same events for every call the stricter one emits, so raising the threshold never loses a message. |
| `Logging.LogFansOut` | pkg/logger/main.go:183-194 | An emitted call formats once, and every configured sink's events for that one string and the original level follow one another in list order. |
| `Logging.LogWithCallback` | pkg/logger/main.go:183-194 | With a callback set, each caller-function sink receives exactly the callback's result, once and in order. The callback is applied to the first context argument, or to an empty map when none was passed. |
| `Logging.ExampleLines` | pkg/logger/main.go:154-167 | Without prefix or context, an Error call for "error message" formats as "[ts] [ERROR] error message", and an Emergency call for "emergency message" as "[ts] [EMERGENCY] emergency message". |
| `Logging.LevelsExample` | pkg/logger/main_test.go:67-98 | With threshold Error, text format, no prefix and one caller sink, the calls Debug, Info, Error and Emergency make the sink receive exactly two calls, in order: the Error line and then the Emergency line, each "[ts] [LEVEL] message". |
| `Logging.CallbackExample` | pkg/logger/main_test.go:100-121 | With a callback returning "CUSTOM: " + message, the sink receives exactly "CUSTOM: test message". |

## Notes on the code

- JSON key collisions are deterministic in the code: the context is written
  after the fixed fields, so a context key always overrides
  `timestamp`, `level`, `message` or `prefix`. The model states exactly
  that.
- In text mode the context appears as the bare encoded JSON after one space.
  It is not wrapped in brackets.
- `NewLogger` keeps any non-empty format, including unknown ones.
  `formatMessage` treats every format other than "json" as text, and so
  does the model.
- `Log` accepts any integer level. A level outside 0..7 is filtered by the
  same comparison and formats with the name "UNKNOWN".
- The only part of RFC 5424 the code implements is the severity numbering.
  It does no message framing.

## Left out

- Real I/O is left out: `os.Stderr`, `os.Stdout`, `os.OpenFile`,
  `fmt.Fprint`/`Fprintln`. Writes become events appended to a `Trace`.
  Write errors, which the source ignores, are not modelled.
- File opening is a parameter. `FileOutput` receives the open's outcome.
  It does not model file creation, permission bits 0666 or the file
  handle, which the source never closes.
- `time.Now().UTC().Format(time.RFC3339Nano)` is the parameter `ts`. Clock
  and date formatting are not modelled.
- `json.Marshal` is an encoder parameter `enc`. Its byte output, key
  ordering and swallowed errors are not modelled. Context values are a
  small `Value` datatype standing for Go's `interface{}`.
- Caller-supplied sinks and format callbacks are treated as pure. A caller
  sink is recorded as a call event; its own side effects and panics are not
  modelled, so a sink that aborts the whole call is not represented.
- `defaultConsoleOutput` (Fprint of message+"\n") and `ConsoleOutput`
  (Fprintln of message) write the same bytes. Both are the single
  `ConsoleSink`.
- Go's nil map and empty map are not distinguished. A nil first context
  argument is modelled as the empty map.
- `LogLevel` is a Go `int` and is modelled as an unbounded integer. Levels
  are only compared, never computed, so width does not matter.
- Concurrency is not modelled. No method of the logger writes its
  (unexported) fields after construction, but the sinks write to shared
  streams and files, and neither the logger nor the sinks take a lock.
- Outputs.FileOutput: the error wraps the open error with `%w`, so Go
  callers can unwrap it to the cause. The model keeps only the error's text;
  the unwrap chain is not represented.
- Outputs.MultiInOrder: `MultiOutput` keeps the caller's slice itself, and
  its closure loops over that same backing array on every call
  (pkg/logger/outputs.go:52-56). A later write by the caller into the slice
  changes what the combined sink does; a `MultiSink` holds a `seq` value,
  so this aliasing is not represented. Nor is a nil `OutputFunc`: `Sink`
  has no nil case, while a nil entry in the logger's outputs, or one given
  to `MultiOutput` or `LevelFilterOutput`, panics when it is called.
- Logging.Logger.NewLogger: the logger stores the caller's `Outputs` slice
  itself, not a copy (pkg/logger/main.go:101). A later write by the caller
  into that slice changes the logger's sinks. The model stores a `seq`
  value, so this aliasing is not represented.
- The two demo programs of the repository (basic and advanced) are not part of this model.
