# seer-jsniffer: a verified model of the script-error reporter

This project models the client-side script-error reporter of
`src/seer-jsniffer.js`. The reporter receives uncaught errors (through the
global `onerror` hook) and caught exceptions (through `monitor.error`). It
normalises each one into a flat `jserror` record and, when no native stack is
given, adds a synthetic stack built by walking the caller chain. It attaches
the list of resources that failed to load earlier (`monitor.lost`), tags the
first occurrence of each `file:line:message` key with `uv: 1`, and hands the
record to the sink.

Modules, one per component:

- `JsValues` (`js_values.dfy`): script values (`undefined`, `null`, booleans,
  integers, strings), truthiness, `a || b`, string conversion by `+`, and
  `Array.prototype.join`.
- `FunctionNames` (`function_names.dfy`): `function_name`. The fixed pattern
  `^function\b[^\)]+\)` is scanned by hand and specified by `IsMatch`, a
  description of the strings the pattern matches.
- `StackTraces` (`stack_traces.dfy`): `stacktrace`. The loop is a method. It
  is proved against `Walk`, a recursive function that mirrors the loop, and
  against `IsWalk`, a description of the walk without the loop.
- `LostResources` (`lost_resources.dfy`) and `Occurrences` (`occurrences.dfy`):
  the tracker log and the occurrence cache as pure functions of the calls made
  to them, with the session-level properties. `TrackAll` replays
  `Reporter.Lost` once per URI (its step is `Track`, the function named in
  `Lost`'s contract). `Tags` and `CacheAfter` replay the tagging step of
  `Reporter.Error`: a report is tagged exactly when its key is not cached, and
  the key is then cached. The class keeps the ghost sequence of the keys
  reported so far; its invariant says the cache is `CacheAfter` of that
  sequence, and `Error` promises that its tag is the last entry of `Tags` over
  it, so the session lemmas apply to every `Reporter`.
- `Reporting` (`reporting.dfy`): the `Reporter` class. It holds the tracker
  log, its seen-set and the occurrence cache. Its methods are `monitor.lost`,
  `error`, `monitor.error` and the `onerror` handler.

Three behaviours of the code are easy to misread. The model follows the code:

- The stack walk tests its depth with a post-increment, `(deep++) > 20`,
  after pushing a frame. A long chain therefore gives 22 lines, not 20
  (`StackTraces.ChainWalk`).
- The `onerror` handler returns `false`. For the host this means "also show
  the error in the console", which is what the source's own comment recommends.
- The dedup key is the string `file + ":" + line + ":" + message` built from
  the raw arguments. A missing argument reads `undefined` in the key but is
  `""` or `0` in the record (`Reporting.KeyUsesRawArguments`). The key is not
  injective: different triples can share a key, and then only the first one
  is tagged (`Reporting.KeysCollide`). "First occurrence" is therefore per key
  string, not per (file, line, message) triple.

Frames are abstract. A `CallStack` maps each frame to its caller, if any, and
to the source text of its function. The frame that called `error` is a
parameter. So is the host's language setting, given to the `Reporter`
constructor.

## Model

| member | source | states |
|---|---|---|
| `JsValues.NatToDecimal` | src/seer-jsniffer.js:76 | a number in the key is written as a non-empty string of decimal digits with no leading zero |
| `JsValues.DecimalRoundTrip` | src/seer-jsniffer.js:76 | reading the decimal digits back gives the number, so the number part of the key loses nothing |
| `JsValues.JoinSnoc` | src/seer-jsniffer.js:73 | joining a list with one more entry adds the separator and that entry to the end of the old join (just the entry if the list was empty) |
| `FunctionNames.FindClose` | src/seer-jsniffer.js:19 | returns the index of the first `)` at or after the start position, or none when there is no `)` there |
| `FunctionNames.MatchUnique` | src/seer-jsniffer.js:19 | at most one prefix of a text matches the pattern, because a match ends at the first `)` |
| `FunctionNames.FunctionNameMatches` | src/seer-jsniffer.js:19-27 | a non-empty name matches the pattern and is a prefix of the text; the name is `""` exactly when no prefix matches (the text does not start with `function` then a character that is neither a word character nor `)`, or has no `)` after it) |
| `StackTraces.WalkSound` | src/seer-jsniffer.js:36-46 | the frames the loop visits are successive callers, begin with the caller of the start frame, are at most 22 minus the counter, and stop only at the chain's end, at a self-caller, or at the bound |
| `StackTraces.WalkComplete` | src/seer-jsniffer.js:36-46 | any list of frames with those properties is the list the loop visits |
| `StackTraces.FramesCharacterized` | src/seer-jsniffer.js:32-48 | a list of frames is the walk from a start frame if and only if it meets the loop-free description `IsWalk` with bound 22 |
| `StackTraces.TraceShape` | src/seer-jsniffer.js:39-48 | there are at most 22 lines, none exactly when the start frame has no caller; line i is `at ` followed by the name of the i-th caller |
| `StackTraces.ChainWalk` | src/seer-jsniffer.js:36-46 | on a chain of n callers the walk lists n frames when n < 22 and 22 otherwise; a self-caller at the top is listed once and ends the walk |
| `StackTraces.WalkLinesAreLines` | src/seer-jsniffer.js:36-47 | the lines the loop pushes are the visited frames written as `at <name>`, in order |
| `StackTraces.Stacktrace` | src/seer-jsniffer.js:32-49 | the loop returns the lines for the walk from the given frame, joined with newlines (`""` when there is no caller) |
| `LostResources.TrackAllDistinct` | src/seer-jsniffer.js:10-15 | after any sequence of reports the log holds no URI twice, holds exactly the earlier URIs and the reported ones, and keeps the earlier log as its prefix |
| `LostResources.TrackAllSeen` | src/seer-jsniffer.js:11 | reporting URIs already in the log changes nothing |
| `LostResources.TrackAllIdempotent` | src/seer-jsniffer.js:10-15 | repeating a sequence of reports leaves the log as the first pass left it |
| `Occurrences.CacheAfterGrows` | src/seer-jsniffer.js:77-80 | the cache after a session is the starting cache plus exactly the keys reported; it never loses a key |
| `Occurrences.TagsMarkFirstOccurrences` | src/seer-jsniffer.js:76-80 | a report gets `uv` if and only if its key is neither in the starting cache nor the key of an earlier report |
| `Occurrences.AtMostOneFirstOccurrence` | src/seer-jsniffer.js:76-80 | of the reports that share a key, no report after the first one is tagged |
| `Occurrences.SessionSnoc` | src/seer-jsniffer.js:76-80 | one more report extends the session by one step: its tag is whether its key is missing from the cache built so far, and its key is added to that cache |
| `Reporting.NormalizeFillsDefaults` | src/seer-jsniffer.js:65-74 | the record's profile is `jserror`; message, file, number and stack become `""` and line becomes `0` when falsy; every truthy argument is carried over unchanged |
| `Reporting.StackFallback` | src/seer-jsniffer.js:61-63 | a truthy stack argument is used verbatim; without a caller the argument is kept; a falsy one with a caller becomes the synthetic trace from that caller |
| `Reporting.KeyUsesRawArguments` | src/seer-jsniffer.js:76 | with no message, file or line the key is `undefined:undefined:undefined` while the record holds `""`, `""` and `0` |
| `Reporting.KeysCollide` | src/seer-jsniffer.js:76 | file `a:1`, line 2, message `x` and file `a`, line 1, message `2:x` have the same key |
| `Reporting.Reporter.constructor` | src/seer-jsniffer.js:6-7 | the log, its seen-set and the cache start empty, and the language settings are stored |
| `Reporting.Reporter.Lost` | src/seer-jsniffer.js:10-15 | a URI already seen changes nothing; a new URI is appended at the end and added to the seen-set; the log stays free of duplicates and matches the seen-set |
| `Reporting.Reporter.Error` | src/seer-jsniffer.js:60-83 | returns the normalised record with the stack fallback, the language, the comma-joined log, and `uv` exactly when the raw key was not cached; the key is then cached, so the cache stays the one the session of keys so far builds and `uv` is that session's tag for this report; the log is not changed |
| `Reporting.Reporter.MonitorError` | src/seer-jsniffer.js:89-99 | a value that is not an `Error` gives no result and changes nothing; otherwise it reports `message` or else `description`, `fileName`, `lineNumber` or else `line`, `number`, and `stack` or else `stacktrace` |
| `Reporting.Reporter.OnError` | src/seer-jsniffer.js:105-108 | returns the record `error` builds from message, file and line with no number and no stack argument, the stack falling back to the trace from its own frame; caches the key; always returns false |
| `Reporting.RepeatedErrorSession` | src/seer-jsniffer.js:60-83 | after `img.png` fails to load (reported twice), the same error reported twice gives two records listing `img.png`; only the first carries `uv` |

## Left out

- The sink `monitor.log` (line 82) is not modelled. `Error` returns the record it would have handed to the sink.
- The module guard `if(!monitor)` (line 4) is not modelled. The reporter is always active.
- The lookup of `navigator.language` and `navigator.browserLanguage` (line 72) is replaced by two values given to the `Reporter` constructor.
- Registering the handler as `global.onerror` (line 105) is host mechanics and is not modelled. The same goes for the live `arguments.callee.caller` introspection (lines 36-38, 61). Frames, their callers and their source text are an abstract `CallStack`, and the frame that called `error` is a parameter.
- The host type test `instanceof Error` (line 90) is a boolean tag on the caught value.
- The regular expression is not run by a regex engine. The one fixed pattern is scanned by hand.
- Numbers are integers. Fractions, `NaN`, infinities and their string forms are not modelled, and neither are objects as field values or their `toString`. JavaScript writes integers of magnitude 10^21 or more in exponent form (`1e+21`) and cannot hold integers above 2^53 exactly; `ToStr` always writes plain decimal digits, so `DecimalRoundTrip` describes the model's unbounded integers only.
- Reporter.Lost: the seen-set is a true set of strings. The source uses a plain object, so the URIs `__proto__` (never remembered) and `hasOwnProperty` (which breaks the next membership test) behave differently there.
