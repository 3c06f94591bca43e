# Telegraf logging adapter, modelled in Dafny

This project models `logger/logger.go`, the logging adapter of Telegraf. It has two parts.

- **Write path.** `telegrafLog.Write` checks a raw log line for a severity marker: `D`, `I`, `W` or `E` followed by `!` at the very start, found with the regular expression `^[DIWE]!`. It then prepends an RFC 3339 timestamp and forwards the combined buffer, once, to the `wlog` writer. Marked lines get the timestamp and a space. Unmarked lines get the timestamp and ` I! `.
- **Setup.** `SetupLogging(debug, quiet, logfile)` clears the standard logger's flags and sets the `wlog` level. `debug` sets DEBUG; after that `quiet` sets ERROR. It then picks the destination: stderr, a newly created file, or an existing file opened for append. A failed open falls back to stderr and prints one `E!` diagnostic. Last, it installs the timestamping writer around the chosen destination.

Modules:

- `Bytes` (bytes.dfy): the byte type and the ASCII codes the adapter writes.
- `Wrappers` (wrappers.dfy): `Option`, used for Go's `error` results.
- `Marker` (marker.dfy): `prefixRegex.Match`, written as the regex engine's search over start positions. The `^` anchor is the predicate `AnchorAt`, which holds only at position 0. The byte test `[DIWE]!` is a separate predicate.
- `LineFormat` (line_format.dfy): the layouts, Go's slice `append` with capacities, `prependTimeFormat` and `telegrafLog.Write`.
- `Setup` (setup.dfy): the class `Logging`, which holds the global state (the `wlog` level, the logger's flags and output, the file-system calls made, the diagnostics printed). Its method `SetupLogging` follows the source's sequence of `if` statements. Its result is specified by the pure functions `LevelAfter` and `Resolve`.

Inputs the model takes as parameters:

- The clock and Go's time formatting: `stamp` is the text `AppendFormat` renders for the RFC 3339 part of a layout.
- The downstream writer: `sink`, a function from the forwarded buffer to its `(n, err)` result.
- The file system: the outcomes of `os.Stat`, `os.Create` and `os.OpenFile`.

## Model

| member | source | states |
|---|---|---|
| `Marker.SearchFrom` | logger/logger.go:13 | the unanchored regex search from position `i` succeeds exactly when `^[DIWE]!` matches at some start position from `i` to the end |
| `Marker.PrefixMatch` | logger/logger.go:13 | `prefixRegex.Match(b)` holds exactly when `b` has at least two bytes, its first is D, I, W or E and its second is `!` |
| `Marker.LaterMarkerIgnored` | logger/logger.go:13 | a `[DIWE]!` later in the line does not count; because of the `^` anchor, only the bytes at the start decide |
| `LineFormat.Append` | logger/logger.go:54 | `append` gives the old contents followed by the new bytes; the capacity never shrinks, and it is kept when the bytes fit |
| `LineFormat.AppendFormat` | logger/logger.go:53 | formatting appends the rendered time and then the layout's literal tail to the buffer's contents |
| `LineFormat.StartBuffer` | logger/logger.go:44-52 | the starting buffer is empty; its capacity is at least `len(layout)+10` and at least 64, and is one of the two |
| `LineFormat.PrependTimeFormat` | logger/logger.go:42-55 | the result is the formatted layout followed by `bs` unchanged; its length is the prefix length plus `len(bs)`, and `bs` is its suffix |
| `LineFormat.BufferChoiceIrrelevant` | logger/logger.go:44-54 | the buffer's starting capacity (stack or heap) does not change the contents produced |
| `LineFormat.LayoutsUseStackBuffer` | logger/logger.go:15-18 | both layouts the adapter uses fit the 64-byte stack buffer |
| `LineFormat.FormatLine` | logger/logger.go:34-38 | a marked line becomes `stamp + " " + b`; an unmarked line becomes `stamp + " I! " + b` |
| `LineFormat.Write` | logger/logger.go:31-40 | exactly one buffer, the stamp, a space and the marked line, is forwarded; the writer's `n` and `err` are returned unchanged |
| `LineFormat.MarkedHasMarker` | logger/logger.go:34-38 | the marked form of a line carries a marker; marking is idempotent; a line equals its marked form exactly when it already has a marker |
| `LineFormat.FormatLineShape` | logger/logger.go:34-38 | for every line, the forwarded buffer is the stamp, one space and the marked form of the line |
| `LineFormat.NoSecondMarker` | logger/logger.go:34-38 | writing a line and writing its marked form give the same output, so no second marker is inserted |
| `LineFormat.FormatLineInverse` | logger/logger.go:31-38 | every forwarded line starts with the stamp; removing the stamp and the space gives back the marked line; the severity after the stamp is the line's own, or `I` when unmarked |
| `Setup.Unable` | logger/logger.go:76-81 | a fallback diagnostic (for either open) starts with the `E! ` marker and ends with `), using stderr` |
| `Setup.LevelAfter` | logger/logger.go:65-70 | quiet gives ERROR; debug alone gives DEBUG; neither leaves the prior level |
| `Setup.QuietWinsOverDebug` | logger/logger.go:65-70 | the level for each of the four combinations of `debug` and `quiet` |
| `Setup.Resolve` | logger/logger.go:72-87 | the destination is stderr exactly when the path is empty or the attempted open failed; a diagnostic is printed exactly on that fallback, with the "create" text after a failed `Create` and the "append to" text after a failed `OpenFile`; a file destination carries the given path and is appended to exactly when `Stat` did not report non-existence; a non-empty path makes exactly a `Stat` call and then a `Create` or an append-`OpenFile` call |
| `Setup.DiagnosticExactlyOnFallback` | logger/logger.go:73-87 | a diagnostic is printed exactly when a file was requested and the destination ended up as stderr |
| `Setup.Logging.Printf` | logger/logger.go:76 | printing adds one line that records the logger's current output and flags, and changes nothing else |
| `Setup.Logging.SetupLogging` | logger/logger.go:63-90 | the new level is `LevelAfter` of the old one; flags are 0; the output is the timestamping writer around the resolved destination; the file-system calls and the diagnostic are those of `Resolve`; the diagnostic goes through the output in force before the call, with flags 0 |

## Left out

- The clock (`time.Now().UTC()`) and Go's RFC 3339 formatting: the rendered timestamp is the opaque input `stamp`. That the timestamps are valid RFC 3339 and never decrease from one call to the next is therefore not modelled.
- `wlog.NewWriter` and `wlog.SetLevel`: the level is a value in state. The threshold filtering that drops lines below the level is not modelled, since the `wlog` library is not part of this model.
- `os.Stat`, `os.Create`, `os.OpenFile`: their outcomes are inputs. Appending after existing file content and truncation by `os.Create` are recorded only as the open mode.
- `log.SetFlags`, `log.SetOutput`, `log.Printf`: these become fields of `Setup.Logging`. The newline `log.Printf` adds to a message is not part of the recorded text.
- How a line written through the installed writer travels on: the standard logger calls `telegrafLog.Write` once per message; `LineFormat.Write` models one such call in isolation.
- LineFormat.Grow: Go's exact slice-growth policy is replaced by "double, or exactly what is needed". Only the contents are claimed, and they do not depend on it.
- Concurrent log calls: their serialisation is done by Go's `log` package, not by this code.
