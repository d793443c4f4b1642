# ember-cli watcher: watch-and-report coordinator in Dafny

This project models the part of ember-cli's `Watcher` (`lib/models/watcher`) that
has decision logic. That is how it chooses a file-watching strategy, how it
assembles the options for the file watcher, and how it reports each rebuild
and each build error to the user interface and to analytics. The
implementation file is not part of this model. The behaviour modelled is the
one pinned down by its unit test, `tests/unit/models/watcher-test.js`.

Modules, one per component:

- `Base`: `Option` for absent fields, and `Positive` for line and column numbers.
- `Decimal`: `FromNat` is JavaScript's rendering of a whole number. `ToNat` is its inverse. Round trips are proved both ways.
- `Terminal`: the user interface's output buffer. Each character carries a colour tag (`Plain`, `Green`, `Red`) in place of chalk's escape codes. The platform line separator is one symbol, `Eol`. `Render` is what successive `writeLine` calls produce. `Split` is JavaScript's `output.split(EOL)`.
- `Strategy`: `Polling` is the strategy choice. `BuildOptions` is the option bundle. The watchman probe (`exec`) is an input that records whether the promise resolved or rejected. The result is a `Settled` promise outcome, and it is proved always `Resolved`.
- `Analytics`: the `track`, `trackTiming` and `trackError` payloads.
- `Report`: the change report (milliseconds, success line, track and timing) and the error report (location line, message line, `trackError`). `DecodeLocation` reads a location suffix back.
- `Coordinator`: a `Session` is the append-only record of written lines, analytics payloads and the error flag. `DidChange` and `DidError` are the two event handlers. `Replay` handles a sequence of events in order. The test scenarios are stated as lemmas.

## Model

| member | source | states |
|---|---|---|
| Strategy.Polling | tests/unit/models/watcher-test.js:36-50 | Polling is selected exactly when options are present and their `watcher` field is exactly `'polling'`. |
| Strategy.PollingSelection | tests/unit/models/watcher-test.js:36-50 | Absent options and `watcher: 'events'` select events. `watcher: 'polling'` selects polling. Polling is chosen only when the option names it exactly. |
| Strategy.BuildOptions | tests/unit/models/watcher-test.js:53-110 | The options promise always resolves, even when the probe rejects. `polling` and `verbose` are copied unchanged. `watchman` is on exactly when polling is off and the probe resolved. Polling and watchman are never both on. |
| Strategy.ProbeIgnoredWhenPolling | tests/unit/models/watcher-test.js:54-65 | With polling selected, the outcome of the watchman probe makes no difference to the options. |
| Strategy.BuildOptionsExamples | tests/unit/models/watcher-test.js:53-110 | The four option bundles the tests expect: `{true,true,false}`, `{false,true,false}` after a rejected probe, `{false,true,true}` and `{false,false,true}`. |
| Decimal.FromNat | tests/unit/models/watcher-test.js:121-137 | A number is written as a non-empty digit string with no leading zero, and it starts with `0` only for zero. |
| Decimal.ToNatFromNat | tests/unit/models/watcher-test.js:121-137 | Reading back the digits written for a number gives that number. |
| Decimal.FromNatToNat | tests/unit/models/watcher-test.js:121-137 | Every canonical digit string is the rendering of its own value, so the rendering is onto the canonical strings. |
| Decimal.FromNatInjective | tests/unit/models/watcher-test.js:121-137 | Distinct numbers are written differently. |
| Terminal.Paint | tests/unit/models/watcher-test.js:137-137 | A coloured string has no separator in it. It holds the same text, and every character carries the colour. |
| Terminal.RenderAppend | tests/unit/models/watcher-test.js:137-137 | Writing more lines only extends the output. |
| Terminal.SplitAtFirstEol | tests/unit/models/watcher-test.js:159-162 | Splitting output at its first separator yields the line written before it, then the split of the rest. |
| Terminal.SplitRender | tests/unit/models/watcher-test.js:159-162 | Splitting the output on EOL recovers every written line in order, followed by one empty piece. |
| Report.Millis | tests/unit/models/watcher-test.js:115-132 | The nanosecond total becomes whole milliseconds, truncated. It is exact when the total is a multiple of 1,000,000. |
| Report.NumberBetweenRoundTrip | tests/unit/models/watcher-test.js:121-137 | A number written between a fixed prefix and suffix can be read back unchanged. |
| Report.ReportChange | tests/unit/models/watcher-test.js:113-139 | A rebuild writes an empty line and then the green success line. The track is named `ember rebuild`. The timing has category `rebuild`, variable `rebuild time` and label `broccoli rebuild time`. The success line, the track message and the timing value all carry the same millisecond figure. |
| Report.ChangeReportExample | tests/unit/models/watcher-test.js:113-139 | For 12344000000 ns the track is `ember rebuild` / `broccoli rebuild time: 12344ms`. The timing is `rebuild` / `rebuild time` / `broccoli rebuild time` / 12344. The output is EOL, green `Build successful - 12344ms.`, EOL. |
| Report.FileLine | tests/unit/models/watcher-test.js:153-202 | The location line starts with `File: ` and the file name. With no line it is exactly that, whatever the column. With a line it continues with ` (` and ends with `)`, and it holds a `:` after the file name exactly when a column is known. |
| Report.FileLineDecodes | tests/unit/models/watcher-test.js:153-202 | What follows the file name in a location line decodes back to the line, and to the column only when there is a line. |
| Report.LocationRoundTrip | tests/unit/models/watcher-test.js:153-202 | A location suffix can be decoded back to its line, and to its column when there is a line. A column without a line is lost. |
| Report.FileLineDeterminesLocation | tests/unit/models/watcher-test.js:153-202 | Two location lines for one file are equal exactly when they show the same position. |
| Report.FileLineExamples | tests/unit/models/watcher-test.js:153-202 | `File: someFile`, `File: someFile (24)`, `File: someFile` when only a column is given, and `File: someFile (24:80)`. |
| Report.ReportError | tests/unit/models/watcher-test.js:141-202 | Writes the location line when there is a file, then the message unchanged, all in red. The tracked error's description is the message alone. |
| Report.TrackedErrorIsMessageOnly | tests/unit/models/watcher-test.js:141-151 | The `trackError` payload does not depend on the file, line, column or stack. |
| Coordinator.DidChange | tests/unit/models/watcher-test.js:113-139 | Appends the success report to the output. Adds one track and one timing. Leaves tracked errors alone and clears the error flag. |
| Coordinator.DidError | tests/unit/models/watcher-test.js:141-202 | Appends the red error report to the output. Adds one tracked error carrying the message. Adds nothing to tracks or timings and sets the error flag. |
| Coordinator.Replay | tests/unit/models/watcher-test.js:205-227 | Over any event sequence every log only grows. The error flag is set exactly when the last event was an error. |
| Coordinator.StepAnalytics | tests/unit/models/watcher-test.js:113-151 | One event adds to the analytics logs exactly its own contribution: a track and a timing for a change, a tracked error for an error. |
| Coordinator.ReplayTracks | tests/unit/models/watcher-test.js:205-227 | Over any event sequence, `track` receives one rebuild payload per change event, in order, and none for an error. |
| Coordinator.ReplayTimings | tests/unit/models/watcher-test.js:205-227 | Over any event sequence, `trackTiming` receives one rebuild timing per change event, in order, and none for an error. |
| Coordinator.ReplayTrackErrors | tests/unit/models/watcher-test.js:205-227 | Over any event sequence, `trackError` receives exactly the messages of the error events, in order. |
| Coordinator.ReplayAnalytics | tests/unit/models/watcher-test.js:205-227 | Over any event sequence, tracks and timings hold one entry per change event, in order. Tracked errors are exactly the error messages, in order. |
| Coordinator.ChangeAfterError | tests/unit/models/watcher-test.js:205-227 | After any error, a rebuild is tracked exactly as it would be without the error, and its success line is in the output. The error flag is cleared. |
| Coordinator.ChangeScenario | tests/unit/models/watcher-test.js:113-139 | On a fresh session, one change event of 12344000000 ns yields exactly the expected track, timing and output. |
| Coordinator.ErrorTrackingScenario | tests/unit/models/watcher-test.js:141-151 | A `{message: 'foo', stack}` error records exactly `[{description: 'foo'}]`. |
| Coordinator.ErrorOutputScenario | tests/unit/models/watcher-test.js:153-202 | For an error in `someFile`, the first piece of the split output is the red location line and the second is the red message. |
| Coordinator.ChangeAfterErrorScenario | tests/unit/models/watcher-test.js:205-227 | After an error and then a change, the output contains the success line and tracks hold only the rebuild event. Exactly one error was tracked, and the flag is cleared. |

## Left out

- Construction of the watcher, `stop`/unsubscribe, and the `builder` collaborator: nothing about them is asserted.
- The event-emitter wiring that delivers `change` and `error` is left out. Events are handled one at a time by `Replay`.
- Running `watchman version` as a subprocess, and the promises: the probe is an input value.
- Chalk's ANSI escape codes and the platform's `EOL` string: they are a colour tag and one separator symbol.
- Report.Millis: the implementation may divide by 1e6 in floating point and print a fractional figure. The tests only pin totals that are exact multiples of 1,000,000 ns, and the model truncates (integer division by 1,000,000).
- Decimal.FromNat: JavaScript writes numbers of 1e21 and above in exponent notation. The model always writes plain digits.
- Report.ReportError: whether the stack is also printed is not asserted, so the model prints only the location and message lines. The location line is written only when the error names a file.
- Report.ReportError: a message that itself contains the line separator would split into more pieces. Characters of a message are never the separator symbol in this model.
- Report.BuildError: line and column are positive integers. JavaScript's treatment of a zero line as absent is therefore not modelled.
- The `Idle` and `Stopped` states and ignoring events after `stop` are not modelled: the tests say nothing about them.
