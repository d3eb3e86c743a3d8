# Remote command runner: output collection and dispatch, modelled in Dafny

This project models the core of a small system that runs shell commands in a
remote sandbox and reports their output. There are two parts.

- **The `run-user-code` task** (`trigger/runUserCode.ts`). It connects to a
  sandbox or creates one. It picks the command: the given one, or
  `node /tmp/user-code.js` when only code is given. It then runs the command
  in one of two modes:
  - Foreground: it feeds the stdout and stderr chunks into two line splitters.
    Each splitter keeps a pending buffer, records the complete non-empty lines
    and holds back the trailing fragment. At the end it flushes both
    fragments and formats every record as `[stdout] …` or `[stderr] …`.
  - Background: it keeps only the process id.
  Any exception becomes a failure record with exit code 1 and no logs. If no
  sandbox id was ever obtained, the `runUserCode` task throws instead.
- **The `runCommand` tool's `execute`** (`ai/tools/run-command.ts`). It builds
  the command line from the command, its arguments and `sudo`, and triggers
  the `runUserCode` task. It then either retrieves the run once and, when the
  run has COMPLETED with output, turns its result into UI events
  (`executing`, one `stream` per log entry, then `done`); a run still queued
  or executing at that moment ends in "Task did not complete: …". In background mode it
  polls at most ten more times for a command id and reports the command as `running`.
  Any exception becomes a single `error` event, and `execute` itself never
  throws.

Files:
- `text.dfy`, module `Text`: the JavaScript behaviour the code relies on.
  This covers optional values, calls that may throw (`Failable`), truthiness,
  `split`/`join` on one character, and `String(n)`.
- `line_splitter.dfy`, module `LineSplitter`: the two output callbacks and
  the flush. The class `OutputCollector` holds `currentStdout`,
  `currentStderr` and `logsArray`. The functions `Feed`, `Process` and
  `Finish` specify it.
- `run_user_code.dfy`, module `RunUserCode`: the rest of the `runUserCode` task. The
  function `Outcome` specifies the imperative method `Run`.
- `run_command.dfy`, module `RunCommand`: the tool. The function `Execute`
  specifies the imperative method `ExecuteTool`, which writes into an
  append-only `EventWriter`.

External services are given as data. The sandbox service is a `Sandbox`
value: the id that connect/create gives or the exception it throws, whether
each file write throws, and the chunks and exit of a foreground run or the
pid of a background one, both as functions of the command string. The task queue
(`tasks.trigger`, `runs.retrieve`) and the error formatter are a `Backend` value: the handle id `tasks.trigger` gives for a payload,
the result of the k-th `runs.retrieve` of a handle, and an opaque
`getRichError`.

A stricter reading of the splitter is that rejoining the recorded lines with
newlines gives back the stream's text exactly. That does not hold of the
code, because blank lines are dropped. The model follows the code.
`LineSplitter.LinesOfStream` proves what does hold, and
`LineSplitter.BlankLinesDropped` shows a stream for which rejoining differs.

## Model

| member | source | states |
|---|---|---|
| `Text.Split` | trigger/runUserCode.ts:91 | `split('\n')` always gives at least one piece, so `pop()` always yields the fragment |
| `Text.SplitPieces` | trigger/runUserCode.ts:91-92 | no piece of a split holds the separator, so neither a logged line nor the kept fragment has a newline |
| `Text.JoinSplit` | trigger/runUserCode.ts:91 | joining the pieces of a split with the separator gives back the buffer: splitting loses no character |
| `Text.SplitAppend` | trigger/runUserCode.ts:90-92 | splitting `a + b` keeps every complete piece of `a` and continues only its last, unterminated piece with `b` |
| `Text.NatToDecimal` | trigger/runUserCode.ts:137 | `String(pid)` is a non-empty string of decimal digits, with no leading zero unless the pid is 0 |
| `Text.DecimalRoundTrip` | trigger/runUserCode.ts:137 | reading back the digits of `String(pid)` gives the pid |
| `LineSplitter.CompleteAppend` | trigger/runUserCode.ts:90-92 | appending a chunk to a stream's text changes only its fragment: the old complete lines stay, and the new ones and the new fragment are those of `fragment + chunk` |
| `LineSplitter.NonEmptyMembers` | trigger/runUserCode.ts:93-95 | the lines kept by `if (line)` are exactly the non-empty ones |
| `LineSplitter.OutputCollector.OnOutput` | trigger/runUserCode.ts:89-108 | one `onStdout`/`onStderr` call: the buffer becomes the fragment of `buffer + chunk`, and `logsArray` grows at its end by the complete non-empty lines, tagged with the stream; no buffer ever holds a newline and no record is empty |
| `LineSplitter.OutputCollector.FlushRemainders` | trigger/runUserCode.ts:111-117 | the flush appends the stdout fragment, then the stderr fragment, each only if not empty, and keeps the invariant |
| `LineSplitter.ProcessInvariant` | trigger/runUserCode.ts:89-108 | after any sequence of callbacks, each buffer is the fragment of all its stream has delivered, and that stream's records are the non-empty complete lines of that text, in order |
| `LineSplitter.LinesOfStream` | trigger/runUserCode.ts:89-117 | after the flush, the lines recorded for a stream are the non-empty newline-separated pieces of the concatenation of its chunks, whatever the chunk boundaries and the interleaving with the other stream |
| `LineSplitter.ChunkingIndependence` | trigger/runUserCode.ts:89-117 | two chunkings of the same stream text record the same lines for that stream |
| `LineSplitter.BlankLinesDropped` | trigger/runUserCode.ts:93-95 | a stream "a", blank line, "b" records only "a" and "b", so rejoining the records does not give back the text |
| `LineSplitter.ProcessWellFormed` | trigger/runUserCode.ts:89-117 | after any callbacks the buffers hold no newline, and no record (streamed or flushed) is empty or holds a newline |
| `LineSplitter.RecordsOnlyGrow` | trigger/runUserCode.ts:93-117 | records only go on the end: the records after some callbacks are a prefix of those after more callbacks, and of those after the flush |
| `LineSplitter.FlushOrder` | trigger/runUserCode.ts:111-117 | the flush adds at most two records after all others, each a non-empty fragment of its stream, stdout before stderr, and adds every non-empty fragment |
| `RunUserCode.SelectCommand` | trigger/runUserCode.ts:63-78 | a given command is used unchanged; code without a command gives `node /tmp/user-code.js`; neither gives "Either command or code must be provided"; the chosen command is never empty |
| `RunUserCode.ParseFormat` | trigger/runUserCode.ts:119-126 | each formatted entry reads back as its stream and line |
| `RunUserCode.FormatLogs` | trigger/runUserCode.ts:119-126 | `logs` has one entry per record of `logsArray`, in the same order, each reading back as that record's stream and line |
| `RunUserCode.StreamLogsFormatted` | trigger/runUserCode.ts:119-126 | the formatted entries of one stream, read back, are that stream's records in order |
| `RunUserCode.Run` | trigger/runUserCode.ts:24-166 | the `runUserCode` task body returns what `Outcome` gives: the guard, the foreground, background and catch result assembly |
| `RunUserCode.SandboxIdGuard` | trigger/runUserCode.ts:153-157 | the `runUserCode` task throws "Sandbox ID was not set" exactly when connecting or creating threw or gave an empty id; otherwise the result carries that id |
| `RunUserCode.TerminalShapes` | trigger/runUserCode.ts:128-151 | a returned record has exactly one of three shapes: foreground success (no command id, no error), background start (command id, no logs, no exit code, no error) or failure (exit code 1, no command id, no logs, an error); failure exactly when the `try` block threw |
| `RunUserCode.FailureResult` | trigger/runUserCode.ts:145-151 | a failure carries the thrown message, exit code 1, no command id and empty logs; a payload with neither command nor code fails with "Either command or code must be provided" |
| `RunUserCode.BackgroundResult` | trigger/runUserCode.ts:132-141 | a background start reports exactly `String(pid)` as command id: decimal digits without leading zeros that read back as the pid |
| `RunUserCode.ForegroundResult` | trigger/runUserCode.ts:80-130 | foreground success reports the command's exit code (`?? null`); every entry is a `[stdout] ` or `[stderr] ` line, and the entries of each stream are, in order, the non-empty lines of everything that stream wrote |
| `RunUserCode.ListingExample` | trigger/runUserCode.ts:80-130 | `ls -la` printing `a.txt` and a newline then exiting 0 gives exit code 0 and the one entry `[stdout] a.txt` |
| `RunCommand.CommandWords` | ai/tools/run-command.ts:61-65 | the command line, split on spaces, is `sudo` (if asked), the command and the arguments; with `sudo` and no arguments it ends in a space |
| `RunCommand.ErrorMessage` | ai/tools/run-command.ts:79 | a string error passes through unchanged; an object's non-empty message is used; an absent error or an empty message gives "Task failed"; the result is empty only for an empty error string |
| `RunCommand.BackgroundCommandId` | ai/tools/run-command.ts:146 | the background command id is never empty; it is the run output's command id when that is non-empty, otherwise the handle-id suffix when that is non-empty, otherwise "0" |
| `RunCommand.HandleSuffixOf` | ai/tools/run-command.ts:146 | `handle.id.split('_')[1]` is the text between the first and the second `_` |
| `RunCommand.PollFromBounded` | ai/tools/run-command.ts:134-143 | the polling loop ends after at most 10 extra retrievals, on the last retrieved run, and only when its condition fails |
| `RunCommand.ProbeBounded` | ai/tools/run-command.ts:134-143 | at most 11 retrievals in all; stopping before the 10th extra one means the output has a command id or the run COMPLETED or FAILED |
| `RunCommand.PollFromStopsBy` | ai/tools/run-command.ts:134-143 | if the k-th retrieval (k ≤ 10) already shows a command id and all retrievals up to it succeed, polling stops by attempt k |
| `RunCommand.PollFromStopsOnStatus` | ai/tools/run-command.ts:134-143 | if the k-th retrieval (k ≤ 10) shows the run COMPLETED or FAILED and all retrievals up to it succeed, polling stops by attempt k; CRASHED is not a stop reason |
| `RunCommand.Poll` | ai/tools/run-command.ts:134-143 | the imperative loop returns what the polling specification gives |
| `RunCommand.AwaitAndStream` | ai/tools/run-command.ts:74-130 | the foreground branch writes one `stream` event per log entry then `done`, or throws having written nothing |
| `RunCommand.StartInBackground` | ai/tools/run-command.ts:131-164 | the background branch writes one `running` event, or throws having written nothing |
| `RunCommand.ExecuteTool` | ai/tools/run-command.ts:50-186 | `execute` appends exactly the events of `Execute` to the writer and returns its reply text |
| `RunCommand.EventShapes` | ai/tools/run-command.ts:54-184 | events open with `executing` for the original input, then either `stream`s and `done` (finished), or `running` (started, background only), or one `error` (failure) |
| `RunCommand.ErrorPath` | ai/tools/run-command.ts:165-184 | any exception gives exactly `executing` and one `error` event with the input's sandbox id, and the rich error's message as the reply |
| `RunCommand.ForegroundFailures` | ai/tools/run-command.ts:78-90 | FAILED or CRASHED throws the error message; any other status but COMPLETED throws "Task did not complete: …"; missing output throws "Task returned no output"; otherwise no throw |
| `RunCommand.ForegroundSuccess` | ai/tools/run-command.ts:92-130 | one `stream` event per log entry in order, then one `done` with the run output's exit code; the sandbox id is the run output's if non-empty, else the input's; the reply reports `exitCode ?? 0` |
| `RunCommand.BackgroundStart` | ai/tools/run-command.ts:145-163 | background mode always reports a start, even for a FAILED run, with a non-empty command id (the run output's when it has one) and the run output's or the input's sandbox id |
| `RunCommand.BoomExample` | ai/tools/run-command.ts:78-81 | a FAILED run whose error message is "boom" ends the call with the rich error for "boom" |

## Left out

- `run.status` is a free string in the source. The model gives COMPLETED,
  FAILED and CRASHED their own constructors, and `OtherStatus` cannot hold
  those three names, so the string comparisons become constructor tests.
- Sandbox provisioning, file writes and command execution are remote I/O. They
  appear only through their outcomes in `Sandbox`. The API key, `timeout` and
  `ports` options and the written file contents are not modelled.
- `tasks.trigger`, `runs.retrieve` and the 100 ms delay between polls are
  network and timing. Retrieval results are given per call index, and the
  delay is dropped.
- `getRichError` is not part of this model. It is an opaque function from the
  input and the thrown message to an error text and a reply message.
- The `id: toolCallId` and `type: 'data-run-command'` fields of every event
  are the same for the whole call and are omitted.
- Fields that are `undefined` in an event (`commandId || undefined`,
  `exitCode ?? undefined`) are modelled as `None`.
- JavaScript's `undefined` and `""` are both read as absent wherever the code
  tests truthiness.
- Exceptions are reduced to their message (`err.message` or `String(err)`).
- The callbacks are modelled as one sequence in arrival order. Concurrent
  invocation and the E2B SDK's own handling of non-zero exit codes are not
  modelled: a run either resolves with an exit code or throws.
- The `runUserCode` task's `wasNewSandbox` flag has no effect on the result and is not
  modelled. The code closes no sandbox, so there is nothing to model there.
- `RunCommand.ReplyText` renders the reply as text. No property of the exact
  wording is proved beyond what `Reply` carries.
