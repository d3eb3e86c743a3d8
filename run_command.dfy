/** The `runCommand` tool's `execute`: build the command string, hand it to the
    `run-user-code` task, and either retrieve the run once and, when it has
    COMPLETED with output, stream its log entries as UI events, or poll briefly for a command id and report the
    command as started; any exception becomes one error event. */
module RunCommand {
  import opened Text
  import RunUserCode

  /** The tool's input; a missing `sudo` is false and missing `args` are empty. */
  datatype Input = Input(sandboxId: string, command: string, args: seq<string>, sudo: bool, wait: bool)

  /** A status name other than the three the tool compares against. */
  type OtherName = s: string | s != "COMPLETED" && s != "FAILED" && s != "CRASHED"

  /** `run.status`: every named status the tool tests for has its own constructor. */
  datatype Status = Completed | Failed | Crashed | OtherStatus(name: OtherName)

  /** `run.error`: absent, a string, or an object whose `message` may be empty. */
  datatype RunError = NoError | ErrorText(text: string) | ErrorObject(message: string)

  /** What `runs.retrieve` returns. */
  datatype RunState = RunState(status: Status, error: RunError, output: Option<RunUserCode.TaskResult>)

  /** What `getRichError` returns. */
  datatype RichError = RichError(error: string, message: string)

  /** The task queue (`tasks.trigger`, `runs.retrieve`) and the error formatter: `tasks.trigger` gives a handle id
      for a payload; the `k`-th `runs.retrieve` of a handle (counting from 0)
      gives a run state; each may throw. `getRichError` is opaque. */
  datatype Backend = Backend(
    trigger: RunUserCode.Payload -> Failable<string>,
    retrieve: (string, nat) -> Failable<RunState>,
    richError: (Input, string) -> RichError)

  /** The `data` of each `data-run-command` event the tool writes. */
  datatype Event =
    | Executing(sandboxId: string, command: string, args: seq<string>)
    | Streamed(sandboxId: string, command: string, args: seq<string>, log: string)
    | Done(sandboxId: string, commandId: Option<string>, command: string, args: seq<string>, exitCode: Option<int>)
    | Running(sandboxId: string, startedId: string, command: string, args: seq<string>)
    | Errored(sandboxId: string, command: string, args: seq<string>, error: string)

  /** What `execute` returns, before it is put into words by ReplyText. */
  datatype Reply =
    | Finished(command: string, args: seq<string>, exitCode: int)
    | Started(command: string, args: seq<string>, sandboxId: string, commandId: string)
    | Failure(message: string)

  const MaxAttempts := 10
  const NoOutput := "Task returned no output"
  const TaskFailed := "Task failed"

  /** The command line handed to the `runUserCode` task. */
  function CommandString(command: string, args: seq<string>, sudo: bool): string {
    if sudo then "sudo " + command + " " + Join(args, ' ')
    else if |args| > 0 then command + " " + Join(args, ' ')
    else command
  }

  /** Split on spaces, the command line gives back `sudo` (when asked for), the
      command and the arguments, provided none of them holds a space. With
      `sudo` and no arguments the line ends in a space, so an empty word
      comes last. */
  lemma CommandWords(command: string, args: seq<string>, sudo: bool)
    requires ' ' !in command
    requires forall i :: 0 <= i < |args| ==> ' ' !in args[i]
    ensures Split(CommandString(command, args, sudo), ' ')
         == (if sudo then ["sudo", command] else [command])
          + (if |args| > 0 then args else if sudo then [""] else [])
  {
    var words := if |args| > 0 then args else [""];
    assert Join(words, ' ') == Join(args, ' ');
    if sudo {
      JoinCons(command, words, ' ');
      JoinCons("sudo", [command] + words, ' ');
      assert ["sudo"] + ([command] + words) == ["sudo", command] + words;
      assert "sudo " + command + " " + Join(args, ' ') == "sudo" + [' '] + (command + [' '] + Join(words, ' '));
      SplitJoin(["sudo", command] + words, ' ');
    } else if |args| > 0 {
      JoinCons(command, args, ' ');
      assert command + " " + Join(args, ' ') == command + [' '] + Join(args, ' ');
      SplitJoin([command] + args, ' ');
    } else {
      SplitWithoutSeparator(command, ' ');
    }
  }

  /** The message of a FAILED or CRASHED run: the error itself when it is a
      string, else its non-empty `message`, else a fixed text. It is empty only
      when the error is the empty string. */
  function ErrorMessage(e: RunError): (m: string)
    ensures m == "" <==> e == ErrorText("")
    ensures e.ErrorText? ==> m == e.text
    ensures e.ErrorObject? && e.message != "" ==> m == e.message
    ensures e == NoError || e == ErrorObject("") ==> m == TaskFailed
  {
    match e
    case ErrorText(text) => text
    case ErrorObject(message) => if message != "" then message else TaskFailed
    case NoError => TaskFailed
  }

  function StatusName(s: Status): string {
    match s
    case Completed => "COMPLETED"
    case Failed => "FAILED"
    case Crashed => "CRASHED"
    case OtherStatus(name) => name
  }

  /** The sandbox id to report: the run output's when it gave a non-empty one, else
      the one the tool was called with. */
  function ReportedSandboxId(result: Option<RunUserCode.TaskResult>, sandboxId: string): string {
    if result.Some? && result.value.sandboxId != "" then result.value.sandboxId else sandboxId
  }

  /** `handle.id.split('_')[1]`, with a missing piece read as empty. */
  function HandleSuffix(handleId: string): string {
    var parts := Split(handleId, '_');
    if |parts| > 1 then parts[1] else ""
  }

  /** The command id reported in background mode: the run output's when non-empty,
      else the part of the handle id between its first and second `_` when
      non-empty, else "0". It is never empty. */
  function BackgroundCommandId(result: Option<RunUserCode.TaskResult>, handleId: string): (id: string)
    ensures id != ""
    ensures result.Some? && Truthy(result.value.commandId) ==> id == result.value.commandId.value
    ensures !(result.Some? && Truthy(result.value.commandId)) && HandleSuffix(handleId) != "" ==>
      id == HandleSuffix(handleId)
    ensures !(result.Some? && Truthy(result.value.commandId)) && HandleSuffix(handleId) == "" ==> id == "0"
  {
    if result.Some? && Truthy(result.value.commandId) then result.value.commandId.value
    else if HandleSuffix(handleId) != "" then HandleSuffix(handleId)
    else "0"
  }

  /** The handle suffix is the text after the first `_`, up to the next `_`. */
  lemma HandleSuffixOf(prefix: string, suffix: string, rest: string)
    requires '_' !in prefix && '_' !in suffix
    requires rest == [] || rest[0] == '_'
    ensures HandleSuffix(prefix + "_" + suffix + rest) == suffix
  {
    var h := prefix + "_" + suffix + rest;
    assert h == prefix + ['_'] + (suffix + rest);
    SplitAfterPiece(prefix, '_', suffix + rest);
    if rest == [] {
      SplitWithoutSeparator(suffix, '_');
      assert suffix + rest == suffix;
    } else if rest[0] == '_' {
      assert suffix + rest == suffix + ['_'] + rest[1..];
      SplitAfterPiece(suffix, '_', rest[1..]);
    }
  }

  /** The background loop's condition: no output or no command id yet, attempts
      left, and the run neither COMPLETED nor FAILED. */
  predicate KeepPolling(run: RunState, attempts: nat) {
    (run.output.None? || run.output.value.commandId.None?)
    && attempts < MaxAttempts
    && run.status != Completed && run.status != Failed
  }

  datatype Polled = Polled(run: RunState, attempts: nat)

  /** The polling loop from `run` after `attempts` extra retrievals. */
  function PollFrom(be: Backend, handleId: string, run: RunState, attempts: nat): Failable<Polled>
    decreases MaxAttempts - attempts
  {
    if KeepPolling(run, attempts) then
      match be.retrieve(handleId, attempts + 1)
      case Threw(m) => Threw(m)
      case Ok(next) => PollFrom(be, handleId, next, attempts + 1)
    else Ok(Polled(run, attempts))
  }

  /** The first retrieval, then the polling loop. */
  function Probe(be: Backend, handleId: string): Failable<Polled> {
    match be.retrieve(handleId, 0)
    case Threw(m) => Threw(m)
    case Ok(run) => PollFrom(be, handleId, run, 0)
  }

  /** The loop stops for good: after at most MaxAttempts extra retrievals, on
      the run the last retrieval returned, and only once the loop condition
      fails — so before the last attempt only because a command id arrived or
      the run COMPLETED or FAILED. */
  lemma {:induction false} PollFromBounded(be: Backend, handleId: string, run: RunState, attempts: nat)
    requires attempts <= MaxAttempts
    requires attempts == 0 || be.retrieve(handleId, attempts) == Ok(run)
    requires PollFrom(be, handleId, run, attempts).Ok?
    ensures var p := PollFrom(be, handleId, run, attempts).value;
      && attempts <= p.attempts <= MaxAttempts
      && !KeepPolling(p.run, p.attempts)
      && (p.attempts == 0 ==> p.run == run)
      && (p.attempts > 0 ==> be.retrieve(handleId, p.attempts) == Ok(p.run))
    decreases MaxAttempts - attempts
  {
    if KeepPolling(run, attempts) {
      var next := be.retrieve(handleId, attempts + 1).value;
      PollFromBounded(be, handleId, next, attempts + 1);
    }
  }

  /** At most 1 + MaxAttempts retrievals in all, and when the probe stops before
      its last attempt, the run has a command id or has COMPLETED or FAILED. */
  lemma ProbeBounded(be: Backend, handleId: string)
    requires Probe(be, handleId).Ok?
    ensures var p := Probe(be, handleId).value;
      && p.attempts <= MaxAttempts
      && be.retrieve(handleId, p.attempts) == Ok(p.run)
      && (p.attempts < MaxAttempts ==>
            (p.run.output.Some? && p.run.output.value.commandId.Some?)
            || p.run.status == Completed || p.run.status == Failed)
  {
    PollFromBounded(be, handleId, be.retrieve(handleId, 0).value, 0);
  }

  /** When the `k`-th retrieval already shows a command id and every retrieval
      up to it succeeds, the probe stops by then. */
  lemma {:induction false} PollFromStopsBy(be: Backend, handleId: string, run: RunState, attempts: nat, k: nat)
    requires attempts <= k <= MaxAttempts
    requires attempts == k ==> run.output.Some? && run.output.value.commandId.Some?
    requires forall j :: attempts < j <= k ==> be.retrieve(handleId, j).Ok?
    requires var r := be.retrieve(handleId, k);
      attempts < k ==> r.Ok? && r.value.output.Some? && r.value.output.value.commandId.Some?
    ensures PollFrom(be, handleId, run, attempts).Ok?
    ensures PollFrom(be, handleId, run, attempts).value.attempts <= k
    decreases MaxAttempts - attempts
  {
    if KeepPolling(run, attempts) {
      var next := be.retrieve(handleId, attempts + 1).value;
      PollFromStopsBy(be, handleId, next, attempts + 1, k);
    }
  }

  /** When the `k`-th retrieval shows the run COMPLETED or FAILED and every
      retrieval up to it succeeds, the probe stops by then. A CRASHED run does
      not stop it. */
  lemma {:induction false} PollFromStopsOnStatus(be: Backend, handleId: string, run: RunState, attempts: nat, k: nat)
    requires attempts <= k <= MaxAttempts
    requires attempts == k ==> run.status == Completed || run.status == Failed
    requires forall j :: attempts < j <= k ==> be.retrieve(handleId, j).Ok?
    requires var r := be.retrieve(handleId, k);
      attempts < k ==> r.Ok? && (r.value.status == Completed || r.value.status == Failed)
    ensures PollFrom(be, handleId, run, attempts).Ok?
    ensures PollFrom(be, handleId, run, attempts).value.attempts <= k
    decreases MaxAttempts - attempts
  {
    if KeepPolling(run, attempts) {
      var next := be.retrieve(handleId, attempts + 1).value;
      PollFromStopsOnStatus(be, handleId, next, attempts + 1, k);
    }
  }

  function StreamEvents(sandboxId: string, inp: Input, logs: seq<string>): seq<Event> {
    seq(|logs|, i requires 0 <= i < |logs| => Streamed(sandboxId, inp.command, inp.args, logs[i]))
  }

  /** The events after `executing` and the reply, when the `try` block does not throw. */
  datatype Tail = Tail(events: seq<Event>, reply: Reply)

  /** The foreground branch, from the first retrieval on. */
  function AwaitRun(be: Backend, inp: Input, handleId: string): Failable<Tail> {
    match be.retrieve(handleId, 0)
    case Threw(m) => Threw(m)
    case Ok(run) =>
      if run.status == Failed || run.status == Crashed then Threw(ErrorMessage(run.error))
      else if run.status != Completed then Threw("Task did not complete: " + StatusName(run.status))
      else if run.output.None? then Threw(NoOutput)
      else
        var result := run.output.value;
        var commandId := if Truthy(result.commandId) then result.commandId else None;
        var sandboxId := ReportedSandboxId(run.output, inp.sandboxId);
        var done := Done(sandboxId, commandId, inp.command, inp.args, result.exitCode);
        Ok(Tail(StreamEvents(sandboxId, inp, result.logs) + [done],
                Finished(inp.command, inp.args, result.exitCode.GetOr(0))))
  }

  /** The background branch, from the first retrieval on. */
  function StartRun(be: Backend, inp: Input, handleId: string): Failable<Tail> {
    match Probe(be, handleId)
    case Threw(m) => Threw(m)
    case Ok(Polled(run, _)) =>
      var commandId := BackgroundCommandId(run.output, handleId);
      var sandboxId := ReportedSandboxId(run.output, inp.sandboxId);
      Ok(Tail([Running(sandboxId, commandId, inp.command, inp.args)],
              Started(inp.command, inp.args, sandboxId, commandId)))
  }

  /** The payload handed to `tasks.trigger`. */
  function TaskPayload(inp: Input): RunUserCode.Payload {
    RunUserCode.Payload(None, Some(CommandString(inp.command, inp.args, inp.sudo)), [],
                        Some(inp.sandboxId), Some(inp.wait))
  }

  /** The `try` block. */
  function Dispatch(be: Backend, inp: Input): Failable<Tail> {
    match be.trigger(TaskPayload(inp))
    case Threw(m) => Threw(m)
    case Ok(handleId) => if inp.wait then AwaitRun(be, inp, handleId) else StartRun(be, inp, handleId)
  }

  datatype Execution = Execution(events: seq<Event>, reply: Reply)

  /** Everything `execute` writes, and what it returns; it never throws. */
  function Execute(be: Backend, inp: Input): Execution {
    var start := Executing(inp.sandboxId, inp.command, inp.args);
    match Dispatch(be, inp)
    case Ok(tail) => Execution([start] + tail.events, tail.reply)
    case Threw(m) =>
      var rich := be.richError(inp, m);
      Execution([start, Errored(inp.sandboxId, inp.command, inp.args, rich.error)], Failure(rich.message))
  }

  /** The text `execute` returns. */
  function ReplyText(r: Reply): string {
    match r
    case Finished(command, args, exitCode) =>
      "The command `" + command + " " + Join(args, ' ') + "` has finished with exit code "
        + IntToDecimal(exitCode) + "."
    case Started(command, args, sandboxId, commandId) =>
      "The command `" + command + " " + Join(args, ' ')
        + "` has been started in the background in the sandbox with ID `" + sandboxId
        + "` with the commandId " + commandId + "."
    case Failure(message) => message
  }

  /** The UI stream writer: events are only ever appended. */
  class EventWriter {
    var events: seq<Event>

    constructor ()
      ensures events == []
    {
      events := [];
    }

    method Write(e: Event)
      modifies this
      ensures events == old(events) + [e]
    {
      events := events + [e];
    }
  }

  /** The background polling loop. */
  method Poll(be: Backend, handleId: string) returns (r: Failable<Polled>)
    ensures r == Probe(be, handleId)
  {
    var first := be.retrieve(handleId, 0);
    if first.Threw? {
      return Threw(first.message);
    }
    var run := first.value;
    var attempts := 0;
    while (run.output.None? || run.output.value.commandId.None?)
          && attempts < MaxAttempts && run.status != Completed && run.status != Failed
      invariant attempts <= MaxAttempts
      invariant PollFrom(be, handleId, run, attempts) == Probe(be, handleId)
      decreases MaxAttempts - attempts
    {
      var next := be.retrieve(handleId, attempts + 1);
      if next.Threw? {
        return Threw(next.message);
      }
      run := next.value;
      attempts := attempts + 1;
    }
    r := Ok(Polled(run, attempts));
  }

  /** The foreground branch of `execute` after the trigger: retrieve the run,
      check it, stream its log entries and write `done`; or report what it
      throws, having written nothing. */
  method AwaitAndStream(be: Backend, inp: Input, handleId: string, writer: EventWriter)
      returns (thrown: Option<string>, text: string)
    modifies writer
    ensures thrown.Some? <==> AwaitRun(be, inp, handleId).Threw?
    ensures thrown.Some? ==> thrown.value == AwaitRun(be, inp, handleId).message
                             && writer.events == old(writer.events)
    ensures thrown.None? ==> writer.events == old(writer.events) + AwaitRun(be, inp, handleId).value.events
                             && text == ReplyText(AwaitRun(be, inp, handleId).value.reply)
  {
    text := "";
    var retrieved := be.retrieve(handleId, 0);
    if retrieved.Threw? {
      return Some(retrieved.message), text;
    }
    var run := retrieved.value;
    if run.status == Failed || run.status == Crashed {
      return Some(ErrorMessage(run.error)), text;
    }
    if run.status != Completed {
      return Some("Task did not complete: " + StatusName(run.status)), text;
    }
    if run.output.None? {
      return Some(NoOutput), text;
    }
    var result := run.output.value;
    var exitCode := result.exitCode;
    var commandId := if Truthy(result.commandId) then result.commandId else None;
    var sandboxId := if result.sandboxId != "" then result.sandboxId else inp.sandboxId;
    for i := 0 to |result.logs|
      invariant writer.events == old(writer.events) + StreamEvents(sandboxId, inp, result.logs[..i])
    {
      writer.Write(Streamed(sandboxId, inp.command, inp.args, result.logs[i]));
    }
    assert result.logs[..|result.logs|] == result.logs;
    writer.Write(Done(sandboxId, commandId, inp.command, inp.args, exitCode));
    thrown := None;
    text := ReplyText(Finished(inp.command, inp.args, exitCode.GetOr(0)));
  }

  /** The background branch of `execute` after the trigger: poll, then write
      `running`; or report what it throws, having written nothing. */
  method StartInBackground(be: Backend, inp: Input, handleId: string, writer: EventWriter)
      returns (thrown: Option<string>, text: string)
    modifies writer
    ensures thrown.Some? <==> StartRun(be, inp, handleId).Threw?
    ensures thrown.Some? ==> thrown.value == StartRun(be, inp, handleId).message
                             && writer.events == old(writer.events)
    ensures thrown.None? ==> writer.events == old(writer.events) + StartRun(be, inp, handleId).value.events
                             && text == ReplyText(StartRun(be, inp, handleId).value.reply)
  {
    text := "";
    var polled := Poll(be, handleId);
    if polled.Threw? {
      return Some(polled.message), text;
    }
    var output := polled.value.run.output;
    var commandId := BackgroundCommandId(output, handleId);
    var sandboxId := if output.Some? && output.value.sandboxId != "" then output.value.sandboxId
                     else inp.sandboxId;
    writer.Write(Running(sandboxId, commandId, inp.command, inp.args));
    thrown := None;
    text := ReplyText(Started(inp.command, inp.args, sandboxId, commandId));
  }

  /** `execute`. */
  method ExecuteTool(be: Backend, inp: Input, writer: EventWriter) returns (text: string)
    modifies writer
    ensures writer.events == old(writer.events) + Execute(be, inp).events
    ensures text == ReplyText(Execute(be, inp).reply)
  {
    writer.Write(Executing(inp.sandboxId, inp.command, inp.args));
    var thrown: Option<string>;
    var cmdStr := CommandString(inp.command, inp.args, inp.sudo);
    var payload := RunUserCode.Payload(None, Some(cmdStr), [], Some(inp.sandboxId), Some(inp.wait));
    assert payload == TaskPayload(inp);
    var handle := be.trigger(payload);
    if handle.Threw? {
      thrown := Some(handle.message);
      assert Dispatch(be, inp) == Threw(handle.message);
    } else if inp.wait {
      thrown, text := AwaitAndStream(be, inp, handle.value, writer);
      assert Dispatch(be, inp) == AwaitRun(be, inp, handle.value);
    } else {
      thrown, text := StartInBackground(be, inp, handle.value, writer);
      assert Dispatch(be, inp) == StartRun(be, inp, handle.value);
    }
    if thrown.Some? {
      var rich := be.richError(inp, thrown.value);
      writer.Write(Errored(inp.sandboxId, inp.command, inp.args, rich.error));
      text := rich.message;
    }
  }

  /** The events have one of three shapes, all opening with `executing` for
      the tool's own input: `executing`, a `stream` per log entry, `done` (the
      reply reports the finish); `executing`, `running` (the reply reports the
      start); `executing`, `error` (the reply is the rich error's message). */
  lemma EventShapes(be: Backend, inp: Input)
    ensures var x := Execute(be, inp);
      var e := x.events;
      && |e| >= 2
      && e[0] == Executing(inp.sandboxId, inp.command, inp.args)
      && (forall i :: 0 < i < |e| - 1 ==> e[i].Streamed?)
      && (x.reply.Finished? <==> e[|e| - 1].Done?)
      && (x.reply.Started? <==> e[|e| - 1].Running?)
      && (x.reply.Failure? <==> e[|e| - 1].Errored?)
      && (!x.reply.Finished? ==> |e| == 2)
      && (x.reply.Failure? ==> e[1].sandboxId == inp.sandboxId)
      && (inp.wait ==> !x.reply.Started?)
      && (!inp.wait ==> !x.reply.Finished?)
  {
  }

  /** Any exception in the `try` block gives exactly one `error` event, after
      `executing`, and the rich error's message as the reply. */
  lemma ErrorPath(be: Backend, inp: Input)
    requires Dispatch(be, inp).Threw?
    ensures var rich := be.richError(inp, Dispatch(be, inp).message);
      Execute(be, inp) == Execution(
        [Executing(inp.sandboxId, inp.command, inp.args),
         Errored(inp.sandboxId, inp.command, inp.args, rich.error)],
        Failure(rich.message))
  {
  }

  /** Foreground: a FAILED or CRASHED run, any other status but COMPLETED, and
      a COMPLETED run without output all take the error path, each with its
      own message. */
  lemma ForegroundFailures(be: Backend, inp: Input, handleId: string, run: RunState)
    requires inp.wait
    requires be.trigger(TaskPayload(inp)) == Ok(handleId)
    requires be.retrieve(handleId, 0) == Ok(run)
    ensures run.status == Failed || run.status == Crashed ==>
      Dispatch(be, inp) == Threw(ErrorMessage(run.error))
    ensures run.status.OtherStatus? ==>
      Dispatch(be, inp) == Threw("Task did not complete: " + run.status.name)
    ensures run.status == Completed && run.output.None? ==> Dispatch(be, inp) == Threw(NoOutput)
    ensures Dispatch(be, inp).Ok? <==> run.status == Completed && run.output.Some?
  {
  }

  /** Foreground success: one `stream` event per log entry, in order, then one
      `done` event; all report the run output's sandbox id if it has one, else the
      tool's; the reply reports the exit code, 0 when there is none. */
  lemma ForegroundSuccess(be: Backend, inp: Input, handleId: string, run: RunState)
    requires inp.wait
    requires be.trigger(TaskPayload(inp)) == Ok(handleId)
    requires be.retrieve(handleId, 0) == Ok(run)
    requires run.status == Completed && run.output.Some?
    ensures var result := run.output.value;
      var x := Execute(be, inp);
      var sandboxId := if result.sandboxId != "" then result.sandboxId else inp.sandboxId;
      && |x.events| == |result.logs| + 2
      && (forall i :: 0 <= i < |result.logs| ==>
            x.events[i + 1] == Streamed(sandboxId, inp.command, inp.args, result.logs[i]))
      && x.events[|x.events| - 1].Done?
      && x.events[|x.events| - 1].sandboxId == sandboxId
      && x.events[|x.events| - 1].exitCode == result.exitCode
      && x.reply == Finished(inp.command, inp.args, if result.exitCode.Some? then result.exitCode.value else 0)
  {
    var result := run.output.value;
    var sandboxId := ReportedSandboxId(run.output, inp.sandboxId);
    var commandId := if Truthy(result.commandId) then result.commandId else None;
    var done := Done(sandboxId, commandId, inp.command, inp.args, result.exitCode);
    var tail := Tail(StreamEvents(sandboxId, inp, result.logs) + [done],
                     Finished(inp.command, inp.args, result.exitCode.GetOr(0)));
    assert AwaitRun(be, inp, handleId) == Ok(tail);
    assert Dispatch(be, inp) == Ok(tail);
    assert Execute(be, inp).events == [Executing(inp.sandboxId, inp.command, inp.args)] + tail.events;
  }

  /** Background: the tool always reports a start with a non-empty command id,
      even when the run has FAILED; the id is the run output's when it reported one. */
  lemma BackgroundStart(be: Backend, inp: Input, handleId: string)
    requires !inp.wait
    requires be.trigger(TaskPayload(inp)) == Ok(handleId)
    requires Probe(be, handleId).Ok?
    ensures var x := Execute(be, inp);
      var run := Probe(be, handleId).value.run;
      && x.reply.Started?
      && x.reply.commandId != ""
      && (run.output.Some? && Truthy(run.output.value.commandId) ==>
            x.reply.commandId == run.output.value.commandId.value)
      && x.reply.sandboxId == ReportedSandboxId(run.output, inp.sandboxId)
      && x.events == [Executing(inp.sandboxId, inp.command, inp.args),
                      Running(x.reply.sandboxId, x.reply.commandId, inp.command, inp.args)]
  {
  }

  /** The failure example: a FAILED run whose error is "boom" ends the call
      with an `error` event and the rich error's message. */
  lemma BoomExample(be: Backend, inp: Input, handleId: string)
    requires inp.wait
    requires be.trigger(TaskPayload(inp)) == Ok(handleId)
    requires be.retrieve(handleId, 0) == Ok(RunState(Failed, ErrorObject("boom"), None))
    ensures Execute(be, inp).reply == Failure(be.richError(inp, "boom").message)
  {
  }
}
