/** The `run-user-code` task: acquire a sandbox, pick the command, run it in the
    foreground (collecting its output line by line) or in the background
    (keeping only its pid), and assemble the result record. */
module RunUserCode {
  import opened Text
  import opened LineSplitter

  datatype FileEntry = FileEntry(path: string, data: string)

  /** The `runUserCode` task payload; `timeout` and `ports` only reach `Sandbox.create` and
      are not part of this model. */
  datatype Payload = Payload(
    code: Option<string>,
    command: Option<string>,
    files: seq<FileEntry>,
    sandboxId: Option<string>,
    wait: Option<bool>)

  /** The record the `runUserCode` task returns. */
  datatype TaskResult = TaskResult(
    sandboxId: string,
    commandId: Option<string>,
    logs: seq<string>,
    exitCode: Option<int>,
    error: Option<string>)

  /** A foreground `commands.run`: the callbacks it makes while the command
      runs, in arrival order, then the exit code it resolves with or the
      message of what it throws. */
  datatype CommandRun = CommandRun(output: seq<Chunk>, exit: Failable<Option<int>>)

  /** What the sandbox service does in one task run. `filesWrite` and
      `codeWrite` hold the message of the exception the corresponding
      `files.write` throws, if it throws. */
  datatype Sandbox = Sandbox(
    connect: Failable<string>,
    create: Failable<string>,
    filesWrite: Option<string>,
    codeWrite: Option<string>,
    foreground: string -> CommandRun,
    background: string -> Failable<nat>)

  const CodeCommand := "node /tmp/user-code.js"
  const NoCommand := "Either command or code must be provided"
  const NoSandboxId := "Sandbox ID was not set"
  const FailureExitCode := 1

  /** Whether the `runUserCode` task writes `code` to `/tmp/user-code.js` (it does so
      whenever `code` is given, whether or not a command is). */
  predicate WritesCode(p: Payload) {
    Truthy(p.code)
  }

  /** The command to run: a given command as is, otherwise the runner for the
      written code, otherwise an error. */
  function SelectCommand(code: Option<string>, command: Option<string>): (r: Failable<string>)
    ensures r.Ok? <==> Truthy(code) || Truthy(command)
    ensures Truthy(command) ==> r == Ok(command.value)
    ensures !Truthy(command) && Truthy(code) ==> r == Ok(CodeCommand)
    ensures r.Threw? ==> r.message == NoCommand
    ensures r.Ok? ==> r.value != ""
  {
    var finalCommand := if Truthy(code) && !Truthy(command) then Some(CodeCommand) else command;
    if !Truthy(finalCommand) then Threw(NoCommand) else Ok(finalCommand.value)
  }

  function StreamPrefix(stream: Stream): string {
    match stream
    case Stdout => "[stdout] "
    case Stderr => "[stderr] "
  }

  /** One entry of `logs`. */
  function FormatLog(r: LogRecord): string {
    StreamPrefix(r.stream) + r.line
  }

  /** Reads an entry of `logs` back into its stream and line. */
  function ParseLog(entry: string): (r: Option<LogRecord>)
    ensures r.Some? ==> FormatLog(r.value) == entry
  {
    if |entry| >= 9 && entry[..9] == StreamPrefix(Stdout) then Some(LogRecord(Stdout, entry[9..]))
    else if |entry| >= 9 && entry[..9] == StreamPrefix(Stderr) then Some(LogRecord(Stderr, entry[9..]))
    else None
  }

  /** Every formatted entry names its stream and its line unambiguously. */
  lemma ParseFormat(r: LogRecord)
    ensures ParseLog(FormatLog(r)) == Some(r)
  {
    var e := FormatLog(r);
    assert e[..9] == StreamPrefix(r.stream) && e[9..] == r.line;
  }

  function Formatted(records: seq<LogRecord>): seq<string> {
    seq(|records|, i requires 0 <= i < |records| => FormatLog(records[i]))
  }

  /** The formatting loop: one entry per record, in the same order. */
  method FormatLogs(records: seq<LogRecord>) returns (logs: seq<string>)
    ensures |logs| == |records|
    ensures forall i :: 0 <= i < |records| ==> ParseLog(logs[i]) == Some(records[i])
  {
    logs := [];
    for i := 0 to |records|
      invariant |logs| == i
      invariant forall j :: 0 <= j < i ==> logs[j] == FormatLog(records[j])
    {
      if records[i].stream == Stdout {
        logs := logs + ["[stdout] " + records[i].line];
      } else {
        logs := logs + ["[stderr] " + records[i].line];
      }
    }
    forall i | 0 <= i < |records| ensures ParseLog(logs[i]) == Some(records[i]) {
      ParseFormat(records[i]);
    }
  }

  /** How the body of the `try` block ends when it does not throw. */
  datatype Completion =
    | Foreground(logs: seq<string>, exitCode: Option<int>)
    | Background(commandId: string)

  function Wait(p: Payload): bool {
    p.wait.GetOr(true)
  }

  /** The id of the acquired sandbox: connect to the given one, else create one. */
  function Acquire(p: Payload, sb: Sandbox): Failable<string> {
    if Truthy(p.sandboxId) then sb.connect else sb.create
  }

  /** The `try` block after the sandbox is acquired. */
  function Attempt(p: Payload, sb: Sandbox): Failable<Completion> {
    if |p.files| > 0 && sb.filesWrite.Some? then Threw(sb.filesWrite.value)
    else if WritesCode(p) && sb.codeWrite.Some? then Threw(sb.codeWrite.value)
    else
      match SelectCommand(p.code, p.command)
      case Threw(m) => Threw(m)
      case Ok(command) =>
        if Wait(p) then
          var run := sb.foreground(command);
          match run.exit
          case Threw(m) => Threw(m)
          case Ok(code) => Ok(Foreground(Formatted(Finish(Process(run.output)).records), code))
        else
          match sb.background(command)
          case Threw(m) => Threw(m)
          case Ok(pid) => Ok(Background(NatToDecimal(pid)))
  }

  /** What the `runUserCode` task returns, or the message it throws. */
  function Outcome(p: Payload, sb: Sandbox): Failable<TaskResult> {
    match Acquire(p, sb)
    case Threw(_) => Threw(NoSandboxId)
    case Ok(sandboxId) =>
      if sandboxId == "" then Threw(NoSandboxId)
      else
        match Attempt(p, sb)
        case Ok(Foreground(logs, exitCode)) => Ok(TaskResult(sandboxId, None, logs, exitCode, None))
        case Ok(Background(commandId)) => Ok(TaskResult(sandboxId, Some(commandId), [], None, None))
        case Threw(m) => Ok(TaskResult(sandboxId, None, [], Some(FailureExitCode), Some(m)))
  }

  /** `runUserCode.run`. */
  method Run(p: Payload, sb: Sandbox) returns (r: Failable<TaskResult>)
    ensures r == Outcome(p, sb)
  {
    var sandboxId: Option<string> := None;
    var commandId: Option<string> := None;
    var logs: seq<string> := [];
    var exitCode: Option<int> := None;
    var error: Option<string> := None;
    // the message of the exception in flight in the `try` block, if any
    var thrown: Option<string> := None;

    var acquired := if Truthy(p.sandboxId) then sb.connect else sb.create;
    if acquired.Threw? {
      thrown := Some(acquired.message);
    } else {
      sandboxId := Some(acquired.value);
      if |p.files| > 0 && sb.filesWrite.Some? {
        thrown := sb.filesWrite;
      }
    }
    var finalCommand := p.command;
    if thrown.None? && Truthy(p.code) {
      if sb.codeWrite.Some? {
        thrown := sb.codeWrite;
      } else if !Truthy(p.command) {
        finalCommand := Some(CodeCommand);
      }
    }
    if thrown.None? && !Truthy(finalCommand) {
      thrown := Some(NoCommand);
    }
    if thrown.None? {
      if p.wait.GetOr(true) {
        var run := sb.foreground(finalCommand.value);
        var collector := new OutputCollector();
        for i := 0 to |run.output|
          invariant collector.Valid()
          invariant collector.State() == Process(run.output[..i])
        {
          assert run.output[..i + 1][..i] == run.output[..i];
          collector.OnOutput(run.output[i]);
        }
        assert run.output[..|run.output|] == run.output;
        if run.exit.Threw? {
          thrown := Some(run.exit.message);
        } else {
          collector.FlushRemainders();
          logs := FormatLogs(collector.logsArray);
          forall i | 0 <= i < |logs| ensures logs[i] == FormatLog(collector.logsArray[i]) {
            assert ParseLog(logs[i]) == Some(collector.logsArray[i]);
          }
          assert logs == Formatted(Finish(Process(run.output)).records);
          exitCode := run.exit.value;
          commandId := None;
          error := None;
        }
      } else {
        var proc := sb.background(finalCommand.value);
        if proc.Threw? {
          thrown := Some(proc.message);
        } else {
          commandId := Some(NatToDecimal(proc.value));
          logs := [];
          exitCode := None;
          error := None;
        }
      }
    }
    if thrown.Some? {
      error := thrown;
      exitCode := Some(FailureExitCode);
      commandId := None;
      logs := [];
    }
    if sandboxId.None? || sandboxId.value == "" {
      return Threw(NoSandboxId);
    }
    r := Ok(TaskResult(sandboxId.value, commandId, logs, exitCode, error));
  }

  /** The `runUserCode` task throws exactly when no sandbox id was obtained: acquiring the
      sandbox threw, or gave an empty id. */
  lemma SandboxIdGuard(p: Payload, sb: Sandbox)
    ensures Outcome(p, sb).Threw? <==> Acquire(p, sb).Threw? || Acquire(p, sb).value == ""
    ensures Outcome(p, sb).Threw? ==> Outcome(p, sb).message == NoSandboxId
    ensures Outcome(p, sb).Ok? ==> Outcome(p, sb).value.sandboxId == Acquire(p, sb).value
  {
  }

  /** Every returned record has exactly one of the three terminal shapes:
      foreground success, background start, or failure. */
  lemma TerminalShapes(p: Payload, sb: Sandbox)
    requires Outcome(p, sb).Ok?
    ensures var r := Outcome(p, sb).value;
      var foreground := Wait(p) && r.error.None? && r.commandId.None?;
      var background := !Wait(p) && r.error.None? && r.commandId.Some?
                        && r.logs == [] && r.exitCode.None?;
      var failed := r.error.Some? && r.exitCode == Some(FailureExitCode)
                    && r.commandId.None? && r.logs == [];
      (foreground || background || failed)
      && !(foreground && background) && !(foreground && failed) && !(background && failed)
      && (failed <==> Attempt(p, sb).Threw?)
  {
  }

  /** A failure carries the thrown message; a missing command or code is one. */
  lemma FailureResult(p: Payload, sb: Sandbox)
    requires Acquire(p, sb).Ok? && Acquire(p, sb).value != ""
    ensures Attempt(p, sb).Threw? ==>
      Outcome(p, sb) == Ok(TaskResult(Acquire(p, sb).value, None, [], Some(1), Some(Attempt(p, sb).message)))
    ensures |p.files| == 0 && !Truthy(p.code) && !Truthy(p.command) ==>
      Outcome(p, sb).value.error == Some(NoCommand)
  {
  }

  /** Background start: the command id is `String(pid)`, the decimal text of
      the pid without leading zeros. */
  lemma BackgroundResult(p: Payload, sb: Sandbox, command: string, pid: nat)
    requires Acquire(p, sb).Ok? && Acquire(p, sb).value != ""
    requires !Wait(p)
    requires Attempt(p, sb).Ok?
    requires SelectCommand(p.code, p.command) == Ok(command)
    requires sb.background(command) == Ok(pid)
    ensures var id := Outcome(p, sb).value.commandId;
      id.Some? && id.value == NatToDecimal(pid) && IsDecimal(id.value) && DecimalValue(id.value) == pid
  {
    DecimalRoundTrip(pid);
  }

  /** The entries of `logs` that belong to one stream. */
  function StreamLogs(logs: seq<string>, stream: Stream): seq<string>
    decreases |logs|
  {
    if logs == [] then []
    else
      var last := ParseLog(logs[|logs| - 1]);
      StreamLogs(logs[..|logs| - 1], stream)
        + (if last.Some? && last.value.stream == stream then [last.value.line] else [])
  }

  lemma {:induction false} StreamLogsFormatted(records: seq<LogRecord>, stream: Stream)
    ensures StreamLogs(Formatted(records), stream) == Project(records, stream)
    decreases |records|
  {
    if records != [] {
      var r' := records[..|records| - 1];
      assert Formatted(records)[..|records| - 1] == Formatted(r');
      ParseFormat(records[|records| - 1]);
      StreamLogsFormatted(r', stream);
    }
  }

  /** Foreground success: the exit code is the command's, and for each stream
      the `[stdout] `/`[stderr] ` entries carry, in order, the non-empty
      newline-separated pieces of everything that stream wrote, however it
      was chunked; every entry is one of those two kinds. */
  lemma ForegroundResult(p: Payload, sb: Sandbox, command: string)
    requires Acquire(p, sb).Ok? && Acquire(p, sb).value != ""
    requires Wait(p)
    requires Attempt(p, sb).Ok?
    requires SelectCommand(p.code, p.command) == Ok(command)
    ensures var run := sb.foreground(command);
      var r := Outcome(p, sb).value;
      && run.exit.Ok?
      && r.exitCode == run.exit.value
      && (forall i :: 0 <= i < |r.logs| ==> ParseLog(r.logs[i]).Some?)
      && (forall stream :: StreamLogs(r.logs, stream) == NonEmpty(Split(StreamText(run.output, stream), Newline)))
  {
    var run := sb.foreground(command);
    var records := Finish(Process(run.output)).records;
    forall i | 0 <= i < |records|
      ensures ParseLog(Formatted(records)[i]).Some?
    {
      ParseFormat(records[i]);
    }
    forall stream
      ensures StreamLogs(Formatted(records), stream) == NonEmpty(Split(StreamText(run.output, stream), Newline))
    {
      StreamLogsFormatted(records, stream);
      LinesOfStream(run.output, stream);
    }
  }

  /** The blocking-mode example: `ls -la` printing `a.txt` and a newline, then
      exiting with 0, gives exit code 0 and the single entry `[stdout] a.txt`. */
  lemma ListingExample(sb: Sandbox)
    requires sb.connect == Ok("sbx")
    requires sb.filesWrite.None?
    requires sb.foreground("ls -la") == CommandRun([Chunk(Stdout, "a.txt\n")], Ok(Some(0)))
    ensures Outcome(Payload(None, Some("ls -la"), [], Some("sbx"), Some(true)), sb)
         == Ok(TaskResult("sbx", None, ["[stdout] a.txt"], Some(0), None))
  {
    ListingLines();
  }

  lemma ListingLines()
    ensures Formatted(Finish(Process([Chunk(Stdout, "a.txt\n")])).records) == ["[stdout] a.txt"]
  {
    var chunks := [Chunk(Stdout, "a.txt\n")];
    assert chunks[..0] == [];
    ListingSplit();
    var st := Process(chunks);
    assert Tag(Stdout, ["a.txt"]) == [LogRecord(Stdout, "a.txt")];
    assert st == Collected("", "", [LogRecord(Stdout, "a.txt")]);
    assert Finish(st).records == [LogRecord(Stdout, "a.txt")];
    assert FormatLog(LogRecord(Stdout, "a.txt")) == "[stdout] a.txt";
  }

  lemma ListingSplit()
    ensures NonEmpty(Complete([] + "a.txt\n")) == ["a.txt"] && Fragment([] + "a.txt\n") == ""
  {
    assert [] + "a.txt\n" == "a.txt" + [Newline] + "";
    assert Newline !in "a.txt";
    SplitAfterPiece("a.txt", Newline, "");
    assert Split("", Newline) == [""];
    assert Split([] + "a.txt\n", Newline) == ["a.txt", ""];
    assert ["a.txt"][..0] == [];
  }
}
