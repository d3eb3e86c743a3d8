/** The foreground output collection of the `runUserCode` task: the `onStdout` and
    `onStderr` callbacks, each of which keeps a pending buffer, splits it on
    newlines, records the complete non-empty lines and holds back the trailing
    fragment; then the final flush of both fragments. */
module LineSplitter {
  import opened Text

  const Newline := '\n'

  datatype Stream = Stdout | Stderr

  /** One entry of `logsArray`: a line and the stream it came from. */
  datatype LogRecord = LogRecord(stream: Stream, line: string)

  /** One call of the `onStdout` or `onStderr` callback, with its chunk. */
  datatype Chunk = Chunk(stream: Stream, data: string)

  /** The two pending buffers and the records collected so far. */
  datatype Collected = Collected(stdout: string, stderr: string, records: seq<LogRecord>)

  /** Every record is a non-empty line without a newline in it. */
  predicate WellFormed(records: seq<LogRecord>) {
    forall i :: 0 <= i < |records| ==> records[i].line != "" && Newline !in records[i].line
  }

  /** The newline-terminated lines of a buffer (all but the last piece of the split). */
  function Complete(buffer: string): seq<string> {
    var parts := Split(buffer, Newline);
    parts[..|parts| - 1]
  }

  /** The unterminated fragment at the end of a buffer (`lines.pop() || ''`). */
  function Fragment(buffer: string): string {
    var parts := Split(buffer, Newline);
    parts[|parts| - 1]
  }

  /** The lines kept by `if (line)`. */
  function NonEmpty(lines: seq<string>): seq<string>
    decreases |lines|
  {
    if lines == [] then []
    else
      var last := lines[|lines| - 1];
      NonEmpty(lines[..|lines| - 1]) + (if last != "" then [last] else [])
  }

  function Tag(stream: Stream, lines: seq<string>): seq<LogRecord> {
    seq(|lines|, i requires 0 <= i < |lines| => LogRecord(stream, lines[i]))
  }

  /** The lines of one stream, in the order they were recorded. */
  function Project(records: seq<LogRecord>, stream: Stream): seq<string>
    decreases |records|
  {
    if records == [] then []
    else
      var last := records[|records| - 1];
      Project(records[..|records| - 1], stream) + (if last.stream == stream then [last.line] else [])
  }

  function Pending(st: Collected, stream: Stream): string {
    if stream == Stdout then st.stdout else st.stderr
  }

  /** One callback: append the chunk to its stream's buffer, record the complete
      non-empty lines, keep the fragment. */
  function Feed(st: Collected, c: Chunk): Collected {
    var buffer := Pending(st, c.stream) + c.data;
    var records := st.records + Tag(c.stream, NonEmpty(Complete(buffer)));
    if c.stream == Stdout then Collected(Fragment(buffer), st.stderr, records)
    else Collected(st.stdout, Fragment(buffer), records)
  }

  const Initial := Collected("", "", [])

  /** The state after the callbacks for `chunks`, in arrival order. */
  function Process(chunks: seq<Chunk>): Collected
    decreases |chunks|
  {
    if chunks == [] then Initial
    else Feed(Process(chunks[..|chunks| - 1]), chunks[|chunks| - 1])
  }

  function Remainder(stream: Stream, pending: string): seq<LogRecord> {
    if pending != "" then [LogRecord(stream, pending)] else []
  }

  /** The flush after the command returns: the stdout fragment, then the stderr
      fragment, each only if it is not empty. The buffers are left as they are. */
  function Finish(st: Collected): Collected {
    st.(records := st.records + Remainder(Stdout, st.stdout) + Remainder(Stderr, st.stderr))
  }

  /** Everything one stream delivered, concatenated. */
  function StreamText(chunks: seq<Chunk>, stream: Stream): string
    decreases |chunks|
  {
    if chunks == [] then []
    else
      var last := chunks[|chunks| - 1];
      StreamText(chunks[..|chunks| - 1], stream) + (if last.stream == stream then last.data else [])
  }

  lemma {:induction false} NonEmptyAppend(a: seq<string>, b: seq<string>)
    ensures NonEmpty(a + b) == NonEmpty(a) + NonEmpty(b)
    decreases |b|
  {
    if b == [] {
      assert a + b == a;
    } else {
      var b' := b[..|b| - 1];
      assert (a + b)[..|a + b| - 1] == a + b';
      assert (a + b)[|a + b| - 1] == b[|b| - 1];
      NonEmptyAppend(a, b');
    }
  }

  lemma {:induction false} ProjectAppend(a: seq<LogRecord>, b: seq<LogRecord>, stream: Stream)
    ensures Project(a + b, stream) == Project(a, stream) + Project(b, stream)
    decreases |b|
  {
    if b == [] {
      assert a + b == a;
    } else {
      var b' := b[..|b| - 1];
      assert (a + b)[..|a + b| - 1] == a + b';
      assert (a + b)[|a + b| - 1] == b[|b| - 1];
      ProjectAppend(a, b', stream);
    }
  }

  /** Tagged lines belong to their own stream and to no other. */
  lemma {:induction false} ProjectTag(t: Stream, lines: seq<string>, stream: Stream)
    ensures Project(Tag(t, lines), stream) == if t == stream then lines else []
    decreases |lines|
  {
    if lines != [] {
      var l' := lines[..|lines| - 1];
      assert Tag(t, lines)[..|lines| - 1] == Tag(t, l');
      ProjectTag(t, l', stream);
    }
  }

  /** The kept lines are exactly the non-empty ones. */
  lemma {:induction false} NonEmptyMembers(lines: seq<string>)
    ensures forall x :: x in NonEmpty(lines) <==> x in lines && x != ""
    decreases |lines|
  {
    if lines != [] {
      var l' := lines[..|lines| - 1];
      NonEmptyMembers(l');
      assert lines == l' + [lines[|lines| - 1]];
    }
  }

  /** A buffer is the concatenation of its complete lines and its fragment. */
  lemma SplitBuffer(buffer: string)
    ensures Split(buffer, Newline) == Complete(buffer) + [Fragment(buffer)]
  {
  }

  /** Appending a chunk to a stream whose text so far is `s` only touches the
      fragment of `s`: the complete lines of `s` stay, and the buffer
      `Fragment(s) + c` supplies the rest. */
  lemma CompleteAppend(s: string, c: string)
    ensures Complete(s + c) == Complete(s) + Complete(Fragment(s) + c)
    ensures Fragment(s + c) == Fragment(Fragment(s) + c)
  {
    var ps := Split(s, Newline);
    var q := Split(Fragment(s) + c, Newline);
    SplitAppend(s, c, Newline);
    assert Split(s + c, Newline) == ps[..|ps| - 1] + q;
    InitAndLast(ps[..|ps| - 1], q);
  }

  lemma InitAndLast<T>(a: seq<T>, b: seq<T>)
    requires |b| >= 1
    ensures (a + b)[..|a + b| - 1] == a + b[..|b| - 1]
    ensures (a + b)[|a + b| - 1] == b[|b| - 1]
  {
  }

  /** After any sequence of callbacks, each stream's buffer is the fragment of
      everything that stream delivered, and the lines recorded for it are the
      non-empty complete lines of that text. */
  lemma {:induction false} ProcessInvariant(chunks: seq<Chunk>, stream: Stream)
    ensures Pending(Process(chunks), stream) == Fragment(StreamText(chunks, stream))
    ensures Project(Process(chunks).records, stream) == NonEmpty(Complete(StreamText(chunks, stream)))
    decreases |chunks|
  {
    if chunks == [] {
      assert Split([], Newline) == [[]];
    } else {
      var prefix := chunks[..|chunks| - 1];
      var c := chunks[|chunks| - 1];
      ProcessInvariant(prefix, stream);
      FeedInvariant(Process(prefix), StreamText(prefix, stream), c, stream);
    }
  }

  /** One callback keeps the relation of ProcessInvariant. */
  lemma FeedInvariant(st: Collected, s: string, c: Chunk, stream: Stream)
    requires Pending(st, stream) == Fragment(s)
    requires Project(st.records, stream) == NonEmpty(Complete(s))
    ensures var s' := s + (if c.stream == stream then c.data else []);
      && Pending(Feed(st, c), stream) == Fragment(s')
      && Project(Feed(st, c).records, stream) == NonEmpty(Complete(s'))
  {
    var buffer := Pending(st, c.stream) + c.data;
    var added := Tag(c.stream, NonEmpty(Complete(buffer)));
    assert Feed(st, c).records == st.records + added;
    ProjectAppend(st.records, added, stream);
    ProjectTag(c.stream, NonEmpty(Complete(buffer)), stream);
    if c.stream == stream {
      CompleteAppend(s, c.data);
      NonEmptyAppend(Complete(s), Complete(buffer));
    } else {
      assert s + [] == s;
    }
  }

  /** Chunking independence: whatever the chunk boundaries, the lines recorded
      for a stream, flush included, are the non-empty newline-separated pieces
      of everything the stream delivered, in order. */
  lemma LinesOfStream(chunks: seq<Chunk>, stream: Stream)
    ensures Project(Finish(Process(chunks)).records, stream)
         == NonEmpty(Split(StreamText(chunks, stream), Newline))
  {
    var st := Process(chunks);
    var s := StreamText(chunks, stream);
    ProcessInvariant(chunks, stream);
    FlushedProjection(st, stream);
    NonEmptyAppend(Complete(s), [Fragment(s)]);
    SplitBuffer(s);
  }

  /** The flush contributes the non-empty fragment of each stream to that stream. */
  lemma FlushedProjection(st: Collected, stream: Stream)
    ensures Project(Finish(st).records, stream)
         == Project(st.records, stream) + NonEmpty([Pending(st, stream)])
  {
    var out, err := Remainder(Stdout, st.stdout), Remainder(Stderr, st.stderr);
    assert Finish(st).records == st.records + (out + err);
    ProjectAppend(st.records, out + err, stream);
    ProjectAppend(out, err, stream);
    ProjectRemainder(Stdout, st.stdout, stream);
    ProjectRemainder(Stderr, st.stderr, stream);
  }

  lemma ProjectRemainder(t: Stream, pending: string, stream: Stream)
    ensures Project(Remainder(t, pending), stream) == if t == stream then NonEmpty([pending]) else []
  {
    assert [pending][..0] == [];
    if pending != "" {
      assert Remainder(t, pending)[..0] == [];
    }
  }

  /** Two ways of chunking the same stream output record the same lines for it. */
  lemma ChunkingIndependence(chunks1: seq<Chunk>, chunks2: seq<Chunk>, stream: Stream)
    requires StreamText(chunks1, stream) == StreamText(chunks2, stream)
    ensures Project(Finish(Process(chunks1)).records, stream)
         == Project(Finish(Process(chunks2)).records, stream)
  {
    LinesOfStream(chunks1, stream);
    LinesOfStream(chunks2, stream);
  }

  /** Blank lines are not recorded, so rejoining a stream's records need not
      give back its text: "a", a blank line and "b" record only "a" and "b". */
  lemma BlankLinesDropped()
    ensures var chunks := [Chunk(Stdout, "a\n\nb")];
      && Project(Finish(Process(chunks)).records, Stdout) == ["a", "b"]
      && Join(["a", "b"], Newline) != StreamText(chunks, Stdout)
  {
    var chunks := [Chunk(Stdout, "a\n\nb")];
    LinesOfStream(chunks, Stdout);
    assert chunks[..0] == [];
    assert StreamText(chunks, Stdout) == "a\n\nb";
    BlankLineText();
    assert Join(["a", "b"], Newline) == "a\nb";
    assert |"a\nb"| != |"a\n\nb"|;
  }

  lemma BlankLineText()
    ensures NonEmpty(Split("a\n\nb", Newline)) == ["a", "b"]
  {
    assert "a\n\nb" == "a" + [Newline] + ("" + [Newline] + "b");
    SplitAfterPiece("a", Newline, "" + [Newline] + "b");
    SplitAfterPiece("", Newline, "b");
    SplitWithoutSeparator("b", Newline);
    assert Split("a\n\nb", Newline) == ["a", "", "b"];
    assert ["a", "", "b"][..2] == ["a", ""] && ["a", ""][..1] == ["a"] && ["a"][..0] == [];
  }

  /** The buffers never hold a newline, and no record is empty or holds a
      newline, after any sequence of callbacks and after the flush. */
  lemma {:induction false} ProcessWellFormed(chunks: seq<Chunk>)
    ensures Newline !in Process(chunks).stdout && Newline !in Process(chunks).stderr
    ensures WellFormed(Process(chunks).records)
    ensures WellFormed(Finish(Process(chunks)).records)
    decreases |chunks|
  {
    if chunks != [] {
      var prefix := chunks[..|chunks| - 1];
      ProcessWellFormed(prefix);
      FeedWellFormed(Process(prefix), chunks[|chunks| - 1]);
    }
  }

  lemma FeedWellFormed(st: Collected, c: Chunk)
    requires WellFormed(st.records)
    ensures WellFormed(Feed(st, c).records)
    ensures Newline !in Pending(Feed(st, c), c.stream)
  {
    var buffer := Pending(st, c.stream) + c.data;
    var kept := NonEmpty(Complete(buffer));
    NonEmptyMembers(Complete(buffer));
    SplitPieces(buffer, Newline);
    forall i | 0 <= i < |kept| ensures kept[i] != "" && Newline !in kept[i] {
      assert kept[i] in kept;
    }
  }

  /** Records only go on the end: what is recorded after some callbacks is a
      prefix of what is recorded after more of them, and of what the flush leaves. */
  lemma {:induction false} RecordsOnlyGrow(chunks: seq<Chunk>, more: seq<Chunk>)
    ensures Process(chunks).records <= Process(chunks + more).records
    ensures Process(chunks + more).records <= Finish(Process(chunks + more)).records
    decreases |more|
  {
    if more == [] {
      assert chunks + more == chunks;
    } else {
      var more' := more[..|more| - 1];
      assert (chunks + more)[..|chunks + more| - 1] == chunks + more';
      RecordsOnlyGrow(chunks, more');
      var st := Process(chunks + more');
      var c := more[|more| - 1];
      assert (chunks + more)[|chunks + more| - 1] == c;
      assert Process(chunks + more).records == st.records + Tag(c.stream, NonEmpty(Complete(Pending(st, c.stream) + c.data)));
    }
  }

  /** The flush adds at most two records, after all the others: the stdout
      fragment first, then the stderr fragment, each only when not empty. */
  lemma FlushOrder(st: Collected)
    ensures var added := Finish(st).records[|st.records|..];
      && st.records <= Finish(st).records
      && |added| <= 2
      && (forall i :: 0 <= i < |added| ==> added[i].line == Pending(st, added[i].stream) != "")
      && (|added| == 2 ==> added[0].stream == Stdout && added[1].stream == Stderr)
      && (st.stdout != "" ==> LogRecord(Stdout, st.stdout) in added)
      && (st.stderr != "" ==> LogRecord(Stderr, st.stderr) in added)
  {
  }

  /** The callbacks' shared state: the two pending buffers and `logsArray`. */
  class OutputCollector {
    var currentStdout: string
    var currentStderr: string
    var logsArray: seq<LogRecord>

    ghost predicate Valid()
      reads this
    {
      Newline !in currentStdout && Newline !in currentStderr && WellFormed(logsArray)
    }

    function State(): Collected
      reads this
    {
      Collected(currentStdout, currentStderr, logsArray)
    }

    constructor ()
      ensures Valid() && State() == Initial
    {
      currentStdout, currentStderr, logsArray := "", "", [];
    }

    /** `onStdout(chunk)` or `onStderr(chunk)`, according to the chunk's stream. */
    method OnOutput(c: Chunk)
      requires Valid()
      modifies this
      ensures Valid()
      ensures State() == Feed(old(State()), c)
    {
      var lines: seq<string>;
      if c.stream == Stdout {
        currentStdout := currentStdout + c.data;
        lines := Split(currentStdout, Newline);
        SplitPieces(currentStdout, Newline);
        currentStdout := lines[|lines| - 1];
      } else {
        currentStderr := currentStderr + c.data;
        lines := Split(currentStderr, Newline);
        SplitPieces(currentStderr, Newline);
        currentStderr := lines[|lines| - 1];
      }
      lines := lines[..|lines| - 1];
      ghost var out, err := currentStdout, currentStderr;
      for i := 0 to |lines|
        invariant currentStdout == out && currentStderr == err
        invariant logsArray == old(logsArray) + Tag(c.stream, NonEmpty(lines[..i]))
        invariant WellFormed(logsArray)
      {
        assert lines[..i + 1][..i] == lines[..i];
        if lines[i] != "" {
          logsArray := logsArray + [LogRecord(c.stream, lines[i])];
        }
      }
      assert lines[..|lines|] == lines;
    }

    /** The flush of both fragments, stdout first. */
    method FlushRemainders()
      requires Valid()
      modifies this
      ensures Valid()
      ensures State() == Finish(old(State()))
    {
      if currentStdout != "" {
        logsArray := logsArray + [LogRecord(Stdout, currentStdout)];
      }
      if currentStderr != "" {
        logsArray := logsArray + [LogRecord(Stderr, currentStderr)];
      }
    }
  }
}
