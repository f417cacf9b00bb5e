/**
 * The `helloWorld` run of src/inngest/functions.ts: a sandbox is created, one
 * code agent is routed up to fifteen times until its answer carries a task
 * summary, and its three tools write files, read files and run commands in the
 * sandbox. The language model and the sandbox service are abstract: each turn
 * of the model is an input, and each tool call carries what the sandbox
 * answered (the chunks a command printed, where a write or a read threw).
 */
module AgentNetwork {
  import opened Wrappers
  import opened Strings

  const MaxIter: nat := 15
  const SummaryMarker: string := "<task_summary>"
  const FilesUpdated: string := "Files created/updated successfully"
  const Title: string := "Fragmnts"
  const SandboxTemplate: string := "alora-nextjs-test-3"
  const SandboxFailedPrefix: string := "Failed to create sandbox: "
  const FileOperationFailedPrefix: string := "File operation failed: "
  const FileReadFailedPrefix: string := "File read failed: "

  // ---------------------------------------------------------------------------
  // The terminal tool

  /** One `onStdout` or `onStderr` callback of a running command. */
  datatype Chunk = Stdout(data: string) | Stderr(data: string)

  /**
   * What `sandbox.commands.run` did: it printed `chunks` and resolved with
   * `result.stdout`, or printed `chunks` and threw (reconnecting to the sandbox
   * throwing is `Threw([], error)`).
   */
  datatype CommandRun =
    | Finished(chunks: seq<Chunk>, resultStdout: string)
    | Threw(chunks: seq<Chunk>, error: string)

  /** The stdout buffer after the chunks, appended in order. */
  function StdoutOf(chunks: seq<Chunk>): string
  {
    if chunks == [] then ""
    else StdoutOf(chunks[..|chunks| - 1]) + (match chunks[|chunks| - 1] case Stdout(d) => d case Stderr(_) => "")
  }

  /** The stderr buffer after the chunks, appended in order. */
  function StderrOf(chunks: seq<Chunk>): string
  {
    if chunks == [] then ""
    else StderrOf(chunks[..|chunks| - 1]) + (match chunks[|chunks| - 1] case Stdout(_) => "" case Stderr(d) => d)
  }

  /** The buffers only grow: the chunks of a later part are appended to those of an earlier part. */
  lemma {:induction false} BuffersAppendOnly(a: seq<Chunk>, b: seq<Chunk>)
    ensures StdoutOf(a + b) == StdoutOf(a) + StdoutOf(b)
    ensures StderrOf(a + b) == StderrOf(a) + StderrOf(b)
  {
    if b != [] {
      assert (a + b)[..|a + b| - 1] == a + b[..|b| - 1];
      BuffersAppendOnly(a, b[..|b| - 1]);
    } else {
      assert a + b == a;
    }
  }

  function CommandFailedText(error: string, stdout: string, stderr: string): string
  {
    "Command failed: " + error + " \nstdout: " + stdout + " \nstderr: " + stderr
  }

  /** The string the terminal tool returns; it never throws. */
  function TerminalOutput(run: CommandRun): string
  {
    match run
    case Finished(chunks, resultStdout) => if resultStdout != "" then resultStdout else StdoutOf(chunks)
    case Threw(chunks, error) => CommandFailedText(error, StdoutOf(chunks), StderrOf(chunks))
  }

  /**
   * A failed command is reported, not raised, and the report carries everything
   * both buffers had received.
   */
  lemma FailureReportsBothBuffers(chunks: seq<Chunk>, error: string)
    ensures var r := TerminalOutput(Threw(chunks, error));
            && r[..|"Command failed: "|] == "Command failed: "
            && Contains(r, error) && Contains(r, StdoutOf(chunks)) && Contains(r, StderrOf(chunks))
  {
    var out, err := StdoutOf(chunks), StderrOf(chunks);
    var r := TerminalOutput(Threw(chunks, error));
    var i := |"Command failed: "|;
    var j := i + |error| + |" \nstdout: "|;
    var k := j + |out| + |" \nstderr: "|;
    assert r[i..i + |error|] == error;
    assert OccursAt(r, error, i);
    assert r[j..j + |out|] == out;
    assert OccursAt(r, out, j);
    assert r[k..k + |err|] == err;
    assert OccursAt(r, err, k);
  }

  /** The stdout the command resolved with wins over the buffer; an empty one falls back to the buffer. */
  lemma FinishedOutput(chunks: seq<Chunk>, resultStdout: string)
    ensures resultStdout != "" ==> TerminalOutput(Finished(chunks, resultStdout)) == resultStdout
    ensures resultStdout == "" ==> TerminalOutput(Finished(chunks, resultStdout)) == StdoutOf(chunks)
  {
  }

  /** `const buffers = { stdout: "", stderr: "" }`. */
  class Buffers {
    var stdout: string
    var stderr: string

    constructor()
      ensures stdout == "" && stderr == ""
    {
      stdout := "";
      stderr := "";
    }

    /** The `onStdout` callback. */
    method OnStdout(data: string)
      modifies this
      ensures stdout == old(stdout) + data && stderr == old(stderr)
    {
      stdout := stdout + data;
    }

    /** The `onStderr` callback. */
    method OnStderr(data: string)
      modifies this
      ensures stderr == old(stderr) + data && stdout == old(stdout)
    {
      stderr := stderr + data;
    }
  }

  /** The terminal tool's handler for one command. */
  method RunTerminal(run: CommandRun) returns (output: string)
    ensures output == TerminalOutput(run)
  {
    var buffers := new Buffers();
    var chunks := run.chunks;
    for i := 0 to |chunks|
      invariant buffers.stdout == StdoutOf(chunks[..i]) && buffers.stderr == StderrOf(chunks[..i])
    {
      assert chunks[..i + 1][..i] == chunks[..i];
      match chunks[i]
      case Stdout(data) => buffers.OnStdout(data);
      case Stderr(data) => buffers.OnStderr(data);
    }
    assert chunks[..|chunks|] == chunks;
    match run
    case Finished(_, resultStdout) =>
      output := if resultStdout != "" then resultStdout else buffers.stdout;
    case Threw(_, error) =>
      output := CommandFailedText(error, buffers.stdout, buffers.stderr);
  }

  // ---------------------------------------------------------------------------
  // Writing and reading files

  /** One entry of the `files` argument of createOrUpdateFiles. */
  datatype FileWrite = FileWrite(path: string, content: string)

  /** One `{ path, content }` entry that readFiles returns. */
  datatype FileContent = FileContent(path: string, content: string)

  /** The writes applied in array order to a path-to-content map. */
  function WriteAll(m: map<string, string>, writes: seq<FileWrite>): map<string, string>
  {
    if writes == [] then m
    else
      var w := writes[|writes| - 1];
      WriteAll(m, writes[..|writes| - 1])[w.path := w.content]
  }

  /** The content of the last write to `p`, if any. */
  function LastWriteTo(writes: seq<FileWrite>, p: string): (r: Option<string>)
    ensures r.None? <==> forall i :: 0 <= i < |writes| ==> writes[i].path != p
    ensures r.Some? ==> exists i :: 0 <= i < |writes| && writes[i] == FileWrite(p, r.value) &&
                                    forall j :: i < j < |writes| ==> writes[j].path != p
  {
    if writes == [] then None
    else
      var n := |writes| - 1;
      if writes[n].path == p then
        assert writes[n] == FileWrite(p, writes[n].content);
        Some(writes[n].content)
      else
        var r := LastWriteTo(writes[..n], p);
        assert forall i :: 0 <= i < n ==> writes[..n][i] == writes[i];
        if r.Some? then
          ghost var i :| 0 <= i < n && writes[..n][i] == FileWrite(p, r.value) &&
                         forall j :: i < j < n ==> writes[..n][j].path != p;
          assert writes[i] == FileWrite(p, r.value);
          r
        else r
  }

  /**
   * After the writes, a path holds its last written content; a path no write
   * names keeps what it had, and no path disappears.
   */
  lemma {:induction false} WriteAllLookup(m: map<string, string>, writes: seq<FileWrite>, p: string)
    ensures p in WriteAll(m, writes) <==> p in m || LastWriteTo(writes, p).Some?
    ensures LastWriteTo(writes, p).Some? ==> WriteAll(m, writes)[p] == LastWriteTo(writes, p).value
    ensures LastWriteTo(writes, p).None? && p in m ==> WriteAll(m, writes)[p] == m[p]
  {
    if writes != [] {
      WriteAllLookup(m, writes[..|writes| - 1], p);
    }
  }

  /** Writing a batch in two parts is writing it at once. */
  lemma {:induction false} WriteAllAppend(m: map<string, string>, a: seq<FileWrite>, b: seq<FileWrite>)
    ensures WriteAll(m, a + b) == WriteAll(WriteAll(m, a), b)
  {
    if b != [] {
      assert (a + b)[..|a + b| - 1] == a + b[..|b| - 1];
      WriteAllAppend(m, a, b[..|b| - 1]);
    } else {
      assert a + b == a;
    }
  }

  /** `readFiles`: one entry per path in request order, or the first path the sandbox cannot read. */
  function ReadAll(fs: map<string, string>, paths: seq<string>): (r: Result<seq<FileContent>, string>)
    ensures r.Success? <==> forall i :: 0 <= i < |paths| ==> paths[i] in fs
    ensures r.Success? ==> (|r.value| == |paths| &&
              forall i :: 0 <= i < |paths| ==> paths[i] in fs && r.value[i] == FileContent(paths[i], fs[paths[i]]))
    ensures r.Failure? ==> exists i :: 0 <= i < |paths| && paths[i] == r.error && r.error !in fs &&
                                      forall j :: 0 <= j < i ==> paths[j] in fs
  {
    if paths == [] then Success([])
    else if paths[0] !in fs then Failure(paths[0])
    else
      var rest := ReadAll(fs, paths[1..]);
      assert forall i :: 0 < i < |paths| ==> paths[1..][i - 1] == paths[i];
      match rest
      case Success(contents) =>
        Success([FileContent(paths[0], fs[paths[0]])] + contents)
      case Failure(p) =>
        ghost var i :| 0 <= i < |paths[1..]| && paths[1..][i] == p && p !in fs &&
                       forall j :: 0 <= j < i ==> paths[1..][j] in fs;
        assert paths[i + 1] == p;
        Failure(p)
  }

  /** Reading a path back after a batch of writes gives the content last written to it. */
  lemma ReadAfterWrite(fs: map<string, string>, writes: seq<FileWrite>, p: string)
    requires LastWriteTo(writes, p).Some?
    ensures ReadAll(WriteAll(fs, writes), [p]) == Success([FileContent(p, LastWriteTo(writes, p).value)])
  {
    WriteAllLookup(fs, writes, p);
    var r := ReadAll(WriteAll(fs, writes), [p]);
    assert r.Success? && |r.value| == 1;
    assert r.value[0] == FileContent(p, LastWriteTo(writes, p).value);
    assert r.value == [FileContent(p, LastWriteTo(writes, p).value)];
  }

  /** The sandbox the run created; its files are the only part of it the model follows. */
  class Sandbox {
    const sandboxId: string
    var fs: map<string, string>

    constructor(sandboxId: string, fs: map<string, string>)
      ensures this.sandboxId == sandboxId && this.fs == fs
    {
      this.sandboxId := sandboxId;
      this.fs := fs;
    }

    /** `sandbox.files.write(path, content)`. */
    method Write(path: string, content: string)
      modifies this
      ensures fs == old(fs)[path := content]
    {
      fs := fs[path := content];
    }
  }

  /** Where reading threw: after `read` successful reads (0 also covers failing to reconnect to the sandbox). */
  datatype ReadFailure = ReadFailure(read: nat, error: string)

  /** The sandbox failure fires before read `read`: at reconnecting or at one of the reads. */
  predicate ReadFires(paths: seq<string>, failure: Option<ReadFailure>)
  {
    failure.Some? && (failure.value.read == 0 || failure.value.read < |paths|)
  }

  /**
   * What `readFiles` reads before it throws or finishes: every path, or those
   * before the read at which the sandbox threw.
   */
  function ReadsAttempted(paths: seq<string>, failure: Option<ReadFailure>): (n: nat)
    ensures n <= |paths|
  {
    if ReadFires(paths, failure) then failure.value.read else |paths|
  }

  /**
   * readFiles: the paths are read in order until the sandbox throws. The call
   * fails at the first path read that does not exist, or with the sandbox's
   * error; it succeeds only if nothing threw and every path exists.
   */
  function ReadCall(fs: map<string, string>, paths: seq<string>, failure: Option<ReadFailure>): (r: Result<seq<FileContent>, RunError>)
    ensures r.Success? <==> !ReadFires(paths, failure) && forall i :: 0 <= i < |paths| ==> paths[i] in fs
    ensures r.Success? ==> ReadAll(fs, paths) == Success(r.value)
    ensures r.Failure? ==> r.error.ReadMissingFile? || r.error.FileReadFailed?
    ensures r.Failure? && r.error.ReadMissingFile? ==>
              exists i :: 0 <= i < ReadsAttempted(paths, failure) && paths[i] == r.error.path && paths[i] !in fs &&
                          forall j :: 0 <= j < i ==> paths[j] in fs
    ensures r.Failure? && r.error.FileReadFailed? ==>
              ReadFires(paths, failure) && r.error.message == FileReadFailedPrefix + failure.value.error &&
              forall i :: 0 <= i < ReadsAttempted(paths, failure) ==> paths[i] in fs
  {
    var k := ReadsAttempted(paths, failure);
    match ReadAll(fs, paths[..k])
    case Failure(p) => Failure(ReadMissingFile(p))
    case Success(entries) =>
      assert forall i :: 0 <= i < k ==> paths[..k][i] == paths[i];
      if ReadFires(paths, failure) then Failure(FileReadFailed(FileReadFailedPrefix + failure.value.error))
      else
        assert paths[..k] == paths;
        Success(entries)
  }

  /** Without a sandbox failure, readFiles fails exactly when `ReadAll` finds a missing path. */
  lemma ReadCallWithoutFailure(fs: map<string, string>, paths: seq<string>)
    ensures ReadAll(fs, paths).Success? ==> ReadCall(fs, paths, None) == Success(ReadAll(fs, paths).value)
    ensures ReadAll(fs, paths).Failure? ==> ReadCall(fs, paths, None) == Failure(ReadMissingFile(ReadAll(fs, paths).error))
  {
    assert paths[..|paths|] == paths;
  }

  /** `ReadAll` of a prefix that reaches past the first missing path fails at that path. */
  lemma ReadAllFirstMissing(fs: map<string, string>, paths: seq<string>, i: nat, k: nat)
    requires i < k <= |paths|
    requires paths[i] !in fs && forall j :: 0 <= j < i ==> paths[j] in fs
    ensures ReadAll(fs, paths[..k]) == Failure(paths[i])
  {
    assert paths[..k][i] == paths[i];
  }

  /** `readFiles`'s handler: reads the paths one by one, pushing each entry, until the sandbox throws. */
  method ReadFilesTool(sandbox: Sandbox, files: seq<string>, failure: Option<ReadFailure>)
    returns (r: Result<seq<FileContent>, RunError>)
    ensures r == ReadCall(sandbox.fs, files, failure)
  {
    if failure.Some? && failure.value.read == 0 {
      return Failure(FileReadFailed(FileReadFailedPrefix + failure.value.error));
    }
    var fileContents: seq<FileContent> := [];
    for i := 0 to |files|
      invariant forall j :: 0 <= j < i ==> files[j] in sandbox.fs
      invariant |fileContents| == i
      invariant forall j :: 0 <= j < i ==> fileContents[j] == FileContent(files[j], sandbox.fs[files[j]])
      invariant failure.Some? ==> 0 < failure.value.read && i <= failure.value.read
      invariant failure.Some? && failure.value.read == i ==> i == |files|
    {
      var file := files[i];
      if file !in sandbox.fs {
        ReadAllFirstMissing(sandbox.fs, files, i, ReadsAttempted(files, failure));
        return Failure(ReadMissingFile(file));
      }
      fileContents := fileContents + [FileContent(file, sandbox.fs[file])];
      if failure.Some? && failure.value.read == i + 1 && i + 1 < |files| {
        var k := i + 1;
        assert ReadAll(sandbox.fs, files[..k]).Success?;
        return Failure(FileReadFailed(FileReadFailedPrefix + failure.value.error));
      }
    }
    ReadCallWithoutFailure(sandbox.fs, files);
    var expected := ReadAll(sandbox.fs, files);
    assert expected.Success?;
    assert fileContents == expected.value;
    return Success(fileContents);
  }

  // ---------------------------------------------------------------------------
  // The run state and one turn of the agent

  /**
   * `network.state.data`: whether it exists, and its `files` and `summary`
   * entries. `fs` is the sandbox's file system.
   */
  datatype World = World(hasData: bool, files: Option<map<string, string>>, summary: Option<string>,
                         fs: map<string, string>)

  /** `if (!network.state.data) network.state.data = {}`. */
  function WithData(w: World): (r: World)
    ensures r.hasData && r.fs == w.fs
    ensures w.hasData ==> r == w
    ensures !w.hasData ==> r.files.None? && r.summary.None?
  {
    if w.hasData then w else w.(hasData := true, files := None, summary := None)
  }

  /** A string is truthy when it is present and non-empty. */
  predicate Truthy(s: Option<string>)
  {
    s.Some? && s.value != ""
  }

  /** The router returns no agent, ending the run, exactly when the summary is truthy. */
  predicate Halts(w: World)
  {
    Truthy(w.summary)
  }

  /** The summary after `onResponse` with the last assistant text of the turn. */
  function SummaryAfter(summary: Option<string>, text: Option<string>): (r: Option<string>)
    ensures text.Some? && Contains(text.value, SummaryMarker) ==> r == text
    ensures !(text.Some? && Contains(text.value, SummaryMarker)) ==> r == summary
  {
    if text.Some? && Contains(text.value, SummaryMarker) then text else summary
  }

  /** A text with the marker in it is never empty, so the hook's truthiness guard never hides a summary. */
  lemma MarkedIsTruthy(s: string)
    requires Contains(s, SummaryMarker)
    ensures s != ""
  {
    var i :| OccursAt(s, SummaryMarker, i);
  }

  /** The state after `onResponse`. */
  function AfterResponse(w: World, text: Option<string>): (r: World)
    ensures r.fs == w.fs
    ensures r.hasData <==> w.hasData || Truthy(text)
    ensures text.Some? && Contains(text.value, SummaryMarker) ==> r.summary == text
    ensures w.hasData && !(text.Some? && Contains(text.value, SummaryMarker)) ==> r == w
  {
    var w' := if Truthy(text) then WithData(w) else w;
    w'.(summary := SummaryAfter(w'.summary, text))
  }

  datatype WriteFailure = WriteFailure(written: nat, error: string)

  /**
   * A call of a tool with its arguments and what the sandbox did: for
   * createOrUpdateFiles, `failure` says how many files were written before the
   * sandbox threw (0 also covers failing to reconnect to it), and likewise for
   * readFiles how many files were read before it threw.
   */
  datatype ToolCall =
    | Terminal(command: string, run: CommandRun)
    | CreateOrUpdateFiles(writes: seq<FileWrite>, failure: Option<WriteFailure>)
    | ReadFiles(paths: seq<string>, readFailure: Option<ReadFailure>)

  datatype ToolOutput = TextOutput(text: string) | Contents(entries: seq<FileContent>)

  /** The errors that end a run. */
  datatype RunError =
    | SandboxCreationFailed(message: string)
    | FileOperationFailed(message: string)
    | FileReadFailed(message: string)
    // the sandbox's not-found error for `path`; its text is not modelled
    | ReadMissingFile(path: string)

  datatype Step = Step(world: World, result: Result<ToolOutput, RunError>)

  /** The write failure fires before write `written`: at reconnecting or at one of the writes. */
  predicate Fires(writes: seq<FileWrite>, failure: Option<WriteFailure>)
  {
    failure.Some? && (failure.value.written == 0 || failure.value.written < |writes|)
  }

  /**
   * createOrUpdateFiles. `updatedFiles` is the `files` object of the state when
   * there is one, so the writes done before a failure are already in the state;
   * a fresh object is stored only on success.
   */
  function WriteCall(w: World, writes: seq<FileWrite>, failure: Option<WriteFailure>): (s: Step)
    ensures s.world.hasData && s.world.summary == WithData(w).summary
    ensures s.result.Success? <==> !Fires(writes, failure)
    ensures s.result.Success? ==> s.result.value == TextOutput(FilesUpdated) && s.world.files.Some?
    ensures s.result.Failure? ==> s.result.error == FileOperationFailed(FileOperationFailedPrefix + failure.value.error)
  {
    var w0 := WithData(w);
    if Fires(writes, failure) then
      var done := writes[..failure.value.written];
      Step(w0.(fs := WriteAll(w0.fs, done),
               files := if w0.files.Some? then Some(WriteAll(w0.files.value, done)) else None),
           Failure(FileOperationFailed(FileOperationFailedPrefix + failure.value.error)))
    else
      Step(w0.(fs := WriteAll(w0.fs, writes), files := Some(WriteAll(w0.files.GetOr(map[]), writes))),
           Success(TextOutput(FilesUpdated)))
  }

  /** One tool call. */
  function AfterCall(w: World, call: ToolCall): Step
  {
    match call
    case Terminal(_, run) => Step(w, Success(TextOutput(TerminalOutput(run))))
    case CreateOrUpdateFiles(writes, failure) => WriteCall(w, writes, failure)
    case ReadFiles(paths, failure) =>
      match ReadCall(w.fs, paths, failure)
      case Success(entries) => Step(w, Success(Contents(entries)))
      case Failure(e) => Step(w, Failure(e))
  }

  datatype Outcome = Outcome(world: World, error: Option<RunError>)

  /** The tool calls of one turn in order, stopping at the first that throws. */
  function AfterCalls(w: World, calls: seq<ToolCall>): Outcome
    decreases |calls|
  {
    if calls == [] then Outcome(w, None)
    else
      var s := AfterCall(w, calls[0]);
      if s.result.Failure? then Outcome(s.world, Some(s.result.error))
      else AfterCalls(s.world, calls[1..])
  }

  /** One answer of the model: its last assistant text, if any, and the tool calls it made. */
  datatype Turn = Turn(text: Option<string>, calls: seq<ToolCall>)

  /** One turn: `onResponse` sees the answer, then its tool calls run. */
  function AfterTurn(w: World, turn: Turn): Outcome
  {
    AfterCalls(AfterResponse(w, turn.text), turn.calls)
  }

  // ---------------------------------------------------------------------------
  // The network loop

  datatype Final = Final(world: World, iterations: nat, error: Option<RunError>)

  /**
   * `network.run(input)` from iteration `i`: while fewer than fifteen turns ran,
   * the router is asked; it halts on a summary, and otherwise the agent answers
   * turn `agent(input, i)`. A thrown tool error ends the run.
   */
  function Run(w: World, agent: (string, nat) -> Turn, input: string, i: nat): Final
    decreases MaxIter - i
  {
    if i >= MaxIter then Final(w, i, None)
    else
      var routed := WithData(w);
      if Halts(routed) then Final(routed, i, None)
      else
        var o := AfterTurn(routed, agent(input, i));
        if o.error.Some? then Final(o.world, i + 1, o.error)
        else Run(o.world, agent, input, i + 1)
  }

  /** One round of the network loop: the router halts the run, or one more turn runs. */
  lemma RunStep(w: World, agent: (string, nat) -> Turn, input: string, i: nat)
    requires i < MaxIter
    ensures Halts(WithData(w)) ==> Run(w, agent, input, i) == Final(WithData(w), i, None)
    ensures !Halts(WithData(w)) ==>
              var o := AfterTurn(WithData(w), agent(input, i));
              Run(w, agent, input, i) == if o.error.Some? then Final(o.world, i + 1, o.error)
                                         else Run(o.world, agent, input, i + 1)
  {
  }

  /** The run never exceeds fifteen turns. */
  lemma {:induction false} RunIsBounded(w: World, agent: (string, nat) -> Turn, input: string, i: nat)
    requires i <= MaxIter
    ensures i <= Run(w, agent, input, i).iterations <= MaxIter
    decreases MaxIter - i
  {
    if i < MaxIter && !Halts(WithData(w)) {
      var o := AfterTurn(WithData(w), agent(input, i));
      if o.error.None? {
        RunIsBounded(o.world, agent, input, i + 1);
      }
    }
  }

  /**
   * A run without error ends because the router halted on a summary or because
   * fifteen turns ran; a run with an error ended inside a turn.
   */
  lemma {:induction false} RunStopReason(w: World, agent: (string, nat) -> Turn, input: string, i: nat)
    requires i <= MaxIter
    ensures var r := Run(w, agent, input, i);
            (r.error.None? ==> Halts(r.world) || r.iterations == MaxIter) &&
            (r.error.Some? ==> r.iterations > i)
    decreases MaxIter - i
  {
    if i < MaxIter && !Halts(WithData(w)) {
      var o := AfterTurn(WithData(w), agent(input, i));
      if o.error.None? {
        RunStopReason(o.world, agent, input, i + 1);
      }
    }
  }

  /** Files and summary exist only when `data` does. */
  predicate Consistent(w: World)
  {
    !w.hasData ==> w.files.None? && w.summary.None?
  }

  /** A stored summary always carries the marker. */
  predicate SummaryMarked(w: World)
  {
    w.summary.Some? ==> Contains(w.summary.value, SummaryMarker)
  }

  lemma AfterCallsKeepsSummary(w: World, calls: seq<ToolCall>)
    requires w.hasData
    ensures AfterCalls(w, calls).world.summary == w.summary
    ensures AfterCalls(w, calls).world.hasData
    decreases |calls|
  {
    if calls != [] {
      AfterCallsKeepsSummary(AfterCall(w, calls[0]).world, calls[1..]);
    }
  }

  /** Once a turn leaves a summary, the run ends with that turn, the fifteenth included. */
  lemma {:induction false} SummaryEndsTheRun(w: World, agent: (string, nat) -> Turn, input: string, i: nat)
    requires i < MaxIter && !Halts(WithData(w))
    requires AfterTurn(WithData(w), agent(input, i)).error.None?
    requires Halts(AfterTurn(WithData(w), agent(input, i)).world)
    ensures Run(w, agent, input, i).iterations == i + 1
    ensures Run(w, agent, input, i).world == AfterTurn(WithData(w), agent(input, i)).world
  {
    var o := AfterTurn(WithData(w), agent(input, i));
    AfterCallsKeepsSummary(AfterResponse(WithData(w), agent(input, i).text), agent(input, i).calls);
    assert WithData(o.world) == o.world;
  }

  /** A summary, once set, is kept or replaced by another marked text; it is never cleared. */
  lemma TurnKeepsSummary(w: World, turn: Turn)
    requires w.hasData && SummaryMarked(w)
    ensures SummaryMarked(AfterTurn(w, turn).world)
    ensures Halts(w) ==> Halts(AfterTurn(w, turn).world)
  {
    AfterCallsKeepsSummary(AfterResponse(w, turn.text), turn.calls);
    if turn.text.Some? && Contains(turn.text.value, SummaryMarker) {
      MarkedIsTruthy(turn.text.value);
    }
  }

  /** Every summary the run ends with carries the marker. */
  lemma {:induction false} RunSummaryMarked(w: World, agent: (string, nat) -> Turn, input: string, i: nat)
    requires SummaryMarked(w)
    ensures SummaryMarked(Run(w, agent, input, i).world)
    decreases MaxIter - i
  {
    if i < MaxIter && !Halts(WithData(w)) {
      TurnKeepsSummary(WithData(w), agent(input, i));
      var o := AfterTurn(WithData(w), agent(input, i));
      if o.error.None? {
        RunSummaryMarked(o.world, agent, input, i + 1);
      }
    }
  }

  /** The files the createOrUpdateFiles calls of some calls write, in order. */
  function CallWrites(calls: seq<ToolCall>): seq<FileWrite>
  {
    if calls == [] then []
    else (if calls[0].CreateOrUpdateFiles? then calls[0].writes else []) + CallWrites(calls[1..])
  }

  /** The files written in turns `i` up to `n`. */
  function RunWrites(agent: (string, nat) -> Turn, input: string, i: nat, n: nat): seq<FileWrite>
    decreases n - i
  {
    if i >= n then [] else CallWrites(agent(input, i).calls) + RunWrites(agent, input, i + 1, n)
  }

  /** Tool calls that all succeed leave `files` equal to the writes of their createOrUpdateFiles calls applied in order. */
  lemma {:induction false} CallsWriteInOrder(w: World, calls: seq<ToolCall>)
    requires w.hasData
    requires AfterCalls(w, calls).error.None?
    ensures AfterCalls(w, calls).world.hasData
    ensures AfterCalls(w, calls).world.summary == w.summary
    ensures AfterCalls(w, calls).world.files.GetOr(map[]) == WriteAll(w.files.GetOr(map[]), CallWrites(calls))
    decreases |calls|
  {
    if calls != [] {
      var s := AfterCall(w, calls[0]);
      CallsWriteInOrder(s.world, calls[1..]);
      var first := if calls[0].CreateOrUpdateFiles? then calls[0].writes else [];
      WriteAllAppend(w.files.GetOr(map[]), first, CallWrites(calls[1..]));
    }
  }

  /** A turn without error adds the writes of its tool calls, in order, to the files it started from. */
  lemma TurnWrites(w: World, turn: Turn)
    requires Consistent(w)
    requires AfterTurn(WithData(w), turn).error.None?
    ensures AfterTurn(WithData(w), turn).world.hasData
    ensures AfterTurn(WithData(w), turn).world.files.GetOr(map[]) == WriteAll(w.files.GetOr(map[]), CallWrites(turn.calls))
  {
    var responded := AfterResponse(WithData(w), turn.text);
    assert responded.hasData && responded.files == w.files;
    CallsWriteInOrder(responded, turn.calls);
  }

  /** The writes of turns `i` up to `n` are those of turn `i` followed by the later ones. */
  lemma RunWritesStep(agent: (string, nat) -> Turn, input: string, i: nat, n: nat)
    requires i < n
    ensures RunWrites(agent, input, i, n) == CallWrites(agent(input, i).calls) + RunWrites(agent, input, i + 1, n)
  {
  }

  /**
   * A run that ends without error holds in `files` every file its turns wrote,
   * applied in order, on top of what the state held before.
   */
  lemma {:induction false} RunWritesInOrder(w: World, agent: (string, nat) -> Turn, input: string, i: nat)
    requires Consistent(w)
    requires Run(w, agent, input, i).error.None?
    ensures var r := Run(w, agent, input, i);
            r.world.files.GetOr(map[]) == WriteAll(w.files.GetOr(map[]), RunWrites(agent, input, i, r.iterations))
    decreases MaxIter - i
  {
    if i < MaxIter && !Halts(WithData(w)) {
      var turn := agent(input, i);
      var o := AfterTurn(WithData(w), turn);
      RunStep(w, agent, input, i);
      TurnWrites(w, turn);
      RunWritesInOrder(o.world, agent, input, i + 1);
      RunIsBounded(o.world, agent, input, i + 1);
      var n := Run(o.world, agent, input, i + 1).iterations;
      RunWritesStep(agent, input, i, n);
      WriteAllAppend(w.files.GetOr(map[]), CallWrites(turn.calls), RunWrites(agent, input, i + 1, n));
    } else {
      assert Run(w, agent, input, i).iterations == i;
    }
  }

  // ---------------------------------------------------------------------------
  // The whole function

  /** What `helloWorld` returns. */
  datatype RunResult = RunResult(url: Option<string>, title: string, files: Option<map<string, string>>,
                                 summary: Option<string>)

  /** `https://` and the host, or null when `getHost` threw. */
  function SandboxUrl(host: Option<string>): (r: Option<string>)
    ensures r.Some? <==> host.Some?
    ensures host.Some? ==> |r.value| == 8 + |host.value| && r.value[..8] == "https://" && r.value[8..] == host.value
  {
    assert |"https://"| == 8;
    if host.Some? then Some("https://" + host.value) else None
  }

  /**
   * `helloWorld`: `creation` is the sandbox id or the error `Sandbox.create`
   * threw, `template` the files the template starts with, and `host` the host of
   * port 3000, or None when `getHost` threw.
   */
  function HelloWorldSpec(creation: Result<string, string>, template: map<string, string>,
                          input: string, agent: (string, nat) -> Turn, host: Option<string>): Result<RunResult, RunError>
  {
    if creation.Failure? then Failure(SandboxCreationFailed(SandboxFailedPrefix + creation.error))
    else
      var r := Run(World(false, None, None, template), agent, input, 0);
      if r.error.Some? then Failure(r.error.value)
      else Success(RunResult(SandboxUrl(host), Title, r.world.files, r.world.summary))
  }

  /**
   * A successful run is titled "Fragmnts", its summary carries the marker, its
   * files are every write of the run applied in order, and it ran at most
   * fifteen turns; a failed sandbox creation fails with the creation message
   * before any turn.
   */
  lemma HelloWorldResult(creation: Result<string, string>, template: map<string, string>,
                         input: string, agent: (string, nat) -> Turn, host: Option<string>)
    ensures var r := HelloWorldSpec(creation, template, input, agent, host);
            var run := Run(World(false, None, None, template), agent, input, 0);
            && (creation.Failure? ==> r == Failure(SandboxCreationFailed(SandboxFailedPrefix + creation.error)))
            && (r.Success? ==>
                  && r.value.title == Title
                  && r.value.url == SandboxUrl(host)
                  && (r.value.summary.Some? ==> Contains(r.value.summary.value, SummaryMarker))
                  && r.value.files.GetOr(map[]) == WriteAll(map[], RunWrites(agent, input, 0, run.iterations))
                  && run.iterations <= MaxIter)
  {
    var w := World(false, None, None, template);
    RunSummaryMarked(w, agent, input, 0);
    RunIsBounded(w, agent, input, 0);
    if Run(w, agent, input, 0).error.None? {
      RunWritesInOrder(w, agent, input, 0);
    }
  }
}
