/**
 * The imperative side of the `helloWorld` run: the network's state object, the
 * tool handlers that update it and the sandbox, and the loop of `network.run`,
 * each proved to follow the functions of module AgentNetwork.
 */
module AgentRun {
  import opened Wrappers
  import opened Strings
  import opened AgentNetwork

  // ---------------------------------------------------------------------------
  // The imperative run

  /** `network.state.data` as the tools and the router see it. */
  class RunState {
    var hasData: bool
    var files: Option<map<string, string>>
    var summary: Option<string>

    /** A network created without state. */
    constructor()
      ensures !hasData && files.None? && summary.None?
    {
      hasData := false;
      files := None;
      summary := None;
    }

    /** `if (!network.state.data) network.state.data = {}`. */
    method EnsureData()
      modifies this
      ensures hasData
      ensures old(hasData) ==> files == old(files) && summary == old(summary)
      ensures !old(hasData) ==> files.None? && summary.None?
    {
      if !hasData {
        hasData := true;
        files := None;
        summary := None;
      }
    }

    /** The router: true to run the code agent again, false (no agent) to halt. */
    method Route() returns (next: bool)
      modifies this
      ensures hasData
      ensures old(hasData) ==> files == old(files) && summary == old(summary)
      ensures !old(hasData) ==> files.None? && summary.None?
      ensures next <==> !Truthy(summary)
    {
      EnsureData();
      next := !(summary.Some? && summary.value != "");
    }

    /** The `onResponse` lifecycle hook with the last assistant text of the answer. */
    method OnResponse(text: Option<string>)
      modifies this
      ensures hasData == (old(hasData) || Truthy(text))
      ensures Truthy(text) && !old(hasData) ==> files.None? && summary == SummaryAfter(None, text)
      ensures !(Truthy(text) && !old(hasData)) ==> files == old(files) && summary == SummaryAfter(old(summary), text)
    {
      if text.Some? && text.value != "" {
        EnsureData();
        if Contains(text.value, SummaryMarker) {
          summary := text;
        }
      } else if text.Some? {
        assert !Contains(text.value, SummaryMarker) by {
          if Contains(text.value, SummaryMarker) {
            MarkedIsTruthy(text.value);
          }
        }
      }
    }
  }

  ghost function WorldOf(state: RunState, sandbox: Sandbox): World
    reads state, sandbox
  {
    World(state.hasData, state.files, state.summary, sandbox.fs)
  }

  /** createOrUpdateFiles's handler. */
  method CreateOrUpdateFilesTool(state: RunState, sandbox: Sandbox, files: seq<FileWrite>, failure: Option<WriteFailure>)
    returns (r: Result<ToolOutput, RunError>)
    modifies state, sandbox
    ensures Step(WorldOf(state, sandbox), r) == WriteCall(old(WorldOf(state, sandbox)), files, failure)
  {
    state.EnsureData();
    var updatedFiles := state.files.GetOr(map[]);
    var shared := state.files.Some?;
    ghost var fs0 := sandbox.fs;
    ghost var files0 := updatedFiles;
    if failure.Some? && failure.value.written == 0 {
      assert files[..0] == [];
      return Failure(FileOperationFailed(FileOperationFailedPrefix + failure.value.error));
    }
    for i := 0 to |files|
      invariant sandbox.fs == WriteAll(fs0, files[..i])
      invariant updatedFiles == WriteAll(files0, files[..i])
      invariant state.hasData && (shared ==> state.files == Some(updatedFiles)) && (!shared ==> state.files.None?)
      invariant state.summary == old(WithData(WorldOf(state, sandbox))).summary
      invariant state.files.Some? == shared
      invariant failure.Some? ==> failure.value.written >= i
    {
      if failure.Some? && failure.value.written == i {
        return Failure(FileOperationFailed(FileOperationFailedPrefix + failure.value.error));
      }
      assert files[..i + 1][..i] == files[..i];
      sandbox.Write(files[i].path, files[i].content);
      updatedFiles := updatedFiles[files[i].path := files[i].content];
      if shared {
        state.files := Some(updatedFiles);
      }
    }
    assert files[..|files|] == files;
    state.files := Some(updatedFiles);
    return Success(TextOutput(FilesUpdated));
  }

  /** Dispatches one tool call to its handler. */
  method InvokeTool(state: RunState, sandbox: Sandbox, call: ToolCall) returns (r: Result<ToolOutput, RunError>)
    modifies state, sandbox
    ensures Step(WorldOf(state, sandbox), r) == AfterCall(old(WorldOf(state, sandbox)), call)
  {
    match call
    case Terminal(_, run) =>
      var output := RunTerminal(run);
      r := Success(TextOutput(output));
    case CreateOrUpdateFiles(writes, failure) =>
      r := CreateOrUpdateFilesTool(state, sandbox, writes, failure);
    case ReadFiles(paths, failure) =>
      var read := ReadFilesTool(sandbox, paths, failure);
      r := if read.Success? then Success(Contents(read.value)) else Failure(read.error);
  }

  /** One turn of the agent: `onResponse`, then the tool calls until one throws. */
  method RunTurn(state: RunState, sandbox: Sandbox, turn: Turn) returns (error: Option<RunError>)
    modifies state, sandbox
    ensures Outcome(WorldOf(state, sandbox), error) == AfterTurn(old(WorldOf(state, sandbox)), turn)
  {
    state.OnResponse(turn.text);
    ghost var start := WorldOf(state, sandbox);
    assert start == AfterResponse(old(WorldOf(state, sandbox)), turn.text);
    var calls := turn.calls;
    for j := 0 to |calls|
      invariant AfterCalls(WorldOf(state, sandbox), calls[j..]) == AfterCalls(start, calls)
    {
      assert calls[j..][1..] == calls[j + 1..];
      var r := InvokeTool(state, sandbox, calls[j]);
      if r.Failure? {
        return Some(r.error);
      }
    }
    return None;
  }

  /**
   * One round of `network.run`: the router is asked, and unless it halts the
   * code agent takes turn `i`. The rest of the run from the new state is the
   * rest of the run from the old one.
   */
  method RunRound(state: RunState, sandbox: Sandbox, agent: (string, nat) -> Turn, input: string, i: nat)
    returns (halted: bool, error: Option<RunError>)
    requires i < MaxIter
    modifies state, sandbox
    ensures halted ==> error.None? && Final(WorldOf(state, sandbox), i, None) == Run(old(WorldOf(state, sandbox)), agent, input, i)
    ensures !halted && error.Some? ==> Final(WorldOf(state, sandbox), i + 1, error) == Run(old(WorldOf(state, sandbox)), agent, input, i)
    ensures !halted && error.None? ==> Run(WorldOf(state, sandbox), agent, input, i + 1) == Run(old(WorldOf(state, sandbox)), agent, input, i)
  {
    RunStep(WorldOf(state, sandbox), agent, input, i);
    var next := state.Route();
    if !next {
      return true, None;
    }
    error := RunTurn(state, sandbox, agent(input, i));
    halted := false;
  }

  /** `network.run(input)`. */
  method RunNetwork(state: RunState, sandbox: Sandbox, agent: (string, nat) -> Turn, input: string)
    returns (iterations: nat, error: Option<RunError>)
    modifies state, sandbox
    ensures Final(WorldOf(state, sandbox), iterations, error) == Run(old(WorldOf(state, sandbox)), agent, input, 0)
  {
    ghost var goal := Run(WorldOf(state, sandbox), agent, input, 0);
    iterations := 0;
    while iterations < MaxIter
      invariant iterations <= MaxIter
      invariant Run(WorldOf(state, sandbox), agent, input, iterations) == goal
      decreases MaxIter - iterations
    {
      var halted;
      halted, error := RunRound(state, sandbox, agent, input, iterations);
      if halted {
        return iterations, None;
      }
      iterations := iterations + 1;
      if error.Some? {
        return iterations, error;
      }
    }
    return iterations, None;
  }

  // ---------------------------------------------------------------------------
  // The whole function

  method HelloWorld(creation: Result<string, string>, template: map<string, string>,
                    input: string, agent: (string, nat) -> Turn, host: Option<string>)
    returns (r: Result<RunResult, RunError>)
    ensures r == HelloWorldSpec(creation, template, input, agent, host)
  {
    if creation.Failure? {
      return Failure(SandboxCreationFailed(SandboxFailedPrefix + creation.error));
    }
    var sandbox := new Sandbox(creation.value, template);
    var state := new RunState();
    var iterations, error := RunNetwork(state, sandbox, agent, input);
    if error.Some? {
      return Failure(error.value);
    }
    var sandboxUrl := SandboxUrl(host);
    return Success(RunResult(sandboxUrl, Title, state.files, state.summary));
  }
}
