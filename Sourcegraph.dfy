/**
 * The process runner of src/sourcegraph.ts. `executeSrcCommand` probes for the
 * `src` executable, spawns it with the command line and an environment built
 * from the parent's, collects its standard output and standard error chunk by
 * chunk, and settles once, on the first `close` or `error` event.
 *
 * The probe's success, the parent environment, the installation directory and
 * the events of the child are inputs: the model runs no process.
 */
module Sourcegraph {
  import opened Results
  import opened JsText

  const TokenKey := "SRC_ACCESS_TOKEN"
  const EndpointKey := "SRC_ENDPOINT"
  const DefaultEndpoint := "https://sourcegraph.com"
  const NotInstalledText := "src-cli is not installed or not in PATH. Please install it first. Exec path: "
  const ExitFailureText := "src-cli command failed with code "
  const SpawnFailureText := "Failed to execute src-cli: "

  /** The executable, relative to the directory the package is installed in. */
  function ExecutablePath(installDir: string): string {
    installDir + "/node_modules/.bin/src"
  }

  /** The failure when the availability probe (`src version`) fails. */
  function NotInstalledMessage(installDir: string): string {
    NotInstalledText + ExecutablePath(installDir) + " version"
  }

  /** A call of `executeSrcCommand(command, args)`; `None` for omitted `args`. */
  datatype Invocation = Invocation(command: string, args: Option<seq<string>>)

  /** The argument vector passed to the executable: the subcommand, then the arguments (none by default). */
  function FullCommand(call: Invocation): (argv: seq<string>)
    ensures |argv| >= 1 && argv[0] == call.command
    ensures argv[1..] == call.args.GetOr([])
  {
    [call.command] + call.args.GetOr([])
  }

  /** `testConnection`: the `version` subcommand with no further arguments. */
  function TestConnectionCall(): (call: Invocation)
    ensures FullCommand(call) == ["version"]
  {
    Invocation("version", None)
  }

  /** The endpoint the child is given: the parent's, unless that is unset or empty. */
  function Endpoint(parent: map<string, string>): string {
    if EndpointKey in parent && parent[EndpointKey] != "" then parent[EndpointKey] else DefaultEndpoint
  }

  /**
   * The `env` object built for the child: a copy of the parent environment with
   * the token and the endpoint written over it. `None` is an `undefined` value,
   * which the token is when the parent has none.
   */
  function ChildEnv(parent: map<string, string>): map<string, Option<string>> {
    var copy := map k | k in parent :: Some(parent[k]);
    var token := if TokenKey in parent then Some(parent[TokenKey]) else None;
    copy[TokenKey := token][EndpointKey := Some(Endpoint(parent))]
  }

  /** The environment the child process receives: entries whose value is `undefined` are dropped. */
  function EffectiveEnv(env: map<string, Option<string>>): map<string, string> {
    map k | k in env && env[k].Some? :: env[k].value
  }

  /** The environment the child ends up with, as `ChildSeesParentWithEndpoint` shows. */
  function SpawnEnv(parent: map<string, string>): map<string, string> {
    parent[EndpointKey := Endpoint(parent)]
  }

  /** Every variable but the token and the endpoint is copied from the parent unchanged. */
  lemma ChildEnvCopiesParent(parent: map<string, string>, key: string)
    requires key != TokenKey && key != EndpointKey
    ensures key in ChildEnv(parent) <==> key in parent
    ensures key in parent ==> ChildEnv(parent)[key] == Some(parent[key])
  {
  }

  /**
   * What the child receives is the parent environment with only the endpoint
   * replaced: by the parent's own value when that is set and non-empty, and by
   * the default endpoint otherwise. The token passes through as it was.
   */
  lemma ChildSeesParentWithEndpoint(parent: map<string, string>)
    ensures EffectiveEnv(ChildEnv(parent)) == SpawnEnv(parent)
    ensures Endpoint(parent) != ""
    ensures EndpointKey in parent && parent[EndpointKey] != "" ==> Endpoint(parent) == parent[EndpointKey]
  {
    var child := EffectiveEnv(ChildEnv(parent));
    var expected := parent[EndpointKey := Endpoint(parent)];
    assert forall k :: k in child <==> k in expected;
    assert forall k :: k in child ==> child[k] == expected[k];
  }

  /** The two output streams of the child. */
  datatype Stream = Stdout | Stderr

  /** What the spawned child emits, in the order the runner sees it. */
  datatype Event =
    | Data(stream: Stream, chunk: string)
    | Close(code: Option<int>)     // `None` is a `null` code: the child was ended by a signal
    | SpawnError(message: string)
  {
    predicate IsTerminal() {
      Close? || SpawnError?
    }
  }

  /** The state of the promise `executeSrcCommand` returns. */
  datatype Settlement = Pending | Resolved(value: string) | Rejected(message: string)

  function CodeText(code: Option<int>): string {
    match code
    case None => "null"
    case Some(c) => IntToString(c)
  }

  /** How `close` settles the call, given the output collected until then. */
  function CloseOutcome(code: Option<int>, stdout: string, stderr: string): (r: Settlement)
    ensures !r.Pending?
  {
    if code == Some(0) then Resolved(Trim(stdout))
    else Rejected(ExitFailureText + CodeText(code) + ": " + stderr)
  }

  function SpawnErrorMessage(message: string): string {
    SpawnFailureText + message
  }

  /** How a terminal event settles the call, given the output collected until then. */
  function TerminalOutcome(e: Event, stdout: string, stderr: string): (r: Settlement)
    requires e.IsTerminal()
    ensures !r.Pending?
  {
    match e
    case Close(code) => CloseOutcome(code, stdout, stderr)
    case SpawnError(message) => Rejected(SpawnErrorMessage(message))
  }

  /** The text collected on one stream over a history of events. */
  function Output(history: seq<Event>, stream: Stream): string {
    if history == [] then ""
    else
      var last := history[|history| - 1];
      Output(history[..|history| - 1], stream) + (if last.Data? && last.stream == stream then last.chunk else "")
  }

  /** The chunks of one stream, in arrival order. */
  function Chunks(history: seq<Event>, stream: Stream): seq<string> {
    if history == [] then []
    else
      var last := history[|history| - 1];
      Chunks(history[..|history| - 1], stream) + (if last.Data? && last.stream == stream then [last.chunk] else [])
  }

  /** The promise's state after a history: settled by the first terminal event, unchanged afterwards. */
  function Settle(history: seq<Event>): Settlement {
    if history == [] then Pending
    else
      var before := history[..|history| - 1];
      var last := history[|history| - 1];
      var settled := Settle(before);
      if !settled.Pending? then settled
      else if last.IsTerminal() then TerminalOutcome(last, Output(before, Stdout), Output(before, Stderr))
      else Pending
  }

  /** Each buffer is the in-order concatenation of the chunks of its own stream. */
  lemma {:induction false} OutputIsConcatenation(history: seq<Event>, stream: Stream)
    ensures Output(history, stream) == Join(Chunks(history, stream), "")
  {
    if history != [] {
      var before := history[..|history| - 1];
      var last := history[|history| - 1];
      var mine := last.Data? && last.stream == stream;
      OutputIsConcatenation(before, stream);
      AppendChunk(Chunks(before, stream), if mine then [last.chunk] else [], if mine then last.chunk else "");
    }
  }

  /** Appending at most one chunk to the list appends it to the concatenation. */
  lemma AppendChunk(chunks: seq<string>, more: seq<string>, piece: string)
    requires more == [piece] || (more == [] && piece == "")
    ensures Join(chunks + more, "") == Join(chunks, "") + piece
  {
    if more == [] {
      assert chunks + more == chunks;
    } else if chunks == [] {
      assert chunks + more == [piece];
    } else {
      JoinAppend(chunks, "", piece);
    }
  }

  /** The streams do not interfere: two histories with the same chunks on a stream have the same text on it. */
  lemma OutputIgnoresOtherEvents(h1: seq<Event>, h2: seq<Event>, stream: Stream)
    requires Chunks(h1, stream) == Chunks(h2, stream)
    ensures Output(h1, stream) == Output(h2, stream)
  {
    OutputIsConcatenation(h1, stream);
    OutputIsConcatenation(h2, stream);
  }

  /** Once settled, the promise keeps its state whatever follows. */
  lemma {:induction false} SettledStaysSettled(h1: seq<Event>, h2: seq<Event>)
    requires !Settle(h1).Pending?
    ensures Settle(h1 + h2) == Settle(h1)
  {
    if h2 != [] {
      var init := h2[..|h2| - 1];
      SettledStaysSettled(h1, init);
      assert (h1 + h2)[..|h1 + h2| - 1] == h1 + init;
    } else {
      assert h1 + h2 == h1;
    }
  }

  /** The promise is still pending exactly when no `close` or `error` event has arrived. */
  lemma {:induction false} PendingIffNoTerminal(history: seq<Event>)
    ensures Settle(history).Pending? <==> forall j :: 0 <= j < |history| ==> !history[j].IsTerminal()
  {
    if history != [] {
      var before := history[..|history| - 1];
      PendingIffNoTerminal(before);
      assert forall j :: 0 <= j < |before| ==> before[j] == history[j];
    }
  }

  /**
   * The first terminal event decides the outcome, using the output collected
   * before it; nothing after it changes the outcome.
   */
  lemma SettlesAtFirstTerminal(before: seq<Event>, e: Event, after: seq<Event>)
    requires forall j :: 0 <= j < |before| ==> !before[j].IsTerminal()
    requires e.IsTerminal()
    ensures Settle(before + [e] + after) == TerminalOutcome(e, Output(before, Stdout), Output(before, Stderr))
  {
    PendingIffNoTerminal(before);
    SettleAppend(before, e);
    SettledStaysSettled(before + [e], after);
  }

  /** One more event, in terms of the state before it. */
  lemma SettleAppend(history: seq<Event>, e: Event)
    ensures Settle(history + [e]) ==
      if !Settle(history).Pending? then Settle(history)
      else if e.IsTerminal() then TerminalOutcome(e, Output(history, Stdout), Output(history, Stderr))
      else Pending
  {
    assert (history + [e])[..|history|] == history;
  }

  /** `close` resolves exactly for exit code 0, with the trimmed output; otherwise it reports the code and stderr. */
  lemma CloseOutcomeCases(code: Option<int>, stdout: string, stderr: string)
    ensures CloseOutcome(code, stdout, stderr).Resolved? <==> code == Some(0)
    ensures code == Some(0) ==> CloseOutcome(code, stdout, stderr).value == Trim(stdout)
    ensures code.Some? && code != Some(0) ==>
      CloseOutcome(code, stdout, stderr).message
        == "src-cli command failed with code " + IntToString(code.value) + ": " + stderr
    ensures code.None? ==>
      CloseOutcome(code, stdout, stderr).message == "src-cli command failed with code null: " + stderr
  {
  }

  /** The process as spawned: the executable, its argument vector and its environment. */
  datatype Spawn = Spawn(executable: string, argv: seq<string>, env: map<string, string>)

  /** The child `executeSrcCommand` spawns: the `src` executable, the full command line, the child environment. */
  function ChildProcess(call: Invocation, parentEnv: map<string, string>, installDir: string): Spawn {
    Spawn(ExecutablePath(installDir), FullCommand(call), EffectiveEnv(ChildEnv(parentEnv)))
  }

  /** One call of `executeSrcCommand`: the child it spawned, if any, its buffers and its promise. */
  class Execution {
    var spawned: Option<Spawn>
    var stdout: string
    var stderr: string
    var state: Settlement
    ghost var history: seq<Event>

    ghost predicate Valid()
      reads this
    {
      && stdout == Output(history, Stdout)
      && stderr == Output(history, Stderr)
      && (spawned.Some? ==> state == Settle(history))
      && (spawned.None? ==> history == [] && state.Rejected?)
    }

    /**
     * Start the call. When the probe fails nothing is spawned and the call fails
     * with the not-installed message. When `spawn` itself throws (`spawnThrew`
     * holds the message of what it threw) the promise executor rejects with that
     * message and nothing is spawned. Otherwise the child is spawned with the
     * full command line and the child environment, and the promise is pending.
     */
    constructor (call: Invocation, parentEnv: map<string, string>, installDir: string,
                 probeSucceeded: bool, spawnThrew: Option<string>)
      ensures Valid() && history == [] && stdout == "" && stderr == ""
      ensures !probeSucceeded ==> spawned == None && state == Rejected(NotInstalledMessage(installDir))
      ensures probeSucceeded && spawnThrew.Some? ==> spawned == None && state == Rejected(spawnThrew.value)
      ensures probeSucceeded && spawnThrew.None? ==>
        && state == Pending && spawned == Some(ChildProcess(call, parentEnv, installDir))
        && spawned.value.argv == [call.command] + call.args.GetOr([])
        && spawned.value.env == SpawnEnv(parentEnv)
    {
      history := [];
      stdout := "";
      stderr := "";
      if !probeSucceeded {
        spawned := None;
        state := Rejected(NotInstalledMessage(installDir));
      } else if spawnThrew.Some? {
        spawned := None;
        state := Rejected(spawnThrew.value);
      } else {
        ChildSeesParentWithEndpoint(parentEnv);
        spawned := Some(ChildProcess(call, parentEnv, installDir));
        state := Pending;
      }
    }

    /** A `data` event appends the chunk to the buffer of its own stream only. */
    method OnData(stream: Stream, chunk: string)
      requires Valid() && spawned.Some?
      modifies this
      ensures Valid() && history == old(history) + [Data(stream, chunk)]
      ensures stream == Stdout ==> stdout == old(stdout) + chunk && stderr == old(stderr)
      ensures stream == Stderr ==> stderr == old(stderr) + chunk && stdout == old(stdout)
      ensures state == old(state) && spawned == old(spawned)
    {
      assert (history + [Data(stream, chunk)])[..|history|] == history;
      history := history + [Data(stream, chunk)];
      if stream == Stdout {
        stdout := stdout + chunk;
      } else {
        stderr := stderr + chunk;
      }
    }

    /** The `close` event settles a pending call from the exit code and the buffers; a settled call is unchanged. */
    method OnClose(code: Option<int>)
      requires Valid() && spawned.Some?
      modifies this
      ensures Valid() && history == old(history) + [Close(code)]
      ensures state == if old(state).Pending? then CloseOutcome(code, old(stdout), old(stderr)) else old(state)
      ensures stdout == old(stdout) && stderr == old(stderr) && spawned == old(spawned)
    {
      assert (history + [Close(code)])[..|history|] == history;
      SettleAppend(history, Close(code));
      history := history + [Close(code)];
      if state.Pending? {
        state := CloseOutcome(code, stdout, stderr);
      }
    }

    /** The `error` event settles a pending call with the spawn failure; a settled call is unchanged. */
    method OnError(message: string)
      requires Valid() && spawned.Some?
      modifies this
      ensures Valid() && history == old(history) + [SpawnError(message)]
      ensures state == if old(state).Pending? then Rejected(SpawnErrorMessage(message)) else old(state)
      ensures stdout == old(stdout) && stderr == old(stderr) && spawned == old(spawned)
    {
      assert (history + [SpawnError(message)])[..|history|] == history;
      SettleAppend(history, SpawnError(message));
      history := history + [SpawnError(message)];
      if state.Pending? {
        state := Rejected(SpawnErrorMessage(message));
      }
    }

    /** What the awaiting caller gets once the call has settled. */
    function Outcome(): (r: Result<string, string>)
      reads this
      requires !state.Pending?
      ensures r.Ok? <==> state.Resolved?
      ensures r.Ok? ==> r.value == state.value
      ensures r.Err? ==> r.error == state.message
    {
      if state.Resolved? then Ok(state.value) else Err(state.message)
    }
  }
}
