/**
 * The script engine of models/scripting/ScriptEngine.kt as a value: its
 * fields, the fields of its worker (the command and source queues, the
 * `running` flag, the runtime) and the stream of Handler messages, with one
 * pure transition per operation.  The class Scripting.ScriptEngine performs
 * these transitions in place.
 */
module EngineState {
  import opened Wrappers
  import opened ScriptEvents

  /** What `executeScript` produced: a value (None for null) or an exception with its message (None for null). */
  datatype Outcome = Ok(value: Option<string>) | Err(message: Option<string>)

  /**
   * The JavaScript runtime as an oracle: the outcome of running `script` on a
   * runtime that has already run `history`, in that order.
   */
  type Runtime = (seq<string>, string) -> Outcome

  /** What reading a source file gave: its text, or the message of the exception thrown. */
  datatype LoadResult = Loaded(text: string) | LoadFailed(message: Option<string>)

  /** One asset source file: its path and what reading it gave. */
  datatype AssetRead = AssetRead(path: string, read: LoadResult)

  datatype State = State(
    status: Status,
    userInput: Option<string>,
    commandHistory: seq<string>,
    currentFileUri: Option<string>,
    commands: seq<string>,      // the worker's command queue, head first
    sources: seq<string>,       // the worker's source queue, head first
    started: bool,              // the worker thread has been started
    running: bool,              // the worker's `running` flag
    terminateRequested: bool,   // terminateExecution has been called on the runtime
    released: bool,             // the worker has left its loop and released the runtime
    executed: seq<string>,      // every script handed to the runtime, in order
    events: seq<Event>)         // every message sent to the Handler, in order

  /** A freshly constructed engine, before any asset source is loaded. */
  function Initial(): State
  {
    State(Ready, None, [], None, [], [], false, false, false, false, [], [])
  }

  /** Kotlin's rendering of a nullable value inside a string template. */
  function Render(v: Option<string>): string
  {
    match v
    case Some(t) => t
    case None => "null"
  }

  /** `sendMessage`: the message is handed to the Handler after every earlier one. */
  function SendMessage(s: State, what: EventKind, data: Option<string>): (r: State)
    ensures |r.events| == |s.events| + 1 && r.events[..|s.events|] == s.events
    ensures r.events[|s.events|] == Event(what, data)
    ensures r.(events := s.events) == s
  {
    s.(events := s.events + [Event(what, data)])
  }

  /** The text of a SOURCE_LOAD_ERROR message; `prefix` is the localised resource string. */
  function LoadErrorText(prefix: string, path: string, message: Option<string>): string
  {
    prefix + " \"" + path + "\": " + Render(message)
  }

  /** `loadAssetSource`: queue the text, or report the IOException. */
  function LoadAssetSource(s: State, asset: AssetRead, prefix: string): (r: State)
    ensures asset.read.Loaded? ==>
      r.sources == s.sources + [asset.read.text] && r.events == s.events
    ensures asset.read.LoadFailed? ==>
      && r.sources == s.sources
      && r.events == s.events + [Event(SourceLoadError, Some(LoadErrorText(prefix, asset.path, asset.read.message)))]
    ensures r.(sources := s.sources, events := s.events) == s
  {
    match asset.read
    case Loaded(text) => s.(sources := s.sources + [text])
    case LoadFailed(message) =>
      SendMessage(s, SourceLoadError, Some(LoadErrorText(prefix, asset.path, message)))
  }

  /** The engine's initialisation loop: `loadAssetSource` for each asset path in turn. */
  function LoadAssets(s: State, assets: seq<AssetRead>, prefix: string): (r: State)
    ensures s.sources <= r.sources && s.events <= r.events
    ensures |r.sources| + |r.events| == |s.sources| + |s.events| + |assets|
    ensures r.(sources := s.sources, events := s.events) == s
    decreases |assets|
  {
    if assets == [] then s
    else LoadAssetSource(LoadAssets(s, assets[..|assets| - 1], prefix), assets[|assets| - 1], prefix)
  }

  /** The texts of the assets that could be read, in asset order. */
  function LoadedTexts(assets: seq<AssetRead>): seq<string>
    decreases |assets|
  {
    if assets == [] then []
    else
      var last := assets[|assets| - 1];
      LoadedTexts(assets[..|assets| - 1]) + (if last.read.Loaded? then [last.read.text] else [])
  }

  /** The SOURCE_LOAD_ERROR messages for the assets that could not be read, in asset order. */
  function LoadErrors(assets: seq<AssetRead>, prefix: string): seq<Event>
    decreases |assets|
  {
    if assets == [] then []
    else
      var last := assets[|assets| - 1];
      LoadErrors(assets[..|assets| - 1], prefix)
      + (if last.read.LoadFailed?
         then [Event(SourceLoadError, Some(LoadErrorText(prefix, last.path, last.read.message)))]
         else [])
  }

  /**
   * Loading the assets queues every readable one, in order, reports every
   * unreadable one, in order, and touches nothing else.
   */
  lemma {:induction false} LoadAssetsQueuesInOrder(s: State, assets: seq<AssetRead>, prefix: string)
    ensures LoadAssets(s, assets, prefix).sources == s.sources + LoadedTexts(assets)
    ensures LoadAssets(s, assets, prefix).events == s.events + LoadErrors(assets, prefix)
    ensures LoadAssets(s, assets, prefix).(sources := s.sources, events := s.events) == s
    decreases |assets|
  {
    if assets != [] {
      var init, last := assets[..|assets| - 1], assets[|assets| - 1];
      LoadAssetsQueuesInOrder(s, init, prefix);
      var before := LoadAssets(s, init, prefix);
      match last.read
      case Loaded(text) =>
        assert LoadAssets(s, assets, prefix) == before.(sources := before.sources + [text]);
        assert LoadedTexts(assets) == LoadedTexts(init) + [text];
        assert LoadErrors(assets, prefix) == LoadErrors(init, prefix);
      case LoadFailed(message) =>
        var e := Event(SourceLoadError, Some(LoadErrorText(prefix, last.path, message)));
        assert LoadAssets(s, assets, prefix) == before.(events := before.events + [e]);
        assert LoadedTexts(assets) == LoadedTexts(init);
        assert LoadErrors(assets, prefix) == LoadErrors(init, prefix) + [e];
    }
  }

  /** Every asset is accounted for exactly once: either queued or reported. */
  lemma {:induction false} EveryAssetAccountedFor(assets: seq<AssetRead>, prefix: string)
    ensures |LoadedTexts(assets)| + |LoadErrors(assets, prefix)| == |assets|
    ensures forall i :: 0 <= i < |LoadErrors(assets, prefix)| ==> LoadErrors(assets, prefix)[i].what == SourceLoadError
    decreases |assets|
  {
    if assets != [] {
      EveryAssetAccountedFor(assets[..|assets| - 1], prefix);
    }
  }

  /**
   * `loadUserSource`: queue the text, remember the file and announce
   * SCRIPT_RUN, or report the failure.  `uri` is the content URI and `path`
   * its path component (`fileUri.path`, which may be null); the failure
   * message names the path, not the whole URI.
   */
  function LoadUserSource(s: State, uri: string, path: Option<string>, read: LoadResult, prefix: string): (r: State)
    ensures read.Loaded? ==>
      && r.sources == s.sources + [read.text]
      && r.currentFileUri == Some(uri)
      && r.events == s.events + [Event(ScriptRun, None)]
    ensures read.LoadFailed? ==>
      && r.sources == s.sources
      && r.currentFileUri == s.currentFileUri
      && r.events == s.events + [Event(SourceLoadError, Some(LoadErrorText(prefix, Render(path), read.message)))]
    ensures r.(sources := s.sources, currentFileUri := s.currentFileUri, events := s.events) == s
  {
    match read
    case Loaded(text) =>
      SendMessage(s.(sources := s.sources + [text], currentFileUri := Some(uri)), ScriptRun, None)
    case LoadFailed(message) =>
      SendMessage(s, SourceLoadError, Some(LoadErrorText(prefix, Render(path), message)))
  }

  /**
   * A failed read of a content URI is reported under the URI's path, and a
   * null path is rendered "null", as the string template does.
   */
  lemma UserLoadErrorNamesPath(s: State, prefix: string, message: Option<string>)
    ensures var r := LoadUserSource(s, "content://docs/tree/a.js", Some("/tree/a.js"), LoadFailed(Some("boom")), prefix);
      r.events[|s.events|].data == Some(prefix + " \"/tree/a.js\": boom")
    ensures var r := LoadUserSource(s, "content://docs", None, LoadFailed(message), prefix);
      r.events[|s.events|].data == Some(prefix + " \"null\": " + Render(message))
  {
    assert prefix + " \"" + "/tree/a.js" + "\": " + "boom" == prefix + " \"/tree/a.js\": boom";
    assert prefix + " \"" + "null" + "\": " + Render(message) == prefix + " \"null\": " + Render(message);
  }

  /** `kill`: clear `running` so the worker leaves its loop, and ask the runtime to stop. */
  function Kill(s: State): (r: State)
    ensures !r.running && r.terminateRequested
    ensures r.(running := s.running, terminateRequested := s.terminateRequested) == s
  {
    s.(running := false, terminateRequested := true)
  }

  /**
   * `interrupt`: nothing when the engine is READY; otherwise drop every
   * queued command and source, ask the runtime to stop, queue one empty
   * command to flush the runtime's error state, announce INTERRUPT and
   * return to READY.
   */
  function Interrupt(s: State): (r: State)
    ensures s.status == Ready ==> r == s
    ensures s.status != Ready ==>
      && r.status == Ready
      && r.sources == [] && r.commands == [""]
      && r.terminateRequested
      && r.events == s.events + [Event(EventKind.Interrupt, None)]
      && r.commandHistory == s.commandHistory
    ensures r.(status := s.status, sources := s.sources, commands := s.commands,
               terminateRequested := s.terminateRequested, events := s.events) == s
  {
    if s.status == Ready then s
    else
      var cleared := s.(status := Interrupted, commands := [], sources := [], terminateRequested := true);
      var flushed := cleared.(commands := cleared.commands + [""]);
      SendMessage(flushed, EventKind.Interrupt, None).(status := Ready)
  }

  /**
   * `postData`: in READY the text is recorded in the history and queued; in
   * WAITING it answers the pending prompt; otherwise it is refused and
   * nothing changes.
   */
  function PostData(s: State, data: string): (r: (State, bool))
    ensures r.1 <==> s.status == Ready || s.status == Waiting
    ensures s.status == Ready ==>
      && r.0.commandHistory == s.commandHistory + [data]
      && r.0.commands == s.commands + [data]
      && r.0.(commandHistory := s.commandHistory, commands := s.commands) == s
    ensures s.status == Waiting ==> r.0.userInput == Some(data) && r.0.(userInput := s.userInput) == s
    ensures !r.1 ==> r.0 == s
  {
    match s.status
    case Ready => (s.(commandHistory := s.commandHistory + [data], commands := s.commands + [data]), true)
    case Waiting => (s.(userInput := Some(data)), true)
    case _ => (s, false)
  }

  /** The message `executeCommand` sends for an outcome. */
  function Classify(outcome: Outcome, isSource: bool): Event
  {
    match outcome
    case Ok(value) =>
      var result := if value.Some? then value.value else "undefined";
      if !isSource then Event(Result, Some(result)) else Event(ScriptEnd, None)
    case Err(message) => Event(EvaluateError, Some(if message.Some? then message.value else ""))
  }

  /**
   * `executeCommand`: run the script and send exactly one message: RESULT
   * with the value ("undefined" for null) for a command, SCRIPT_END for a
   * source, EVALUATE_ERROR with the message ("" for none) on failure.
   */
  function ExecuteCommand(s: State, execute: Runtime, command: string, isSource: bool): (r: State)
    ensures r.executed == s.executed + [command]
    ensures |r.events| == |s.events| + 1 && r.events[..|s.events|] == s.events
    ensures var outcome := execute(s.executed, command);
      && (outcome.Ok? && !isSource ==>
            r.events[|s.events|] == Event(Result, Some(if outcome.value.Some? then outcome.value.value else "undefined")))
      && (outcome.Ok? && isSource ==> r.events[|s.events|] == Event(ScriptEnd, None))
      && (outcome.Err? ==>
            r.events[|s.events|] == Event(EvaluateError, Some(if outcome.message.Some? then outcome.message.value else "")))
    ensures r.(executed := s.executed, events := s.events) == s
  {
    var outcome := execute(s.executed, command);
    SendMessage(s.(executed := s.executed + [command]), Classify(outcome, isSource).what, Classify(outcome, isSource).data)
  }

  /** The start-up loop body, `executeCommand(source, true)`, over the sources in turn. */
  function ExecuteAll(s: State, execute: Runtime, srcs: seq<string>): State
    decreases |srcs|
  {
    if srcs == [] then s
    else ExecuteCommand(ExecuteAll(s, execute, srcs[..|srcs| - 1]), execute, srcs[|srcs| - 1], true)
  }

  /**
   * Running sources one after the other runs each of them, in order, on a
   * runtime that has seen exactly the ones before it, and sends one message
   * per source, whether or not earlier ones failed.
   */
  lemma {:induction false} ExecuteAllRunsEachSource(s: State, execute: Runtime, srcs: seq<string>)
    ensures ExecuteAll(s, execute, srcs).executed == s.executed + srcs
    ensures |ExecuteAll(s, execute, srcs).events| == |s.events| + |srcs|
    ensures ExecuteAll(s, execute, srcs).events[..|s.events|] == s.events
    ensures forall i :: 0 <= i < |srcs| ==>
      ExecuteAll(s, execute, srcs).events[|s.events| + i] == Classify(execute(s.executed + srcs[..i], srcs[i]), true)
    ensures ExecuteAll(s, execute, srcs).(executed := s.executed, events := s.events) == s
    decreases |srcs|
  {
    if srcs != [] {
      var init := srcs[..|srcs| - 1];
      ExecuteAllRunsEachSource(s, execute, init);
      var before := ExecuteAll(s, execute, init);
      var n := |srcs| - 1;
      assert before.executed == s.executed + srcs[..n];
      forall i | 0 <= i < |srcs|
        ensures ExecuteAll(s, execute, srcs).events[|s.events| + i] == Classify(execute(s.executed + srcs[..i], srcs[i]), true)
      {
        if i < n {
          assert init[..i] == srcs[..i];
        }
      }
    }
  }

  /**
   * The start of the worker's `loop`: set `running`, go BUSY, run every
   * queued source (the queue is iterated, not drained), announce INITIALIZED
   * and go READY.
   */
  function RunSources(s: State, execute: Runtime): (r: State)
    ensures r.started && r.running && r.status == Ready
    ensures |r.events| > |s.events| && r.events[|r.events| - 1] == Event(Initialized, None)
    ensures s.executed <= r.executed && |r.executed| == |s.executed| + |s.sources|
    ensures r.sources == s.sources && r.commands == s.commands
    ensures r.commandHistory == s.commandHistory && r.userInput == s.userInput
  {
    var busy := s.(started := true, running := true, status := Busy);
    ExecuteAllRunsEachSource(busy, execute, s.sources);
    var ran := ExecuteAll(busy, execute, s.sources);
    SendMessage(ran, Initialized, None).(status := Ready)
  }

  /**
   * Start-up order: every source runs, in queue order, before INITIALIZED is
   * sent; a failing source does not stop the later ones; the engine is then
   * READY with its queues and history as they were.
   */
  lemma StartUpSequence(s: State, execute: Runtime)
    ensures var r := RunSources(s, execute);
      && r.executed == s.executed + s.sources
      && |r.events| == |s.events| + |s.sources| + 1
      && r.events[..|s.events|] == s.events
      && (forall i :: 0 <= i < |s.sources| ==>
            r.events[|s.events| + i] == Classify(execute(s.executed + s.sources[..i], s.sources[i]), true)
            && r.events[|s.events| + i].what != Initialized)
      && r.events[|s.events| + |s.sources|] == Event(Initialized, None)
      && r.status == Ready && r.started && r.running
      && r.sources == s.sources && r.commands == s.commands
      && r.commandHistory == s.commandHistory && r.userInput == s.userInput
  {
    var busy := s.(started := true, running := true, status := Busy);
    ExecuteAllRunsEachSource(busy, execute, s.sources);
  }

  /**
   * One pass of the worker's `while (running)` loop: take the head command,
   * go BUSY and run it as a command; with nothing queued, go READY unless
   * an interrupt is in progress.
   */
  function Step(s: State, execute: Runtime): (r: State)
    ensures s.commands != [] ==>
      && r.commands == s.commands[1..]
      && r.status == Busy
      && r.executed == s.executed + [s.commands[0]]
      && |r.events| == |s.events| + 1 && r.events[..|s.events|] == s.events
      && r.events[|s.events|] == Classify(execute(s.executed, s.commands[0]), false)
    ensures s.commands == [] ==> r == s.(status := if s.status == Interrupted then Interrupted else Ready)
    ensures r.commandHistory == s.commandHistory && r.sources == s.sources && r.userInput == s.userInput
    ensures r.running == s.running && r.started == s.started && r.released == s.released
  {
    if s.commands != [] then
      ExecuteCommand(s.(commands := s.commands[1..], status := Busy), execute, s.commands[0], false)
    else if s.status != Interrupted then s.(status := Ready)
    else s
  }

  /** The worker leaves its loop once `running` is clear, and releases the runtime. */
  function Exit(s: State): (r: State)
    ensures r.released && r.(released := s.released) == s
  {
    s.(released := true)
  }

  /** The `print` host function: nothing without an argument, else PRINT with the first one. */
  function PrintCallback(s: State, args: seq<Option<string>>): (r: State)
    ensures |args| == 0 ==> r == s
    ensures |args| > 0 ==> r.events == s.events + [Event(Print, Some(Render(args[0])))]
    ensures r.(events := s.events) == s
  {
    if |args| == 0 then s else SendMessage(s, Print, Some(Render(args[0])))
  }

  /** The `println` host function: PRINT_LINE with the first argument, or a newline without one. */
  function PrintLineCallback(s: State, args: seq<Option<string>>): (r: State)
    ensures |args| == 0 ==> r.events == s.events + [Event(PrintLine, Some("\n"))]
    ensures |args| > 0 ==> r.events == s.events + [Event(PrintLine, Some(Render(args[0])))]
    ensures r.(events := s.events) == s
  {
    SendMessage(s, PrintLine, Some(if |args| == 0 then "\n" else Render(args[0])))
  }

  /** The `clear` host function: CLEAR without payload. */
  function ClearCallback(s: State): (r: State)
    ensures r.events == s.events + [Event(Clear, None)]
    ensures r.(events := s.events) == s
  {
    SendMessage(s, Clear, None)
  }

  /** The prompt text: the first argument when present and not null, else "". */
  function PromptText(args: seq<Option<string>>): string
  {
    if |args| > 0 && args[0].Some? then args[0].value else ""
  }

  /** The `prompt` host function up to its wait: forget any old input and send PROMPT. */
  function PromptBegin(s: State, args: seq<Option<string>>): (r: State)
    ensures r.userInput == None
    ensures r.events == s.events + [Event(Prompt, Some(PromptText(args)))]
    ensures r.(userInput := s.userInput, events := s.events) == s
  {
    SendMessage(s.(userInput := None), Prompt, Some(PromptText(args)))
  }

  /** One turn of the prompt's wait: no input yet, so the engine is WAITING. */
  function PromptWait(s: State): (r: State)
    requires s.userInput.None?
    ensures r.status == Waiting && r.(status := s.status) == s
  {
    s.(status := Waiting)
  }

  /** The end of `prompt`: input has arrived; go BUSY again and hand it to the script. */
  function PromptResume(s: State): (r: (State, string))
    requires s.userInput.Some?
    ensures r.1 == s.userInput.value
    ensures r.0.status == Busy && r.0.(status := s.status) == s
  {
    (s.(status := Busy), s.userInput.value)
  }

  /**
   * The prompt protocol: after PROMPT is sent and the engine waits, posted
   * text is accepted as the answer (not as a command), the script receives
   * exactly that text, and the engine is BUSY with its history and queue
   * untouched.
   */
  lemma PromptReturnsPostedText(s: State, args: seq<Option<string>>, data: string)
    ensures var waiting := PromptWait(PromptBegin(s, args));
      var posted := PostData(waiting, data);
      && posted.1
      && posted.0.userInput == Some(data)
      && PromptResume(posted.0).1 == data
      && PromptResume(posted.0).0.status == Busy
      && PromptResume(posted.0).0.commandHistory == s.commandHistory
      && PromptResume(posted.0).0.commands == s.commands
      && PromptResume(posted.0).0.events == s.events + [Event(Prompt, Some(PromptText(args)))]
  {
  }

  /**
   * After an interrupt the engine accepts input again, and the next command
   * the worker runs is the empty flush command, never one queued before the
   * interrupt.
   */
  lemma InterruptDiscardsQueuedWork(s: State, data: string, execute: Runtime)
    requires s.status != Ready
    ensures PostData(Interrupt(s), data).1
    ensures Step(PostData(Interrupt(s), data).0, execute).executed == s.executed + [""]
    ensures Step(PostData(Interrupt(s), data).0, execute).commands == [data]
  {
  }

  /**
   * An interrupt during a prompt does not answer it: the prompt is still
   * waiting for input, so its next turn puts the engine back in WAITING and
   * the next posted text answers the prompt instead of being queued.
   */
  lemma InterruptLeavesPromptWaiting(s: State, data: string)
    requires s.status == Waiting && s.userInput.None?
    ensures Interrupt(s).userInput.None?
    ensures PromptWait(Interrupt(s)).status == Waiting
    ensures PostData(PromptWait(Interrupt(s)), data).0.commandHistory == s.commandHistory
    ensures PostData(PromptWait(Interrupt(s)), data).0.userInput == Some(data)
  {
  }
}
