/**
 * The script engine of models/scripting/ScriptEngine.kt as an object.  The
 * worker (ScriptRunnable) shares the engine's object here: its queues, its
 * `running` flag and its runtime's record are fields of ScriptEngine.  Each
 * method is one atomic step; the worker thread is the caller of
 * RunSources, Step, Exit and the host functions.
 */
module Scripting {
  import opened Wrappers
  import opened ScriptEvents
  import EngineState

  class ScriptEngine {
    var status: Status
    var userInput: Option<string>
    var commandHistory: seq<string>
    var currentFileUri: Option<string>
    var commands: seq<string>
    var sources: seq<string>
    var started: bool
    var running: bool
    var terminateRequested: bool
    var released: bool
    var executed: seq<string>
    var events: seq<Event>

    /** The engine's whole state as a value. */
    function Model(): EngineState.State
      reads this
    {
      EngineState.State(status, userInput, commandHistory, currentFileUri, commands, sources,
                        started, running, terminateRequested, released, executed, events)
    }

    /** The engine is built, then every asset source is loaded in turn. */
    constructor (assets: seq<EngineState.AssetRead>, prefix: string)
      ensures Model() == EngineState.LoadAssets(EngineState.Initial(), assets, prefix)
    {
      status, userInput, commandHistory, currentFileUri := Ready, None, [], None;
      commands, sources := [], [];
      started, running, terminateRequested, released := false, false, false, false;
      executed, events := [], [];
      new;
      var i := 0;
      while i < |assets|
        invariant 0 <= i <= |assets|
        invariant Model() == EngineState.LoadAssets(EngineState.Initial(), assets[..i], prefix)
      {
        assert assets[..i + 1][..i] == assets[..i];
        LoadAssetSource(assets[i], prefix);
        i := i + 1;
      }
      assert assets[..|assets|] == assets;
    }

    method SendMessage(what: EventKind, data: Option<string>)
      modifies this
      ensures Model() == EngineState.SendMessage(old(Model()), what, data)
    {
      events := events + [Event(what, data)];
    }

    method LoadAssetSource(asset: EngineState.AssetRead, prefix: string)
      modifies this
      ensures Model() == EngineState.LoadAssetSource(old(Model()), asset, prefix)
    {
      match asset.read
      case Loaded(text) =>
        sources := sources + [text];
      case LoadFailed(message) =>
        SendMessage(SourceLoadError, Some(EngineState.LoadErrorText(prefix, asset.path, message)));
    }

    method LoadUserSource(uri: string, path: Option<string>, read: EngineState.LoadResult, prefix: string)
      modifies this
      ensures Model() == EngineState.LoadUserSource(old(Model()), uri, path, read, prefix)
    {
      match read
      case Loaded(text) =>
        sources := sources + [text];
        currentFileUri := Some(uri);
        SendMessage(ScriptRun, None);
      case LoadFailed(message) =>
        SendMessage(SourceLoadError, Some(EngineState.LoadErrorText(prefix, EngineState.Render(path), message)));
    }

    method Kill()
      modifies this
      ensures Model() == EngineState.Kill(old(Model()))
    {
      running := false;
      terminateRequested := true;
    }

    method Interrupt()
      modifies this
      ensures Model() == EngineState.Interrupt(old(Model()))
    {
      if status == Ready {
        return;
      }
      status := Interrupted;
      commands := [];
      sources := [];
      terminateRequested := true;
      // the empty command flushes the runtime's error state
      commands := commands + [""];
      SendMessage(EventKind.Interrupt, None);
      status := Ready;
    }

    method PostData(data: string) returns (accepted: bool)
      modifies this
      ensures (Model(), accepted) == EngineState.PostData(old(Model()), data)
    {
      match status
      case Ready =>
        commandHistory := commandHistory + [data];
        commands := commands + [data];
        return true;
      case Waiting =>
        userInput := Some(data);
        return true;
      case _ =>
        return false;
    }

    method ExecuteCommand(command: string, isSource: bool, execute: EngineState.Runtime)
      modifies this
      ensures Model() == EngineState.ExecuteCommand(old(Model()), execute, command, isSource)
    {
      var outcome := execute(executed, command);
      executed := executed + [command];
      match outcome
      case Ok(value) =>
        var result := if value.Some? then value.value else "undefined";
        if !isSource {
          SendMessage(Result, Some(result));
        } else {
          SendMessage(ScriptEnd, None);
        }
      case Err(message) =>
        SendMessage(EvaluateError, Some(if message.Some? then message.value else ""));
    }

    /** The worker's start-up: run every queued source, then announce INITIALIZED. */
    method RunSources(execute: EngineState.Runtime)
      requires !started
      modifies this
      ensures Model() == EngineState.RunSources(old(Model()), execute)
    {
      started := true;
      running := true;
      status := Busy;
      ghost var busy := Model();
      var i := 0;
      while i < |sources|
        invariant 0 <= i <= |sources|
        invariant sources == busy.sources
        invariant Model() == EngineState.ExecuteAll(busy, execute, sources[..i])
      {
        assert sources[..i + 1][..i] == sources[..i];
        ExecuteCommand(sources[i], true, execute);
        i := i + 1;
      }
      assert sources[..|sources|] == sources;
      SendMessage(Initialized, None);
      status := Ready;
    }

    /** One pass of the worker's polling loop. */
    method Step(execute: EngineState.Runtime)
      requires running
      modifies this
      ensures Model() == EngineState.Step(old(Model()), execute)
    {
      if commands != [] {
        var command := commands[0];
        commands := commands[1..];
        status := Busy;
        ExecuteCommand(command, false, execute);
      } else if status != Interrupted {
        status := Ready;
      }
    }

    /** The worker leaves its loop and releases the runtime. */
    method Exit()
      requires started && !running && !released
      modifies this
      ensures Model() == EngineState.Exit(old(Model()))
    {
      released := true;
    }

    method PrintCallback(args: seq<Option<string>>)
      modifies this
      ensures Model() == EngineState.PrintCallback(old(Model()), args)
    {
      if |args| == 0 {
        return;
      }
      SendMessage(Print, Some(EngineState.Render(args[0])));
    }

    method PrintLineCallback(args: seq<Option<string>>)
      modifies this
      ensures Model() == EngineState.PrintLineCallback(old(Model()), args)
    {
      var output := if |args| == 0 then "\n" else EngineState.Render(args[0]);
      SendMessage(PrintLine, Some(output));
    }

    method ClearCallback()
      modifies this
      ensures Model() == EngineState.ClearCallback(old(Model()))
    {
      SendMessage(Clear, None);
    }

    /** The `prompt` host function up to its wait. */
    method PromptBegin(args: seq<Option<string>>)
      modifies this
      ensures Model() == EngineState.PromptBegin(old(Model()), args)
    {
      var prompt := if |args| > 0 && args[0].Some? then args[0].value else "";
      userInput := None;
      SendMessage(Prompt, Some(prompt));
    }

    /** One turn of the prompt's wait for input. */
    method PromptWait()
      requires userInput.None?
      modifies this
      ensures Model() == EngineState.PromptWait(old(Model()))
    {
      status := Waiting;
    }

    /** The end of `prompt`, once input has been posted. */
    method PromptResume() returns (input: string)
      requires userInput.Some?
      modifies this
      ensures (Model(), input) == EngineState.PromptResume(old(Model()))
    {
      status := Busy;
      input := userInput.value;
    }
  }
}
