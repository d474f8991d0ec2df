# MobileScript session core in Dafny

A model of the state-keeping logic behind the MobileScript Android app's interactive JavaScript console. It covers three parts, each with proofs.

- **The script engine** (`models/scripting/ScriptEngine.kt`). This is a small state machine over READY, BUSY, WAITING and INTERRUPTED. It owns:
  - a FIFO command queue and a source queue;
  - an append-only command history;
  - a one-slot cell for answering prompts;
  - the stream of messages it sends to its Android `Handler`.
  
  Its operations are:
  - `postData` (queue a command, answer a prompt, or refuse);
  - `interrupt` and `kill`;
  - loading a user source;
  - the worker's `executeCommand` and `loop`;
  - the host functions `print`, `println`, `clear` and `prompt` that scripts call.
- **The console output buffer** (`views/ui/console/ConsoleOutputRow.kt` and `ConsoleViewModel.kt`). A row is an append-only text buffer of a fixed type that can be sealed once. The view model keeps a list of rows. Output text is merged into an open trailing OUTPUT row, or else a new row is started. Every new row seals the one before it.
- **The shortcut table** (`views/ui/shortcuts/ShortcutViewModel.kt`). This is a title→URI map. It is created once, takes a new title only if the title is absent, and forgets titles on request.

## Layout

Each Kotlin class becomes a Dafny class whose fields hold the state that class keeps. Each of its methods is specified by a pure function of the same operation over a value of the whole state. Take `ensures Model() == EngineState.PostData(old(Model()), data)` as an example. What the source promises is stated in the contracts of those functions and in lemmas about them.

| file | module | models |
|---|---|---|
| `wrappers.dfy` | `Wrappers` | `Option`, for Kotlin's nullable references |
| `script_events.dfy` | `ScriptEvents` | statuses, message kinds, their integer codes and the Handler messages |
| `engine_state.dfy` | `EngineState` | the engine as a value, one transition per operation |
| `engine_traces.dfy` | `EngineTraces` | arbitrary runs of the engine and what holds of all of them |
| `script_engine.dfy` | `Scripting` | class `ScriptEngine` |
| `console_row.dfy` | `ConsoleRows` | the row value and class `ConsoleOutputRow` |
| `console_spec.dfy` | `ConsoleSpec` | the row list as a value, its invariant and its operations |
| `console.dfy` | `Console` | class `ConsoleViewModel` over a list of row objects |
| `shortcuts.dfy` | `Shortcuts` | the table as a value and class `ShortcutViewModel` |

### How the engine is abstracted

- **The JavaScript runtime is an oracle.** It has the type `Runtime = (history, script) -> Ok(value?) | Err(message?)`. The outcome of a script may depend on every script the same runtime ran before it. The engine records those scripts in `executed`.
- **The worker thread is a set of atomic steps.** `RunSources` is the start-up part of `loop`. `Step` is one pass of `while (running)`. `Exit` leaves the loop and releases the runtime.
- **`prompt` is split into three steps.** `PromptBegin` clears the input and sends PROMPT. `PromptWait` is one turn of the wait and sets WAITING. `PromptResume` sets BUSY and returns the input.
- **The `Handler` is an append-only `seq<Event>`.**
- **Where the worker's fields live.** The worker object `ScriptRunnable` has the queues and the `running` flag. In the model these are fields of the engine itself.
- **Fields the class adds and drops.** `Scripting.ScriptEngine` adds five fields that record what the model observes: `started`, `terminateRequested`, `released`, `executed` and `events`. It drops `handler` (replaced by `events`), `context`, `contentResolver` and `assetManager` (what they read is a parameter), and `thread` and `runnable` (their state is `started`, `released` and the worker fields above).

### Behaviour of `ScriptEngine.kt` worth knowing

- **Interrupting a prompt.** `interrupt` does not release a pending prompt. The prompt callback's wait loop keeps running and sets WAITING again, so the next posted text answers that prompt instead of being queued. `EngineState.InterruptLeavesPromptWaiting` states this.
- **Sources at start-up.** The start-up loop iterates over the source queue without draining it. Sources stay queued after INITIALIZED until an interrupt clears them.
- **Restart and history clearing.** `ScriptEngine.kt` implements neither. `restartScriptEngine` and `clearCommandHistory` are declared in the interface `ScriptEngineHandler.kt` (lines 12-13), which the console screen expects its host activity to implement. The `MainActivity.kt` here implements only `ScriptEventEmitter` (lines 30-31), and it posts `ScriptEngine.STATUS_RESTART` (line 81), a constant the engine does not define.
- **Failing sources.** A source that throws while it runs produces EVALUATE_ERROR (through `executeCommand`). SOURCE_LOAD_ERROR is only sent when a file cannot be read.
- **The user-source error names the path.** When a content URI cannot be read, the message quotes the URI's path component (`fileUri.path`), not the whole URI, and a null path appears as "null". `EngineState.UserLoadErrorNamesPath` states this on an example.

## Model

| member | source | states |
|---|---|---|
| ScriptEvents.EventCodeRoundTrip | app/src/main/java/io/github/ascenderx/mobilescript/models/scripting/ScriptEngine.kt:17-29 | the EVENT_* codes encode the message kinds one-to-one, so decoding a code gives back its kind |
| ScriptEvents.ListenerSeesEverySentEvent | app/src/main/java/io/github/ascenderx/mobilescript/models/scripting/ScriptEngine.kt:161-164 | a listener that dispatches on the `what` code of each Handler message recovers exactly the events sent, in order |
| ScriptEvents.StatusCodeInjective | app/src/main/java/io/github/ascenderx/mobilescript/models/scripting/ScriptEngine.kt:31-34 | distinct statuses have distinct STATUS_* codes |
| EngineState.SendMessage | app/src/main/java/io/github/ascenderx/mobilescript/models/scripting/ScriptEngine.kt:161-164 | a message goes after every earlier one, and nothing else changes |
| EngineState.LoadAssetSource | app/src/main/java/io/github/ascenderx/mobilescript/models/scripting/ScriptEngine.kt:70-81 | a readable asset's text is queued with no message; an unreadable one sends one SOURCE_LOAD_ERROR with the prefix, the path and the exception message and queues nothing; nothing else changes |
| EngineState.LoadAssets | app/src/main/java/io/github/ascenderx/mobilescript/models/scripting/ScriptEngine.kt:50-54 | loading the assets only extends the source queue and the messages, by one entry per asset in all, and changes nothing else |
| EngineState.LoadAssetsQueuesInOrder | app/src/main/java/io/github/ascenderx/mobilescript/models/scripting/ScriptEngine.kt:70-81 | loading the assets queues every readable one in asset order, reports every unreadable one in order with the prefix, path and exception message, and changes nothing else |
| EngineState.EveryAssetAccountedFor | app/src/main/java/io/github/ascenderx/mobilescript/models/scripting/ScriptEngine.kt:50-54 | every asset is either queued or reported as SOURCE_LOAD_ERROR, exactly once |
| EngineState.LoadUserSource | app/src/main/java/io/github/ascenderx/mobilescript/models/scripting/ScriptEngine.kt:83-96 | success queues the text, records the URI and sends SCRIPT_RUN; failure sends SOURCE_LOAD_ERROR with the prefix, the URI's path ("null" when absent) and the exception message, and changes no queue or URI |
| EngineState.Kill | app/src/main/java/io/github/ascenderx/mobilescript/models/scripting/ScriptEngine.kt:125-128 | clears `running` and requests termination; nothing else changes |
| EngineState.Interrupt | app/src/main/java/io/github/ascenderx/mobilescript/models/scripting/ScriptEngine.kt:130-144 | a no-op in READY; otherwise the sources are emptied, the commands are exactly `[""]`, termination is requested, exactly one INTERRUPT is sent, status ends READY and the history is unchanged |
| EngineState.PostData | app/src/main/java/io/github/ascenderx/mobilescript/models/scripting/ScriptEngine.kt:146-159 | accepted iff READY or WAITING; in READY the text is appended to the history and the queue; in WAITING it becomes the prompt input; when refused nothing changes |
| EngineState.ExecuteCommand | app/src/main/java/io/github/ascenderx/mobilescript/models/scripting/ScriptEngine.kt:174-188 | exactly one message per script: RESULT with the value or "undefined" for a command, SCRIPT_END for a source, EVALUATE_ERROR with the message or "" on failure |
| EngineState.ExecuteAllRunsEachSource | app/src/main/java/io/github/ascenderx/mobilescript/models/scripting/ScriptEngine.kt:195-197 | every source runs, in order, on a runtime that has seen exactly the ones before it, and gets its own message even after failures |
| EngineState.RunSources | app/src/main/java/io/github/ascenderx/mobilescript/models/scripting/ScriptEngine.kt:190-199 | the worker is started and running and ends READY with INITIALIZED as the last message; one script is run per queued source; the queues, history and prompt input are unchanged |
| EngineState.StartUpSequence | app/src/main/java/io/github/ascenderx/mobilescript/models/scripting/ScriptEngine.kt:190-199 | all sources run in queue order before INITIALIZED, which is the last message; status is then READY and the queues and history are as before |
| EngineState.Step | app/src/main/java/io/github/ascenderx/mobilescript/models/scripting/ScriptEngine.kt:201-209 | a pass takes the head of the queue (FIFO), goes BUSY and sends that command's one message; with an empty queue it goes READY unless INTERRUPTED |
| EngineState.Exit | app/src/main/java/io/github/ascenderx/mobilescript/models/scripting/ScriptEngine.kt:201-210 | leaving the loop releases the runtime and changes nothing else |
| EngineState.PrintCallback | app/src/main/java/io/github/ascenderx/mobilescript/models/scripting/ScriptEngine.kt:234-242 | without arguments nothing is sent; otherwise one PRINT with the first argument |
| EngineState.PrintLineCallback | app/src/main/java/io/github/ascenderx/mobilescript/models/scripting/ScriptEngine.kt:244-253 | one PRINT_LINE, with "\n" when there is no argument, else the first argument |
| EngineState.ClearCallback | app/src/main/java/io/github/ascenderx/mobilescript/models/scripting/ScriptEngine.kt:255-259 | one CLEAR without payload |
| EngineState.PromptBegin | app/src/main/java/io/github/ascenderx/mobilescript/models/scripting/ScriptEngine.kt:262-274 | clears the input and sends one PROMPT with the first argument, or "" when it is absent or null |
| EngineState.PromptWait | app/src/main/java/io/github/ascenderx/mobilescript/models/scripting/ScriptEngine.kt:275-277 | while no input has arrived the engine is WAITING |
| EngineState.PromptResume | app/src/main/java/io/github/ascenderx/mobilescript/models/scripting/ScriptEngine.kt:278-280 | once input has arrived the engine is BUSY and the script gets exactly that input |
| EngineState.PromptReturnsPostedText | app/src/main/java/io/github/ascenderx/mobilescript/models/scripting/ScriptEngine.kt:261-282 | after PROMPT and a wait, posted text is accepted as the answer, the script receives exactly it, the status is BUSY, and the history and queue are untouched |
| EngineState.InterruptDiscardsQueuedWork | app/src/main/java/io/github/ascenderx/mobilescript/models/scripting/ScriptEngine.kt:130-144 | after an interrupt, input is accepted again and the next script run is the empty flush command, never a stale queued one |
| EngineState.InterruptLeavesPromptWaiting | app/src/main/java/io/github/ascenderx/mobilescript/models/scripting/ScriptEngine.kt:273-280 | an interrupt during a prompt leaves the prompt unanswered; its next wait turn is WAITING again, and posted text answers it without entering the history |
| EngineTraces.ReplayOnlyAppends | app/src/main/java/io/github/ascenderx/mobilescript/models/scripting/ScriptEngine.kt:146-164 | in any run the messages, the command history and the scripts run are only ever extended |
| EngineTraces.CommandsRunInSubmissionOrder | app/src/main/java/io/github/ascenderx/mobilescript/models/scripting/ScriptEngine.kt:146-209 | with no interrupt or start-up, the scripts run followed by those still queued are exactly the earlier ones followed by the newly recorded history entries, in history order (FIFO) |
| Scripting.ScriptEngine.constructor | app/src/main/java/io/github/ascenderx/mobilescript/models/scripting/ScriptEngine.kt:46-54 | starts READY with empty queues and history, then loads every asset in turn: readable ones are queued as sources, unreadable ones reported |
| Scripting.ScriptEngine.SendMessage | app/src/main/java/io/github/ascenderx/mobilescript/models/scripting/ScriptEngine.kt:161-164 | the state becomes `EngineState.SendMessage` of the old state |
| Scripting.ScriptEngine.LoadAssetSource | app/src/main/java/io/github/ascenderx/mobilescript/models/scripting/ScriptEngine.kt:70-81 | the state becomes `EngineState.LoadAssetSource` of the old state |
| Scripting.ScriptEngine.LoadUserSource | app/src/main/java/io/github/ascenderx/mobilescript/models/scripting/ScriptEngine.kt:83-96 | the state becomes `EngineState.LoadUserSource` of the old state |
| Scripting.ScriptEngine.Kill | app/src/main/java/io/github/ascenderx/mobilescript/models/scripting/ScriptEngine.kt:125-128 | the state becomes `EngineState.Kill` of the old state |
| Scripting.ScriptEngine.Interrupt | app/src/main/java/io/github/ascenderx/mobilescript/models/scripting/ScriptEngine.kt:130-144 | the state becomes `EngineState.Interrupt` of the old state |
| Scripting.ScriptEngine.PostData | app/src/main/java/io/github/ascenderx/mobilescript/models/scripting/ScriptEngine.kt:146-159 | the state and the answer are those of `EngineState.PostData` |
| Scripting.ScriptEngine.ExecuteCommand | app/src/main/java/io/github/ascenderx/mobilescript/models/scripting/ScriptEngine.kt:174-188 | the state becomes `EngineState.ExecuteCommand` of the old state |
| Scripting.ScriptEngine.RunSources | app/src/main/java/io/github/ascenderx/mobilescript/models/scripting/ScriptEngine.kt:190-199 | the loop over the sources reaches `EngineState.RunSources` of the old state |
| Scripting.ScriptEngine.Step | app/src/main/java/io/github/ascenderx/mobilescript/models/scripting/ScriptEngine.kt:201-209 | the state becomes `EngineState.Step` of the old state |
| Scripting.ScriptEngine.Exit | app/src/main/java/io/github/ascenderx/mobilescript/models/scripting/ScriptEngine.kt:201-210 | the state becomes `EngineState.Exit` of the old state |
| Scripting.ScriptEngine.PrintCallback | app/src/main/java/io/github/ascenderx/mobilescript/models/scripting/ScriptEngine.kt:234-242 | the state becomes `EngineState.PrintCallback` of the old state |
| Scripting.ScriptEngine.PrintLineCallback | app/src/main/java/io/github/ascenderx/mobilescript/models/scripting/ScriptEngine.kt:244-253 | the state becomes `EngineState.PrintLineCallback` of the old state |
| Scripting.ScriptEngine.ClearCallback | app/src/main/java/io/github/ascenderx/mobilescript/models/scripting/ScriptEngine.kt:255-259 | the state becomes `EngineState.ClearCallback` of the old state |
| Scripting.ScriptEngine.PromptBegin | app/src/main/java/io/github/ascenderx/mobilescript/models/scripting/ScriptEngine.kt:262-274 | the state becomes `EngineState.PromptBegin` of the old state |
| Scripting.ScriptEngine.PromptWait | app/src/main/java/io/github/ascenderx/mobilescript/models/scripting/ScriptEngine.kt:275-277 | the state becomes `EngineState.PromptWait` of the old state |
| Scripting.ScriptEngine.PromptResume | app/src/main/java/io/github/ascenderx/mobilescript/models/scripting/ScriptEngine.kt:278-280 | the state and the returned input are those of `EngineState.PromptResume` |
| ConsoleRows.Appended | app/src/main/java/io/github/ascenderx/mobilescript/views/ui/console/ConsoleOutputRow.kt:7-9 | an open row's text becomes the old text followed by the argument; a sealed row is unchanged; the type and the sealed flag never change |
| ConsoleRows.Completed | app/src/main/java/io/github/ascenderx/mobilescript/views/ui/console/ConsoleOutputRow.kt:24-30 | sealing keeps the type and the text, and makes the row complete |
| ConsoleRows.CompletedIdempotent | app/src/main/java/io/github/ascenderx/mobilescript/views/ui/console/ConsoleOutputRow.kt:24-27 | sealing twice is sealing once |
| ConsoleRows.SealedRowIsFrozen | app/src/main/java/io/github/ascenderx/mobilescript/views/ui/console/ConsoleOutputRow.kt:7-9 | appending to a sealed row changes nothing, because its buffer is gone |
| ConsoleRows.ConsoleOutputRow.constructor | app/src/main/java/io/github/ascenderx/mobilescript/views/ui/console/ConsoleOutputRow.kt:3-5 | a new row has the given type (a constant field), is open, and its text is "" |
| ConsoleRows.ConsoleOutputRow.Append | app/src/main/java/io/github/ascenderx/mobilescript/views/ui/console/ConsoleOutputRow.kt:7-9 | what the row shows becomes `Appended` of what it showed |
| ConsoleRows.ConsoleOutputRow.AppendAndComplete | app/src/main/java/io/github/ascenderx/mobilescript/views/ui/console/ConsoleOutputRow.kt:11-14 | the same as `append` followed by `complete` |
| ConsoleRows.ConsoleOutputRow.Complete | app/src/main/java/io/github/ascenderx/mobilescript/views/ui/console/ConsoleOutputRow.kt:24-30 | what the row shows becomes `Completed` of what it showed, so `getText()` is kept |
| ConsoleSpec.NewLine | app/src/main/java/io/github/ascenderx/mobilescript/views/ui/console/ConsoleViewModel.kt:70-79 | one more row, open, empty and of the given type; the old last row is sealed; earlier rows are untouched |
| ConsoleSpec.AddLine | app/src/main/java/io/github/ascenderx/mobilescript/views/ui/console/ConsoleViewModel.kt:18-34 | exactly one more row, of the given type, holding exactly the text and already sealed; the old last row is sealed and earlier rows are untouched |
| ConsoleSpec.MostRecentOutputLine | app/src/main/java/io/github/ascenderx/mobilescript/views/ui/console/ConsoleViewModel.kt:53-68 | an open trailing OUTPUT row is kept as it is; otherwise (an empty list included) a new OUTPUT row is started; either way the list ends in an open OUTPUT row |
| ConsoleSpec.AddOutput | app/src/main/java/io/github/ascenderx/mobilescript/views/ui/console/ConsoleViewModel.kt:36-40 | text is merged into an open trailing OUTPUT row with the count unchanged; otherwise exactly one new open OUTPUT row holding the text is added after sealing the last row |
| ConsoleSpec.AddOutputAndEndLine | app/src/main/java/io/github/ascenderx/mobilescript/views/ui/console/ConsoleViewModel.kt:42-46 | the same choice of row as `addOutput`, and that row is left sealed |
| ConsoleSpec.EndLineIsOutputThenSeal | app/src/main/java/io/github/ascenderx/mobilescript/views/ui/console/ConsoleViewModel.kt:36-46 | `addOutputAndEndLine` equals `addOutput` followed by sealing the row it wrote to |
| ConsoleSpec.ApplyKeepsOnlyLastOpen | app/src/main/java/io/github/ascenderx/mobilescript/views/ui/console/ConsoleViewModel.kt:70-79 | every operation keeps every row but the last sealed |
| ConsoleSpec.ApplyKeepsEarlierRows | app/src/main/java/io/github/ascenderx/mobilescript/views/ui/console/ConsoleViewModel.kt:53-79 | no add operation changes a row before the last; the old last row keeps its type and its text can only grow at the end |
| ConsoleSpec.ReplayKeepsOnlyLastOpen | app/src/main/java/io/github/ascenderx/mobilescript/views/ui/console/ConsoleViewModel.kt:18-79 | through any sequence of operations, at most the final row is open |
| ConsoleSpec.ReplayKeepsSealedRows | app/src/main/java/io/github/ascenderx/mobilescript/views/ui/console/ConsoleViewModel.kt:18-79 | without a clear, every row but the last stays exactly as it was, in place, through any sequence of operations |
| Console.ConsoleViewModel.IsEmpty | app/src/main/java/io/github/ascenderx/mobilescript/views/ui/console/ConsoleViewModel.kt:8-9 | true iff there are no rows |
| Console.ConsoleViewModel.IsNotEmpty | app/src/main/java/io/github/ascenderx/mobilescript/views/ui/console/ConsoleViewModel.kt:10-11 | true iff there is a row |
| Console.ConsoleViewModel.constructor | app/src/main/java/io/github/ascenderx/mobilescript/views/ui/console/ConsoleViewModel.kt:12 | a new view model has no rows |
| Console.ConsoleViewModel.AddCommandLine | app/src/main/java/io/github/ascenderx/mobilescript/views/ui/console/ConsoleViewModel.kt:18-22 | the rows become `AddLine` of the old rows with type COMMAND |
| Console.ConsoleViewModel.AddResultLine | app/src/main/java/io/github/ascenderx/mobilescript/views/ui/console/ConsoleViewModel.kt:24-28 | the rows become `AddLine` of the old rows with type RESULT |
| Console.ConsoleViewModel.AddErrorLine | app/src/main/java/io/github/ascenderx/mobilescript/views/ui/console/ConsoleViewModel.kt:30-34 | the rows become `AddLine` of the old rows with type ERROR |
| Console.ConsoleViewModel.AddOutput | app/src/main/java/io/github/ascenderx/mobilescript/views/ui/console/ConsoleViewModel.kt:36-40 | the rows become `AddOutput` of the old rows |
| Console.ConsoleViewModel.AddOutputAndEndLine | app/src/main/java/io/github/ascenderx/mobilescript/views/ui/console/ConsoleViewModel.kt:42-46 | the rows become `AddOutputAndEndLine` of the old rows |
| Console.ConsoleViewModel.Clear | app/src/main/java/io/github/ascenderx/mobilescript/views/ui/console/ConsoleViewModel.kt:48-51 | the list is left empty |
| Console.ConsoleViewModel.GetMostRecentOutputLine | app/src/main/java/io/github/ascenderx/mobilescript/views/ui/console/ConsoleViewModel.kt:53-68 | returns the last row; an open trailing OUTPUT row is kept and the list object unchanged, otherwise one fresh row object is appended; the rows become `MostRecentOutputLine` of the old rows |
| Console.ConsoleViewModel.NewLine | app/src/main/java/io/github/ascenderx/mobilescript/views/ui/console/ConsoleViewModel.kt:70-79 | returns a new row object appended to the list, and the rows become `NewLine` of the old rows |
| Shortcuts.Initialized | app/src/main/java/io/github/ascenderx/mobilescript/views/ui/shortcuts/ShortcutViewModel.kt:15-21 | an existing table is kept; an absent one becomes the given table, or an empty one when none is given |
| Shortcuts.WithShortcut | app/src/main/java/io/github/ascenderx/mobilescript/views/ui/shortcuts/ShortcutViewModel.kt:23-31 | a known title leaves the table unchanged; a new title maps to the URI; every other entry is kept; an absent table is first created empty |
| Shortcuts.WithoutShortcut | app/src/main/java/io/github/ascenderx/mobilescript/views/ui/shortcuts/ShortcutViewModel.kt:33-35 | removes only that title and keeps every other entry; an absent table stays absent |
| Shortcuts.InitializeOnlyOnce | app/src/main/java/io/github/ascenderx/mobilescript/views/ui/shortcuts/ShortcutViewModel.kt:15-18 | a second initialisation changes nothing |
| Shortcuts.AddIsInsertIfAbsent | app/src/main/java/io/github/ascenderx/mobilescript/views/ui/shortcuts/ShortcutViewModel.kt:26-28 | adding a title a second time, with any URI, changes nothing |
| Shortcuts.RemoveUndoesAdd | app/src/main/java/io/github/ascenderx/mobilescript/views/ui/shortcuts/ShortcutViewModel.kt:23-35 | removing a title just added to a table that lacked it gives the table back |
| Shortcuts.ShortcutStableUntilRemoved | app/src/main/java/io/github/ascenderx/mobilescript/views/ui/shortcuts/ShortcutViewModel.kt:23-35 | a present shortcut keeps its URI through any sequence of operations that does not remove its title |
| Shortcuts.ShortcutViewModel.constructor | app/src/main/java/io/github/ascenderx/mobilescript/views/ui/shortcuts/ShortcutViewModel.kt:9 | the table starts absent (null) |
| Shortcuts.ShortcutViewModel.InitializeData | app/src/main/java/io/github/ascenderx/mobilescript/views/ui/shortcuts/ShortcutViewModel.kt:15-21 | the table becomes `Initialized` of the old table |
| Shortcuts.ShortcutViewModel.AddShortcut | app/src/main/java/io/github/ascenderx/mobilescript/views/ui/shortcuts/ShortcutViewModel.kt:23-31 | the table becomes `WithShortcut` of the old table |
| Shortcuts.ShortcutViewModel.RemoveShortcut | app/src/main/java/io/github/ascenderx/mobilescript/views/ui/shortcuts/ShortcutViewModel.kt:33-35 | the table becomes `WithoutShortcut` of the old table |

## Left out

- The V8 runtime itself is not modelled:
  - creating it, `registerJavaMethod` and `release`;
  - the effect of `terminateExecution` on a running script.
  
  Execution is an oracle. `terminateRequested` records only that termination was asked for, and `released` only that the worker released the runtime.
- Threads are not modelled: `Thread`, `@Volatile`, the thread safety of `ConcurrentLinkedQueue`, and any interleaving. Every method is one atomic step.
  - Because `interrupt` is atomic, the worker never sees the transient INTERRUPTED status.
  - The busy-wait in the prompt callback is modelled one turn at a time (`PromptWait`).
- PromptResume, Step and ExecuteCommand: a script's run is one atomic step, and the host functions are separate actions that may happen at any time, not steps inside the run of the script that calls them. So:
  - the runtime oracle cannot see the text `prompt` returns, and a command such as `prompt("x?")`, whose RESULT in the code is the answer, cannot be expressed;
  - the model does not place a script's PRINT, PRINT_LINE, CLEAR and PROMPT messages before that script's own RESULT or SCRIPT_END;
  - `Step` dequeues the command, sets BUSY and sends the RESULT at once, where the code dequeues and sets BUSY before any prompt of that command.
- Delivery of Android `Handler` messages to observers is not modelled. Sending only appends to a sequence.
- Asset and content I/O is not modelled: listing the asset directory, reading files, `AssetManager` and `ContentResolver`. What a read gave is a parameter. The localised error prefixes from Android resources are parameters.
- An exception other than `IOException` while reading an asset escapes the constructor. This is not modelled.
- `start` is modelled only as the precondition `!started` of `RunSources`. A thread can be started only once.
- `kill` before the worker has started touches the uninitialised `lateinit` runtime and throws. This is not modelled: `Kill` always succeeds.
- Script values arrive already converted to text. Kotlin's `toString` of arbitrary JavaScript objects is not modelled.
- Nothing in the model sends EVENT_RESTART or EVENT_SHORTCUT_CREATED; the engine itself never sends them. They are part of the code table only.
- The `liveData` notifications (`update()`) of both view models are UI plumbing and are not modelled.
- `ShortcutViewModel.initializeData(m)` adopts the caller's map object, so later changes are shared with the caller. The model copies it as a value.
- The insertion order of the shortcut map (a `LinkedHashMap`) is not modelled.
- `ConsoleOutputRow.getText` and `isComplete` are modelled as reading functions without contracts of their own. Every row contract is stated through `Model()`, which is built from them.
- These are outside the modelled core:
  - colours of the console output types;
  - the older `models/ScriptEngine.kt`;
  - the fragments, activities, adapters and dialogs;
  - the JavaScript sources run at start-up.
