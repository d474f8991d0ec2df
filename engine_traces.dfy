/**
 * Runs of the script engine: any sequence of controller calls, worker loop
 * passes and host-function calls, replayed on EngineState, and what holds
 * of every such run.
 */
module EngineTraces {
  import opened Wrappers
  import opened EngineState

  /** One thing that can happen to the engine. */
  datatype Action =
    | Submit(data: string)                                  // postData
    | RequestInterrupt                                      // interrupt
    | RequestKill                                           // kill
    | LoadUser(uri: string, path: Option<string>, read: LoadResult, prefix: string) // loadUserSource
    | StartWorker(execute: Runtime)                         // start-up part of loop
    | PollOnce(execute: Runtime)                            // one pass of the while loop
    | StopWorker                                            // loop exit and release
    | CallPrint(args: seq<Option<string>>)
    | CallPrintLine(args: seq<Option<string>>)
    | CallClear
    | CallPromptBegin(args: seq<Option<string>>)
    | CallPromptWait
    | CallPromptResume

  /** When each action can happen at all. */
  predicate Enabled(s: State, a: Action)
  {
    match a
    case StartWorker(_) => !s.started
    case PollOnce(_) => s.running
    case StopWorker => s.started && !s.running && !s.released
    case CallPromptWait => s.userInput.None?
    case CallPromptResume => s.userInput.Some?
    case _ => true
  }

  function Apply(s: State, a: Action): State
    requires Enabled(s, a)
  {
    match a
    case Submit(data) => PostData(s, data).0
    case RequestInterrupt => Interrupt(s)
    case RequestKill => Kill(s)
    case LoadUser(uri, path, read, prefix) => LoadUserSource(s, uri, path, read, prefix)
    case StartWorker(execute) => RunSources(s, execute)
    case PollOnce(execute) => Step(s, execute)
    case StopWorker => Exit(s)
    case CallPrint(args) => PrintCallback(s, args)
    case CallPrintLine(args) => PrintLineCallback(s, args)
    case CallClear => ClearCallback(s)
    case CallPromptBegin(args) => PromptBegin(s, args)
    case CallPromptWait => PromptWait(s)
    case CallPromptResume => PromptResume(s).0
  }

  /** Every action of the run is enabled when it happens. */
  predicate Feasible(s: State, acts: seq<Action>)
    decreases |acts|
  {
    acts == [] || (Enabled(s, acts[0]) && Feasible(Apply(s, acts[0]), acts[1..]))
  }

  function Replay(s: State, acts: seq<Action>): State
    requires Feasible(s, acts)
    decreases |acts|
  {
    if acts == [] then s else Replay(Apply(s, acts[0]), acts[1..])
  }

  /** One action only ever appends to the messages, the history and the runtime's record. */
  lemma ApplyOnlyAppends(s: State, a: Action)
    requires Enabled(s, a)
    ensures s.events <= Apply(s, a).events
    ensures s.commandHistory <= Apply(s, a).commandHistory
    ensures s.executed <= Apply(s, a).executed
  {
    match a
    case StartWorker(execute) => StartUpSequence(s, execute);
    case _ =>
  }

  /**
   * In every run, the Handler's messages, the command history and the
   * scripts the runtime has run are only ever extended: nothing sent is
   * withdrawn or reordered, and no history entry is lost.
   */
  lemma {:induction false} ReplayOnlyAppends(s: State, acts: seq<Action>)
    requires Feasible(s, acts)
    ensures s.events <= Replay(s, acts).events
    ensures s.commandHistory <= Replay(s, acts).commandHistory
    ensures s.executed <= Replay(s, acts).executed
    decreases |acts|
  {
    if acts != [] {
      var next := Apply(s, acts[0]);
      ApplyOnlyAppends(s, acts[0]);
      ReplayOnlyAppends(next, acts[1..]);
      SeqPrefixTransitive(s.events, next.events, Replay(s, acts).events);
      SeqPrefixTransitive(s.commandHistory, next.commandHistory, Replay(s, acts).commandHistory);
      SeqPrefixTransitive(s.executed, next.executed, Replay(s, acts).executed);
    }
  }

  lemma SeqPrefixTransitive<T>(a: seq<T>, b: seq<T>, c: seq<T>)
    requires a <= b && b <= c
    ensures a <= c
  {
    assert c[..|b|][..|a|] == c[..|a|];
  }

  /** Actions that leave the command queue to `postData` and the worker: no interrupt and no start-up. */
  predicate KeepsQueue(a: Action)
  {
    !a.RequestInterrupt? && !a.StartWorker?
  }

  /**
   * One such action keeps "run so far, then still queued" equal to what
   * was there before followed by the newly recorded history entries.
   */
  lemma ApplyKeepsQueueOrder(s: State, a: Action)
    requires Enabled(s, a) && KeepsQueue(a)
    ensures s.commandHistory <= Apply(s, a).commandHistory
    ensures Apply(s, a).executed + Apply(s, a).commands
         == s.executed + s.commands + Apply(s, a).commandHistory[|s.commandHistory|..]
  {
    var r := Apply(s, a);
    match a
    case PollOnce(execute) =>
      if s.commands != [] {
        assert s.commands == [s.commands[0]] + s.commands[1..];
      }
    case _ =>
  }

  /**
   * Commands run in the order they were submitted: in a run without
   * interrupt or start-up, the scripts the runtime has run followed by the
   * commands still queued are the earlier ones followed by exactly the texts
   * newly added to the command history, in history order.
   */
  lemma {:induction false} CommandsRunInSubmissionOrder(s: State, acts: seq<Action>)
    requires Feasible(s, acts)
    requires forall i :: 0 <= i < |acts| ==> KeepsQueue(acts[i])
    ensures s.commandHistory <= Replay(s, acts).commandHistory
    ensures Replay(s, acts).executed + Replay(s, acts).commands
         == s.executed + s.commands + Replay(s, acts).commandHistory[|s.commandHistory|..]
    decreases |acts|
  {
    if acts != [] {
      var next := Apply(s, acts[0]);
      var last := Replay(s, acts);
      ApplyKeepsQueueOrder(s, acts[0]);
      CommandsRunInSubmissionOrder(next, acts[1..]);
      SeqPrefixTransitive(s.commandHistory, next.commandHistory, last.commandHistory);
      var h0, h1 := |s.commandHistory|, |next.commandHistory|;
      assert last.commandHistory[h0..] == next.commandHistory[h0..] + last.commandHistory[h1..];
    }
  }
}
