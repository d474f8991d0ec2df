/**
 * Engine status values and the kinds of message the script engine posts to
 * its Handler, with the integer codes the Kotlin code uses for them
 * (models/scripting/ScriptEngine.kt).
 */
module ScriptEvents {
  import opened Wrappers

  /** The engine's `status` field. */
  datatype Status = Interrupted | Ready | Busy | Waiting

  /** The STATUS_* constant stored for each status. */
  function StatusCode(s: Status): int
  {
    match s
    case Interrupted => -1
    case Ready => 0
    case Busy => 1
    case Waiting => 2
  }

  /** The `what` of a Handler message. */
  datatype EventKind =
    | SourceLoadError
    | EvaluateError
    | Initialized
    | Result
    | Print
    | PrintLine
    | Prompt
    | Clear
    | Restart
    | ScriptRun
    | ScriptEnd
    | Interrupt
    | ShortcutCreated

  /** The EVENT_* constant sent for each kind of message. */
  function EventCode(k: EventKind): (c: int)
    ensures -2 <= c <= 10
  {
    match k
    case SourceLoadError => -2
    case EvaluateError => -1
    case Initialized => 0
    case Result => 1
    case Print => 2
    case PrintLine => 3
    case Prompt => 4
    case Clear => 5
    case Restart => 6
    case ScriptRun => 7
    case ScriptEnd => 8
    case Interrupt => 9
    case ShortcutCreated => 10
  }

  /** Reads a `what` code back as a message kind, as an observer does. */
  function KindOfCode(c: int): (k: Option<EventKind>)
    ensures k.Some? <==> -2 <= c <= 10
  {
    if c == -2 then Some(SourceLoadError)
    else if c == -1 then Some(EvaluateError)
    else if c == 0 then Some(Initialized)
    else if c == 1 then Some(Result)
    else if c == 2 then Some(Print)
    else if c == 3 then Some(PrintLine)
    else if c == 4 then Some(Prompt)
    else if c == 5 then Some(Clear)
    else if c == 6 then Some(Restart)
    else if c == 7 then Some(ScriptRun)
    else if c == 8 then Some(ScriptEnd)
    else if c == 9 then Some(Interrupt)
    else if c == 10 then Some(ShortcutCreated)
    else None
  }

  /** The codes are a faithful encoding of the kinds: decoding inverts encoding, both ways. */
  lemma EventCodeRoundTrip(k: EventKind, c: int)
    ensures KindOfCode(EventCode(k)) == Some(k)
    ensures KindOfCode(c) == Some(k) ==> EventCode(k) == c
  {
  }

  /** Distinct statuses are stored as distinct integers. */
  lemma StatusCodeInjective(s: Status, t: Status)
    ensures StatusCode(s) == StatusCode(t) ==> s == t
  {
  }

  /** A message sent through the Handler: its kind and its optional text payload. */
  datatype Event = Event(what: EventKind, data: Option<string>)

  /** What `handler.obtainMessage(what, data)` carries: the integer `what` and the text `obj`. */
  datatype Message = Message(what: int, obj: Option<string>)

  /** `sendMessage` for each event in turn: the messages the Handler queue receives. */
  function Encoded(events: seq<Event>): (r: seq<Message>)
    ensures |r| == |events|
    decreases |events|
  {
    if events == [] then []
    else Encoded(events[..|events| - 1]) + [Message(EventCode(events[|events| - 1].what), events[|events| - 1].data)]
  }

  /**
   * A generic listener dispatching on `what`: a known code becomes its
   * event with the payload as sent, an unknown code is ignored.
   */
  function Observed(msgs: seq<Message>): (r: seq<Event>)
    ensures |r| <= |msgs|
    decreases |msgs|
  {
    if msgs == [] then []
    else
      var last := msgs[|msgs| - 1];
      match KindOfCode(last.what)
      case Some(k) => Observed(msgs[..|msgs| - 1]) + [Event(k, last.obj)]
      case None => Observed(msgs[..|msgs| - 1])
  }

  /** A listener sees exactly the events the engine sent, in the order sent. */
  lemma {:induction false} ListenerSeesEverySentEvent(events: seq<Event>)
    ensures Observed(Encoded(events)) == events
    decreases |events|
  {
    if events != [] {
      var front := events[..|events| - 1];
      var last := events[|events| - 1];
      ListenerSeesEverySentEvent(front);
      EventCodeRoundTrip(last.what, 0);
      assert Encoded(events)[..|events| - 1] == Encoded(front);
      assert events == front + [last];
    }
  }
}
