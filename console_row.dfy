/**
 * One row of console output (views/ui/console/ConsoleOutputRow.kt): an
 * append-only text buffer of a fixed type that can be sealed once.
 */
module ConsoleRows {
  import opened Wrappers

  /** views/ui/console/ConsoleOutputType.kt, without the colours. */
  datatype OutputType = Output | Error | Command | Result

  /** What a row shows: its type, `getText()` and `isComplete()`. */
  datatype Row = Row(kind: OutputType, text: string, complete: bool)

  /** A new row: open and empty. */
  function EmptyRow(kind: OutputType): Row
  {
    Row(kind, "", false)
  }

  /** `append`: an open row gains the text at its end; a sealed row ignores it. */
  function Appended(r: Row, t: string): (r': Row)
    ensures r'.kind == r.kind && r'.complete == r.complete
    ensures !r.complete ==> r'.text == r.text + t
    ensures r.complete ==> r' == r
  {
    if r.complete then r else r.(text := r.text + t)
  }

  /** `complete`: the row is sealed and keeps its text. */
  function Completed(r: Row): (r': Row)
    ensures r'.kind == r.kind && r'.text == r.text && r'.complete
  {
    r.(complete := true)
  }

  /** Sealing twice is sealing once. */
  lemma CompletedIdempotent(r: Row)
    ensures Completed(Completed(r)) == Completed(r)
  {
  }

  /** Once sealed, a row no longer changes, whatever is appended. */
  lemma SealedRowIsFrozen(r: Row, t: string)
    ensures Appended(Completed(r), t) == Completed(r)
  {
  }

  class ConsoleOutputRow {
    const kind: OutputType
    var buffer: Option<string>   // the open buffer; None once the row is complete
    var text: Option<string>     // the sealed text, set by Complete

    function GetText(): string
      reads this
    {
      if buffer.Some? then buffer.value
      else if text.Some? then text.value
      else ""
    }

    function IsComplete(): bool
      reads this
    {
      buffer.None?
    }

    /** The row as it can be observed. */
    function Model(): Row
      reads this
    {
      Row(kind, GetText(), IsComplete())
    }

    constructor (kind: OutputType)
      ensures Model() == EmptyRow(kind)
    {
      this.kind := kind;
      buffer := Some("");
      text := None;
    }

    method Append(t: string)
      modifies this
      ensures Model() == Appended(old(Model()), t)
    {
      if buffer.Some? {
        buffer := Some(buffer.value + t);
      }
    }

    method AppendAndComplete(t: string)
      modifies this
      ensures Model() == Completed(Appended(old(Model()), t))
    {
      Append(t);
      Complete();
    }

    method Complete()
      modifies this
      ensures Model() == Completed(old(Model()))
    {
      if buffer.None? {
        return;
      }
      text := Some(buffer.value);
      buffer := None;
    }
  }
}
