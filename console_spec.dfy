/**
 * The console's list of rows (views/ui/console/ConsoleViewModel.kt) as a
 * value, with one function per operation of the view model and the
 * invariant that only the last row may still be open.
 */
module ConsoleSpec {
  import opened ConsoleRows

  /** Every row but the last is sealed. */
  predicate OnlyLastOpen(rows: seq<Row>)
  {
    forall i :: 0 <= i < |rows| - 1 ==> rows[i].complete
  }

  /** `newLine`: seal the last row, then add an open empty row of the given type. */
  function NewLine(rows: seq<Row>, kind: OutputType): (r: seq<Row>)
    ensures |r| == |rows| + 1 && r[|rows|] == EmptyRow(kind)
    ensures |rows| > 0 ==> r[|rows| - 1] == Completed(rows[|rows| - 1])
    ensures forall i :: 0 <= i < |rows| - 1 ==> r[i] == rows[i]
  {
    if rows == [] then [EmptyRow(kind)]
    else rows[..|rows| - 1] + [Completed(rows[|rows| - 1]), EmptyRow(kind)]
  }

  /**
   * `addCommandLine`, `addResultLine`, `addErrorLine`: one more row, of the
   * given type, holding exactly the text and already sealed.
   */
  function AddLine(rows: seq<Row>, kind: OutputType, text: string): (r: seq<Row>)
    ensures |r| == |rows| + 1 && r[|rows|] == Row(kind, text, true)
    ensures |rows| > 0 ==> r[|rows| - 1] == Completed(rows[|rows| - 1])
    ensures forall i :: 0 <= i < |rows| - 1 ==> r[i] == rows[i]
  {
    var added := NewLine(rows, kind);
    added[|rows| := Completed(Appended(added[|rows|], text))]
  }

  /** The last row exists, is an OUTPUT row, and is still open. */
  predicate EndsInOpenOutput(rows: seq<Row>)
  {
    |rows| > 0 && rows[|rows| - 1].kind == Output && !rows[|rows| - 1].complete
  }

  /** `getMostRecentOutputLine`: keep an open trailing OUTPUT row, or start a new one. */
  function MostRecentOutputLine(rows: seq<Row>): (r: seq<Row>)
    ensures EndsInOpenOutput(r)
    ensures EndsInOpenOutput(rows) ==> r == rows
    ensures !EndsInOpenOutput(rows) ==> r == NewLine(rows, Output)
  {
    if |rows| > 0 then
      var last := rows[|rows| - 1];
      if last.complete || last.kind != Output then NewLine(rows, Output) else rows
    else NewLine(rows, Output)
  }

  /**
   * `addOutput`: the text is merged into an open trailing OUTPUT row;
   * otherwise (an empty list included) exactly one new open OUTPUT row
   * holding the text is added after sealing the last row.
   */
  function AddOutput(rows: seq<Row>, text: string): (r: seq<Row>)
    ensures EndsInOpenOutput(rows) ==>
      && |r| == |rows|
      && r[..|rows| - 1] == rows[..|rows| - 1]
      && r[|rows| - 1] == Row(Output, rows[|rows| - 1].text + text, false)
    ensures !EndsInOpenOutput(rows) ==>
      && |r| == |rows| + 1
      && r[..|rows|] == NewLine(rows, Output)[..|rows|]
      && r[|rows|] == Row(Output, text, false)
  {
    var target := MostRecentOutputLine(rows);
    target[|target| - 1 := Appended(target[|target| - 1], text)]
  }

  /** `addOutputAndEndLine`: the same choice of row as `addOutput`, which is then sealed. */
  function AddOutputAndEndLine(rows: seq<Row>, text: string): (r: seq<Row>)
    ensures EndsInOpenOutput(rows) ==>
      && |r| == |rows|
      && r[..|rows| - 1] == rows[..|rows| - 1]
      && r[|rows| - 1] == Row(Output, rows[|rows| - 1].text + text, true)
    ensures !EndsInOpenOutput(rows) ==>
      && |r| == |rows| + 1
      && r[..|rows|] == NewLine(rows, Output)[..|rows|]
      && r[|rows|] == Row(Output, text, true)
  {
    var target := MostRecentOutputLine(rows);
    target[|target| - 1 := Completed(Appended(target[|target| - 1], text))]
  }

  /** `addOutputAndEndLine` is `addOutput` followed by sealing the row it wrote to. */
  lemma EndLineIsOutputThenSeal(rows: seq<Row>, text: string)
    ensures var out := AddOutput(rows, text);
      AddOutputAndEndLine(rows, text) == out[|out| - 1 := Completed(out[|out| - 1])]
  {
  }

  /** The operations of the view model, for replaying a session of console output. */
  datatype ConsoleOp =
    | CommandLine(text: string)
    | ResultLine(text: string)
    | ErrorLine(text: string)
    | OutputText(text: string)
    | OutputTextAndEndLine(text: string)
    | ClearRows

  function Apply(rows: seq<Row>, op: ConsoleOp): seq<Row>
  {
    match op
    case CommandLine(t) => AddLine(rows, Command, t)
    case ResultLine(t) => AddLine(rows, Result, t)
    case ErrorLine(t) => AddLine(rows, Error, t)
    case OutputText(t) => AddOutput(rows, t)
    case OutputTextAndEndLine(t) => AddOutputAndEndLine(rows, t)
    case ClearRows => []
  }

  function Replay(rows: seq<Row>, ops: seq<ConsoleOp>): seq<Row>
    decreases |ops|
  {
    if ops == [] then rows else Replay(Apply(rows, ops[0]), ops[1..])
  }

  /** Every operation keeps "only the last row is open". */
  lemma ApplyKeepsOnlyLastOpen(rows: seq<Row>, op: ConsoleOp)
    requires OnlyLastOpen(rows)
    ensures OnlyLastOpen(Apply(rows, op))
  {
  }

  /**
   * No add operation rewrites a row before the last one, and the old last
   * row keeps its type and can only have grown at its end.
   */
  lemma ApplyKeepsEarlierRows(rows: seq<Row>, op: ConsoleOp)
    requires !op.ClearRows?
    ensures |rows| <= |Apply(rows, op)|
    ensures forall i :: 0 <= i < |rows| - 1 ==> Apply(rows, op)[i] == rows[i]
    ensures |rows| > 0 ==>
      && Apply(rows, op)[|rows| - 1].kind == rows[|rows| - 1].kind
      && rows[|rows| - 1].text <= Apply(rows, op)[|rows| - 1].text
  {
  }

  /** From an empty console, any sequence of operations leaves at most the final row open. */
  lemma {:induction false} ReplayKeepsOnlyLastOpen(rows: seq<Row>, ops: seq<ConsoleOp>)
    requires OnlyLastOpen(rows)
    ensures OnlyLastOpen(Replay(rows, ops))
    decreases |ops|
  {
    if ops != [] {
      ApplyKeepsOnlyLastOpen(rows, ops[0]);
      ReplayKeepsOnlyLastOpen(Apply(rows, ops[0]), ops[1..]);
    }
  }

  /**
   * Sealed rows are never rewritten: without a clear, every row but the last
   * stays exactly as it was, in place, through any sequence of operations.
   */
  lemma {:induction false} ReplayKeepsSealedRows(rows: seq<Row>, ops: seq<ConsoleOp>)
    requires forall k :: 0 <= k < |ops| ==> !ops[k].ClearRows?
    ensures |rows| <= |Replay(rows, ops)|
    ensures forall i :: 0 <= i < |rows| - 1 ==> Replay(rows, ops)[i] == rows[i]
    decreases |ops|
  {
    if ops != [] {
      var next := Apply(rows, ops[0]);
      ApplyKeepsEarlierRows(rows, ops[0]);
      ReplayKeepsSealedRows(next, ops[1..]);
      assert |rows| <= |next|;
    }
  }
}
