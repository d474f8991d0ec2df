/**
 * The console's view model (views/ui/console/ConsoleViewModel.kt): a list
 * of row objects changed in place.  Rows() is the list as ConsoleSpec sees
 * it; every method is specified by the ConsoleSpec function of its name.
 */
module Console {
  import opened ConsoleRows
  import ConsoleSpec

  /** What a list of row objects shows, row by row. */
  function RowsOf(rs: seq<ConsoleOutputRow>): (r: seq<Row>)
    reads rs
    ensures |r| == |rs|
    ensures forall i :: 0 <= i < |rs| ==> r[i] == rs[i].Model()
  {
    seq(|rs|, i reads rs requires 0 <= i < |rs| => rs[i].Model())
  }

  class ConsoleViewModel {
    var data: seq<ConsoleOutputRow>

    /** No row object appears twice in the list. */
    ghost predicate Valid()
      reads this
    {
      forall i, j :: 0 <= i < j < |data| ==> data[i] != data[j]
    }

    ghost function Rows(): seq<Row>
      reads this, data
    {
      RowsOf(data)
    }

    function IsEmpty(): (b: bool)
      reads this, data
      ensures b <==> Rows() == []
    {
      |data| == 0
    }

    function IsNotEmpty(): (b: bool)
      reads this, data
      ensures b <==> Rows() != []
    {
      |data| != 0
    }

    constructor ()
      ensures Valid() && Rows() == []
    {
      data := [];
    }

    method AddCommandLine(text: string)
      requires Valid()
      modifies this, data
      ensures Valid() && Rows() == ConsoleSpec.AddLine(old(Rows()), Command, text)
    {
      var row := NewLine(Command);
      row.AppendAndComplete(text);
      assert Rows() == ConsoleSpec.AddLine(old(Rows()), Command, text);
    }

    method AddResultLine(text: string)
      requires Valid()
      modifies this, data
      ensures Valid() && Rows() == ConsoleSpec.AddLine(old(Rows()), Result, text)
    {
      var row := NewLine(Result);
      row.AppendAndComplete(text);
      assert Rows() == ConsoleSpec.AddLine(old(Rows()), Result, text);
    }

    method AddErrorLine(text: string)
      requires Valid()
      modifies this, data
      ensures Valid() && Rows() == ConsoleSpec.AddLine(old(Rows()), Error, text)
    {
      var row := NewLine(Error);
      row.AppendAndComplete(text);
      assert Rows() == ConsoleSpec.AddLine(old(Rows()), Error, text);
    }

    method AddOutput(text: string)
      requires Valid()
      modifies this, data
      ensures Valid() && Rows() == ConsoleSpec.AddOutput(old(Rows()), text)
    {
      var row := GetMostRecentOutputLine();
      row.Append(text);
      assert Rows() == ConsoleSpec.AddOutput(old(Rows()), text);
    }

    method AddOutputAndEndLine(text: string)
      requires Valid()
      modifies this, data
      ensures Valid() && Rows() == ConsoleSpec.AddOutputAndEndLine(old(Rows()), text)
    {
      var row := GetMostRecentOutputLine();
      row.AppendAndComplete(text);
      assert Rows() == ConsoleSpec.AddOutputAndEndLine(old(Rows()), text);
    }

    method Clear()
      modifies this
      ensures Valid() && Rows() == []
    {
      data := [];
    }

    /** The row output goes to: the open trailing OUTPUT row, or a new one. */
    method GetMostRecentOutputLine() returns (row: ConsoleOutputRow)
      requires Valid()
      modifies this, data
      ensures Valid() && |data| > 0 && row == data[|data| - 1]
      ensures ConsoleSpec.EndsInOpenOutput(old(Rows())) ==> data == old(data)
      ensures !ConsoleSpec.EndsInOpenOutput(old(Rows())) ==> fresh(row) && data == old(data) + [row]
      ensures Rows() == ConsoleSpec.MostRecentOutputLine(old(Rows()))
    {
      if |data| > 0 {
        row := data[|data| - 1];
        if row.IsComplete() || row.kind != Output {
          row := NewLine(Output);
        }
      } else {
        row := NewLine(Output);
      }
    }

    /** Seal the last row, then add a new open row of the given type. */
    method NewLine(kind: OutputType) returns (row: ConsoleOutputRow)
      requires Valid()
      modifies this, data
      ensures Valid() && fresh(row) && data == old(data) + [row]
      ensures Rows() == ConsoleSpec.NewLine(old(Rows()), kind)
    {
      if |data| > 0 {
        data[|data| - 1].Complete();
      }
      row := new ConsoleOutputRow(kind);
      data := data + [row];
      assert Rows() == ConsoleSpec.NewLine(old(Rows()), kind);
    }
  }
}
