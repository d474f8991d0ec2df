/**
 * The shortcut table of views/ui/shortcuts/ShortcutViewModel.kt: a map from
 * title to file URI that starts out absent (null), is created once, takes
 * new titles without overwriting old ones, and forgets titles on request.
 */
module Shortcuts {
  import opened Wrappers

  /** A content URI, by its text. */
  type Uri = string

  type Table = map<string, Uri>

  /** `initializeData`: only an absent table is set, to the given one or else an empty one. */
  function Initialized(data: Option<Table>, given: Option<Table>): (r: Option<Table>)
    ensures r.Some?
    ensures data.Some? ==> r == data
    ensures data.None? && given.Some? ==> r == given
    ensures data.None? && given.None? ==> r == Some(map[])
  {
    if data.Some? then data
    else Some(if given.Some? then given.value else map[])
  }

  /** `addShortcut`: a new title is mapped to the URI; a known title keeps its URI. */
  function WithShortcut(data: Option<Table>, title: string, uri: Uri): (r: Option<Table>)
    ensures r.Some? && title in r.value
    ensures data.Some? && title in data.value ==> r == data
    ensures !(data.Some? && title in data.value) ==> r.value[title] == uri
    ensures forall t :: t != title ==> (t in r.value <==> data.Some? && t in data.value)
    ensures forall t :: t != title && data.Some? && t in data.value ==> r.value[t] == data.value[t]
  {
    if data.None? then Some(Initialized(data, None).value[title := uri])
    else if title in data.value then data
    else Some(data.value[title := uri])
  }

  /** `removeShortcut`: the title is forgotten, every other entry kept; an absent table stays absent. */
  function WithoutShortcut(data: Option<Table>, title: string): (r: Option<Table>)
    ensures data.None? ==> r.None?
    ensures data.Some? ==> r.Some? && r.value.Keys == data.value.Keys - {title}
    ensures data.Some? ==> forall t :: t in r.value ==> r.value[t] == data.value[t]
  {
    if data.None? then None else Some(data.value - {title})
  }

  /** Initialising again changes nothing: the first initialisation wins. */
  lemma InitializeOnlyOnce(data: Option<Table>, first: Option<Table>, second: Option<Table>)
    ensures Initialized(Initialized(data, first), second) == Initialized(data, first)
  {
  }

  /** Adding the same title twice is adding it once, whatever the second URI. */
  lemma AddIsInsertIfAbsent(data: Option<Table>, title: string, uri: Uri, other: Uri)
    ensures WithShortcut(WithShortcut(data, title, uri), title, other) == WithShortcut(data, title, uri)
  {
  }

  /** Removing what was just added to a table that lacked it gives the table back. */
  lemma RemoveUndoesAdd(data: Table, title: string, uri: Uri)
    requires title !in data
    ensures WithoutShortcut(WithShortcut(Some(data), title, uri), title) == Some(data)
  {
    assert WithShortcut(Some(data), title, uri).value - {title} == data;
  }

  /** The operations of the view model, for replaying a session. */
  datatype ShortcutOp = Initialize(given: Option<Table>) | Add(title: string, uri: Uri) | Remove(title: string)

  function Apply(data: Option<Table>, op: ShortcutOp): Option<Table>
  {
    match op
    case Initialize(given) => Initialized(data, given)
    case Add(title, uri) => WithShortcut(data, title, uri)
    case Remove(title) => WithoutShortcut(data, title)
  }

  function Replay(data: Option<Table>, ops: seq<ShortcutOp>): Option<Table>
    decreases |ops|
  {
    if ops == [] then data else Replay(Apply(data, ops[0]), ops[1..])
  }

  /**
   * A shortcut, once present, keeps its URI through any sequence of
   * operations that does not remove its title: no later add or
   * initialisation overwrites it.
   */
  lemma {:induction false} ShortcutStableUntilRemoved(data: Option<Table>, ops: seq<ShortcutOp>, title: string)
    requires data.Some? && title in data.value
    requires forall k :: 0 <= k < |ops| ==> ops[k] != Remove(title)
    ensures Replay(data, ops).Some?
    ensures title in Replay(data, ops).value && Replay(data, ops).value[title] == data.value[title]
    decreases |ops|
  {
    if ops != [] {
      var next := Apply(data, ops[0]);
      assert next.Some? && title in next.value && next.value[title] == data.value[title];
      ShortcutStableUntilRemoved(next, ops[1..], title);
    }
  }

  class ShortcutViewModel {
    var data: Option<Table>

    constructor ()
      ensures data.None?
    {
      data := None;
    }

    method InitializeData(given: Option<Table>)
      modifies this
      ensures data == Initialized(old(data), given)
    {
      if data.Some? {
        return;
      }
      data := Some(if given.Some? then given.value else map[]);
    }

    method AddShortcut(title: string, uri: Uri)
      modifies this
      ensures data == WithShortcut(old(data), title, uri)
    {
      if data.None? {
        InitializeData(None);
      } else if title in data.value {
        return;
      }
      data := Some(data.value[title := uri]);
    }

    method RemoveShortcut(title: string)
      modifies this
      ensures data == WithoutShortcut(old(data), title)
    {
      if data.Some? {
        data := Some(data.value - {title});
      }
    }
  }
}
