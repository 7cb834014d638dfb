/** The session's invoice table: a fixed six-column schema and a list of records that
    the page reassigns on confirm, after editing and on clear. */
module RecordTable {
  import opened Invoice

  /** What the page does to the table in one run. */
  datatype Action =
    | Confirm(record: Record)       // "confirm and add": append the extracted record
    | Edit(edited: seq<Record>)     // the data editor's grid replaces the table
    | ClearAll                      // "clear all records"

  /** The rows after one action. */
  function Step(rows: seq<Record>, a: Action): (r: seq<Record>)
    ensures a.Confirm? ==> |r| == |rows| + 1 && r[..|rows|] == rows && r[|rows|] == a.record
    ensures a.Edit? ==> r == a.edited
    ensures a.ClearAll? ==> r == []
  {
    match a
    case Confirm(record) => rows + [record]
    case Edit(edited) => edited
    case ClearAll => []
  }

  /** The rows after a sequence of actions, applied from first to last. */
  function Run(rows: seq<Record>, actions: seq<Action>): (r: seq<Record>)
    ensures actions == [] ==> r == rows
    decreases |actions|
  {
    if actions == [] then rows else Run(Step(rows, actions[0]), actions[1..])
  }

  /** The last action decides the table when it is a clear (no rows) or an edit (the
      edited grid), whatever came before it. */
  lemma {:induction false} RunLastAction(rows: seq<Record>, actions: seq<Action>)
    requires actions != []
    ensures actions[|actions| - 1].ClearAll? ==> Run(rows, actions) == []
    ensures actions[|actions| - 1].Edit? ==> Run(rows, actions) == actions[|actions| - 1].edited
    decreases |actions|
  {
    if |actions| > 1 {
      assert actions[1..][|actions[1..]| - 1] == actions[|actions| - 1];
      RunLastAction(Step(rows, actions[0]), actions[1..]);
    }
  }

  /** One confirm per record, in order. */
  function Confirms(records: seq<Record>): (actions: seq<Action>)
    ensures |actions| == |records|
  {
    if records == [] then [] else [Confirm(records[0])] + Confirms(records[1..])
  }

  /** Running two sequences of actions one after the other. */
  lemma {:induction false} RunConcat(rows: seq<Record>, first: seq<Action>, second: seq<Action>)
    ensures Run(rows, first + second) == Run(Run(rows, first), second)
    decreases |first|
  {
    if first == [] {
      assert first + second == second;
    } else {
      assert (first + second)[0] == first[0];
      assert (first + second)[1..] == first[1..] + second;
      RunConcat(Step(rows, first[0]), first[1..], second);
    }
  }

  /** A confirm first appends its record, then the remaining actions run. */
  lemma RunConfirmFirst(rows: seq<Record>, record: Record, rest: seq<Action>)
    ensures Run(rows, [Confirm(record)] + rest) == Run(rows + [record], rest)
  {
    var actions := [Confirm(record)] + rest;
    assert actions[0] == Confirm(record) && actions[1..] == rest;
  }

  /** Confirming records one by one appends them at the end in the order confirmed,
      leaving the earlier rows as they were. */
  lemma {:induction false} ConfirmsAppendInOrder(rows: seq<Record>, records: seq<Record>)
    ensures Run(rows, Confirms(records)) == rows + records
    decreases |records|
  {
    if records != [] {
      RunConfirmFirst(rows, records[0], Confirms(records[1..]));
      ConfirmsAppendInOrder(rows + [records[0]], records[1..]);
      assert rows + [records[0]] + records[1..] == rows + records;
    }
  }

  /** Whatever happened before, after a clear the table holds exactly the records
      confirmed since, in order. */
  lemma AfterClear(rows: seq<Record>, before: seq<Action>, records: seq<Record>)
    ensures Run(rows, before + [ClearAll] + Confirms(records)) == records
  {
    RunConcat(rows, before + [ClearAll], Confirms(records));
    RunConcat(rows, before, [ClearAll]);
    ConfirmsAppendInOrder([], records);
  }

  /** After an edit, the table is the edited grid followed by the records confirmed
      since, in order. */
  lemma AfterEdit(rows: seq<Record>, before: seq<Action>, edited: seq<Record>, records: seq<Record>)
    ensures Run(rows, before + [Edit(edited)] + Confirms(records)) == edited + records
  {
    RunConcat(rows, before + [Edit(edited)], Confirms(records));
    RunConcat(rows, before, [Edit(edited)]);
    ConfirmsAppendInOrder(edited, records);
  }

  /** `st.session_state.df`: the column names and the rows under them. */
  class Table {
    var columns: seq<string>
    var rows: seq<Record>

    /** The schema is the six columns, in their display order. */
    predicate Valid()
      reads this
    {
      columns == Columns
    }

    /** Lines 21-24: the first run of a session creates an empty table with the six
        columns. */
    constructor ()
      ensures Valid() && rows == []
    {
      columns := Columns;
      rows := [];
    }

    /** Lines 92-93: the confirmed record becomes the last row; the earlier rows keep
        their contents and order, and the columns stay as they were. */
    method Append(record: Record)
      requires Valid()
      modifies this
      ensures Valid()
      ensures columns == old(columns)
      ensures rows == Step(old(rows), Confirm(record))
      ensures |rows| == |old(rows)| + 1
      ensures forall k :: 0 <= k < |old(rows)| ==> rows[k] == old(rows)[k]
      ensures rows[|rows| - 1] == record
    {
      rows := rows + [record];
    }

    /** Lines 100-103: the grid the user edited (cells changed, rows added or deleted)
        becomes the table; the editor keeps the columns. */
    method ReplaceAll(edited: seq<Record>)
      requires Valid()
      modifies this
      ensures Valid()
      ensures columns == old(columns)
      ensures rows == Step(old(rows), Edit(edited))
    {
      rows := edited;
    }

    /** Lines 118-119: a fresh empty table with the six columns, whatever the table
        held before. */
    method Clear()
      modifies this
      ensures Valid() && rows == []
      ensures rows == Step(old(rows), ClearAll)
    {
      columns := Columns;
      rows := [];
    }
  }
}
