/** `QListModel`: a list model that owns its rows. The view (the native side)
    is told about every structural change through a begin/end bracket; those
    notifications are recorded in a ghost log, each with the row store as the
    view could observe it at that moment. */
module ListModel {
  import opened Ints
  import opened Outcomes
  import opened Roles

  /** The bracket notifications the adapter sends to the view. */
  datatype Event = BeginInsert(first: i32, last: i32) | EndInsert | BeginReset | EndReset

  /** A notification together with the row store as it stands when it is sent. */
  datatype Notice<V> = Notice(event: Event, rows: seq<seq<V>>)

  /** The view's bracket state: brackets may not nest or interleave. */
  datatype Phase = Idle | Inserting | Resetting | Broken

  function Step(p: Phase, e: Event): Phase
  {
    match (p, e)
    case (Idle, BeginInsert(_, _)) => Inserting
    case (Inserting, EndInsert) => Idle
    case (Idle, BeginReset) => Resetting
    case (Resetting, EndReset) => Idle
    case _ => Broken
  }

  /** The phase the view is in after receiving `log`, starting from `p`. */
  function Run<V>(p: Phase, log: seq<Notice<V>>): Phase
    decreases |log|
  {
    if log == [] then p else Run(Step(p, log[0].event), log[1..])
  }

  lemma {:induction false} RunAppend<V>(p: Phase, a: seq<Notice<V>>, b: seq<Notice<V>>)
    ensures Run(p, a + b) == Run(Run(p, a), b)
    decreases |a|
  {
    if a == [] {
      assert a + b == b;
    } else {
      assert (a + b)[1..] == a[1..] + b;
      RunAppend(Step(p, a[0].event), a[1..], b);
    }
  }

  /** The notifications `insert_row` sends when the store is `rows`: first and
      last are the old and the old-plus-one length, each cast with `as i32`. */
  function InsertNotices<V>(rows: seq<seq<V>>, qvars: seq<V>): seq<Notice<V>>
  {
    [Notice(BeginInsert(AsI32(|rows|), AsI32(|rows| + 1)), rows), Notice(EndInsert, rows + [qvars])]
  }

  /** The notifications `set_data` sends when it replaces `rows` by `newRows`. */
  function ResetNotices<V>(rows: seq<seq<V>>, newRows: seq<seq<V>>): seq<Notice<V>>
  {
    [Notice(BeginReset, rows), Notice(EndReset, newRows)]
  }

  /** An insertion bracket: announced at the old length, and the store seen
      at its end is the store seen at its beginning with one row appended. */
  ghost predicate IsInsertPair<V>(begin: Notice<V>, end: Notice<V>)
  {
    && begin.event == BeginInsert(AsI32(|begin.rows|), AsI32(|begin.rows| + 1))
    && end.event == EndInsert
    && |end.rows| == |begin.rows| + 1
    && end.rows[..|begin.rows|] == begin.rows
  }

  /** `log` accounts for the whole history of a store that is now `rows`: it
      started empty, and it is a sequence of bracket pairs, each an insertion
      or a reset, with no change to the store between two brackets. */
  ghost predicate Explains<V>(log: seq<Notice<V>>, rows: seq<seq<V>>)
    decreases |log|
  {
    if log == [] then rows == []
    else
      && |log| >= 2
      && log[|log| - 1].rows == rows
      && Explains(log[..|log| - 2], log[|log| - 2].rows)
      && (|| IsInsertPair(log[|log| - 2], log[|log| - 1])
          || (log[|log| - 2].event == BeginReset && log[|log| - 1].event == EndReset))
  }

  /** A log that accounts for the store never leaves the view inside a bracket
      or with nested brackets. */
  lemma {:induction false} ExplainedLogIsBracketed<V>(log: seq<Notice<V>>, rows: seq<seq<V>>)
    requires Explains(log, rows)
    ensures Run(Idle, log) == Idle
    decreases |log|
  {
    if log != [] {
      var before := log[..|log| - 2];
      var pair := log[|log| - 2..];
      ExplainedLogIsBracketed(before, log[|log| - 2].rows);
      assert log == before + pair;
      RunAppend(Idle, before, pair);
      assert pair[1..][1..] == [];
      assert Run(Idle, pair) == Run(Step(Step(Idle, pair[0].event), pair[1].event), pair[1..][1..]);
    }
  }

  lemma {:induction false} InsertKeepsExplained<V>(log: seq<Notice<V>>, rows: seq<seq<V>>, qvars: seq<V>)
    requires Explains(log, rows)
    ensures Explains(log + InsertNotices(rows, qvars), rows + [qvars])
  {
    var log' := log + InsertNotices(rows, qvars);
    assert log'[..|log'| - 2] == log;
    assert (rows + [qvars])[..|rows|] == rows;
  }

  lemma {:induction false} ResetKeepsExplained<V>(log: seq<Notice<V>>, rows: seq<seq<V>>, newRows: seq<seq<V>>)
    requires Explains(log, rows)
    ensures Explains(log + ResetNotices(rows, newRows), newRows)
  {
    var log' := log + ResetNotices(rows, newRows);
    assert log'[..|log'| - 2] == log;
  }

  /** `RustRowCountCallback`: the row count as the view receives it, the
      `usize` length cast with `as i32`. */
  function RowCountCallback<V>(model: seq<seq<V>>): (r: i32)
    ensures |model| <= I32_MAX ==> r as int == |model|
    ensures (r as int - |model|) % TWO_POW_32 == 0
  {
    AsI32(|model|)
  }

  /** `RustDataCallback`: the cell `model[row][role - START_ROLE]`. Both indices
      go through `as usize`, so a negative one becomes huge and, like any index
      past the end, makes the indexing panic: there is no empty answer. */
  function DataLookup<V>(model: seq<seq<V>>, row: i32, role: i32): (r: Outcome<V>)
    ensures r.Done? <==> 0 <= row as int < |model| && 0 <= role as int - START_ROLE < |model[row]|
    ensures r.Done? ==> r.value == model[row][role as int - START_ROLE]
  {
    if 0 <= row as int < |model| && 0 <= role as int - START_ROLE < |model[row]| then
      Done(model[row][role as int - START_ROLE])
    else
      Panic(INDEX_OUT_OF_BOUNDS)
  }

  /** After an insertion the new last row answers, under the id of its k-th
      role, the k-th supplied value. */
  lemma InsertedRowReadable<V>(rows: seq<seq<V>>, qvars: seq<V>, k: nat)
    requires |rows| <= I32_MAX && k < |qvars| && START_ROLE + k <= I32_MAX
    ensures DataLookup(rows + [qvars], |rows| as i32, (START_ROLE + k) as i32) == Done(qvars[k])
  {
  }

  /** An insertion changes no answer about the rows that were already there. */
  lemma EarlierRowsUnchanged<V>(rows: seq<seq<V>>, qvars: seq<V>, row: i32, role: i32)
    requires 0 <= row as int < |rows|
    ensures DataLookup(rows + [qvars], row, role) == DataLookup(rows, row, role)
  {
  }

  /** The id the role-names callback gives to the k-th role name reads the
      k-th cell of a row laid out in role order. */
  lemma RoleIdSelectsColumn<V>(names: seq<string>, model: seq<seq<V>>, row: i32, k: nat)
    requires 0 <= row as int < |model| && |model[row]| == |names| && k < |names|
    requires START_ROLE + k <= I32_MAX
    ensures RoleMap(names)[START_ROLE + k] == names[k]
    ensures DataLookup(model, row, (START_ROLE + k) as i32) == Done(model[row][k])
  {
  }

  /** The owned row store. `model` is the `Vec<Vec<QVariant>>`, `rolenames`
      the role names copied at construction, `log` what the view was told. */
  class QListModel<V> {
    var model: seq<seq<V>>
    const rolenames: seq<string>
    ghost var log: seq<Notice<V>>

    ghost predicate Valid()
      reads this
    {
      Explains(log, model)
    }

    /** `QListModel::new`: an empty store and a copy of the role names. */
    constructor (rolenames: seq<string>)
      ensures Valid()
      ensures model == [] && log == [] && this.rolenames == rolenames
    {
      model := [];
      this.rolenames := rolenames;
      log := [];
    }

    /** `view_data`: the rows, read-only. Every cell the data callback can
        answer is the cell this view shows. */
    function ViewData(): (v: seq<seq<V>>)
      reads this
      ensures |v| == |model|
      ensures forall row: i32, role: i32 :: DataLookup(model, row, role).Done? ==>
        0 <= row as int < |v| && 0 <= role as int - START_ROLE < |v[row]| &&
        DataLookup(model, row, role).value == v[row][role as int - START_ROLE]
    {
      model
    }

    /** `row_count`: the number of rows the view can read. */
    function RowCount(): (n: nat)
      reads this
      ensures n == |ViewData()|
    {
      |model|
    }

    /** `insert_row`: announce an insertion at the old length, append the
        supplied values as one row, then close the bracket. The view sees the
        old store at the beginning and the new one at the end. */
    method InsertRow(qvars: seq<V>)
      requires Valid()
      modifies this
      ensures Valid()
      ensures model == old(model) + [qvars]
      ensures RowCount() == old(RowCount()) + 1
      ensures log == old(log) + InsertNotices(old(model), qvars)
    {
      ghost var before := model;
      log := log + [Notice(BeginInsert(AsI32(|model|), AsI32(|model| + 1)), model)];
      model := model + [qvars];
      log := log + [Notice(EndInsert, model)];
      assert log == old(log) + InsertNotices(before, qvars);
      InsertKeepsExplained(old(log), before, qvars);
    }

    /** `set_data`: replace every row inside a reset bracket. */
    method SetData(qvars: seq<seq<V>>)
      requires Valid()
      modifies this
      ensures Valid()
      ensures model == qvars && ViewData() == qvars
      ensures log == old(log) + ResetNotices(old(model), qvars)
    {
      ghost var before := model;
      log := log + [Notice(BeginReset, model)];
      model := qvars;
      log := log + [Notice(EndReset, model)];
      assert log == old(log) + ResetNotices(before, qvars);
      ResetKeepsExplained(old(log), before, qvars);
    }

    /** `RustRoleNamesCallback`: fill the view's hash from the stored names. */
    method RoleNamesCallback(hash: map<int, string>) returns (out: map<int, string>)
      ensures out == hash + RoleMap(rolenames)
    {
      out := InsertRoleNames(rolenames, hash);
    }
  }

  /** `set_data` is idempotent: a second call with the same rows leaves the
      store as the first left it, and only adds another reset bracket. */
  method SetDataTwice<V>(m: QListModel<V>, rows: seq<seq<V>>)
    requires m.Valid()
    modifies m
    ensures m.Valid() && m.ViewData() == rows
    ensures m.log == old(m.log) + ResetNotices(old(m.model), rows) + ResetNotices(rows, rows)
  {
    m.SetData(rows);
    m.SetData(rows);
  }
}
