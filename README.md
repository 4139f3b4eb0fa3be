# qml-rust list-model adapter, modelled in Dafny

This project models the part of the `qml` Rust crate that has behaviour of its
own: the adapters that present Rust data to a QML view as a list model, and the
meta-object tables and slot dispatcher generated by `Q_OBJECT!`.

- `QListModel` (module `ListModel`) owns a row store, a `Vec<Vec<QVariant>>`,
  and a list of role names. `insert_row` appends one row inside an
  insert-rows bracket; `set_data` replaces every row inside a reset bracket.
  The view is the native side. What it is told is kept in a ghost log of
  notices. Each notice carries the row store as it stood when the notice was
  sent. So "the push happens strictly between begin and end" is a
  postcondition. `Valid()` says the log accounts for the whole history of the
  store, one bracket pair per mutation. `ExplainedLogIsBracketed` proves that
  such a log never leaves the view inside a bracket or with nested brackets.
- The callbacks the view calls are functions of the object's fields.
  The row count is the length cast with `as i32`.
  A data query is `model[row][role - 0x0100]`.
  The role-names hash maps `0x0100 + i` to the i-th name.
- A `QModel` (`ModelSource.QModel`) is one of three things. It can be the
  example `SimpleList`. It can be any user model, given by its four answers.
  It can be a `QAbstractListModel<T>`, which itself implements `QModel` and
  forwards all four queries to the model it wraps. A `QModelIndex` is
  modelled by its row.
- `Q_OBJECT!` (module `QMeta`) is modelled by its input: an object
  declaration with its signals and slots. The generated `qmeta` is a method
  with the macro's `argc += 1` / `push` loops. `QMetaDefinition::new` is a
  function. The generated `qslot_call` is a method that steps through the
  argument list.

Rust panics are the source's only error path here: an index out of bounds,
too few slot arguments, an unknown slot name. They are modelled as the value
`Outcome.Panic(message)`, not as preconditions.

Two points where the code departs from Qt's conventions are modelled as
written:
- `RustDataCallback` indexes the store directly
  (src/qabstractlistmodel.rs:291), so an out-of-range query panics.
  `QModel::data`'s doc comment (src/qabstractlistmodel.rs:121) asks for an
  invalid `QVariant` instead. `DataLookup` and `SimpleListExample.Data` panic.
- `insert_row` announces the range `(n, n + 1)`
  (src/qabstractlistmodel.rs:367-368). Under Qt's inclusive `beginInsertRows`
  convention that range covers two rows, while one row is pushed.
  `InsertNotices` keeps `(n, n + 1)`.

Native `metatype()` ids are not part of this model. `QMeta` takes them as a
function `metatype` from type name to id.

## Model

| member | source | states |
|---|---|---|
| `Ints.AsI32` | src/qabstractlistmodel.rs:246 | `x as i32` is the unique i32 congruent to `x` modulo 2^32; it is `x` itself when `x` fits |
| `Roles.RoleMap` | src/qabstractlistmodel.rs:297-306 | the role table holds exactly the ids `0x0100 .. 0x0100 + n - 1`, and id `0x0100 + i` names the i-th declared role |
| `Roles.RoleSchema` | src/qabstractlistmodel.rs:302-303 | the (id, name) pairs keep declaration order; ids are at least `0x0100` and strictly increasing, so they are distinct |
| `Roles.SchemaEntryInMap` | src/qabstractlistmodel.rs:189-190 | every (id, name) pair the loop inserts is in the finished table under its id |
| `Roles.MapIdFromSchema` | src/qabstractlistmodel.rs:302-303 | every id in the finished table is the pair inserted at position `id - 0x0100`, with the same name |
| `Roles.InsertRoleNames` | src/qabstractlistmodel.rs:302-304 | the callback loop leaves the view's hash equal to its old contents overwritten by the role table |
| `ListModel.RunAppend` | src/qabstractlistmodel.rs:365-379 | the view's bracket state after two batches of notifications is the state after the first, continued by the second |
| `ListModel.ExplainedLogIsBracketed` | src/qabstractlistmodel.rs:363-380 | a notification log produced by the store's mutations leaves the view idle, with no bracket open or nested |
| `ListModel.InsertKeepsExplained` | src/qabstractlistmodel.rs:365-370 | an insertion bracket announced at the old length, around a push of one row, keeps the log an account of the store |
| `ListModel.ResetKeepsExplained` | src/qabstractlistmodel.rs:377-379 | a reset bracket around a wholesale replacement keeps the log an account of the store |
| `ListModel.RowCountCallback` | src/qabstractlistmodel.rs:241-248 | the view receives the number of rows whenever it fits an i32, and otherwise that number modulo 2^32 |
| `ListModel.DataLookup` | src/qabstractlistmodel.rs:284-295 | a query answers iff `0 <= row < rows` and `0 <= role - 0x0100 <` the row's width, and then answers `model[row][role - 0x0100]`; otherwise it panics |
| `ListModel.InsertedRowReadable` | src/qabstractlistmodel.rs:369 | after an insertion the new last row answers the k-th supplied value under role id `0x0100 + k` |
| `ListModel.EarlierRowsUnchanged` | src/qabstractlistmodel.rs:360-372 | an insertion changes no answer about rows that were already in the store |
| `ListModel.RoleIdSelectsColumn` | src/qabstractlistmodel.rs:291 | the id the role-names callback gives to the k-th name reads the k-th cell of a row |
| `ListModel.QListModel.constructor` | src/qabstractlistmodel.rs:317-325 | a new model has no rows, no notifications yet, and a copy of the role names |
| `ListModel.QListModel.ViewData` | src/qabstractlistmodel.rs:384-386 | `view_data` shows one entry per stored row, and every cell the data callback answers is the cell it shows |
| `ListModel.QListModel.RowCount` | src/qabstractlistmodel.rs:348-350 | the row count is the number of rows `view_data` shows |
| `ListModel.QListModel.InsertRow` | src/qabstractlistmodel.rs:360-372 | one row is appended and earlier rows stay; the row count grows by exactly one; the log grows by `BeginInsert(n, n + 1)` seeing the old store, then `EndInsert` seeing the new one |
| `ListModel.QListModel.SetData` | src/qabstractlistmodel.rs:375-386 | `view_data` afterwards is exactly the supplied rows; the log grows by `BeginReset` seeing the old store, then `EndReset` seeing the new one |
| `ListModel.QListModel.RoleNamesCallback` | src/qabstractlistmodel.rs:298-306 | the view's hash ends as its old contents overwritten by the role table of the stored names |
| `ListModel.SetDataTwice` | src/qabstractlistmodel.rs:375-381 | `set_data` is idempotent: a second call with the same rows leaves the same store and adds only a second reset bracket |
| `SimpleListExample.RowCount` | examples/qabstractlistmodel.rs:7-9 | the row count is the vector's length when it fits an i32 |
| `SimpleListExample.Data` | examples/qabstractlistmodel.rs:11-13 | a query answers iff `0 <= row < len`, and then the element at `row` whatever the role; otherwise it panics |
| `SimpleListExample.RolesNames` | examples/qabstractlistmodel.rs:15-17 | the two role names are numbered `0x0100` ("name") and `0x0101` ("number") |
| `SimpleListExample.Flags` | examples/qabstractlistmodel.rs:19-21 | the flags are 0 for every index |
| `ModelSource.RowCount` | src/qabstractlistmodel.rs:147-149 | any model answers the row count of the innermost model under its adapters |
| `ModelSource.Data` | src/qabstractlistmodel.rs:151-153 | any model answers a data query as the innermost model under its adapters |
| `ModelSource.RolesNames` | src/qabstractlistmodel.rs:155-157 | any model answers the role names of the innermost model under its adapters |
| `ModelSource.Flags` | src/qabstractlistmodel.rs:159-161 | any model answers the flags of the innermost model under its adapters |
| `ModelSource.AdaptersAreTransparent` | src/qabstractlistmodel.rs:146-162 | wrapping a model in any number of adapters changes none of its four answers |
| `ModelSource.RowCountCallback` | src/qabstractlistmodel.rs:164-171 | the view receives the innermost model's row count; over a `SimpleList` that is its length when it fits an i32, and the length modulo 2^32 otherwise |
| `ModelSource.DataCallback` | src/qabstractlistmodel.rs:173-183 | the view receives the innermost model's answer; over a `SimpleList`, the element at `row` iff the row is in range, and otherwise the callback panics |
| `ModelSource.RoleNamesCallback` | src/qabstractlistmodel.rs:185-193 | the view's hash ends as its old contents overwritten by the role table of the innermost model's names; over a `SimpleList` it gains `0x0100 -> "name"` and `0x0101 -> "number"` |
| `ModelSource.ExampleAdapter` | examples/qabstractlistmodel.rs:28-29 | the adapter over [1, 74, 7, 8, 75] reports 5 rows, answers 7 for row 2 under either role, panics for row 5, and has flags 0 |
| `QMeta.NewDefinition` | src/qmeta.rs:139-182 | one definition per entry in input order, keeping name, argc, metatypes and the slot return type; the counts are the list lengths cast to i32; no properties |
| `QMeta.DefinitionRoundTrip` | src/qmeta.rs:143-175 | the signal and slot entries can be read back unchanged from the definitions |
| `QMeta.MetaTypes` | src/qmeta.rs:59 | one metatype per declared parameter, in declaration order |
| `QMeta.SignalTable` | src/qmeta.rs:53-62 | each signal entry has its declaration's name, argc equal to its number of parameters, and their metatypes in order |
| `QMeta.SlotTable` | src/qmeta.rs:63-73 | each slot entry is the same, with return metatype 43 |
| `QMeta.CountParams` | src/qmeta.rs:55-60 | the `argc += 1` / `push` loop counts the parameters and collects their metatypes in order |
| `QMeta.QMetaOf` | src/qmeta.rs:51-75 | the generated `qmeta` gives every signal and slot its declaration's name, arity and metatypes, every slot return type 43, and no properties |
| `QMeta.FindSlot` | src/qmeta.rs:38-47 | the match arm chosen is the first declared slot with that name, and there is none iff no slot has that name |
| `QMeta.Dispatch` | src/qmeta.rs:30-48 | an unknown name panics with "Unrecognized slot call"; for a known slot the call succeeds iff there are at least as many arguments as parameters, binding the first ones in order; otherwise it panics with "Not enough parameters" |
| `QMeta.SurplusArgumentsIgnored` | src/qmeta.rs:40-45 | extra arguments after a successful call's arity change nothing |
| `QMeta.QSlotCall` | src/qmeta.rs:30-48 | the dispatcher's loops compute exactly `Dispatch` |
| `QMeta.EmitSignal` | src/qmeta.rs:18-25 | a signal method hands `emit_signal` its own name and its arguments in declaration order |
| `QMeta.TestObjectSession` | examples/qobjects.rs:27-29 | the example's `testname(54, 55)` hands `emit_signal` both arguments in order, and `launchGoose` with `42` and `"QML Rust"` is invoked with both arguments |
| `QMeta.TestObjectExample` | examples/qobjects.rs:14-29 | `Test` has one 2-argument signal and one 2-argument slot with return type 43; `launchGoose` with 2 arguments succeeds, with 1 panics; `testname` is not a slot |

## Left out

- The `extern "C"` declarations, the `dos_*` calls and the `DosQ*` handles are foreign code. The view is the notice log instead.
- `Box` pinning in the constructors, `AtomicPtr`, `get_qvar` and `From<&QListModel>` only hand out native handles.
- `QAbstractListModel::new` only registers callbacks with the native side. The adapter value is `ModelSource.QAbstractListModel(m)`.
- `RustColumnCountCallback`, `RustSetDataCallback`, `RustFlagsCallback`, `flags_callback`, `RustObjectCallback` and `RustHeaderDataCallback` do nothing or only print, so they have no result to model.
- `emit_signal`'s lookup and delivery (`find_qobject`, `dos_qobject_signal_emit`), `QMeta::new_for_qobject`, and `QmlEngine` are foreign calls. `EmitSignal` stops at the vector handed to `emit_signal`.
- The `mem::forget` / `as_ptr` leaks in `qmeta.rs` only keep buffers alive for C. Definitions are plain sequences.
- `QVariant` internals and the native `metatype()` ids are not modelled.
- A user model (`ModelSource.Custom`) is given by its four answers as values. Interior mutability behind `QModel`'s `&self` methods, which could change those answers between calls, is not modelled.
- The `.into()` conversions of slot arguments to the declared Rust types are not modelled. A bound argument is the `QVariant` itself.
- The doc-comment `SimpleList` in `src/qabstractlistmodel.rs` (a constant string for every query) is documentation, not code.
- Atomics use `Ordering::Relaxed` only. Everything is modelled single-threaded.
- A panic inside an `extern "C"` callback aborts the process. The model records it as an `Outcome.Panic` value.
- `Roles.InsertRoleNames`: role ids are unbounded integers. The i32 overflow of `START_ROLE + i as i32` would need more than 2^31 - 256 roles.
- `ListModel.DataLookup`: `role - START_ROLE` is computed without i32 overflow. For a role in `[i32::MIN, i32::MIN + 255]` Rust panics in a debug build. A release build wraps the difference into `[2^31 - 256, 2^31 - 1]`. The model panics in both cases, so it differs from a release build only for a row with more than 2^31 - 256 cells.
- `QMeta.CountParams`: `argc` and the metatypes are unbounded integers. An i32 overflow would need 2^31 declared parameters in one macro invocation.
