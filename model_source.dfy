/** The `QModel` capability and `QAbstractListModel`, the read-only adapter
    that forwards the view's queries to a user-supplied model. A model is the
    example `SimpleList`, an arbitrary user model given by its four answers,
    or an adapter wrapping another model (`QAbstractListModel<T>` itself
    implements `QModel`). A `QModelIndex` is modelled by its row. */
module ModelSource {
  import opened Ints
  import opened Outcomes
  import opened Roles
  import opened Variants
  import SL = SimpleListExample

  datatype QModel =
    | OfSimpleList(list: SL.SimpleList)
    | Custom(rows: i32, cell: (i32, i32) -> Outcome<QVariant>, names: seq<string>, flag: i32 -> i32)
    | QAbstractListModel(model: QModel)

  /** The model that finally answers: adapters only forward. */
  function Innermost(m: QModel): (b: QModel)
    ensures !b.QAbstractListModel?
  {
    match m
    case QAbstractListModel(inner) => Innermost(inner)
    case _ => m
  }

  /** `m` wrapped in `k` adapters. */
  function Wrapped(m: QModel, k: nat): QModel
  {
    if k == 0 then m else QAbstractListModel(Wrapped(m, k - 1))
  }

  /** The answers of a model that is not an adapter. */
  function BaseRowCount(b: QModel): i32
    requires !b.QAbstractListModel?
  {
    if b.OfSimpleList? then SL.RowCount(b.list) else b.rows
  }

  function BaseData(b: QModel, row: i32, role: i32): Outcome<QVariant>
    requires !b.QAbstractListModel?
  {
    if b.OfSimpleList? then SL.Data(b.list, row, role) else b.cell(row, role)
  }

  function BaseRolesNames(b: QModel): seq<string>
    requires !b.QAbstractListModel?
  {
    if b.OfSimpleList? then SL.RolesNames(b.list) else b.names
  }

  function BaseFlags(b: QModel, row: i32): i32
    requires !b.QAbstractListModel?
  {
    if b.OfSimpleList? then SL.Flags(b.list, row) else b.flag(row)
  }

  function RowCount(m: QModel): (r: i32)
    ensures r == BaseRowCount(Innermost(m))
  {
    match m
    case QAbstractListModel(inner) => RowCount(inner)
    case _ => BaseRowCount(m)
  }

  function Data(m: QModel, row: i32, role: i32): (r: Outcome<QVariant>)
    ensures r == BaseData(Innermost(m), row, role)
  {
    match m
    case QAbstractListModel(inner) => Data(inner, row, role)
    case _ => BaseData(m, row, role)
  }

  function RolesNames(m: QModel): (names: seq<string>)
    ensures names == BaseRolesNames(Innermost(m))
  {
    match m
    case QAbstractListModel(inner) => RolesNames(inner)
    case _ => BaseRolesNames(m)
  }

  function Flags(m: QModel, row: i32): (r: i32)
    ensures r == BaseFlags(Innermost(m), row)
  {
    match m
    case QAbstractListModel(inner) => Flags(inner, row)
    case _ => BaseFlags(m, row)
  }

  /** However many adapters are stacked, the view gets the same answers as
      from the model underneath. */
  lemma {:induction false} AdaptersAreTransparent(m: QModel, k: nat)
    ensures RowCount(Wrapped(m, k)) == RowCount(m)
    ensures RolesNames(Wrapped(m, k)) == RolesNames(m)
    ensures forall row, role :: Data(Wrapped(m, k), row, role) == Data(m, row, role)
    ensures forall row :: Flags(Wrapped(m, k), row) == Flags(m, row)
  {
    if k > 0 {
      AdaptersAreTransparent(m, k - 1);
    }
  }

  /** `row_count_callback`: the adapter's row count, handed to the view. */
  function RowCountCallback(qlist: QModel): (r: i32)
    requires qlist.QAbstractListModel?
    ensures r == BaseRowCount(Innermost(qlist))
    ensures Innermost(qlist).OfSimpleList? ==>
      var n := |Innermost(qlist).list.items|;
      && (r as int - n) % TWO_POW_32 == 0
      && (n <= I32_MAX ==> r as int == n)
  {
    RowCount(qlist)
  }

  /** `data_callback`: the adapter's answer for (row, role), copied to the view. */
  function DataCallback(qlist: QModel, row: i32, role: i32): (r: Outcome<QVariant>)
    requires qlist.QAbstractListModel?
    ensures r == BaseData(Innermost(qlist), row, role)
    ensures Innermost(qlist).OfSimpleList? ==>
      var items := Innermost(qlist).list.items;
      && (r.Done? <==> 0 <= row as int < |items|)
      && (r.Done? ==> r.value == FromI32(items[row]))
  {
    Data(qlist, row, role)
  }

  /** `role_names_callback`: number the wrapped model's role names from START_ROLE. */
  method RoleNamesCallback(qlist: QModel, hash: map<int, string>) returns (out: map<int, string>)
    requires qlist.QAbstractListModel?
    ensures out == hash + RoleMap(BaseRolesNames(Innermost(qlist)))
    ensures Innermost(qlist).OfSimpleList? ==> out == hash + map[0x0100 := "name", 0x0101 := "number"]
  {
    out := InsertRoleNames(RolesNames(qlist), hash);
  }

  /** The example program's adapter over [1, 74, 7, 8, 75]. */
  lemma ExampleAdapter()
    ensures var m := QAbstractListModel(OfSimpleList(SL.SimpleList([1, 74, 7, 8, 75])));
      && RowCountCallback(m) == 5
      && DataCallback(m, 2, 0x0100) == Done(FromI32(7))
      && DataCallback(m, 2, 0x0101) == Done(FromI32(7))
      && DataCallback(m, 5, 0x0100).Panic?
      && RoleMap(RolesNames(m)) == map[0x0100 := "name", 0x0101 := "number"]
      && Flags(m, 0) == 0
  {
  }
}
