/** `SimpleList`, the example `QModel`: a list of integers shown as one
    column, whatever role the view asks for. */
module SimpleListExample {
  import opened Ints
  import opened Outcomes
  import opened Roles
  import opened Variants

  datatype SimpleList = SimpleList(items: seq<i32>)

  /** `row_count`: the vector's length, cast with `as i32`. */
  function RowCount(l: SimpleList): (r: i32)
    ensures |l.items| <= I32_MAX ==> r as int == |l.items|
    ensures (r as int - |l.items|) % TWO_POW_32 == 0
  {
    AsI32(|l.items|)
  }

  /** `data`: the element at the index's row, whatever the role. The row goes
      through `as usize`, so a negative row, like one past the end, panics. */
  function Data(l: SimpleList, row: i32, role: i32): (r: Outcome<QVariant>)
    ensures r.Done? <==> 0 <= row as int < |l.items|
    ensures r.Done? ==> r.value == FromI32(l.items[row])
  {
    if 0 <= row as int < |l.items| then Done(FromI32(l.items[row])) else Panic(INDEX_OUT_OF_BOUNDS)
  }

  /** `roles_names`: two roles, which the adapter numbers 0x0100 and 0x0101. */
  function RolesNames(l: SimpleList): (names: seq<string>)
    ensures RoleMap(names) == map[0x0100 := "name", 0x0101 := "number"]
  {
    var names := ["name", "number"];
    assert RoleMap(names).Keys == {0x0100, 0x0101};
    names
  }

  /** `flags`: no capability flags, for every index. */
  function Flags(l: SimpleList, row: i32): (r: i32)
    ensures r == 0
  {
    0
  }
}
