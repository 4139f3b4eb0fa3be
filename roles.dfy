/** Role-name projection shared by both list-model adapters: the view addresses
    cells by small integer role ids, the application by role names. */
module Roles {

  /** First id handed out; ids below it are the view framework's own roles. */
  const START_ROLE: int := 0x0100

  /** The role table the role-names callbacks build: the role declared at
      position i gets id START_ROLE + i. Defined in enumeration order, one
      insertion per declared name, as the callbacks' loops do. */
  function RoleMap(names: seq<string>): (m: map<int, string>)
    ensures forall id :: id in m <==> START_ROLE <= id < START_ROLE + |names|
    ensures forall i :: 0 <= i < |names| ==> m[START_ROLE + i] == names[i]
    decreases |names|
  {
    if names == [] then map[]
    else RoleMap(names[..|names| - 1])[START_ROLE + |names| - 1 := names[|names| - 1]]
  }

  /** The (id, name) pairs in the order the callbacks insert them. */
  function RoleSchema(names: seq<string>): (schema: seq<(int, string)>)
    ensures |schema| == |names|
    ensures forall i :: 0 <= i < |schema| ==> schema[i].1 == names[i] && schema[i].0 >= START_ROLE
    ensures forall i, j :: 0 <= i < j < |schema| ==> schema[i].0 < schema[j].0
  {
    seq(|names|, i requires 0 <= i < |names| => (START_ROLE + i, names[i]))
  }

  /** Every inserted pair is in the finished table. */
  lemma SchemaEntryInMap(names: seq<string>, i: int)
    requires 0 <= i < |names|
    ensures RoleSchema(names)[i].0 in RoleMap(names)
    ensures RoleMap(names)[RoleSchema(names)[i].0] == names[i]
  {
    assert RoleSchema(names)[i].0 == START_ROLE + i;
  }

  /** Every id in the finished table comes from the pair at its position. */
  lemma MapIdFromSchema(names: seq<string>, id: int)
    requires id in RoleMap(names)
    ensures 0 <= id - START_ROLE < |names|
    ensures RoleSchema(names)[id - START_ROLE] == (id, RoleMap(names)[id])
  {
    var k := id - START_ROLE;
    assert RoleSchema(names)[k] == (START_ROLE + k, names[k]);
  }

  /** The loop of `RustRoleNamesCallback` and `role_names_callback`: insert
      (START_ROLE + i, name) for each declared name, in order, into the hash
      the view supplies. A later insertion under an existing id overwrites it. */
  method InsertRoleNames(names: seq<string>, hash: map<int, string>) returns (out: map<int, string>)
    ensures out == hash + RoleMap(names)
  {
    out := hash;
    for i := 0 to |names|
      invariant out == hash + RoleMap(names[..i])
    {
      assert names[..i + 1][..i] == names[..i];
      out := out[START_ROLE + i := names[i]];
    }
    assert names[..|names|] == names;
  }
}
