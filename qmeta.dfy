/** The meta-object tables behind `Q_OBJECT!`: what the view is told about an
    object's signals and slots, the by-name slot dispatcher, and the argument
    vector a generated signal method emits. Native `metatype()` values are
    opaque, so they come in as the function `metatype` from type name to id. */
module QMeta {
  import opened Ints
  import opened Outcomes
  import opened Variants

  datatype SignalDefinition = SignalDefinition(name: string, parametersCount: int, parametersMetaTypes: seq<int>)
  datatype SignalDefinitions = SignalDefinitions(count: i32, definitions: seq<SignalDefinition>)

  datatype SlotDefinition =
    SlotDefinition(name: string, returnMetaType: int, parametersCount: int, parametersMetaTypes: seq<int>)
  datatype SlotDefinitions = SlotDefinitions(count: i32, definitions: seq<SlotDefinition>)

  datatype PropertyDefinition = PropertyDefinition(
    name: string, propertyMetaType: int, readSlot: string, writeSlot: string, notifySignal: string)
  datatype PropertyDefinitions = PropertyDefinitions(count: i32, definitions: seq<PropertyDefinition>)

  datatype QMetaDefinition = QMetaDefinition(
    sigDefs: SignalDefinitions, slotDefs: SlotDefinitions, propDefs: PropertyDefinitions, name: string)

  /** A signal as `qmeta` lists it: (name, argc, parameter metatypes). */
  type SignalEntry = (string, int, seq<int>)
  /** A slot as `qmeta` lists it: (name, return metatype, argc, parameter metatypes). */
  type SlotEntry = (string, int, int, seq<int>)

  /** `QMetaDefinition::new`: one definition per entry, in order, with the
      counts set to the list lengths; there are never any properties. */
  function NewDefinition(signals: seq<SignalEntry>, slots: seq<SlotEntry>, name: string): (d: QMetaDefinition)
    ensures d.sigDefs.count == AsI32(|signals|) && |d.sigDefs.definitions| == |signals|
    ensures |signals| <= I32_MAX ==> d.sigDefs.count as int == |d.sigDefs.definitions|
    ensures forall i :: 0 <= i < |signals| ==>
      d.sigDefs.definitions[i] == SignalDefinition(signals[i].0, signals[i].1, signals[i].2)
    ensures d.slotDefs.count == AsI32(|slots|) && |d.slotDefs.definitions| == |slots|
    ensures |slots| <= I32_MAX ==> d.slotDefs.count as int == |d.slotDefs.definitions|
    ensures forall i :: 0 <= i < |slots| ==>
      d.slotDefs.definitions[i] == SlotDefinition(slots[i].0, slots[i].1, slots[i].2, slots[i].3)
    ensures d.propDefs.count == 0 && d.propDefs.definitions == []
    ensures d.name == name
  {
    var sigs := seq(|signals|, i requires 0 <= i < |signals| =>
      SignalDefinition(signals[i].0, signals[i].1, signals[i].2));
    var slts := seq(|slots|, i requires 0 <= i < |slots| =>
      SlotDefinition(slots[i].0, slots[i].1, slots[i].2, slots[i].3));
    QMetaDefinition(
      SignalDefinitions(AsI32(|sigs|), sigs),
      SlotDefinitions(AsI32(|slts|), slts),
      PropertyDefinitions(0, []),
      name)
  }

  /** Read the signal entries back from their definitions. */
  function SignalEntries(defs: SignalDefinitions): seq<SignalEntry>
  {
    seq(|defs.definitions|, i requires 0 <= i < |defs.definitions| =>
      (defs.definitions[i].name, defs.definitions[i].parametersCount, defs.definitions[i].parametersMetaTypes))
  }

  /** Read the slot entries back from their definitions. */
  function SlotEntries(defs: SlotDefinitions): seq<SlotEntry>
  {
    seq(|defs.definitions|, i requires 0 <= i < |defs.definitions| =>
      (defs.definitions[i].name, defs.definitions[i].returnMetaType,
       defs.definitions[i].parametersCount, defs.definitions[i].parametersMetaTypes))
  }

  /** The definitions lose nothing: the entries given to `new` can be read back. */
  lemma DefinitionRoundTrip(signals: seq<SignalEntry>, slots: seq<SlotEntry>, name: string)
    ensures SignalEntries(NewDefinition(signals, slots, name).sigDefs) == signals
    ensures SlotEntries(NewDefinition(signals, slots, name).slotDefs) == slots
  {
  }

  /** A declared parameter `name: QType` of a signal or slot. */
  datatype Param = Param(name: string, qtype: string)
  /** A declared signal or slot. */
  datatype MethodDecl = MethodDecl(name: string, params: seq<Param>)
  /** The input of one `Q_OBJECT!` invocation: the type, its signals, its slots. */
  datatype ObjectDecl = ObjectDecl(name: string, signals: seq<MethodDecl>, slots: seq<MethodDecl>)

  /** The return metatype every generated slot entry carries. */
  const SLOT_RETURN_META_TYPE: int := 43

  /** The parameter metatypes of a declaration, in declaration order. */
  function MetaTypes(params: seq<Param>, metatype: string -> int): (types: seq<int>)
    ensures |types| == |params|
    ensures forall j :: 0 <= j < |params| ==> types[j] == metatype(params[j].qtype)
  {
    seq(|params|, j requires 0 <= j < |params| => metatype(params[j].qtype))
  }

  /** The signal list the generated `qmeta` builds. */
  function SignalTable(signals: seq<MethodDecl>, metatype: string -> int): (table: seq<SignalEntry>)
    ensures |table| == |signals|
    ensures forall i :: 0 <= i < |signals| ==>
      table[i] == (signals[i].name, |signals[i].params|, MetaTypes(signals[i].params, metatype))
  {
    seq(|signals|, i requires 0 <= i < |signals| =>
      (signals[i].name, |signals[i].params|, MetaTypes(signals[i].params, metatype)))
  }

  /** The slot list the generated `qmeta` builds. */
  function SlotTable(slots: seq<MethodDecl>, metatype: string -> int): (table: seq<SlotEntry>)
    ensures |table| == |slots|
    ensures forall i :: 0 <= i < |slots| ==>
      table[i] == (slots[i].name, SLOT_RETURN_META_TYPE, |slots[i].params|, MetaTypes(slots[i].params, metatype))
  {
    seq(|slots|, i requires 0 <= i < |slots| =>
      (slots[i].name, SLOT_RETURN_META_TYPE, |slots[i].params|, MetaTypes(slots[i].params, metatype)))
  }

  /** The per-declaration block of the generated `qmeta`: `argc += 1` and one
      pushed metatype for each declared parameter. */
  method CountParams(params: seq<Param>, metatype: string -> int) returns (argc: int, mttypes: seq<int>)
    ensures argc == |params|
    ensures mttypes == MetaTypes(params, metatype)
  {
    argc := 0;
    mttypes := [];
    for j := 0 to |params|
      invariant argc == j
      invariant mttypes == MetaTypes(params[..j], metatype)
    {
      argc := argc + 1;
      mttypes := mttypes + [metatype(params[j].qtype)];
    }
    assert params[..|params|] == params;
  }

  /** The generated `qmeta`: build the signal and slot lists, then the
      definition. Every signal and slot keeps its declaration's arity and
      parameter metatypes in order; every slot returns metatype 43. */
  method QMetaOf(decl: ObjectDecl, metatype: string -> int) returns (d: QMetaDefinition)
    ensures d == NewDefinition(SignalTable(decl.signals, metatype), SlotTable(decl.slots, metatype), decl.name)
    ensures |d.sigDefs.definitions| == |decl.signals| && |d.slotDefs.definitions| == |decl.slots|
    ensures forall i :: 0 <= i < |decl.signals| ==>
      && d.sigDefs.definitions[i].name == decl.signals[i].name
      && d.sigDefs.definitions[i].parametersCount == |decl.signals[i].params|
      && d.sigDefs.definitions[i].parametersMetaTypes == MetaTypes(decl.signals[i].params, metatype)
    ensures forall i :: 0 <= i < |decl.slots| ==>
      && d.slotDefs.definitions[i].name == decl.slots[i].name
      && d.slotDefs.definitions[i].returnMetaType == SLOT_RETURN_META_TYPE
      && d.slotDefs.definitions[i].parametersCount == |decl.slots[i].params|
      && d.slotDefs.definitions[i].parametersMetaTypes == MetaTypes(decl.slots[i].params, metatype)
    ensures d.propDefs.count == 0
  {
    var signals: seq<SignalEntry> := [];
    for i := 0 to |decl.signals|
      invariant signals == SignalTable(decl.signals[..i], metatype)
    {
      var argc, mttypes := CountParams(decl.signals[i].params, metatype);
      signals := signals + [(decl.signals[i].name, argc, mttypes)];
    }
    var slots: seq<SlotEntry> := [];
    for i := 0 to |decl.slots|
      invariant slots == SlotTable(decl.slots[..i], metatype)
    {
      var argc, mttypes := CountParams(decl.slots[i].params, metatype);
      slots := slots + [(decl.slots[i].name, SLOT_RETURN_META_TYPE, argc, mttypes)];
    }
    assert decl.signals[..|decl.signals|] == decl.signals;
    assert decl.slots[..|decl.slots|] == decl.slots;
    d := NewDefinition(signals, slots, decl.name);
  }

  /** The first declared slot called `name`, as the arms of a `match` try them. */
  function FindSlot(slots: seq<MethodDecl>, name: string): (r: Option<nat>)
    ensures r.Some? ==> r.value < |slots| && slots[r.value].name == name
    ensures r.Some? ==> forall j :: 0 <= j < r.value ==> slots[j].name != name
    ensures r.None? <==> forall j :: 0 <= j < |slots| ==> slots[j].name != name
    decreases |slots|
  {
    if slots == [] then None
    else if slots[0].name == name then Some(0)
    else match FindSlot(slots[1..], name)
      case None => None
      case Some(i) => Some(i + 1)
  }

  /** A slot invoked with the arguments bound to its parameters. */
  datatype SlotInvocation<V> = SlotInvocation(slot: string, args: seq<V>)

  const NOT_ENOUGH_PARAMETERS: string := "Not enough parameters to call a slot"

  function UnrecognizedSlot(name: string): string
  {
    "Unrecognized slot call: " + name
  }

  /** What `qslot_call` does: find the slot by name, then bind one argument per
      declared parameter, front to back; surplus arguments are dropped. */
  function Dispatch<V>(slots: seq<MethodDecl>, name: string, args: seq<V>): (r: Outcome<SlotInvocation<V>>)
    ensures r == Panic(UnrecognizedSlot(name)) <==> forall j :: 0 <= j < |slots| ==> slots[j].name != name
    ensures forall i :: 0 <= i < |slots| && slots[i].name == name && (forall j :: 0 <= j < i ==> slots[j].name != name) ==>
      && (r.Done? <==> |args| >= |slots[i].params|)
      && (r.Done? ==> r.value == SlotInvocation(name, args[..|slots[i].params|]))
      && (r.Panic? ==> r.message == NOT_ENOUGH_PARAMETERS)
  {
    match FindSlot(slots, name)
    case None => Panic(UnrecognizedSlot(name))
    case Some(i) =>
      assert UnrecognizedSlot(name)[0] != NOT_ENOUGH_PARAMETERS[0];
      if |args| < |slots[i].params| then Panic(NOT_ENOUGH_PARAMETERS)
      else Done(SlotInvocation(name, args[..|slots[i].params|]))
  }

  /** Arguments past the slot's arity never change the outcome of a call. */
  lemma SurplusArgumentsIgnored<V>(slots: seq<MethodDecl>, name: string, args: seq<V>, extra: seq<V>)
    requires Dispatch(slots, name, args).Done?
    ensures Dispatch(slots, name, args + extra) == Dispatch(slots, name, args)
  {
    var i := FindSlot(slots, name).value;
    assert (args + extra)[..|slots[i].params|] == args[..|slots[i].params|];
  }

  /** The generated `qslot_call`: try the slot names in order; for the match,
      pull one argument per parameter from the iterator, panicking when it
      runs dry; with no match, panic. */
  method QSlotCall<V>(slots: seq<MethodDecl>, name: string, args: seq<V>) returns (r: Outcome<SlotInvocation<V>>)
    ensures r == Dispatch(slots, name, args)
  {
    var i := 0;
    while i < |slots| && slots[i].name != name
      invariant 0 <= i <= |slots|
      invariant forall j :: 0 <= j < i ==> slots[j].name != name
    {
      i := i + 1;
    }
    if i == |slots| {
      return Panic(UnrecognizedSlot(name));
    }
    var params := slots[i].params;
    var bound: seq<V> := [];
    var next := 0;
    while next < |params|
      invariant 0 <= next <= |params| && next <= |args|
      invariant bound == args[..next]
    {
      if next == |args| {
        return Panic(NOT_ENOUGH_PARAMETERS);
      }
      bound := bound + [args[next]];
      next := next + 1;
    }
    r := Done(SlotInvocation(name, bound));
  }

  /** A signal as it is handed to `emit_signal`. */
  datatype Emission<V> = Emission(signal: string, args: seq<V>)

  /** A generated signal method: push each argument, in declaration order,
      onto the vector passed to `emit_signal`. */
  method EmitSignal<V>(signal: MethodDecl, values: seq<V>) returns (e: Emission<V>)
    requires |values| == |signal.params|
    ensures e.signal == signal.name && e.args == values
    ensures |e.args| == |signal.params|
  {
    var vec: seq<V> := [];
    for j := 0 to |values|
      invariant vec == values[..j]
    {
      vec := vec + [values[j]];
    }
    assert values[..|values|] == values;
    e := Emission(signal.name, vec);
  }

  /** The example object `Test`: one two-argument signal, one two-argument slot. */
  const TEST: ObjectDecl := ObjectDecl(
    "Test",
    [MethodDecl("testname", [Param("a", "i32"), Param("b", "i32")])],
    [MethodDecl("launchGoose", [Param("i", "i32"), Param("launchText", "String")])])

  lemma TestObjectExample(metatype: string -> int)
    ensures var d := NewDefinition(SignalTable(TEST.signals, metatype), SlotTable(TEST.slots, metatype), TEST.name);
      && d.sigDefs.count == 1
      && d.sigDefs.definitions[0] == SignalDefinition("testname", 2, [metatype("i32"), metatype("i32")])
      && d.slotDefs.count == 1
      && d.slotDefs.definitions[0] == SlotDefinition("launchGoose", 43, 2, [metatype("i32"), metatype("String")])
      && d.propDefs.count == 0
    ensures Dispatch(TEST.slots, "launchGoose", [FromI32(42), FromText("QML Rust")])
      == Done(SlotInvocation("launchGoose", [FromI32(42), FromText("QML Rust")]))
    ensures Dispatch(TEST.slots, "launchGoose", [FromI32(42)]) == Panic(NOT_ENOUGH_PARAMETERS)
    ensures Dispatch(TEST.slots, "testname", [FromI32(54), FromI32(55)]) == Panic(UnrecognizedSlot("testname"))
  {
    assert "testname" != "launchGoose";
    var args := [FromI32(42), FromText("QML Rust")];
    assert args[..|TEST.slots[0].params|] == args;
  }

  /** The example program's calls: emit `testname(54, 55)`, then call
      `launchGoose` with two arguments. */
  method TestObjectSession() returns (emitted: Emission<QVariant>, called: Outcome<SlotInvocation<QVariant>>)
    ensures emitted == Emission("testname", [FromI32(54), FromI32(55)])
    ensures called == Done(SlotInvocation("launchGoose", [FromI32(42), FromText("QML Rust")]))
  {
    emitted := EmitSignal(TEST.signals[0], [FromI32(54), FromI32(55)]);
    called := QSlotCall(TEST.slots, "launchGoose", [FromI32(42), FromText("QML Rust")]);
    TestObjectExample(_ => 0);
  }
}
