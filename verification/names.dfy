/** Human-readable names of operations, as the debug renderers print them. */
module Names {
  import opened Ir
  import opened Text

  /** The twelve category names, in the order the operation enum declares its variants. */
  const TypeNames: seq<string> := [
    "BaseFloat", "BaseInt", "BaseBool", "NumericFloat", "NumericInt", "Bool",
    "Int", "Float", "Module", "Init", "Custom", "Drop"]

  /** The position of an operation's variant in the enum declaration. */
  function VariantIndex(op: OperationIr): (k: nat)
    ensures k < |TypeNames|
  {
    match op
    case BaseFloat(_) => 0
    case BaseInt(_) => 1
    case BaseBool(_) => 2
    case NumericFloat(_, _) => 3
    case NumericInt(_, _) => 4
    case Bool(_) => 5
    case Int(_) => 6
    case Float(_, _) => 7
    case Module(_) => 8
    case Init(_) => 9
    case Custom(_) => 10
    case Drop(_) => 11
  }

  /** The category name of an operation (`operation_type_name`). */
  function OperationTypeName(op: OperationIr): (r: string)
    ensures r == TypeNames[VariantIndex(op)]
  {
    match op
    case BaseFloat(_) => "BaseFloat"
    case BaseInt(_) => "BaseInt"
    case BaseBool(_) => "BaseBool"
    case NumericFloat(_, _) => "NumericFloat"
    case NumericInt(_, _) => "NumericInt"
    case Bool(_) => "Bool"
    case Int(_) => "Int"
    case Float(_, _) => "Float"
    case Module(_) => "Module"
    case Init(_) => "Init"
    case Custom(_) => "Custom"
    case Drop(_) => "Drop"
  }

  /** The twelve names are pairwise different. */
  lemma TypeNamesDistinct()
    ensures forall i, j :: 0 <= i < j < |TypeNames| ==> TypeNames[i] != TypeNames[j]
  {
    forall i, j | 0 <= i < j < |TypeNames|
      ensures TypeNames[i] != TypeNames[j]
    {
      var a, b := TypeNames[i], TypeNames[j];
      assert |a| != |b| || a[0] != b[0];
    }
  }

  /** Two operations get the same name exactly when they are of the same variant. */
  lemma TypeNameIdentifiesVariant(a: OperationIr, b: OperationIr)
    ensures OperationTypeName(a) == OperationTypeName(b) <==> VariantIndex(a) == VariantIndex(b)
  {
    TypeNamesDistinct();
  }

  /** `name(args)`: the shape of every format string of `operation_to_string`. */
  function Call(name: string, args: string): string
  {
    name + "(" + args + ")"
  }

  /** One-line rendering of an operation (`operation_to_string`): the variant's
      name, then its inner description in parentheses (for the typed variants,
      the data type first). `idText` is the display of a tensor id, which is not
      part of this model. */
  function OperationToString(op: OperationIr, idText: TensorId -> string): string
  {
    match op
    case BaseFloat(d) => Call("BaseFloat", d.text)
    case BaseInt(d) => Call("BaseInt", d.text)
    case BaseBool(d) => Call("BaseBool", d.text)
    case NumericFloat(t, d) => Call("NumericFloat", t.name + ", " + d.text)
    case NumericInt(t, d) => Call("NumericInt", t.name + ", " + d.text)
    case Bool(d) => Call("Bool", d.text)
    case Int(d) => Call("Int", d.text)
    case Float(t, d) => Call("Float", t.name + ", " + d.text)
    case Module(d) => Call("Module", d.text)
    case Init(d) => Call("Init", d.text)
    case Custom(d) => Call("Custom", d.text)
    case Drop(t) => Call("Drop", idText(t.id))
  }

  /** A call opens with the name and a parenthesis and closes with a parenthesis. */
  lemma CallShape(name: string, args: string)
    ensures name + "(" <= Call(name, args)
    ensures Call(name, args)[|Call(name, args)| - 1] == ')'
  {
    assert Call(name, args)[..|name + "("|] == name + "(";
  }

  /** Every rendering of an operation opens with its category name and a
      parenthesis, and closes with a parenthesis. */
  lemma OperationToStringShape(op: OperationIr, idText: TensorId -> string)
    ensures OperationTypeName(op) + "(" <= OperationToString(op, idText)
    ensures var r := OperationToString(op, idText); r != [] && r[|r| - 1] == ')'
  {
    var args := match op
      case NumericFloat(t, d) => t.name + ", " + d.text
      case NumericInt(t, d) => t.name + ", " + d.text
      case Float(t, d) => t.name + ", " + d.text
      case Drop(t) => idText(t.id)
      case _ => op.desc.text;
    assert OperationToString(op, idText) == Call(OperationTypeName(op), args);
    CallShape(OperationTypeName(op), args);
  }
}
