/** The intermediate representation of recorded tensor operations, reduced to
    what the fusion layer's store and its dependency analysis look at: which
    tensors an operation touches, and whether it reads or produces each one. */
module Ir {

  /** Identifier of one logical tensor version. */
  datatype TensorId = TensorId(value: nat)

  /** How an operation uses a tensor: it reads it, reads and overwrites it, or
      produces it (the tensor is not initialised before the operation runs). */
  datatype TensorStatus = ReadOnly | ReadWrite | NotInit

  /** One tensor touched by an operation. Shape and data type are not modelled. */
  datatype TensorIr = TensorIr(id: TensorId, status: TensorStatus)

  /** The element type tag carried by typed operations, by its debug name. */
  datatype DType = DType(name: string)

  /** The inner description of an operation variant: its debug rendering
      (for a custom operation, the custom id) and the tensors it touches. */
  datatype OpDesc = OpDesc(text: string, nodes: seq<TensorIr>)

  /** The twelve operation categories, in the order the enum declares them. */
  datatype OperationIr =
    | BaseFloat(desc: OpDesc)
    | BaseInt(desc: OpDesc)
    | BaseBool(desc: OpDesc)
    | NumericFloat(dtype: DType, desc: OpDesc)
    | NumericInt(dtype: DType, desc: OpDesc)
    | Bool(desc: OpDesc)
    | Int(desc: OpDesc)
    | Float(dtype: DType, desc: OpDesc)
    | Module(desc: OpDesc)
    | Init(desc: OpDesc)
    | Custom(desc: OpDesc)
    | Drop(tensor: TensorIr)

  /** The tensors an operation touches (`op.nodes()`): an explicit drop touches
      exactly the dropped tensor. */
  function Nodes(op: OperationIr): seq<TensorIr>
  {
    if op.Drop? then [op.tensor] else op.desc.nodes
  }

  /** A node the operation consumes: read-only or read-write. */
  predicate IsRead(n: TensorIr)
  {
    n.status == ReadOnly || n.status == ReadWrite
  }

  /** A node the operation produces. */
  predicate IsWrite(n: TensorIr)
  {
    n.status == NotInit
  }

  /** Operation `op` produces tensor `id`. */
  predicate Produces(op: OperationIr, id: TensorId)
  {
    TensorIr(id, NotInit) in Nodes(op)
  }

  /** Operation `op` consumes tensor `id`. */
  predicate Consumes(op: OperationIr, id: TensorId)
  {
    TensorIr(id, ReadOnly) in Nodes(op) || TensorIr(id, ReadWrite) in Nodes(op)
  }
}
