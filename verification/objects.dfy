/**
 * The runtime values the sequence protocol works on: exceptions, method
 * tables, types with their method-resolution order, objects, and the
 * collaborators of the virtual machine that this layer only calls.
 */
module Objects {
  import opened Wrappers

  /** Largest value of a 64-bit `isize`. */
  const IsizeMax: int := 0x7FFF_FFFF_FFFF_FFFF
  /** Smallest value of a 64-bit `isize`. */
  const IsizeMin: int := -0x8000_0000_0000_0000
  /** Largest value of a 64-bit `usize`. */
  const UsizeMax: int := 0xFFFF_FFFF_FFFF_FFFF

  type Isize = x: int | IsizeMin <= x <= IsizeMax
  type Usize = x: int | 0 <= x <= UsizeMax

  /** The kind of a raised exception. Errors raised by collaborators may be of any kind. */
  datatype ExcKind = TypeError | ValueError | OverflowError | OtherError(name: string)

  datatype PyErr = PyErr(kind: ExcKind, msg: string)

  type PyResult<T> = Result<T, PyErr>

  /** Identity of a native function stored in a slot. */
  type SlotId = nat

  /** Identity of a type object (what `is` compares). */
  type TypeId = nat

  /** The eight optional slots of a sequence method table. */
  datatype SequenceMethods = SequenceMethods(
    length: Option<SlotId>,
    concat: Option<SlotId>,
    repeat: Option<SlotId>,
    item: Option<SlotId>,
    assItem: Option<SlotId>,
    contains: Option<SlotId>,
    inplaceConcat: Option<SlotId>,
    inplaceRepeat: Option<SlotId>)

  /** The shared table with every slot empty. */
  const NotImplemented: SequenceMethods :=
    SequenceMethods(None, None, None, None, None, None, None, None)

  /** The part of the mapping method table that slicing uses. */
  datatype MappingMethods = MappingMethods(subscript: Option<SlotId>, assSubscript: Option<SlotId>)

  /**
   * One entry of a method-resolution order, with the tables its
   * `as_sequence` / `as_mapping` slots produce for the object at hand.
   */
  datatype Ancestor = Ancestor(
    name: string,
    asSequence: Option<SequenceMethods>,
    asMapping: Option<MappingMethods>)

  /** A type: its identity, its name and its resolution order, the type itself first. */
  datatype PyType = PyType(id: TypeId, name: string, mro: seq<Ancestor>)

  datatype Payload = TupleItems(items: seq<Obj>) | ListItems(items: seq<Obj>) | Opaque(tag: nat)

  datatype Obj = Obj(cls: PyType, payload: Payload)

  /** The slice object `slice(start, stop, step)` handed to the mapping slots. */
  datatype Slice = Slice(start: Option<int>, stop: int, step: Option<int>)

  /** What an operator answered once `NotImplemented` has been recognised. */
  datatype ArithValue = Implemented(value: Obj) | NotImplementedValue

  datatype BinOp = Add | Mul | InplaceAdd | InplaceMul

  datatype BuiltinTypes = BuiltinTypes(dict: PyType, tuple: PyType, list: PyType)

  /**
   * The virtual machine as seen from this layer. Every field is a
   * collaborator whose code is not part of this model: the native functions
   * behind slots (looked up by their identity), the operator machinery, the
   * equality test and the iteration protocol.
   */
  datatype Vm = Vm(
    types: BuiltinTypes,
    callLength: (SlotId, Obj) -> PyResult<Usize>,
    callConcat: (SlotId, Obj, Obj) -> PyResult<Obj>,
    callRepeat: (SlotId, Obj, Usize) -> PyResult<Obj>,
    callItem: (SlotId, Obj, Isize) -> PyResult<Obj>,
    callAssItem: (SlotId, Obj, Isize, Option<Obj>) -> PyResult<()>,
    callContains: (SlotId, Obj, Obj) -> PyResult<bool>,
    callSubscript: (SlotId, Obj, Slice) -> PyResult<Obj>,
    callAssSubscript: (SlotId, Obj, Slice, Option<Obj>) -> PyResult<()>,
    binaryOp: (BinOp, Obj, Obj) -> PyResult<ArithValue>,
    intObject: Usize -> Obj,
    boolEq: (Obj, Obj) -> PyResult<bool>,
    iterate: Obj -> PyResult<seq<PyResult<Obj>>>)

  /** `'name'`, the way every message of this layer quotes a type name. */
  function Quote(name: string): string {
    "'" + name + "'"
  }

  function TypeErr(msg: string): PyErr {
    PyErr(TypeError, msg)
  }

  /** The word that tells an assignment from a deletion. */
  function Verb(value: Option<Obj>): string {
    if value.Some? then "assignment" else "deletion"
  }

  function NotASequence(name: string): PyErr {
    TypeErr(Quote(name) + " is not a sequence")
  }

  function HasNoLen(name: string): PyErr {
    TypeErr(Quote(name) + " is not a sequence or has no len()")
  }

  function CantConcat(name: string): PyErr {
    TypeErr(Quote(name) + " object can't be concatenated")
  }

  function CantRepeat(name: string): PyErr {
    TypeErr(Quote(name) + " object can't be repeated")
  }

  function NoIndexing(name: string): PyErr {
    TypeErr(Quote(name) + " is not a sequence or does not support indexing")
  }

  function NoItemAssignment(name: string, value: Option<Obj>): PyErr {
    TypeErr(Quote(name) + " is not a sequence or doesn't support item " + Verb(value))
  }

  function Unsliceable(name: string): PyErr {
    TypeErr(Quote(name) + " object is unsliceable")
  }

  function NoSliceAssignment(name: string, value: Option<Obj>): PyErr {
    TypeErr(Quote(name) + " object doesn't support slice " + Verb(value))
  }

  const IndexOverflow: PyErr := PyErr(OverflowError, "index exceeds C integer size")

  const NotInSequence: PyErr := PyErr(ValueError, "sequence.index(x): x not in sequence")
}
