/**
 * The dispatch layer: every operation tries its candidates in a fixed
 * order (native slot, secondary slot, operator fallback) and fails with a
 * type error naming the type when none of them decides.
 *
 * Each operation is written the way the runtime writes it, as nested
 * tests; its contract states that it agrees with the ordered candidate
 * list `...Tiers` evaluated by the generic engine `FirstDecided`.
 */
module Dispatch {
  import opened Wrappers
  import opened Objects
  import opened Resolution

  /** What one candidate of a fallback chain does: step aside, or decide the outcome. */
  datatype Attempt<T> = Pass | Decide(result: PyResult<T>)

  /**
   * The generic fallback engine: the outcome of the first candidate that
   * decides, or the chain's own error when every candidate steps aside.
   */
  function FirstDecided<T(==)>(chain: seq<Attempt<T>>, otherwise: PyErr): (r: PyResult<T>)
    ensures forall i ::
              (0 <= i < |chain| && chain[i].Decide? && (forall j :: 0 <= j < i ==> chain[j].Pass?))
              ==> r == chain[i].result
    ensures (forall i :: 0 <= i < |chain| ==> chain[i].Pass?) ==> r == Err(otherwise)
  {
    if |chain| == 0 then Err(otherwise)
    else if chain[0].Decide? then chain[0].result
    else
      var r := FirstDecided(chain[1..], otherwise);
      assert forall i :: 1 <= i < |chain| ==> chain[i] == chain[1..][i - 1];
      r
  }

  /** A native slot decides whenever it is present. */
  function NativeTier<T>(slot: Option<SlotId>, call: SlotId -> PyResult<T>): Attempt<T> {
    if slot.Some? then Decide(call(slot.value)) else Pass
  }

  /**
   * An operator fallback: consulted only when `applies`; an error it raises
   * decides, an `Implemented` answer decides, `NotImplemented` steps aside.
   */
  function OperatorTier(applies: bool, answer: PyResult<ArithValue>): Attempt<Obj> {
    if !applies then Pass
    else match answer
      case Err(e) => Decide(Err(e))
      case Ok(Implemented(x)) => Decide(Ok(x))
      case Ok(NotImplementedValue) => Pass
  }

  // ---------------------------------------------------------------- length

  function LengthTiers(vm: Vm, v: View): seq<Attempt<Usize>> {
    [NativeTier(Methods(vm, v).length, (f: SlotId) => vm.callLength(f, v.obj))]
  }

  function Length(vm: Vm, v: View): (r: PyResult<Usize>)
    ensures r == FirstDecided(LengthTiers(vm, v), HasNoLen(TypeName(v)))
  {
    var t := Methods(vm, v);
    if t.length.Some? then vm.callLength(t.length.value, v.obj)
    else Err(HasNoLen(TypeName(v)))
  }

  // ---------------------------------------------------------------- concat

  /** Both operands must present as sequences before `+` is tried. */
  function ConcatTiers(vm: Vm, v: View, other: Obj): seq<Attempt<Obj>> {
    [ NativeTier(Methods(vm, v).concat, (f: SlotId) => vm.callConcat(f, v.obj, other)),
      OperatorTier(HasProtocol(vm, v) && HasProtocol(vm, FromObj(other)), vm.binaryOp(Add, v.obj, other)) ]
  }

  function Concat(vm: Vm, v: View, other: Obj): (r: PyResult<Obj>)
    ensures r == FirstDecided(ConcatTiers(vm, v, other), CantConcat(TypeName(v)))
  {
    var t := Methods(vm, v);
    if t.concat.Some? then vm.callConcat(t.concat.value, v.obj, other)
    else if HasProtocol(vm, v) && HasProtocol(vm, FromObj(other)) then
      match vm.binaryOp(Add, v.obj, other)
      case Err(e) => Err(e)
      case Ok(Implemented(x)) => Ok(x)
      case Ok(NotImplementedValue) => Err(CantConcat(TypeName(v)))
    else Err(CantConcat(TypeName(v)))
  }

  // ---------------------------------------------------------------- repeat

  /** Only the receiver must present as a sequence before `*` is tried. */
  function RepeatTiers(vm: Vm, v: View, n: Usize): seq<Attempt<Obj>> {
    [ NativeTier(Methods(vm, v).repeat, (f: SlotId) => vm.callRepeat(f, v.obj, n)),
      OperatorTier(HasProtocol(vm, v), vm.binaryOp(Mul, v.obj, vm.intObject(n))) ]
  }

  function Repeat(vm: Vm, v: View, n: Usize): (r: PyResult<Obj>)
    ensures r == FirstDecided(RepeatTiers(vm, v, n), CantRepeat(TypeName(v)))
  {
    var t := Methods(vm, v);
    if t.repeat.Some? then vm.callRepeat(t.repeat.value, v.obj, n)
    else if HasProtocol(vm, v) then
      match vm.binaryOp(Mul, v.obj, vm.intObject(n))
      case Err(e) => Err(e)
      case Ok(Implemented(x)) => Ok(x)
      case Ok(NotImplementedValue) => Err(CantRepeat(TypeName(v)))
    else Err(CantRepeat(TypeName(v)))
  }

  // ---------------------------------------------------------------- in-place concat

  function InplaceConcatTiers(vm: Vm, v: View, other: Obj): seq<Attempt<Obj>> {
    [ NativeTier(Methods(vm, v).inplaceConcat, (f: SlotId) => vm.callConcat(f, v.obj, other)),
      NativeTier(Methods(vm, v).concat, (f: SlotId) => vm.callConcat(f, v.obj, other)),
      OperatorTier(HasProtocol(vm, v) && HasProtocol(vm, FromObj(other)), vm.binaryOp(InplaceAdd, v.obj, other)) ]
  }

  function InplaceConcat(vm: Vm, v: View, other: Obj): (r: PyResult<Obj>)
    ensures r == FirstDecided(InplaceConcatTiers(vm, v, other), CantConcat(TypeName(v)))
  {
    var t := Methods(vm, v);
    if t.inplaceConcat.Some? then vm.callConcat(t.inplaceConcat.value, v.obj, other)
    else if t.concat.Some? then vm.callConcat(t.concat.value, v.obj, other)
    else if HasProtocol(vm, v) && HasProtocol(vm, FromObj(other)) then
      assert InplaceConcatTiers(vm, v, other)[2] == OperatorTier(true, vm.binaryOp(InplaceAdd, v.obj, other));
      match vm.binaryOp(InplaceAdd, v.obj, other)
      case Err(e) => Err(e)
      case Ok(Implemented(x)) => Ok(x)
      case Ok(NotImplementedValue) => Err(CantConcat(TypeName(v)))
    else Err(CantConcat(TypeName(v)))
  }

  // ---------------------------------------------------------------- in-place repeat

  function InplaceRepeatTiers(vm: Vm, v: View, n: Usize): seq<Attempt<Obj>> {
    [ NativeTier(Methods(vm, v).inplaceRepeat, (f: SlotId) => vm.callRepeat(f, v.obj, n)),
      NativeTier(Methods(vm, v).repeat, (f: SlotId) => vm.callRepeat(f, v.obj, n)),
      OperatorTier(HasProtocol(vm, v), vm.binaryOp(InplaceMul, v.obj, vm.intObject(n))) ]
  }

  function InplaceRepeat(vm: Vm, v: View, n: Usize): (r: PyResult<Obj>)
    ensures r == FirstDecided(InplaceRepeatTiers(vm, v, n), CantRepeat(TypeName(v)))
  {
    var t := Methods(vm, v);
    if t.inplaceRepeat.Some? then vm.callRepeat(t.inplaceRepeat.value, v.obj, n)
    else if t.repeat.Some? then vm.callRepeat(t.repeat.value, v.obj, n)
    else if HasProtocol(vm, v) then
      assert InplaceRepeatTiers(vm, v, n)[2] == OperatorTier(true, vm.binaryOp(InplaceMul, v.obj, vm.intObject(n)));
      match vm.binaryOp(InplaceMul, v.obj, vm.intObject(n))
      case Err(e) => Err(e)
      case Ok(Implemented(x)) => Ok(x)
      case Ok(NotImplementedValue) => Err(CantRepeat(TypeName(v)))
    else Err(CantRepeat(TypeName(v)))
  }

  // ---------------------------------------------------------------- items

  function GetItemTiers(vm: Vm, v: View, i: Isize): seq<Attempt<Obj>> {
    [NativeTier(Methods(vm, v).item, (f: SlotId) => vm.callItem(f, v.obj, i))]
  }

  function GetItem(vm: Vm, v: View, i: Isize): (r: PyResult<Obj>)
    ensures r == FirstDecided(GetItemTiers(vm, v, i), NoIndexing(TypeName(v)))
  {
    var t := Methods(vm, v);
    if t.item.Some? then vm.callItem(t.item.value, v.obj, i)
    else Err(NoIndexing(TypeName(v)))
  }

  function AssItemTiers(vm: Vm, v: View, i: Isize, value: Option<Obj>): seq<Attempt<()>> {
    [NativeTier(Methods(vm, v).assItem, (f: SlotId) => vm.callAssItem(f, v.obj, i, value))]
  }

  /** Item assignment (`value` present) and deletion (`value` absent) share one path. */
  function AssItem(vm: Vm, v: View, i: Isize, value: Option<Obj>): (r: PyResult<()>)
    ensures r == FirstDecided(AssItemTiers(vm, v, i, value), NoItemAssignment(TypeName(v), value))
  {
    var t := Methods(vm, v);
    if t.assItem.Some? then vm.callAssItem(t.assItem.value, v.obj, i, value)
    else Err(NoItemAssignment(TypeName(v), value))
  }

  function SetItem(vm: Vm, v: View, i: Isize, value: Obj): (r: PyResult<()>)
    ensures Methods(vm, v).assItem.Some? ==> r == vm.callAssItem(Methods(vm, v).assItem.value, v.obj, i, Some(value))
    ensures Methods(vm, v).assItem.None? ==>
              r == Err(PyErr(TypeError, Quote(TypeName(v)) + " is not a sequence or doesn't support item " + "assignment"))
  {
    AssItem(vm, v, i, Some(value))
  }

  function DelItem(vm: Vm, v: View, i: Isize): (r: PyResult<()>)
    ensures Methods(vm, v).assItem.Some? ==> r == vm.callAssItem(Methods(vm, v).assItem.value, v.obj, i, None)
    ensures Methods(vm, v).assItem.None? ==>
              r == Err(PyErr(TypeError, Quote(TypeName(v)) + " is not a sequence or doesn't support item " + "deletion"))
  {
    AssItem(vm, v, i, None)
  }

  // ---------------------------------------------------------------- slices

  /** The slice handed to the mapping slots: `slice(start, stop, None)`. */
  function SliceOf(start: Isize, stop: Isize): Slice {
    Slice(Some(start), stop, None)
  }

  /** The mapping table of the first ancestor that supplies one, if any. */
  function MappingOf(obj: Obj): Option<MappingMethods> {
    FindMap(obj.cls.mro, (a: Ancestor) => a.asMapping)
  }

  /** The `subscript` slot of that first mapping table; later ancestors are never consulted. */
  function SubscriptSlot(obj: Obj): Option<SlotId> {
    match MappingOf(obj)
    case Some(mp) => mp.subscript
    case None => None
  }

  function AssSubscriptSlot(obj: Obj): Option<SlotId> {
    match MappingOf(obj)
    case Some(mp) => mp.assSubscript
    case None => None
  }

  function GetSliceTiers(vm: Vm, v: View, start: Isize, stop: Isize): seq<Attempt<Obj>> {
    [NativeTier(SubscriptSlot(v.obj), (f: SlotId) => vm.callSubscript(f, v.obj, SliceOf(start, stop)))]
  }

  function GetSlice(vm: Vm, v: View, start: Isize, stop: Isize): (r: PyResult<Obj>)
    ensures r == FirstDecided(GetSliceTiers(vm, v, start, stop), Unsliceable(TypeName(v)))
  {
    match MappingOf(v.obj)
    case Some(mp) =>
      if mp.subscript.Some? then vm.callSubscript(mp.subscript.value, v.obj, SliceOf(start, stop))
      else Err(Unsliceable(TypeName(v)))
    case None => Err(Unsliceable(TypeName(v)))
  }

  function AssSliceTiers(vm: Vm, v: View, start: Isize, stop: Isize, value: Option<Obj>): seq<Attempt<()>> {
    [NativeTier(AssSubscriptSlot(v.obj), (f: SlotId) => vm.callAssSubscript(f, v.obj, SliceOf(start, stop), value))]
  }

  /** Slice assignment (`value` present) and deletion (`value` absent) share one path. */
  function AssSlice(vm: Vm, v: View, start: Isize, stop: Isize, value: Option<Obj>): (r: PyResult<()>)
    ensures r == FirstDecided(AssSliceTiers(vm, v, start, stop, value), NoSliceAssignment(TypeName(v), value))
  {
    match MappingOf(v.obj)
    case Some(mp) =>
      if mp.assSubscript.Some? then vm.callAssSubscript(mp.assSubscript.value, v.obj, SliceOf(start, stop), value)
      else Err(NoSliceAssignment(TypeName(v), value))
    case None => Err(NoSliceAssignment(TypeName(v), value))
  }

  function SetSlice(vm: Vm, v: View, start: Isize, stop: Isize, value: Obj): (r: PyResult<()>)
    ensures AssSubscriptSlot(v.obj).Some? ==>
              r == vm.callAssSubscript(AssSubscriptSlot(v.obj).value, v.obj, Slice(Some(start), stop, None), Some(value))
    ensures AssSubscriptSlot(v.obj).None? ==>
              r == Err(PyErr(TypeError, Quote(TypeName(v)) + " object doesn't support slice " + "assignment"))
  {
    AssSlice(vm, v, start, stop, Some(value))
  }

  function DelSlice(vm: Vm, v: View, start: Isize, stop: Isize): (r: PyResult<()>)
    ensures AssSubscriptSlot(v.obj).Some? ==>
              r == vm.callAssSubscript(AssSubscriptSlot(v.obj).value, v.obj, Slice(Some(start), stop, None), None)
    ensures AssSubscriptSlot(v.obj).None? ==>
              r == Err(PyErr(TypeError, Quote(TypeName(v)) + " object doesn't support slice " + "deletion"))
  {
    AssSlice(vm, v, start, stop, None)
  }
}
