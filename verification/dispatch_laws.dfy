/**
 * Consequences of the fallback orders: which candidate wins, when the
 * operator fallback is consulted, and the exact error each operation
 * raises when nothing decides.
 */
module DispatchLaws {
  import opened Wrappers
  import opened Objects
  import opened Resolution
  import opened Dispatch

  /** A native `concat` slot decides alone: the operator machinery is never consulted. */
  lemma ConcatNativeSlotWins(vm: Vm, v: View, other: Obj, ops: (BinOp, Obj, Obj) -> PyResult<ArithValue>)
    requires Methods(vm, v).concat.Some?
    ensures Concat(vm, v, other) == vm.callConcat(Methods(vm, v).concat.value, v.obj, other)
    ensures Concat(vm.(binaryOp := ops), v, other) == Concat(vm, v, other)
  {
  }

  /**
   * Without a `concat` slot, `+` is tried only when both operands are
   * sequences; its error propagates, `Implemented` is the result, and
   * `NotImplemented` or a non-sequence operand gives the concatenation error.
   */
  lemma ConcatOperatorFallback(vm: Vm, v: View, other: Obj)
    requires Methods(vm, v).concat.None?
    ensures !(HasProtocol(vm, v) && HasProtocol(vm, FromObj(other))) ==> Concat(vm, v, other) == Err(CantConcat(v.obj.cls.name))
    ensures HasProtocol(vm, v) && HasProtocol(vm, FromObj(other)) ==>
              match vm.binaryOp(Add, v.obj, other)
              case Err(e) => Concat(vm, v, other) == Err(e)
              case Ok(Implemented(x)) => Concat(vm, v, other) == Ok(x)
              case Ok(NotImplementedValue) => Concat(vm, v, other) == Err(CantConcat(v.obj.cls.name))
  {
  }

  /** A native `repeat` slot decides alone. */
  lemma RepeatNativeSlotWins(vm: Vm, v: View, n: Usize, ops: (BinOp, Obj, Obj) -> PyResult<ArithValue>)
    requires Methods(vm, v).repeat.Some?
    ensures Repeat(vm, v, n) == vm.callRepeat(Methods(vm, v).repeat.value, v.obj, n)
    ensures Repeat(vm.(binaryOp := ops), v, n) == Repeat(vm, v, n)
  {
  }

  /** Without a `repeat` slot, `*` with the count as an int object is tried when the receiver alone is a sequence. */
  lemma RepeatOperatorFallback(vm: Vm, v: View, n: Usize)
    requires Methods(vm, v).repeat.None?
    ensures !HasProtocol(vm, v) ==> Repeat(vm, v, n) == Err(CantRepeat(v.obj.cls.name))
    ensures HasProtocol(vm, v) ==>
              match vm.binaryOp(Mul, v.obj, vm.intObject(n))
              case Err(e) => Repeat(vm, v, n) == Err(e)
              case Ok(Implemented(x)) => Repeat(vm, v, n) == Ok(x)
              case Ok(NotImplementedValue) => Repeat(vm, v, n) == Err(CantRepeat(v.obj.cls.name))
  {
  }

  /**
   * In-place concatenation prefers the in-place slot, then the plain
   * `concat` slot; a present earlier slot wins over every later candidate.
   */
  lemma InplaceConcatPriority(vm: Vm, v: View, other: Obj, ops: (BinOp, Obj, Obj) -> PyResult<ArithValue>)
    requires Methods(vm, v).inplaceConcat.Some? || Methods(vm, v).concat.Some?
    ensures Methods(vm, v).inplaceConcat.Some? ==>
              InplaceConcat(vm, v, other) == vm.callConcat(Methods(vm, v).inplaceConcat.value, v.obj, other)
    ensures Methods(vm, v).inplaceConcat.None? ==>
              InplaceConcat(vm, v, other) == vm.callConcat(Methods(vm, v).concat.value, v.obj, other)
    ensures InplaceConcat(vm.(binaryOp := ops), v, other) == InplaceConcat(vm, v, other)
  {
  }

  /** With neither slot, `+=` is tried exactly as `+` is for `Concat`. */
  lemma InplaceConcatOperatorFallback(vm: Vm, v: View, other: Obj)
    requires Methods(vm, v).inplaceConcat.None? && Methods(vm, v).concat.None?
    ensures !(HasProtocol(vm, v) && HasProtocol(vm, FromObj(other))) ==> InplaceConcat(vm, v, other) == Err(CantConcat(v.obj.cls.name))
    ensures HasProtocol(vm, v) && HasProtocol(vm, FromObj(other)) ==>
              match vm.binaryOp(InplaceAdd, v.obj, other)
              case Err(e) => InplaceConcat(vm, v, other) == Err(e)
              case Ok(Implemented(x)) => InplaceConcat(vm, v, other) == Ok(x)
              case Ok(NotImplementedValue) => InplaceConcat(vm, v, other) == Err(CantConcat(v.obj.cls.name))
  {
  }

  /** In-place repetition prefers the in-place slot, then the plain `repeat` slot. */
  lemma InplaceRepeatPriority(vm: Vm, v: View, n: Usize, ops: (BinOp, Obj, Obj) -> PyResult<ArithValue>)
    requires Methods(vm, v).inplaceRepeat.Some? || Methods(vm, v).repeat.Some?
    ensures Methods(vm, v).inplaceRepeat.Some? ==>
              InplaceRepeat(vm, v, n) == vm.callRepeat(Methods(vm, v).inplaceRepeat.value, v.obj, n)
    ensures Methods(vm, v).inplaceRepeat.None? ==>
              InplaceRepeat(vm, v, n) == vm.callRepeat(Methods(vm, v).repeat.value, v.obj, n)
    ensures InplaceRepeat(vm.(binaryOp := ops), v, n) == InplaceRepeat(vm, v, n)
  {
  }

  /** With neither slot, `*=` is tried when the receiver is a sequence. */
  lemma InplaceRepeatOperatorFallback(vm: Vm, v: View, n: Usize)
    requires Methods(vm, v).inplaceRepeat.None? && Methods(vm, v).repeat.None?
    ensures !HasProtocol(vm, v) ==> InplaceRepeat(vm, v, n) == Err(CantRepeat(v.obj.cls.name))
    ensures HasProtocol(vm, v) ==>
              match vm.binaryOp(InplaceMul, v.obj, vm.intObject(n))
              case Err(e) => InplaceRepeat(vm, v, n) == Err(e)
              case Ok(Implemented(x)) => InplaceRepeat(vm, v, n) == Ok(x)
              case Ok(NotImplementedValue) => InplaceRepeat(vm, v, n) == Err(CantRepeat(v.obj.cls.name))
  {
  }

  /**
   * A view whose table supplies no slot at all is not a sequence, so no
   * operator fallback is ever consulted: `try_protocol`, `length`, `concat`,
   * `repeat`, their in-place forms, `get_item` and item assignment/deletion
   * each raise their own type error. (`contains`, `count`, `index`, `tuple`
   * and slicing do not depend on this table in that way and are not covered.)
   */
  lemma EmptyTableFailsEverywhere(vm: Vm, v: View, other: Obj, n: Usize, i: Isize, value: Option<Obj>)
    requires Methods(vm, v) == NotImplemented
    ensures var name := v.obj.cls.name;
            && !HasProtocol(vm, v)
            && TryProtocol(vm, v) == Err(NotASequence(name))
            && Length(vm, v) == Err(HasNoLen(name))
            && Concat(vm, v, other) == Err(CantConcat(name))
            && Repeat(vm, v, n) == Err(CantRepeat(name))
            && InplaceConcat(vm, v, other) == Err(CantConcat(name))
            && InplaceRepeat(vm, v, n) == Err(CantRepeat(name))
            && GetItem(vm, v, i) == Err(NoIndexing(name))
            && AssItem(vm, v, i, value) == Err(NoItemAssignment(name, value))
  {
  }

  /** A fresh view of a type none of whose ancestors supplies a table resolves to the all-empty table. */
  lemma NoAncestorTableResolvesEmpty(vm: Vm, obj: Obj)
    requires forall k :: 0 <= k < |obj.cls.mro| ==> obj.cls.mro[k].asSequence.None?
    ensures Methods(vm, FromObj(obj)) == NotImplemented
  {
  }

  /** A type that supplies only `item` is a sequence, yet has no length. */
  lemma ItemOnlyIsSequenceWithoutLength(vm: Vm, v: View, f: SlotId, i: Isize)
    requires Methods(vm, v) == NotImplemented.(item := Some(f))
    ensures HasProtocol(vm, v)
    ensures TryProtocol(vm, v) == Ok(())
    ensures Length(vm, v) == Err(HasNoLen(v.obj.cls.name))
    ensures GetItem(vm, v, i) == vm.callItem(f, v.obj, i)
  {
  }

  /** Without `ass_item`, setting and deleting an item fail with messages that differ only in the last word. */
  lemma ItemMessagesDifferInVerb(vm: Vm, v: View, i: Isize, x: Obj)
    requires Methods(vm, v).assItem.None?
    ensures var prefix := Quote(v.obj.cls.name) + " is not a sequence or doesn't support item ";
            && SetItem(vm, v, i, x) == Err(PyErr(TypeError, prefix + "assignment"))
            && DelItem(vm, v, i) == Err(PyErr(TypeError, prefix + "deletion"))
  {
  }

  /** Without a mapping `ass_subscript`, setting and deleting a slice fail with messages that differ only in the last word. */
  lemma SliceMessagesDifferInVerb(vm: Vm, v: View, start: Isize, stop: Isize, x: Obj)
    requires AssSubscriptSlot(v.obj).None?
    ensures var prefix := Quote(v.obj.cls.name) + " object doesn't support slice ";
            && SetSlice(vm, v, start, stop, x) == Err(PyErr(TypeError, prefix + "assignment"))
            && DelSlice(vm, v, start, stop) == Err(PyErr(TypeError, prefix + "deletion"))
  {
  }

  /**
   * Slicing never looks at the sequence table: two views of one object with
   * any two tables (one may well supply `item`) slice identically, through
   * the mapping slot called with `slice(start, stop, None)`.
   */
  lemma SlicingIgnoresSequenceTable(vm: Vm, obj: Obj, c1: Option<SequenceMethods>, c2: Option<SequenceMethods>,
                                    start: Isize, stop: Isize, value: Option<Obj>)
    ensures GetSlice(vm, View(obj, c1), start, stop) == GetSlice(vm, View(obj, c2), start, stop)
    ensures AssSlice(vm, View(obj, c1), start, stop, value) == AssSlice(vm, View(obj, c2), start, stop, value)
    ensures SubscriptSlot(obj).Some? ==>
              GetSlice(vm, View(obj, c1), start, stop) == vm.callSubscript(SubscriptSlot(obj).value, obj, Slice(Some(start), stop, None))
    ensures SubscriptSlot(obj).None? ==> GetSlice(vm, View(obj, c1), start, stop) == Err(Unsliceable(obj.cls.name))
  {
  }

  /**
   * Only the first ancestor that supplies a mapping table is consulted: if
   * its `subscript` is empty the object is unsliceable, whatever later
   * ancestors supply.
   */
  lemma {:induction false} FirstMappingTableDecides(vm: Vm, obj: Obj, k: nat, start: Isize, stop: Isize)
    requires k < |obj.cls.mro| && obj.cls.mro[k].asMapping.Some?
    requires forall j :: 0 <= j < k ==> obj.cls.mro[j].asMapping.None?
    requires obj.cls.mro[k].asMapping.value.subscript.None?
    ensures GetSlice(vm, FromObj(obj), start, stop) == Err(Unsliceable(obj.cls.name))
  {
    assert MappingOf(obj) == obj.cls.mro[k].asMapping;
  }
}
