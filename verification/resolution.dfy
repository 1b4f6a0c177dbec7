/**
 * Finding an object's sequence method table: the walk over the type's
 * resolution order, the dict carve-out, and the per-view memo cell.
 */
module Resolution {
  import opened Wrappers
  import opened Objects

  /**
   * The first `f(x)` that is present, walking `s` from the front
   * (`mro_find_map`), or `None` when no element supplies one.
   */
  function FindMap<A, B(==)>(s: seq<A>, f: A -> Option<B>): (r: Option<B>)
    ensures r.None? <==> forall i :: 0 <= i < |s| ==> f(s[i]).None?
    ensures forall i :: 0 <= i < |s| && f(s[i]).Some? && (forall j :: 0 <= j < i ==> f(s[j]).None?) ==> r == f(s[i])
  {
    if |s| == 0 then None
    else if f(s[0]).Some? then f(s[0])
    else
      var rest := FindMap(s[1..], f);
      assert forall i :: 1 <= i < |s| ==> s[i] == s[1..][i - 1];
      rest
  }

  /**
   * The table resolution yields for a type: never anything for the dict
   * type; otherwise the table of the first ancestor that supplies one, or
   * the shared empty table.
   */
  function Resolve(vm: Vm, cls: PyType): (t: SequenceMethods)
    ensures cls.id == vm.types.dict.id ==> t == NotImplemented
    ensures (forall i :: 0 <= i < |cls.mro| ==> cls.mro[i].asSequence.None?) ==> t == NotImplemented
    ensures forall i ::
              (0 <= i < |cls.mro| && cls.id != vm.types.dict.id && cls.mro[i].asSequence.Some? &&
               (forall j :: 0 <= j < i ==> cls.mro[j].asSequence.None?))
              ==> t == cls.mro[i].asSequence.value
  {
    if cls.id == vm.types.dict.id then NotImplemented
    else
      match FindMap(cls.mro, (a: Ancestor) => a.asSequence)
      case Some(t) => t
      case None => NotImplemented
  }

  /** A sequence view: the object and its memo cell for the method table. */
  datatype View = View(obj: Obj, cell: Option<SequenceMethods>)

  /** A view whose table is looked up on first use. */
  function FromObj(obj: Obj): View {
    View(obj, None)
  }

  /** A view whose table the caller already knows. */
  function WithMethods(obj: Obj, methods: SequenceMethods): View {
    View(obj, Some(methods))
  }

  function TypeName(v: View): string {
    v.obj.cls.name
  }

  /**
   * `get_or_init` on the memo cell: the table, and the view with its cell
   * filled. A filled cell is returned as it is, without any lookup.
   */
  function MethodsCow(vm: Vm, v: View): (res: (SequenceMethods, View))
    ensures res.1.obj == v.obj && res.1.cell == Some(res.0)
    ensures v.cell.Some? ==> res == (v.cell.value, v)
    ensures v.cell.None? ==> res.0 == Resolve(vm, v.obj.cls)
  {
    match v.cell
    case Some(t) => (t, v)
    case None =>
      var t := Resolve(vm, v.obj.cls);
      (t, View(v.obj, Some(t)))
  }

  /** The table every operation of the view dispatches on. */
  function Methods(vm: Vm, v: View): SequenceMethods {
    MethodsCow(vm, v).0
  }

  /** Memoisation is invisible: after the first lookup the view answers the same table, and asking again changes nothing. */
  lemma MethodsIdempotent(vm: Vm, v: View)
    ensures MethodsCow(vm, MethodsCow(vm, v).1) == MethodsCow(vm, v)
    ensures Methods(vm, MethodsCow(vm, v).1) == Methods(vm, v)
  {
  }

  /** A view built with a table never performs a lookup, whatever the type's ancestors supply. */
  lemma WithMethodsSkipsLookup(vm: Vm, obj: Obj, m: SequenceMethods)
    ensures MethodsCow(vm, WithMethods(obj, m)) == (m, WithMethods(obj, m))
    ensures forall cls: PyType :: Methods(vm, WithMethods(Obj(cls, obj.payload), m)) == m
  {
  }

  /** The sole test of being a sequence: an `item` slot in the resolved table. */
  function HasProtocol(vm: Vm, v: View): bool {
    Methods(vm, v).item.Some?
  }

  /** Succeeds exactly for sequences; otherwise the type error naming the type. */
  function TryProtocol(vm: Vm, v: View): (r: PyResult<()>)
    ensures r.Ok? <==> Methods(vm, v).item.Some?
    ensures r.Err? ==> r.error == PyErr(TypeError, "'" + v.obj.cls.name + "' is not a sequence")
  {
    if HasProtocol(vm, v) then Ok(()) else Err(NotASequence(TypeName(v)))
  }

  /**
   * A fresh view of an object whose exact type is dict never has the
   * protocol, whatever dict's resolution order supplies. The test is on type
   * identity: subclasses of dict are not excluded (see `DictExclusionIsNarrow`).
   */
  lemma DictIsNotASequence(vm: Vm, obj: Obj)
    requires obj.cls.id == vm.types.dict.id
    ensures !HasProtocol(vm, FromObj(obj))
    ensures TryProtocol(vm, FromObj(obj)) == Err(NotASequence(obj.cls.name))
  {
  }

  /**
   * The dict carve-out is narrow: a view built with a table is never
   * excluded, and neither is a fresh view of a dict subclass whose first
   * supplying ancestor has an `item` slot.
   */
  lemma DictExclusionIsNarrow(vm: Vm, dictObj: Obj, t: SequenceMethods, sub: Obj)
    requires t.item.Some?
    requires sub.cls.id != vm.types.dict.id
    requires |sub.cls.mro| > 0 && sub.cls.mro[0].asSequence.Some? && sub.cls.mro[0].asSequence.value.item.Some?
    ensures HasProtocol(vm, WithMethods(dictObj, t))
    ensures HasProtocol(vm, FromObj(sub))
  {
  }

  /** A fresh view's protocol test is decided by the first ancestor that supplies a table. */
  lemma {:induction false} HasProtocolFromFirstTable(vm: Vm, obj: Obj, i: nat)
    requires obj.cls.id != vm.types.dict.id
    requires i < |obj.cls.mro| && obj.cls.mro[i].asSequence.Some?
    requires forall j :: 0 <= j < i ==> obj.cls.mro[j].asSequence.None?
    ensures HasProtocol(vm, FromObj(obj)) <==> obj.cls.mro[i].asSequence.value.item.Some?
  {
  }
}
