/**
 * The operations that fall back on, or always use, the iteration protocol:
 * membership, counting, searching and conversion to a tuple.
 *
 * Each element the iterator yields is "probed" against the target: an
 * element error, or the result of the equality test. The loops below are
 * checked against closed-form descriptions over the probe sequence.
 */
module Search {
  import opened Wrappers
  import opened Objects
  import opened Resolution

  /** What examining one iterator element yields: its error, or whether it equals the target. */
  function Probe(vm: Vm, elem: PyResult<Obj>, target: Obj): PyResult<bool> {
    match elem
    case Err(e) => Err(e)
    case Ok(x) => vm.boolEq(x, target)
  }

  function Probes(vm: Vm, s: seq<PyResult<Obj>>, target: Obj): (p: seq<PyResult<bool>>)
    ensures |p| == |s|
    ensures forall i :: 0 <= i < |s| ==> p[i] == Probe(vm, s[i], target)
  {
    seq(|s|, i requires 0 <= i < |s| => Probe(vm, s[i], target))
  }

  /** Position of the first error among the probes, or `|p|`. */
  function FirstErr(p: seq<PyResult<bool>>): (k: nat)
    ensures k <= |p|
    ensures forall j :: 0 <= j < k ==> p[j].Ok?
    ensures k < |p| ==> p[k].Err?
  {
    if |p| == 0 then 0
    else if p[0].Err? then 0
    else 1 + FirstErr(p[1..])
  }

  /** Position of the first probe that is not a plain mismatch (an error or a match), or `|p|`. */
  function FirstDecisive(p: seq<PyResult<bool>>): (k: nat)
    ensures k <= |p|
    ensures forall j :: 0 <= j < k ==> p[j] == Ok(false)
    ensures k < |p| ==> p[k] != Ok(false)
  {
    if |p| == 0 then 0
    else if p[0] != Ok(false) then 0
    else 1 + FirstDecisive(p[1..])
  }

  /** Number of matches among the probes. */
  function Hits(p: seq<PyResult<bool>>): nat {
    if |p| == 0 then 0
    else Hits(p[..|p| - 1]) + (if p[|p| - 1] == Ok(true) then 1 else 0)
  }

  lemma {:induction false} HitsBound(p: seq<PyResult<bool>>)
    ensures Hits(p) <= |p|
    ensures Hits(p) > 0 <==> exists i :: 0 <= i < |p| && p[i] == Ok(true)
  {
    if |p| > 0 {
      var q := p[..|p| - 1];
      HitsBound(q);
      if Hits(q) > 0 {
        var i :| 0 <= i < |q| && q[i] == Ok(true);
        assert p[i] == Ok(true);
      }
      if exists i :: 0 <= i < |p| && p[i] == Ok(true) {
        var i :| 0 <= i < |p| && p[i] == Ok(true);
        if i < |p| - 1 {
          assert q[i] == Ok(true);
        }
      }
    }
  }

  /** Extending the prefix never loses matches. */
  lemma {:induction false} HitsMonotone(p: seq<PyResult<bool>>, a: nat, b: nat)
    requires a <= b <= |p|
    ensures Hits(p[..a]) <= Hits(p[..b])
  {
    if a < b {
      HitsMonotone(p, a, b - 1);
      assert p[..b][..b - 1] == p[..b - 1];
    }
  }

  /** When every probe matches, every element is counted. */
  lemma {:induction false} HitsAllMatch(p: seq<PyResult<bool>>)
    requires forall i :: 0 <= i < |p| ==> p[i] == Ok(true)
    ensures Hits(p) == |p|
  {
    if |p| > 0 {
      HitsAllMatch(p[..|p| - 1]);
    }
  }

  // ---------------------------------------------------------------- reference descriptions

  /**
   * Membership over the probes: true at the first match, the first error
   * if one comes before any match, false when the stream runs out.
   */
  function ContainsSpec(p: seq<PyResult<bool>>): PyResult<bool> {
    var k := FirstDecisive(p);
    if k == |p| then Ok(false)
    else if p[k].Err? then Err(p[k].error)
    else Ok(true)
  }

  /**
   * Counting over the probes: the overflow error once more than `isize::MAX`
   * matches precede the first error; otherwise that error; otherwise the
   * number of matches.
   */
  function CountSpec(p: seq<PyResult<bool>>): PyResult<Usize> {
    var k := FirstErr(p);
    if Hits(p[..k]) > IsizeMax then Err(IndexOverflow)
    else if k < |p| then Err(p[k].error)
    else assert p[..k] == p; Ok(Hits(p))
  }

  /**
   * Searching over the probes: the overflow error when the stream reaches
   * position `isize::MAX + 1` undecided; otherwise the first match's
   * position, or the first error, or the not-found value error.
   */
  function IndexSpec(p: seq<PyResult<bool>>): PyResult<Usize> {
    var k := FirstDecisive(p);
    if k > IsizeMax && |p| > IsizeMax + 1 then Err(IndexOverflow)
    else if k == |p| then Err(NotInSequence)
    else if p[k].Err? then Err(p[k].error)
    else Ok(k)
  }

  // ---------------------------------------------------------------- operations

  /**
   * Membership: the native `contains` slot when the table has one;
   * otherwise a scan of the iterator that stops at the first match or error.
   */
  method Contains(vm: Vm, v: View, target: Obj) returns (r: PyResult<bool>)
    ensures Methods(vm, v).contains.Some? ==> r == vm.callContains(Methods(vm, v).contains.value, v.obj, target)
    ensures Methods(vm, v).contains.None? && vm.iterate(v.obj).Err? ==> r == Err(vm.iterate(v.obj).error)
    ensures Methods(vm, v).contains.None? && vm.iterate(v.obj).Ok? ==>
              r == ContainsSpec(Probes(vm, vm.iterate(v.obj).value, target))
  {
    var t := Methods(vm, v);
    if t.contains.Some? {
      return vm.callContains(t.contains.value, v.obj, target);
    }
    var it := vm.iterate(v.obj);
    if it.Err? {
      return Err(it.error);
    }
    var s := it.value;
    ghost var p := Probes(vm, s, target);
    var i := 0;
    while i < |s|
      invariant 0 <= i <= |s|
      invariant forall j :: 0 <= j < i ==> p[j] == Ok(false)
    {
      var elem := s[i];
      if elem.Err? {
        assert FirstDecisive(p) == i;
        return Err(elem.error);
      }
      var eq := vm.boolEq(elem.value, target);
      if eq.Err? {
        assert FirstDecisive(p) == i;
        return Err(eq.error);
      }
      if eq.value {
        assert FirstDecisive(p) == i;
        return Ok(true);
      }
      i := i + 1;
    }
    assert FirstDecisive(p) == |p|;
    return Ok(false);
  }

  /**
   * Counting: always iterates (the `contains` slot is never used), and
   * raises the overflow error instead of counting past `isize::MAX`.
   */
  method Count(vm: Vm, v: View, target: Obj) returns (r: PyResult<Usize>)
    ensures vm.iterate(v.obj).Err? ==> r == Err(vm.iterate(v.obj).error)
    ensures vm.iterate(v.obj).Ok? ==> r == CountSpec(Probes(vm, vm.iterate(v.obj).value, target))
    ensures r.Ok? ==> r.value <= IsizeMax
  {
    var it := vm.iterate(v.obj);
    if it.Err? {
      return Err(it.error);
    }
    var s := it.value;
    ghost var p := Probes(vm, s, target);
    var n: Usize := 0;
    var i := 0;
    while i < |s|
      invariant 0 <= i <= |s|
      invariant forall j :: 0 <= j < i ==> p[j].Ok?
      invariant n == Hits(p[..i]) <= IsizeMax
    {
      var elem := s[i];
      if elem.Err? {
        assert FirstErr(p) == i;
        return Err(elem.error);
      }
      var eq := vm.boolEq(elem.value, target);
      if eq.Err? {
        assert FirstErr(p) == i;
        return Err(eq.error);
      }
      assert p[..i + 1][..i] == p[..i];
      if eq.value {
        if n == IsizeMax {
          HitsMonotone(p, i + 1, FirstErr(p));
          return Err(IndexOverflow);
        }
        n := n + 1;
      }
      i := i + 1;
    }
    assert p[..i] == p;
    assert FirstErr(p) == |p|;
    return Ok(n);
  }

  /**
   * Searching: always iterates, tracking a zero-based position whose
   * overflow check runs before each element is examined.
   */
  method Index(vm: Vm, v: View, target: Obj) returns (r: PyResult<Usize>)
    ensures vm.iterate(v.obj).Err? ==> r == Err(vm.iterate(v.obj).error)
    ensures vm.iterate(v.obj).Ok? ==> r == IndexSpec(Probes(vm, vm.iterate(v.obj).value, target))
    ensures r.Ok? ==> r.value <= IsizeMax
  {
    var it := vm.iterate(v.obj);
    if it.Err? {
      return Err(it.error);
    }
    var s := it.value;
    ghost var p := Probes(vm, s, target);
    var index: int := -1;
    var i := 0;
    while i < |s|
      invariant 0 <= i <= |s|
      invariant index == i - 1 && i <= IsizeMax + 1
      invariant forall j :: 0 <= j < i ==> p[j] == Ok(false)
    {
      if index == IsizeMax {
        assert FirstDecisive(p) >= i;
        return Err(IndexOverflow);
      }
      index := index + 1;
      var elem := s[i];
      if elem.Err? {
        assert FirstDecisive(p) == i;
        return Err(elem.error);
      }
      var eq := vm.boolEq(elem.value, target);
      if eq.Err? {
        assert FirstDecisive(p) == i;
        return Err(eq.error);
      }
      if eq.value {
        assert FirstDecisive(p) == i;
        return Ok(index);
      }
      i := i + 1;
    }
    assert FirstDecisive(p) == |p|;
    return Err(NotInSequence);
  }

  /**
   * Draining an iterator: every element when none is an error, otherwise
   * the first error (`try_collect`).
   */
  function TryCollect(s: seq<PyResult<Obj>>): (r: PyResult<seq<Obj>>)
    ensures r.Ok? <==> forall i :: 0 <= i < |s| ==> s[i].Ok?
    ensures r.Ok? ==> |r.value| == |s| && forall i :: 0 <= i < |s| ==> s[i] == Ok(r.value[i])
    ensures r.Err? ==> exists i :: 0 <= i < |s| && s[i] == Err(r.error) && forall j :: 0 <= j < i ==> s[j].Ok?
  {
    if |s| == 0 then Ok([])
    else match s[0]
      case Err(e) => Err(e)
      case Ok(x) =>
        var rest := TryCollect(s[1..]);
        assert forall i :: 1 <= i < |s| ==> s[i] == s[1..][i - 1];
        match rest
        case Err(e) => Err(e)
        case Ok(xs) => Ok([x] + xs)
  }

  /** A new tuple holding `items`. */
  function NewTuple(vm: Vm, items: seq<Obj>): Obj {
    Obj(vm.types.tuple, TupleItems(items))
  }

  /** The runtime's invariant that an object whose exact type is `list` carries list storage. */
  predicate ListHasStorage(vm: Vm, obj: Obj) {
    obj.cls.id == vm.types.list.id ==> obj.payload.ListItems?
  }

  /**
   * Conversion to a tuple: the object itself when its exact type is
   * `tuple`; a tuple of the stored elements when it is exactly `list`;
   * otherwise a tuple of everything its iterator yields.
   */
  function Tuple(vm: Vm, v: View): (r: PyResult<Obj>)
    requires ListHasStorage(vm, v.obj)
    ensures v.obj.cls.id == vm.types.tuple.id ==> r == Ok(v.obj)
    ensures v.obj.cls.id != vm.types.tuple.id && v.obj.cls.id == vm.types.list.id ==>
              r == Ok(NewTuple(vm, v.obj.payload.items))
    ensures v.obj.cls.id != vm.types.tuple.id && v.obj.cls.id != vm.types.list.id ==>
              && (r.Ok? <==> vm.iterate(v.obj).Ok? && forall i :: 0 <= i < |vm.iterate(v.obj).value| ==> vm.iterate(v.obj).value[i].Ok?)
              && (r.Ok? ==> r.value.cls == vm.types.tuple && r.value.payload.TupleItems? &&
                            |r.value.payload.items| == |vm.iterate(v.obj).value| &&
                            forall i :: 0 <= i < |r.value.payload.items| ==> vm.iterate(v.obj).value[i] == Ok(r.value.payload.items[i]))
              && (r.Err? && vm.iterate(v.obj).Err? ==> r.error == vm.iterate(v.obj).error)
              && (r.Err? && vm.iterate(v.obj).Ok? ==>
                    exists i :: 0 <= i < |vm.iterate(v.obj).value| && vm.iterate(v.obj).value[i] == Err(r.error) &&
                                forall j :: 0 <= j < i ==> vm.iterate(v.obj).value[j].Ok?)
  {
    if v.obj.cls.id == vm.types.tuple.id then Ok(v.obj)
    else if v.obj.cls.id == vm.types.list.id then Ok(NewTuple(vm, v.obj.payload.items))
    else
      match vm.iterate(v.obj)
      case Err(e) => Err(e)
      case Ok(s) =>
        match TryCollect(s)
        case Err(e) => Err(e)
        case Ok(items) => Ok(NewTuple(vm, items))
  }
}
