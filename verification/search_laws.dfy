/**
 * Properties of the iteration-based operations: how membership, counting
 * and searching agree with each other, where the overflow guards fire,
 * and that converting to a tuple is idempotent.
 */
module SearchLaws {
  import opened Wrappers
  import opened Objects
  import opened Resolution
  import opened Search

  /** Membership is true exactly when a match comes before any error, and false exactly when nothing matches or fails. */
  lemma ContainsSpecCharacterised(p: seq<PyResult<bool>>)
    ensures ContainsSpec(p) == Ok(true) <==>
              exists i :: 0 <= i < |p| && p[i] == Ok(true) && forall j :: 0 <= j < i ==> p[j] == Ok(false)
    ensures ContainsSpec(p) == Ok(false) <==> forall i :: 0 <= i < |p| ==> p[i] == Ok(false)
  {
    var k := FirstDecisive(p);
    if ContainsSpec(p) == Ok(true) {
      assert k < |p| && p[k].Ok? && p[k].value;
      assert p[k] == Ok(true);
    }
    if exists i :: 0 <= i < |p| && p[i] == Ok(true) && forall j :: 0 <= j < i ==> p[j] == Ok(false) {
      var i :| 0 <= i < |p| && p[i] == Ok(true) && forall j :: 0 <= j < i ==> p[j] == Ok(false);
      assert k == i;
    }
  }

  /** On a stream free of errors, counting and membership agree: something matches exactly when the count is positive. */
  lemma {:induction false} CountAgreesWithContains(p: seq<PyResult<bool>>)
    requires forall i :: 0 <= i < |p| ==> p[i].Ok?
    requires Hits(p) <= IsizeMax
    ensures CountSpec(p) == Ok(Hits(p))
    ensures ContainsSpec(p) == Ok(Hits(p) > 0)
  {
    HitsBound(p);
    ContainsSpecCharacterised(p);
    assert FirstErr(p) == |p|;
    assert p[..|p|] == p;
    if Hits(p) > 0 {
      var i :| 0 <= i < |p| && p[i] == Ok(true);
      var k := FirstDecisive(p);
      assert k <= i;
      assert p[k] == Ok(true);
    }
  }

  /** A found position holds the first match, and membership then holds too. */
  lemma IndexFindsFirstMatch(p: seq<PyResult<bool>>, i: nat)
    requires IndexSpec(p) == Ok(i)
    ensures i < |p| && i <= IsizeMax
    ensures p[i] == Ok(true) && forall j :: 0 <= j < i ==> p[j] == Ok(false)
    ensures ContainsSpec(p) == Ok(true)
  {
    assert p[i].Ok? && p[i].value;
  }

  /** Conversely, the first match is found at its position, provided that position fits in `isize`. */
  lemma IndexFindsPresent(p: seq<PyResult<bool>>, i: nat)
    requires i < |p| && i <= IsizeMax
    requires p[i] == Ok(true) && forall j :: 0 <= j < i ==> p[j] == Ok(false)
    ensures IndexSpec(p) == Ok(i)
  {
    assert FirstDecisive(p) == i;
  }

  /** When membership is false and the stream fits the position counter, the search ends in the not-found error. */
  lemma IndexNotFoundWhenAbsent(p: seq<PyResult<bool>>)
    requires |p| <= IsizeMax + 1
    requires ContainsSpec(p) == Ok(false)
    ensures IndexSpec(p) == Err(PyErr(ValueError, "sequence.index(x): x not in sequence"))
  {
  }

  /** Counting `isize::MAX` matches succeeds; one more match is the overflow error. */
  lemma {:induction false} CountOverflowBoundary(p: seq<PyResult<bool>>)
    requires forall i :: 0 <= i < |p| ==> p[i] == Ok(true)
    ensures |p| <= IsizeMax ==> CountSpec(p) == Ok(|p|)
    ensures |p| == IsizeMax + 1 ==> CountSpec(p) == Err(PyErr(OverflowError, "index exceeds C integer size"))
  {
    HitsAllMatch(p);
    assert FirstErr(p) == |p|;
    assert p[..|p|] == p;
  }

  /**
   * The search's position check fires only when a further element arrives
   * after position `isize::MAX`: a stream of `isize::MAX + 1` mismatches is
   * not found, one of `isize::MAX + 2` overflows.
   */
  lemma IndexOverflowBoundary(p: seq<PyResult<bool>>)
    requires forall i :: 0 <= i < |p| ==> p[i] == Ok(false)
    ensures |p| <= IsizeMax + 1 ==> IndexSpec(p) == Err(NotInSequence)
    ensures |p| >= IsizeMax + 2 ==> IndexSpec(p) == Err(IndexOverflow)
  {
  }

  /** The first error propagates from counting unless the overflow came first. */
  lemma CountPropagatesFirstError(p: seq<PyResult<bool>>, k: nat)
    requires k < |p| && p[k].Err? && forall j :: 0 <= j < k ==> p[j].Ok?
    requires Hits(p[..k]) <= IsizeMax
    ensures CountSpec(p) == Err(p[k].error)
  {
    assert FirstErr(p) == k;
  }

  /** Counting `a` in `[a, b, a, c, a]` gives 3. */
  lemma CountExample(vm: Vm, a: Obj, b: Obj, c: Obj)
    requires vm.boolEq(a, a) == Ok(true) && vm.boolEq(b, a) == Ok(false) && vm.boolEq(c, a) == Ok(false)
    ensures CountSpec(Probes(vm, [Ok(a), Ok(b), Ok(a), Ok(c), Ok(a)], a)) == Ok(3)
  {
    var p := Probes(vm, [Ok(a), Ok(b), Ok(a), Ok(c), Ok(a)], a);
    assert p == [Ok(true), Ok(false), Ok(true), Ok(false), Ok(true)];
    assert FirstErr(p) == 5;
    assert p[..5] == p;
    assert p[..4][..3] == p[..3] && p[..3][..2] == p[..2] && p[..2][..1] == p[..1] && p[..1][..0] == p[..0];
    assert p[..5][..4] == p[..4];
    assert Hits(p[..1]) == 1;
    assert Hits(p[..2]) == 1;
    assert Hits(p[..3]) == 2;
    assert Hits(p[..4]) == 2;
  }

  /** Searching `[a, b, c]` finds `b` at position 1 and reports `d` as not found. */
  lemma IndexExample(vm: Vm, a: Obj, b: Obj, c: Obj, d: Obj)
    requires vm.boolEq(a, b) == Ok(false) && vm.boolEq(b, b) == Ok(true)
    requires vm.boolEq(a, d) == Ok(false) && vm.boolEq(b, d) == Ok(false) && vm.boolEq(c, d) == Ok(false)
    ensures IndexSpec(Probes(vm, [Ok(a), Ok(b), Ok(c)], b)) == Ok(1)
    ensures IndexSpec(Probes(vm, [Ok(a), Ok(b), Ok(c)], d)) == Err(PyErr(ValueError, "sequence.index(x): x not in sequence"))
  {
    var p := Probes(vm, [Ok(a), Ok(b), Ok(c)], b);
    assert p[0] == Ok(false) && p[1] == Ok(true);
    assert FirstDecisive(p) == 1;
    var q := Probes(vm, [Ok(a), Ok(b), Ok(c)], d);
    assert q[0] == Ok(false) && q[1] == Ok(false) && q[2] == Ok(false);
    assert FirstDecisive(q) == 3;
  }

  /** The builtin tuple and list types are distinct type objects. */
  predicate DistinctBuiltins(vm: Vm) {
    vm.types.tuple.id != vm.types.list.id
  }

  /** Converting a conversion's result again returns it unchanged. */
  lemma TupleIdempotent(vm: Vm, v: View)
    requires DistinctBuiltins(vm) && ListHasStorage(vm, v.obj)
    requires Tuple(vm, v).Ok?
    ensures ListHasStorage(vm, Tuple(vm, v).value)
    ensures Tuple(vm, FromObj(Tuple(vm, v).value)) == Tuple(vm, v)
  {
  }

  /** An exact list converts to a tuple with the same elements, whatever its iterator would yield. */
  lemma TupleOfListCopiesStorage(vm: Vm, obj: Obj, it: Obj -> PyResult<seq<PyResult<Obj>>>)
    requires DistinctBuiltins(vm) && obj.cls.id == vm.types.list.id && obj.payload.ListItems?
    ensures Tuple(vm, FromObj(obj)) == Ok(Obj(vm.types.tuple, TupleItems(obj.payload.items)))
    ensures Tuple(vm.(iterate := it), FromObj(obj)) == Tuple(vm, FromObj(obj))
  {
  }
}
