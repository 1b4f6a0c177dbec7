# Sequence protocol dispatch, modelled in Dafny

This project models the sequence-protocol layer of the RustPython virtual
machine (`vm/src/protocol/sequence.rs`). It follows the abstract-object
Sequence Protocol of CPython's C API. Given an object, the layer does three things:

- It resolves the object's sequence method table. The table has eight optional
  slots. Resolution walks the type's method-resolution order and takes the first
  ancestor that supplies a table. The exact dict type (not its subclasses) is excluded. If nothing matches,
  the shared all-empty table is used. The result is memoised in the view.
- It dispatches each operation through a fixed fallback order: native slot, then
  secondary slot, then the generic operator, then the type error naming the type.
  Slicing uses the mapping protocol's `subscript`/`ass_subscript` slots instead.
- It runs the iteration-based algorithms `contains`, `count` and `index`, with
  their `isize::MAX` overflow guards, and the conversion `tuple`.

Files:

- `wrappers.dfy`: `Option` and `Result`.
- `objects.dfy`: exceptions and their exact messages, method tables, types with
  their resolution order, objects, and `Vm`. `Vm` holds the collaborators this
  layer only calls. These are the native functions behind slots (keyed by their
  identity), the operator machinery, the equality test and the iterator.
- `resolution.dfy`: `mro_find_map`, table resolution, the memoising view,
  `has_protocol` and `try_protocol`.
- `dispatch.dfy`: every dispatch operation. Each is written as in the runtime,
  with nested tests. Its contract says it agrees with its ordered candidate list,
  evaluated by the generic engine `FirstDecided`.
- `dispatch_laws.dfy`: what the fallback orders imply. This covers which
  candidate wins, when operators are consulted, and the exact errors.
- `search.dfy`: `contains`, `count` and `index` as loops, each proved equal to a
  closed-form description over the stream of "probes". A probe is the element
  error or the equality answer for one element. Also `try_collect` and `tuple`.
- `search_laws.dfy`: how the three searches agree, where the overflow guards
  fire, worked examples, and that `tuple` is idempotent.

Collaborators are modelled as follows:

- `vm._add`/`_mul`/`_iadd`/`_imul` together with `PyArithmeticValue::from_object`
  are one oracle, `binaryOp`. It answers an error, `Implemented(x)` or `NotImplementedValue`.
- `get_iter` followed by `iter` is one oracle, `iterate`. It answers an error, or
  the finite list of element results the iterator yields.
- `bool_eq` is `boolEq`, and `into_pyobject` on a count is `intObject`.
- A `PySlice` is the value `Slice(Some(start), stop, None)`.
- A type's `as_sequence`/`as_mapping` producer is represented by the table it
  returns for the object. The resolution order is the full linearisation, with
  the type itself first, matching how `mro_find_map` checks the class before its ancestors.

## Model

| member | source | states |
|---|---|---|
| Resolution.FindMap | vm/src/protocol/sequence.rs:102 | the ancestor walk yields nothing exactly when no ancestor supplies a value, and otherwise the value of the first ancestor that does |
| Resolution.Resolve | vm/src/protocol/sequence.rs:98-108 | the exact dict type always gets the all-empty table; otherwise the table of the first ancestor that supplies one; with no such ancestor, the all-empty table |
| Resolution.MethodsCow | vm/src/protocol/sequence.rs:94-108 | the memo cell is filled with the returned table; a filled cell is returned unchanged with no lookup; an empty one is filled by resolution |
| Resolution.MethodsIdempotent | vm/src/protocol/sequence.rs:98-99 | after the first lookup, asking the view again returns the same table and leaves the view as it is |
| Resolution.WithMethodsSkipsLookup | vm/src/protocol/sequence.rs:67-73 | a view built with a table answers that table for every type, so no lookup takes place |
| Resolution.TryProtocol | vm/src/protocol/sequence.rs:82-92 | succeeds exactly when `HasProtocol` holds, that is when the resolved table has an `item` slot; otherwise raises the type error "'T' is not a sequence" |
| Resolution.DictIsNotASequence | vm/src/protocol/sequence.rs:100-106 | a fresh view of an object whose exact type is dict is never a sequence, whatever dict's resolution order supplies; dict subclasses and `with_methods` views are not excluded |
| Resolution.DictExclusionIsNarrow | vm/src/protocol/sequence.rs:67-106 | a `with_methods` view with an `item` slot, and a fresh view of a dict subclass whose first table has `item`, are sequences: the carve-out is an exact-type test on fresh views only |
| Resolution.HasProtocolFromFirstTable | vm/src/protocol/sequence.rs:82-108 | for a non-dict type, being a sequence is decided by the `item` slot of the first ancestor's table alone |
| Dispatch.FirstDecided | vm/src/protocol/sequence.rs:121-196 | the outcome of an ordered candidate list is that of the first candidate that decides, or the chain's error when all step aside |
| Dispatch.Length | vm/src/protocol/sequence.rs:110-119 | length has a single candidate, the `length` slot, then "'T' is not a sequence or has no len()" |
| Dispatch.Concat | vm/src/protocol/sequence.rs:121-137 | the `concat` slot; then `+` only if both operands are sequences, where an error propagates and only `Implemented` is accepted; then "'T' object can't be concatenated" |
| Dispatch.Repeat | vm/src/protocol/sequence.rs:139-155 | the `repeat` slot; then `*` with the count as an int object, if the receiver alone is a sequence; then "'T' object can't be repeated" |
| Dispatch.InplaceConcat | vm/src/protocol/sequence.rs:157-176 | `inplace_concat` slot, then `concat` slot, then `+=` for two sequences, then the concatenation error |
| Dispatch.InplaceRepeat | vm/src/protocol/sequence.rs:178-196 | `inplace_repeat` slot, then `repeat` slot, then `*=` for a sequence receiver, then the repetition error |
| Dispatch.GetItem | vm/src/protocol/sequence.rs:198-206 | the `item` slot alone, then "'T' is not a sequence or does not support indexing" |
| Dispatch.AssItem | vm/src/protocol/sequence.rs:208-221 | the `ass_item` slot alone, then an error whose last word is "assignment" or "deletion" according to whether a value was given |
| Dispatch.SetItem | vm/src/protocol/sequence.rs:223-225 | calls `ass_item` with the value, or fails with "... doesn't support item assignment" |
| Dispatch.DelItem | vm/src/protocol/sequence.rs:227-229 | calls `ass_item` with no value, or fails with "... doesn't support item deletion" |
| Dispatch.GetSlice | vm/src/protocol/sequence.rs:231-248 | the `subscript` slot of the first mapping table, called with `slice(start, stop, None)`, then "'T' object is unsliceable" |
| Dispatch.AssSlice | vm/src/protocol/sequence.rs:250-280 | the `ass_subscript` slot of the first mapping table, then an error whose last word is decided by whether a value was given |
| Dispatch.SetSlice | vm/src/protocol/sequence.rs:282-290 | calls `ass_subscript` with the slice and the value, or fails with "... doesn't support slice assignment" |
| Dispatch.DelSlice | vm/src/protocol/sequence.rs:292-294 | calls `ass_subscript` with the slice and no value, or fails with "... doesn't support slice deletion" |
| DispatchLaws.ConcatNativeSlotWins | vm/src/protocol/sequence.rs:121-124 | a present `concat` slot decides alone; the operator oracle cannot change the result |
| DispatchLaws.ConcatOperatorFallback | vm/src/protocol/sequence.rs:126-136 | without the slot, a non-sequence operand gives the concatenation error; otherwise `+`'s error propagates, `Implemented(x)` gives x and `NotImplemented` gives the error |
| DispatchLaws.RepeatNativeSlotWins | vm/src/protocol/sequence.rs:139-142 | a present `repeat` slot decides alone |
| DispatchLaws.RepeatOperatorFallback | vm/src/protocol/sequence.rs:144-154 | without the slot, only the receiver is checked before `*`, with the same three outcomes |
| DispatchLaws.InplaceConcatPriority | vm/src/protocol/sequence.rs:157-163 | the in-place slot beats `concat`, and any present slot beats the operator |
| DispatchLaws.InplaceConcatOperatorFallback | vm/src/protocol/sequence.rs:165-175 | with neither slot, `+=` is tried only for two sequences, with the same three outcomes |
| DispatchLaws.InplaceRepeatPriority | vm/src/protocol/sequence.rs:178-184 | the in-place slot beats `repeat`, and any present slot beats the operator |
| DispatchLaws.InplaceRepeatOperatorFallback | vm/src/protocol/sequence.rs:186-195 | with neither slot, `*=` is tried only for a sequence receiver, with the same three outcomes |
| DispatchLaws.EmptyTableFailsEverywhere | vm/src/protocol/sequence.rs:374-383 | any view whose table is the all-empty one is not a sequence, and `try_protocol`, `length`, `concat`, `repeat`, `inplace_concat`, `inplace_repeat`, `get_item` and item assignment/deletion each raise their own type error without consulting an operator |
| DispatchLaws.NoAncestorTableResolvesEmpty | vm/src/protocol/sequence.rs:98-108 | a fresh view of a type none of whose ancestors supplies a table resolves to the all-empty table, so the previous row applies to it |
| DispatchLaws.ItemOnlyIsSequenceWithoutLength | vm/src/protocol/sequence.rs:82-119 | any view whose table has only `item` is a sequence whose length fails with the no-len() type error |
| DispatchLaws.ItemMessagesDifferInVerb | vm/src/protocol/sequence.rs:208-229 | without `ass_item`, set and delete fail with messages equal up to the final "assignment"/"deletion" |
| DispatchLaws.SliceMessagesDifferInVerb | vm/src/protocol/sequence.rs:250-294 | without `ass_subscript`, set and delete of a slice fail with messages equal up to the final word |
| DispatchLaws.SlicingIgnoresSequenceTable | vm/src/protocol/sequence.rs:231-248 | slicing gives the same result whatever the view's sequence table is, even one with `item` |
| DispatchLaws.FirstMappingTableDecides | vm/src/protocol/sequence.rs:232-247 | if the first mapping table has no `subscript`, the object is unsliceable even when a later ancestor's table has one |
| Search.Contains | vm/src/protocol/sequence.rs:316-331 | the `contains` slot when present; otherwise an iterator error propagates, and the scan result is true at the first match, the first error if it comes earlier, and false at exhaustion |
| Search.Count | vm/src/protocol/sequence.rs:333-350 | always iterates; gives the number of matches, which never exceeds `isize::MAX`; the overflow error as soon as one more match arrives; the first error otherwise |
| Search.Index | vm/src/protocol/sequence.rs:352-371 | always iterates; gives the position of the first match; the first error; the overflow error once position `isize::MAX + 1` is reached undecided; else the not-found error |
| Search.TryCollect | vm/src/protocol/sequence.rs:305-307 | every element, in order, when no element is an error; otherwise the first error |
| Search.Tuple | vm/src/protocol/sequence.rs:296-308 | an exact tuple itself; a tuple of an exact list's stored elements; otherwise a tuple of exactly the iterated elements or the first error |
| SearchLaws.ContainsSpecCharacterised | vm/src/protocol/sequence.rs:324-330 | the scan is true exactly when a match precedes every error, and false exactly when every element is a plain mismatch |
| SearchLaws.CountAgreesWithContains | vm/src/protocol/sequence.rs:316-350 | on an error-free stream with at most `isize::MAX` matches, the count is the number of matches and membership holds exactly when it is positive |
| SearchLaws.IndexFindsFirstMatch | vm/src/protocol/sequence.rs:358-368 | a found position holds the first match, is at most `isize::MAX`, and membership holds |
| SearchLaws.IndexFindsPresent | vm/src/protocol/sequence.rs:358-368 | a first match at a position that fits in `isize` is found at exactly that position |
| SearchLaws.IndexNotFoundWhenAbsent | vm/src/protocol/sequence.rs:358-370 | for a stream of at most `isize::MAX + 1` elements, when the scan finds nothing the search raises the value error "sequence.index(x): x not in sequence" |
| SearchLaws.CountOverflowBoundary | vm/src/protocol/sequence.rs:339-346 | `isize::MAX` matches are counted; `isize::MAX + 1` matches raise "index exceeds C integer size" |
| SearchLaws.IndexOverflowBoundary | vm/src/protocol/sequence.rs:358-362 | `isize::MAX + 1` mismatches give not-found; `isize::MAX + 2` or more give the overflow error |
| SearchLaws.CountPropagatesFirstError | vm/src/protocol/sequence.rs:339-341 | the first element or equality error is the result of counting unless the overflow came first |
| SearchLaws.CountExample | vm/src/protocol/sequence.rs:333-350 | counting `a` in `[a, b, a, c, a]` gives 3 |
| SearchLaws.IndexExample | vm/src/protocol/sequence.rs:352-371 | searching `[a, b, c]` finds `b` at 1 and reports an absent value with the exact not-found message |
| SearchLaws.TupleIdempotent | vm/src/protocol/sequence.rs:296-303 | converting a conversion's result again returns it unchanged |
| SearchLaws.TupleOfListCopiesStorage | vm/src/protocol/sequence.rs:300-303 | an exact list converts to a tuple of its stored elements without consulting its iterator |

## Left out

- Thread safety of the memo cell and of the per-type slot cell. The model is
  sequential: the memo is an `Option` field of the view.
- The `Debug` implementation. It prints slot addresses and is formatting only.
- `obj_as`. It is an unchecked downcast with no behaviour to state.
- `list()`. It is a thin wrapper over list extension, and that code is not part of this model.
- The borrowed-versus-owned distinction of the memoised table. A table is a plain value here.
- The internals of the collaborators: operator dispatch, `PyArithmeticValue::from_object`,
  `bool_eq`, `get_iter`/`iter`, `into_pyobject` and slice construction. Their
  answers are inputs of the model, so their side effects (such as user code that
  runs during `__eq__`) are not modelled. Because of this, the model cannot tell
  the runtime's lazy calls to the equality test apart from eager ones.
- Iterators that never end. The iterator is modelled as a finite list of results.
- Native slot functions receive the object rather than the view. The
  table-producing function of a type is represented by the table it yields for
  this object.
- 32-bit targets. `isize` and `usize` are fixed at 64 bits. On a 32-bit build the
  overflow guards of `count` and `index` fire at 2^31 - 1 instead of 2^63 - 1.
- Object identity. "Returns the same object" is stated as equality of values.
- Search.Tuple: requires that an object whose exact type is `list` carries list
  storage. The runtime unwraps that payload and would panic otherwise.

Two consequences of the code are easy to misread:

- The position check of `index` runs before each element. So only an element
  at position `isize::MAX + 1` overflows, and a stream of exactly `isize::MAX + 1`
  mismatches ends in the not-found error (`SearchLaws.IndexOverflowBoundary`).
  For `count`, an overflow needs `isize::MAX + 1` matches, not just that many elements.
- A type with no slots fails `has_protocol`. So the operator fallback of `concat`,
  `repeat` and their in-place forms is never consulted for it, and the type error is
  always raised (`DispatchLaws.EmptyTableFailsEverywhere`).
