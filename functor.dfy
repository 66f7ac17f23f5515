/** The operator records of `src/Functor`: a callable with its attributes,
    tagged with a type that must belong to the record kind's accepted set. */
module Functor {
  import opened PhpValues

  // Per-element type tags.
  const TYPE_MAP: string := "map"
  const TYPE_FILTER: string := "filter"
  const TYPE_FLIP: string := "flip"
  const TYPE_FOREACH: string := "foreach"
  const TYPE_KEYS: string := "keys"
  const TYPE_VALUES: string := "values"
  const TYPE_UNIQUE: string := "unique"
  const TYPE_SLICE: string := "slice"
  const TYPE_INTERSECT: string := "intersect"

  // Whole-sequence type tags.
  const TYPE_MERGE: string := "merge"
  const TYPE_APPEND: string := "append"
  const TYPE_PREPEND: string := "prepend"
  const TYPE_SORT_VALUES: string := "sortValues"
  const TYPE_SORT_KEYS: string := "sortKeys"
  const TYPE_REVERSE: string := "reverse"

  /** The fifteen tags in declaration order. */
  const ALL_TYPES: seq<string> := [
    TYPE_MAP, TYPE_FILTER, TYPE_FLIP, TYPE_FOREACH, TYPE_KEYS, TYPE_VALUES,
    TYPE_UNIQUE, TYPE_SLICE, TYPE_INTERSECT,
    TYPE_MERGE, TYPE_APPEND, TYPE_PREPEND, TYPE_SORT_VALUES, TYPE_SORT_KEYS, TYPE_REVERSE]

  /** `MapOperator::TYPES`, without its reference to the undefined flat-map tag. */
  const MAP_TYPES: seq<string> := [
    TYPE_FILTER, TYPE_MAP, TYPE_FLIP, TYPE_FOREACH, TYPE_KEYS,
    TYPE_VALUES, TYPE_UNIQUE, TYPE_SLICE, TYPE_INTERSECT]

  /** `IterableCallableOperator::TYPES`. */
  const ITERABLE_TYPES: seq<string> := [
    TYPE_MERGE, TYPE_APPEND, TYPE_PREPEND, TYPE_SORT_VALUES, TYPE_SORT_KEYS, TYPE_REVERSE]

  /** `Operator`: a callable and an attribute array, both fixed at construction
      (the class has getters and no setters). */
  datatype Operator<C, A> = Operator(callable: C, attributes: map<string, A>) {
    function GetCallable(): C { callable }
    function GetAttributes(): map<string, A> { attributes }
  }

  /** `new Operator($callable, $attributes = [])`. */
  function NewOperator<C, A>(callable: C, attributes: map<string, A> := map[]): (o: Operator<C, A>)
    ensures o.GetCallable() == callable
    ensures o.GetAttributes() == attributes
  {
    Operator(callable, attributes)
  }

  function UnsupportedType(kind: string): Error {
    InvalidArgument("Unsupported type \"" + kind + "\"")
  }

  /** A `MapOperator`: a per-element operator. */
  datatype MapOperator<C, A> = MapOperator(kind: string, base: Operator<C, A>) {
    function GetType(): string { kind }
    function GetCallable(): C { base.GetCallable() }
    function GetAttributes(): map<string, A> { base.GetAttributes() }
  }

  /** `new MapOperator($type, $fn, $attributes = [])`: rejects a type outside `MAP_TYPES`. */
  function NewMapOperator<C, A>(kind: string, fn: C, attributes: map<string, A> := map[]): (r: Result<MapOperator<C, A>>)
    ensures r.Success? <==> kind in MAP_TYPES
    ensures r.Failure? ==> r.error == UnsupportedType(kind)
    ensures r.Success? ==> r.value.GetType() == kind
    ensures r.Success? ==> r.value.GetCallable() == fn && r.value.GetAttributes() == attributes
  {
    if kind !in MAP_TYPES then Failure(UnsupportedType(kind))
    else Success(MapOperator(kind, NewOperator(fn, attributes)))
  }

  /** An `IterableCallableOperator`: a whole-sequence operator. */
  datatype IterableCallableOperator<C, A> = IterableCallableOperator(kind: string, base: Operator<C, A>) {
    function GetType(): string { kind }
    function GetCallable(): C { base.GetCallable() }
    function GetAttributes(): map<string, A> { base.GetAttributes() }
  }

  /** `new IterableCallableOperator($type, $callable, $attributes = [])`: rejects a type outside `ITERABLE_TYPES`. */
  function NewIterableCallableOperator<C, A>(kind: string, fn: C, attributes: map<string, A> := map[])
    : (r: Result<IterableCallableOperator<C, A>>)
    ensures r.Success? <==> kind in ITERABLE_TYPES
    ensures r.Failure? ==> r.error == UnsupportedType(kind)
    ensures r.Success? ==> r.value.GetType() == kind
    ensures r.Success? ==> r.value.GetCallable() == fn && r.value.GetAttributes() == attributes
  {
    if kind !in ITERABLE_TYPES then Failure(UnsupportedType(kind))
    else Success(IterableCallableOperator(kind, NewOperator(fn, attributes)))
  }

  /** The fifteen tags are pairwise distinct, and every one of them is accepted by
      exactly one of the two operator kinds, so dispatch on the kind is unambiguous. */
  lemma TypeTagsPartition()
    ensures forall i, j :: 0 <= i < j < |ALL_TYPES| ==> ALL_TYPES[i] != ALL_TYPES[j]
    ensures forall t :: t in ALL_TYPES <==> (t in MAP_TYPES || t in ITERABLE_TYPES)
    ensures forall t :: t in MAP_TYPES ==> t !in ITERABLE_TYPES
  {
  }
}
