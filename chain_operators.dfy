/** What each operator of the eager chain (`src/Chain.php`) computes, as pure
    functions: the per-element callables with their counters, the whole-array
    callables, and the fold `applyOperators` performs over the pending list. */
module ChainOperators {
  import opened PhpValues
  import opened PhpArrays

  /** An attribute: a plain PHP value, or the user comparator `sortValues` and
      `sortKeys` store under 'sorterFn'. */
  datatype Attr = Val(v: Value) | Comparator(fn: (Value, Value) -> int)

  type Attributes = map<string, Attr>

  /** `$attributes[$name]`: null when absent (or not a plain value). */
  function AttrValue(attrs: Attributes, name: string): Value {
    if name in attrs && attrs[name].Val? then attrs[name].v else Null
  }

  /** An integer attribute; the builders only ever store integers under these names. */
  function AttrInt(attrs: Attributes, name: string): int {
    var v := AttrValue(attrs, name);
    if v.Int? then v.i else 0
  }

  /** `$attributes['sorterFn'] ?? null`. */
  function AttrComparator(attrs: Attributes): Option<(Value, Value) -> int> {
    if "sorterFn" in attrs && attrs["sorterFn"].Comparator? then Some(attrs["sorterFn"].fn) else None
  }

  /** `$attributes['direction'] ?? SORT_ASC`. */
  function AttrDirection(attrs: Attributes): int {
    var v := AttrValue(attrs, "direction");
    if v.Int? then v.i else SORT_ASC
  }

  /** What the core gets from PHP itself: the `<=>`/SORT_REGULAR comparison of
      values and of keys, and Symfony's property-path reader. */
  datatype Env = Env(
    compare: (Value, Value) -> int,
    compareKeys: (Key, Key) -> int,
    resolve: (Value, string) -> Result<Value>)

  // ---- per-element operators ----

  /** The anonymous callable objects the per-element builders create,
      with what each was constructed with. */
  datatype StepKind =
    | MapStep(mapFn: Value -> Value)
    | FilterStep(callback: Option<Value -> Value>, saveIndex: bool)
    | ForEachStep
    | FlipStep
    | KeysStep
    | ValuesStep
    | UniqueStep
    | SliceStep
    | IntersectStep(chainCache: PArray, saveIndex: bool)

  /** The mutable fields of those objects: `$index`, slice's `$resultIndex`
      and unique's `$cache`. */
  datatype StepState = StepState(index: int, resultIndex: int, cache: seq<Value>)

  const Fresh := StepState(0, 0, [])

  /** An emitted `[$index, $value]` pair; `Null` stands for PHP null. */
  type Emission = (Value, Value)

  const Dropped: Emission := (Null, Null)

  /** One `__invoke($k, $item, $attributes)` call: the object's new fields and what it returns. */
  function Step(kind: StepKind, s: StepState, attrs: Attributes, k: Key, v: Value): (StepState, Result<Emission>) {
    match kind
    case MapStep(f) => (s, Success((KeyValue(k), f(v))))
    case FilterStep(cb, save) => FilterCall(cb, save, s, k, v)
    case ForEachStep => (s, Success((KeyValue(k), v)))
    case FlipStep => (s, Success((v, KeyValue(k))))
    case KeysStep => (s.(index := s.index + 1), Success((Int(s.index), KeyValue(k))))
    case ValuesStep => (s.(index := s.index + 1), Success((Int(s.index), v)))
    case UniqueStep => UniqueCall(s, attrs, k, v)
    case SliceStep => SliceCall(s, attrs, k, v)
    case IntersectStep(cc, save) => IntersectCall(cc, save, s, k, v)
  }

  /** filter's callable: keep when the callback (or the value itself) is not loosely false. */
  function FilterCall(cb: Option<Value -> Value>, save: bool, s: StepState, k: Key, v: Value): (StepState, Result<Emission>) {
    var keep := if cb.Some? then Truthy(cb.value(v)) else Truthy(v);
    if !keep then (s, Success(Dropped))
    else if save then (s, Success((KeyValue(k), v)))
    else (s.(index := s.index + 1), Success((Int(s.index), v)))
  }

  /** unique's callable: drop a value already in the cache (`in_array` strict). */
  function UniqueCall(s: StepState, attrs: Attributes, k: Key, v: Value): (StepState, Result<Emission>) {
    if v in s.cache then (s, Success(Dropped))
    else
      var s1 := s.(cache := s.cache + [v]);
      if Truthy(AttrValue(attrs, "saveIndexes")) then (s1, Success((KeyValue(k), v)))
      else (s1.(index := s.index + 1), Success((Int(s.index), v)))
  }

  /** slice's callable: positions in [first, last) whose distance from first the step divides. */
  function SliceCall(s: StepState, attrs: Attributes, k: Key, v: Value): (StepState, Result<Emission>) {
    var first := AttrInt(attrs, "first");
    var last := AttrInt(attrs, "last");
    var step := AttrInt(attrs, "step");
    if s.index >= first && s.index < last then
      if step == 0 then (s, Failure(DivisionByZero("Modulo by zero")))
      else if PhpMod(s.index - first, step) == 0 then
        if Truthy(AttrValue(attrs, "saveIndexes")) then (s.(index := s.index + 1), Success((KeyValue(k), v)))
        else (s.(index := s.index + 1, resultIndex := s.resultIndex + 1), Success((Int(s.resultIndex), v)))
      else (s.(index := s.index + 1), Success(Dropped))
    else (s.(index := s.index + 1), Success(Dropped))
  }

  /** intersect's callable: keep the values `in_array` (strict) of the other chain's array. */
  function IntersectCall(cc: PArray, save: bool, s: StepState, k: Key, v: Value): (StepState, Result<Emission>) {
    if !InArray(v, cc) then (s, Success(Dropped))
    else if save then (s, Success((KeyValue(k), v)))
    else (s.(index := s.index + 1), Success((Int(s.index), v)))
  }

  /** `if ($index !== null && $value !== null) $results[$key][$index] = $value;` */
  function Write(acc: PArray, e: Emission): Result<PArray> {
    if e.0 == Null || e.1 == Null then Success(acc)
    else
      var key :- ValueKey(e.0);
      Success(Set(acc, key, e.1))
  }

  /** The attributes `slice` stores. */
  function SliceAttrs(first: int, last: int, step: int, save: bool): Attributes {
    map["first" := Val(Int(first)), "last" := Val(Int(last)), "step" := Val(Int(step)), "saveIndexes" := Val(Bool(save))]
  }

  /** The inner `foreach` of `applyOperators` for one per-element operator: the
      object's fields afterwards and the array built, or the first error (with the
      fields as they were when it was raised). */
  function RunSteps(kind: StepKind, s: StepState, attrs: Attributes, items: PArray): (StepState, Result<PArray>)
    decreases |items|
  {
    if items == [] then (s, Success([]))
    else StepInto(kind, attrs, RunSteps(kind, s, attrs, items[..|items| - 1]), items[|items| - 1])
  }

  /** One round of that `foreach`: call the object on the entry and write what it emits,
      unless an earlier round already failed. */
  function StepInto(kind: StepKind, attrs: Attributes, prev: (StepState, Result<PArray>), entry: (Key, Value))
    : (StepState, Result<PArray>)
  {
    if prev.1.Failure? then prev
    else
      var (s2, out) := Step(kind, prev.0, attrs, entry.0, entry.1);
      if out.Failure? then (s2, Failure(out.error))
      else (s2, Write(prev.1.value, out.value))
  }

  // ---- whole-array operators ----

  /** The whole-array callables; a merge carries its operand's array as it is
      when the pipeline runs. */
  datatype WholeKind =
    | ReverseOp
    | MergeOp(other: PArray)
    | AppendOp
    | PrependOp
    | SortValuesOp
    | SortKeysOp
    | SortByPropertyOp(path: string, direction: int)

  /** Comparators on entries. */
  function ByValue(cmp: (Value, Value) -> int): ((Key, Value), (Key, Value)) -> int {
    (p: (Key, Value), q: (Key, Value)) => cmp(p.1, q.1)
  }

  function ByValueDesc(cmp: (Value, Value) -> int): ((Key, Value), (Key, Value)) -> int {
    (p: (Key, Value), q: (Key, Value)) => cmp(q.1, p.1)
  }

  function ByKey(cmp: (Key, Key) -> int): ((Key, Value), (Key, Value)) -> int {
    (p: (Key, Value), q: (Key, Value)) => cmp(p.0, q.0)
  }

  function ByKeyDesc(cmp: (Key, Key) -> int): ((Key, Value), (Key, Value)) -> int {
    (p: (Key, Value), q: (Key, Value)) => cmp(q.0, p.0)
  }

  /** `uksort`'s user comparator receives the keys as values. */
  function ByKeyWith(cmp: (Value, Value) -> int): ((Key, Value), (Key, Value)) -> int {
    (p: (Key, Value), q: (Key, Value)) => cmp(KeyValue(p.0), KeyValue(q.0))
  }

  /** The property value, or null when it cannot be read (only used once every read succeeded). */
  function Resolved(env: Env, path: string, v: Value): Value {
    var r := env.resolve(v, path);
    if r.Success? then r.value else Null
  }

  /** sortByProperty's comparator: `<=>` on the resolved property, operands swapped for SORT_DESC. */
  function ByProperty(env: Env, path: string, direction: int): ((Key, Value), (Key, Value)) -> int {
    (p: (Key, Value), q: (Key, Value)) =>
      if direction == SORT_ASC then env.compare(Resolved(env, path, p.1), Resolved(env, path, q.1))
      else env.compare(Resolved(env, path, q.1), Resolved(env, path, p.1))
  }

  /** The first entry, in array order, whose property cannot be read. */
  function FirstResolveError(env: Env, path: string, items: PArray): (r: Option<Error>)
    ensures r.None? <==> forall i :: 0 <= i < |items| ==> env.resolve(items[i].1, path).Success?
    decreases |items|
  {
    if items == [] then None
    else
      var r := env.resolve(items[0].1, path);
      if r.Failure? then Some(r.error)
      else
        var rest := FirstResolveError(env, path, items[1..]);
        assert forall i :: 1 <= i < |items| ==> items[i] == items[1..][i - 1];
        rest
  }

  function InvalidDirection(direction: int): Error {
    InvalidArgument("Invalid direction: \"" + IntToString(direction)
      + "\". Valid values are the following constants: SORT_ASC, SORT_DESC.")
  }

  /** The Error `$items[] = $value` throws when `PHP_INT_MAX` is already a key. */
  const NEXT_ELEMENT_OCCUPIED: string := "Cannot add element to the array as the next element is already occupied"

  /** append's callable: `$items[] = $value`. */
  function AppendCall(items: PArray, value: Value): Result<PArray> {
    if NextIndexOccupied(items) then Failure(PlainError(NEXT_ELEMENT_OCCUPIED))
    else Success(Append(items, value))
  }

  /** sortValues' callable: `uasort` with the sorter, else `asort`/`arsort` by direction. */
  function SortValuesCall(attrs: Attributes, items: PArray, env: Env): Result<PArray> {
    var direction := AttrDirection(attrs);
    var sorter := AttrComparator(attrs);
    if sorter.Some? then Success(SortBy(items, ByValue(sorter.value)))
    else if direction == SORT_ASC then Success(SortBy(items, ByValue(env.compare)))
    else if direction == SORT_DESC then Success(SortBy(items, ByValueDesc(env.compare)))
    else Failure(InvalidDirection(direction))
  }

  /** sortKeys' callable: `uksort` with the sorter, else `ksort`/`krsort` by direction. */
  function SortKeysCall(attrs: Attributes, items: PArray, env: Env): Result<PArray> {
    var direction := AttrDirection(attrs);
    var sorter := AttrComparator(attrs);
    if sorter.Some? then Success(SortBy(items, ByKeyWith(sorter.value)))
    else if direction == SORT_ASC then Success(SortBy(items, ByKey(env.compareKeys)))
    else if direction == SORT_DESC then Success(SortBy(items, ByKeyDesc(env.compareKeys)))
    else Failure(InvalidDirection(direction))
  }

  /** sortByProperty's callable: `uasort` comparing the property read from each value. */
  function SortByPropertyCall(path: string, direction: int, items: PArray, env: Env): Result<PArray> {
    // A sort of fewer than two entries compares nothing, so reads nothing.
    var err := FirstResolveError(env, path, items);
    if |items| >= 2 && err.Some? then Failure(err.value)
    else Success(SortBy(items, ByProperty(env, path, direction)))
  }

  /** One whole-array callable applied to the current array. */
  function Whole(kind: WholeKind, attrs: Attributes, items: PArray, env: Env): Result<PArray> {
    match kind
    case ReverseOp => Success(ArrayReverse(items, Truthy(AttrValue(attrs, "saveIndex"))))
    case MergeOp(other) => Success(ArrayMerge(items, other))
    case AppendOp => AppendCall(items, AttrValue(attrs, "value"))
    case PrependOp => Success(Unshift(items, AttrValue(attrs, "value")))
    case SortValuesOp => SortValuesCall(attrs, items, env)
    case SortKeysOp => SortKeysCall(attrs, items, env)
    case SortByPropertyOp(path, direction) => SortByPropertyCall(path, direction, items, env)
  }

  // ---- the pipeline ----

  /** A pending operator as data: its callable's kind, fields and attributes. */
  datatype OpSpec =
    | PerElementOp(kind: StepKind, state: StepState, attrs: Attributes)
    | WholeOp(whole: WholeKind, attrs: Attributes)

  /** One round of the outer `foreach`: the operator with its fields afterwards, and the new array. */
  function ApplyOne(op: OpSpec, items: PArray, env: Env): (OpSpec, Result<PArray>) {
    match op
    case PerElementOp(kind, s, attrs) =>
      var (s2, r) := RunSteps(kind, s, attrs, items);
      (PerElementOp(kind, s2, attrs), r)
    case WholeOp(w, attrs) => (op, Whole(w, attrs, items, env))
  }

  /** `applyOperators`: the operators folded over the items in order; the result is
      the array or the first error, together with every operator's fields afterwards. */
  function Pipeline(items: PArray, ops: seq<OpSpec>, env: Env): (r: (seq<OpSpec>, Result<PArray>))
    ensures |r.0| == |ops|
    decreases |ops|
  {
    if ops == [] then ([], Success(items))
    else
      var prev := Pipeline(items, ops[..|ops| - 1], env);
      var last := ops[|ops| - 1];
      if prev.1.Failure? then (prev.0 + [last], prev.1)
      else
        var step := ApplyOne(last, prev.1.value, env);
        (prev.0 + [step.0], step.1)
  }
}
