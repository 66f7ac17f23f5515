/** The eager chain of `src/Chain.php`: builders append operator records to
    `operators`; `toArray` folds them over `items` and empties the list. */
module EagerChain {
  import opened PhpValues
  import opened PhpArrays
  import opened Functor
  import opened ChainOperators
  import ChainOperatorFacts

  /** The callable object of a per-element operator, with its mutable counters. */
  class Stepper {
    const kind: StepKind
    var index: int
    var resultIndex: int
    var cache: seq<Value>

    function State(): StepState
      reads this
    {
      StepState(index, resultIndex, cache)
    }

    constructor (kind: StepKind)
      ensures this.kind == kind && State() == Fresh
    {
      this.kind := kind;
      index := 0;
      resultIndex := 0;
      cache := [];
    }

    /** `__invoke($index, $value, $attributes)`. */
    method Invoke(k: Key, v: Value, attrs: Attributes) returns (r: Result<Emission>)
      modifies this
      ensures (State(), r) == Step(kind, old(State()), attrs, k, v)
    {
      match kind {
        case MapStep(f) =>
          r := Success((KeyValue(k), f(v)));
        case FilterStep(cb, save) =>
          var keep := if cb.Some? then Truthy(cb.value(v)) else Truthy(v);
          if !keep {
            r := Success(Dropped);
          } else if save {
            r := Success((KeyValue(k), v));
          } else {
            r := Success((Int(index), v));
            index := index + 1;
          }
        case ForEachStep =>
          r := Success((KeyValue(k), v));
        case FlipStep =>
          r := Success((v, KeyValue(k)));
        case KeysStep =>
          r := Success((Int(index), KeyValue(k)));
          index := index + 1;
        case ValuesStep =>
          r := Success((Int(index), v));
          index := index + 1;
        case UniqueStep =>
          if v in cache {
            r := Success(Dropped);
          } else {
            cache := cache + [v];
            if Truthy(AttrValue(attrs, "saveIndexes")) {
              r := Success((KeyValue(k), v));
            } else {
              r := Success((Int(index), v));
              index := index + 1;
            }
          }
        case SliceStep =>
          var first := AttrInt(attrs, "first");
          var last := AttrInt(attrs, "last");
          var step := AttrInt(attrs, "step");
          r := Success(Dropped);
          if index >= first && index < last {
            if step == 0 {
              return Failure(DivisionByZero("Modulo by zero"));
            }
            if PhpMod(index - first, step) == 0 {
              if Truthy(AttrValue(attrs, "saveIndexes")) {
                r := Success((KeyValue(k), v));
              } else {
                r := Success((Int(resultIndex), v));
                resultIndex := resultIndex + 1;
              }
            }
          }
          index := index + 1;
        case IntersectStep(cc, save) =>
          if !InArray(v, cc) {
            r := Success(Dropped);
          } else if save {
            r := Success((KeyValue(k), v));
          } else {
            r := Success((Int(index), v));
            index := index + 1;
          }
      }
    }

    /** The inner `foreach` of `applyOperators`: every entry through `__invoke`, each
        non-null result written with `$results[$key][$index] = $value`. */
    method RunOver(items: PArray, attrs: Attributes) returns (r: Result<PArray>)
      modifies this
      ensures (State(), r) == RunSteps(kind, old(State()), attrs, items)
    {
      var res: PArray := [];
      var n := 0;
      while n < |items|
        invariant 0 <= n <= |items|
        invariant RunSteps(kind, old(State()), attrs, items[..n]) == (State(), Success(res))
      {
        assert items[..n + 1][..n] == items[..n];
        var e := Invoke(items[n].0, items[n].1, attrs);
        if e.Failure? {
          RunStepsStops(kind, old(State()), attrs, items, n + 1);
          return Failure(e.error);
        }
        if e.value.0 != Null && e.value.1 != Null {
          var key := ValueKey(e.value.0);
          if key.Failure? {
            RunStepsStops(kind, old(State()), attrs, items, n + 1);
            return Failure(key.error);
          }
          res := Set(res, key.value, e.value.1);
        }
        n := n + 1;
      }
      assert items[..n] == items;
      r := Success(res);
    }
  }

  /** Once the fold over a prefix fails, the rest of the entries are not visited. */
  lemma {:induction false} RunStepsStops(kind: StepKind, s: StepState, attrs: Attributes, items: PArray, n: nat)
    requires n <= |items| && RunSteps(kind, s, attrs, items[..n]).1.Failure?
    ensures RunSteps(kind, s, attrs, items) == RunSteps(kind, s, attrs, items[..n])
    decreases |items| - n
  {
    if n < |items| {
      assert items[..n + 1][..n] == items[..n];
      RunStepsStops(kind, s, attrs, items, n + 1);
    } else {
      assert items[..n] == items;
    }
  }

  /** The callable object of a whole-array operator. */
  datatype WholeBody =
    | ReverseBody
    | MergeBody(chain: Chain)
    | AppendBody
    | PrependBody
    | SortValuesBody
    | SortKeysBody
    | SortByPropertyBody(propertyName: string, direction: int)

  /** An entry of `$this->operators`. */
  datatype Pending =
    | PerElement(mop: MapOperator<Stepper, Attr>)
    | WholeArray(wop: IterableCallableOperator<WholeBody, Attr>)

  /** The objects a pending operator's meaning depends on. */
  function PendingObjs(p: Pending): set<object> {
    match p
    case PerElement(op) => {op.GetCallable()}
    case WholeArray(op) => if op.GetCallable().MergeBody? then {op.GetCallable().chain} else {}
  }

  function ObjsOf(ps: seq<Pending>): set<object> {
    set i, o | 0 <= i < |ps| && o in PendingObjs(ps[i]) :: o
  }

  /** A pending operator as data, with its callable's current fields (and a merge
      operand's current array). */
  ghost function SpecOf(p: Pending): OpSpec
    reads PendingObjs(p)
  {
    match p
    case PerElement(op) => PerElementOp(op.GetCallable().kind, op.GetCallable().State(), op.GetAttributes())
    case WholeArray(op) => WholeOp(WholeKindOf(op.GetCallable()), op.GetAttributes())
  }

  ghost function WholeKindOf(body: WholeBody): WholeKind
    reads if body.MergeBody? then {body.chain} else {}
  {
    match body
    case ReverseBody => ReverseOp
    case MergeBody(c) => MergeOp(c.items)
    case AppendBody => AppendOp
    case PrependBody => PrependOp
    case SortValuesBody => SortValuesOp
    case SortKeysBody => SortKeysOp
    case SortByPropertyBody(path, direction) => SortByPropertyOp(path, direction)
  }

  /** A whole-array callable applied to the current array. PHP arrays are values, so
      the in-place sorts act on a local copy and are modelled as functions. */
  method RunWhole(body: WholeBody, attrs: Attributes, cur: PArray, env: Env) returns (r: Result<PArray>)
    requires body.MergeBody? ==> body.chain.operators == []
    ensures r == Whole(WholeKindOf(body), attrs, cur, env)
  {
    match body {
      case ReverseBody =>
        r := Success(ArrayReverse(cur, Truthy(AttrValue(attrs, "saveIndex"))));
      case MergeBody(c) =>
        // `$this->chain->toArray()` with nothing pending returns its items.
        r := Success(ArrayMerge(cur, c.items));
      case AppendBody =>
        if NextIndexOccupied(cur) {
          r := Failure(PlainError(NEXT_ELEMENT_OCCUPIED));
        } else {
          r := Success(PhpArrays.Append(cur, AttrValue(attrs, "value")));
        }
      case PrependBody =>
        r := Success(Unshift(cur, AttrValue(attrs, "value")));
      case SortValuesBody =>
        r := Whole(SortValuesOp, attrs, cur, env);
      case SortKeysBody =>
        r := Whole(SortKeysOp, attrs, cur, env);
      case SortByPropertyBody(path, direction) =>
        r := Whole(SortByPropertyOp(path, direction), attrs, cur, env);
    }
  }

  class Chain {
    var items: PArray
    var operators: seq<Pending>

    /** The private constructor. */
    constructor (items: PArray)
      ensures this.items == items && operators == []
      ensures Valid()
    {
      this.items := items;
      operators := [];
    }

    /** Each per-element operator has its own callable object. */
    ghost predicate Valid()
      reads this
    {
      forall i, j :: 0 <= i < j < |operators| && operators[i].PerElement? && operators[j].PerElement?
        ==> operators[i].mop.GetCallable() != operators[j].mop.GetCallable()
    }

    function Steppers(): set<Stepper>
      reads this
    {
      set i | 0 <= i < |operators| && operators[i].PerElement? :: operators[i].mop.GetCallable()
    }

    /** The chains pending merges read. */
    function Operands(): set<Chain>
      reads this
    {
      set i | 0 <= i < |operators| && operators[i].WholeArray? && operators[i].wop.GetCallable().MergeBody?
        :: operators[i].wop.GetCallable().chain
    }

    /** Every merge operand has nothing pending, so its `toArray()` is its items. */
    ghost predicate Settled()
      reads this, Operands()
    {
      forall c :: c in Operands() ==> c.operators == []
    }

    /** The pending operators as data. */
    ghost function Snapshot(): (r: seq<OpSpec>)
      reads this, ObjsOf(operators)
      ensures |r| == |operators|
      ensures forall i :: 0 <= i < |operators| ==> r[i] == SpecOf(operators[i])
    {
      seq(|operators|, i requires 0 <= i < |operators| reads this, ObjsOf(operators) => SpecOf(operators[i]))
    }

    /** `applyOperators($items)`: the pending operators folded over the items; on
        success the list is emptied, on failure it stays, with the counters as the
        failing call left them. The items themselves never change. */
    method ApplyOperators(env: Env) returns (r: Result<PArray>)
      requires Valid() && Settled()
      modifies this, Steppers()
      ensures Valid() && Settled() && items == old(items)
      ensures r == Pipeline(old(items), old(Snapshot()), env).1
      ensures r.Success? ==> operators == []
      ensures r.Failure? ==> operators == old(operators) && Snapshot() == Pipeline(old(items), old(Snapshot()), env).0
    {
      ghost var ops0 := Snapshot();
      var cur := items;
      var i := 0;
      while i < |operators|
        invariant 0 <= i <= |operators|
        invariant items == old(items) && operators == old(operators)
        invariant Valid() && Settled()
        invariant Pipeline(items, ops0[..i], env) == (Snapshot()[..i], Success(cur))
        invariant Snapshot()[i..] == ops0[i..]
      {
        ghost var snap := Snapshot();
        var next := ApplyAt(i, cur, env);
        PipelineAdvance(items, ops0, snap, Snapshot(), i, cur, next, env);
        if next.Failure? {
          return next;
        }
        cur := next.value;
        i := i + 1;
      }
      assert ops0[..i] == ops0;
      assert Snapshot()[..i] == Snapshot();
      operators := [];
      r := Success(cur);
    }

    /** One round of `applyOperators`' outer `foreach`: the i-th operator over the
        current array; only its own callable object changes. */
    method ApplyAt(i: nat, cur: PArray, env: Env) returns (next: Result<PArray>)
      requires Valid() && Settled() && i < |operators|
      modifies Steppers()
      ensures Settled()
      ensures ApplyOne(old(Snapshot())[i], cur, env) == (Snapshot()[i], next)
      ensures Snapshot() == old(Snapshot())[i := Snapshot()[i]]
    {
      if operators[i].PerElement? {
        assert operators[i].mop.GetCallable() in Steppers();
        next := ApplyStepAt(i, cur);
      } else {
        next := ApplyWholeAt(i, cur, env);
      }
    }

    /** A per-element operator: its callable runs over the array and only that
        callable's fields change. */
    method ApplyStepAt(i: nat, cur: PArray) returns (next: Result<PArray>)
      requires Valid() && Settled() && i < |operators| && operators[i].PerElement?
      modifies operators[i].mop.GetCallable()
      ensures Settled()
      ensures forall env :: ApplyOne(old(Snapshot())[i], cur, env) == (Snapshot()[i], next)
      ensures Snapshot() == old(Snapshot())[i := Snapshot()[i]]
    {
      var op := operators[i].mop;
      var st := op.GetCallable();
      next := st.RunOver(cur, op.GetAttributes());
      forall j | 0 <= j < |operators| && j != i
        ensures SpecOf(operators[j]) == old(SpecOf(operators[j]))
      {
        if operators[j].PerElement? {
          assert operators[j].mop.GetCallable() != st;
        }
      }
    }

    /** A whole-array operator: a function of the array; nothing changes. */
    method ApplyWholeAt(i: nat, cur: PArray, env: Env) returns (next: Result<PArray>)
      requires Settled() && i < |operators| && operators[i].WholeArray?
      ensures Settled()
      ensures ApplyOne(Snapshot()[i], cur, env) == (Snapshot()[i], next)
      ensures Snapshot() == old(Snapshot())[i := Snapshot()[i]]
    {
      ghost var snap := Snapshot();
      assert snap[i := snap[i]] == snap;
      var op := operators[i].wop;
      ghost var spec := WholeOp(WholeKindOf(op.GetCallable()), op.GetAttributes());
      assert snap[i] == spec;
      assert op.GetCallable().MergeBody? ==> op.GetCallable().chain in Operands();
      next := RunWhole(op.GetCallable(), op.GetAttributes(), cur, env);
      assert ApplyOne(spec, cur, env) == (spec, next);
    }

    /** `toArray()`: the items themselves when nothing is pending, else `applyOperators`. */
    method ToArray(env: Env) returns (r: Result<PArray>)
      requires Valid() && Settled()
      modifies this, Steppers()
      ensures Valid() && Settled() && items == old(items)
      ensures r == Pipeline(old(items), old(Snapshot()), env).1
      ensures old(operators) == [] ==> r == Success(items) && operators == []
      ensures r.Success? ==> operators == []
      ensures r.Failure? ==> operators == old(operators) && Snapshot() == Pipeline(old(items), old(Snapshot()), env).0
    {
      if |operators| == 0 {
        return Success(items);
      }
      r := ApplyOperators(env);
    }

    // ---- builders ----

    /** Appends a per-element operator with a fresh callable object. */
    method AddStep(kind: StepKind, tag: string, attrs: Attributes) returns (self: Chain)
      requires Valid() && tag in MAP_TYPES
      modifies this
      ensures self == this && Valid() && items == old(items)
      ensures |operators| == |old(operators)| + 1 && operators[..|old(operators)|] == old(operators)
      ensures operators[|old(operators)|].PerElement? && operators[|old(operators)|].mop.GetType() == tag
      ensures fresh(operators[|old(operators)|].mop.GetCallable())
      ensures SpecOf(operators[|old(operators)|]) == PerElementOp(kind, Fresh, attrs)
    {
      var st := new Stepper(kind);
      var op := NewMapOperator(tag, st, attrs).Extract();
      operators := operators + [PerElement(op)];
      self := this;
    }

    /** Appends a whole-array operator. */
    method AddWhole(body: WholeBody, tag: string, attrs: Attributes) returns (self: Chain)
      requires Valid() && tag in ITERABLE_TYPES
      modifies this
      ensures self == this && Valid() && items == old(items)
      ensures operators == old(operators) + [WholeArray(IterableCallableOperator(tag, Operator(body, attrs)))]
    {
      var op := NewIterableCallableOperator(tag, body, attrs).Extract();
      operators := operators + [WholeArray(op)];
      self := this;
    }

    method Map(mapFn: Value -> Value) returns (self: Chain)
      requires Valid()
      modifies this
      ensures self == this && Valid() && items == old(items)
      ensures |operators| == |old(operators)| + 1 && operators[..|old(operators)|] == old(operators)
      ensures SpecOf(operators[|old(operators)|]) == PerElementOp(MapStep(mapFn), Fresh, map[])
    {
      self := AddStep(MapStep(mapFn), TYPE_MAP, map[]);
    }

    method Filter(filterFn: Option<Value -> Value>, saveIndexes: bool) returns (self: Chain)
      requires Valid()
      modifies this
      ensures self == this && Valid() && items == old(items)
      ensures |operators| == |old(operators)| + 1 && operators[..|old(operators)|] == old(operators)
      ensures SpecOf(operators[|old(operators)|]) == PerElementOp(FilterStep(filterFn, saveIndexes), Fresh, map[])
    {
      self := AddStep(FilterStep(filterFn, saveIndexes), TYPE_FILTER, map[]);
    }

    /** `forEach($fn)`: the callback's side effects are not modelled. */
    method ForEach() returns (self: Chain)
      requires Valid()
      modifies this
      ensures self == this && Valid() && items == old(items)
      ensures |operators| == |old(operators)| + 1 && operators[..|old(operators)|] == old(operators)
      ensures SpecOf(operators[|old(operators)|]) == PerElementOp(ForEachStep, Fresh, map[])
    {
      self := AddStep(ForEachStep, TYPE_FOREACH, map[]);
    }

    method Flip() returns (self: Chain)
      requires Valid()
      modifies this
      ensures self == this && Valid() && items == old(items)
      ensures |operators| == |old(operators)| + 1 && operators[..|old(operators)|] == old(operators)
      ensures SpecOf(operators[|old(operators)|]) == PerElementOp(FlipStep, Fresh, map[])
    {
      self := AddStep(FlipStep, TYPE_FLIP, map[]);
    }

    method Keys() returns (self: Chain)
      requires Valid()
      modifies this
      ensures self == this && Valid() && items == old(items)
      ensures |operators| == |old(operators)| + 1 && operators[..|old(operators)|] == old(operators)
      ensures SpecOf(operators[|old(operators)|]) == PerElementOp(KeysStep, Fresh, map[])
    {
      self := AddStep(KeysStep, TYPE_KEYS, map[]);
    }

    method Values() returns (self: Chain)
      requires Valid()
      modifies this
      ensures self == this && Valid() && items == old(items)
      ensures |operators| == |old(operators)| + 1 && operators[..|old(operators)|] == old(operators)
      ensures SpecOf(operators[|old(operators)|]) == PerElementOp(ValuesStep, Fresh, map[])
    {
      self := AddStep(ValuesStep, TYPE_VALUES, map[]);
    }

    method Unique(saveIndexes: bool) returns (self: Chain)
      requires Valid()
      modifies this
      ensures self == this && Valid() && items == old(items)
      ensures |operators| == |old(operators)| + 1 && operators[..|old(operators)|] == old(operators)
      ensures SpecOf(operators[|old(operators)|]) == PerElementOp(UniqueStep, Fresh, map["saveIndexes" := Val(Bool(saveIndexes))])
    {
      self := AddStep(UniqueStep, TYPE_UNIQUE, map["saveIndexes" := Val(Bool(saveIndexes))]);
    }

    method Slice(firstIncluded: int, lastExcluded: int, step: int, saveIndexes: bool) returns (self: Chain)
      requires Valid()
      modifies this
      ensures self == this && Valid() && items == old(items)
      ensures |operators| == |old(operators)| + 1 && operators[..|old(operators)|] == old(operators)
      ensures SpecOf(operators[|old(operators)|])
           == PerElementOp(SliceStep, Fresh, SliceAttrs(firstIncluded, lastExcluded, step, saveIndexes))
    {
      self := AddStep(SliceStep, TYPE_SLICE, SliceAttrs(firstIncluded, lastExcluded, step, saveIndexes));
    }

    /** `intersect($chain)`: the other chain is materialised now, when the operator is built;
        if that fails nothing is appended. */
    method Intersect(chain: Chain, saveIndexes: bool, env: Env) returns (r: Result<Chain>)
      requires Valid() && chain.Valid() && chain.Settled()
      requires chain == this || Steppers() !! chain.Steppers()
      modifies this, chain, chain.Steppers()
      ensures Valid() && items == old(items)
      ensures r.Success? <==> Pipeline(old(chain.items), old(chain.Snapshot()), env).1.Success?
      ensures r.Failure? ==> r.error == Pipeline(old(chain.items), old(chain.Snapshot()), env).1.error
      ensures r.Failure? ==> operators == old(operators)
      ensures r.Success? ==> r.value == this && |operators| >= 1
      ensures r.Success? ==> operators[..|operators| - 1] == (if chain == this then [] else old(operators))
      ensures r.Success? ==> (SpecOf(operators[|operators| - 1])
        == PerElementOp(IntersectStep(Pipeline(old(chain.items), old(chain.Snapshot()), env).1.value, saveIndexes), Fresh, map[]))
      ensures chain.Valid() && chain.Settled() && chain.items == old(chain.items)
      ensures r.Success? && chain != this ==> chain.operators == []
      ensures r.Failure? ==> (chain.operators == old(chain.operators)
        && chain.Snapshot() == Pipeline(old(chain.items), old(chain.Snapshot()), env).0)
    {
      var cached := chain.ToArray(env);
      if cached.Failure? {
        assert operators == old(operators);
        return Failure(cached.error);
      }
      assert operators == (if chain == this then [] else old(operators));
      assert Valid();
      var self := AddStep(IntersectStep(cached.value, saveIndexes), TYPE_INTERSECT, map[]);
      r := Success(self);
    }

    method Reverse(saveIndexes: bool) returns (self: Chain)
      requires Valid()
      modifies this
      ensures self == this && Valid() && items == old(items)
      ensures operators == old(operators) + [WholeArray(IterableCallableOperator(TYPE_REVERSE, Operator(ReverseBody, map["saveIndex" := Val(Bool(saveIndexes))])))]
    {
      self := AddWhole(ReverseBody, TYPE_REVERSE, map["saveIndex" := Val(Bool(saveIndexes))]);
    }

    /** `merge($chain)`: the other chain is read when the pipeline runs, not now. */
    method Merge(chain: Chain) returns (self: Chain)
      requires Valid()
      modifies this
      ensures self == this && Valid() && items == old(items)
      ensures operators == old(operators) + [WholeArray(IterableCallableOperator(TYPE_MERGE, Operator(MergeBody(chain), map[])))]
    {
      self := AddWhole(MergeBody(chain), TYPE_MERGE, map[]);
    }

    method Append(value: Value) returns (self: Chain)
      requires Valid()
      modifies this
      ensures self == this && Valid() && items == old(items)
      ensures operators == old(operators) + [WholeArray(IterableCallableOperator(TYPE_APPEND, Operator(AppendBody, map["value" := Val(value)])))]
    {
      self := AddWhole(AppendBody, TYPE_APPEND, map["value" := Val(value)]);
    }

    method Prepend(value: Value) returns (self: Chain)
      requires Valid()
      modifies this
      ensures self == this && Valid() && items == old(items)
      ensures operators == old(operators) + [WholeArray(IterableCallableOperator(TYPE_PREPEND, Operator(PrependBody, map["value" := Val(value)])))]
    {
      self := AddWhole(PrependBody, TYPE_PREPEND, map["value" := Val(value)]);
    }

    /** `sortValues($sortFn, $direction, $sortFlags)`: the direction is only checked when
        the pipeline runs. */
    method SortValues(sortFn: Option<(Value, Value) -> int>, direction: Option<int>, sortFlags: Option<int>) returns (self: Chain)
      requires Valid()
      modifies this
      ensures self == this && Valid() && items == old(items)
      ensures operators == old(operators) + [WholeArray(IterableCallableOperator(TYPE_SORT_VALUES,
        Operator(SortValuesBody, SortAttrs(sortFn, direction, sortFlags))))]
    {
      self := AddWhole(SortValuesBody, TYPE_SORT_VALUES, SortAttrs(sortFn, direction, sortFlags));
    }

    method SortKeys(sortFn: Option<(Value, Value) -> int>, direction: Option<int>, sortFlags: Option<int>) returns (self: Chain)
      requires Valid()
      modifies this
      ensures self == this && Valid() && items == old(items)
      ensures operators == old(operators) + [WholeArray(IterableCallableOperator(TYPE_SORT_KEYS,
        Operator(SortKeysBody, SortAttrs(sortFn, direction, sortFlags))))]
    {
      self := AddWhole(SortKeysBody, TYPE_SORT_KEYS, SortAttrs(sortFn, direction, sortFlags));
    }

    /** `sortByProperty($propertyName, $direction)`: the direction is checked now, when the
        callable object is constructed; it is filed under the sortValues tag. */
    method SortByProperty(propertyName: string, direction: int) returns (r: Result<Chain>)
      requires Valid()
      modifies this
      ensures Valid() && items == old(items)
      ensures r.Failure? <==> direction != SORT_ASC && direction != SORT_DESC
      ensures r.Failure? ==> r.error == InvalidSort(direction) && operators == old(operators)
      ensures r.Success? ==> r.value == this
      ensures r.Success? ==> (operators == old(operators)
        + [WholeArray(IterableCallableOperator(TYPE_SORT_VALUES, Operator(SortByPropertyBody(propertyName, direction), map[])))])
    {
      if direction != SORT_ASC && direction != SORT_DESC {
        return Failure(InvalidSort(direction));
      }
      var self := AddWhole(SortByPropertyBody(propertyName, direction), TYPE_SORT_VALUES, map[]);
      r := Success(self);
    }

    // ---- queries ----

    method HasValue(value: Value, env: Env) returns (r: Result<bool>)
      requires Valid() && Settled()
      modifies this, Steppers()
      ensures var p := Pipeline(old(items), old(Snapshot()), env).1;
        r.Success? == p.Success? && (r.Success? ==> r.value == InArray(value, p.value))
      ensures Valid() && Settled() && items == old(items)
      ensures r.Success? ==> operators == []
      ensures r.Failure? ==> operators == old(operators) && Snapshot() == Pipeline(old(items), old(Snapshot()), env).0
    {
      var a := ToArray(env);
      if a.Failure? {
        return Failure(a.error);
      }
      r := Success(InArray(value, a.value));
    }

    method HasKey(key: Key, env: Env) returns (r: Result<bool>)
      requires Valid() && Settled()
      modifies this, Steppers()
      ensures var p := Pipeline(old(items), old(Snapshot()), env).1;
        r.Success? == p.Success? && (r.Success? ==> r.value == PhpArrays.HasKey(p.value, key))
      ensures Valid() && Settled() && items == old(items)
      ensures r.Success? ==> operators == []
      ensures r.Failure? ==> operators == old(operators) && Snapshot() == Pipeline(old(items), old(Snapshot()), env).0
    {
      var a := ToArray(env);
      if a.Failure? {
        return Failure(a.error);
      }
      r := Success(PhpArrays.HasKey(a.value, key));
    }

    method Size(env: Env) returns (r: Result<nat>)
      requires Valid() && Settled()
      modifies this, Steppers()
      ensures var p := Pipeline(old(items), old(Snapshot()), env).1;
        r.Success? == p.Success? && (r.Success? ==> r.value == |p.value|)
      ensures Valid() && Settled() && items == old(items)
      ensures r.Success? ==> operators == []
      ensures r.Failure? ==> operators == old(operators) && Snapshot() == Pipeline(old(items), old(Snapshot()), env).0
    {
      var a := ToArray(env);
      if a.Failure? {
        return Failure(a.error);
      }
      r := Success(|a.value|);
    }

    method IsEmpty(env: Env) returns (r: Result<bool>)
      requires Valid() && Settled()
      modifies this, Steppers()
      ensures var p := Pipeline(old(items), old(Snapshot()), env).1;
        r.Success? == p.Success? && (r.Success? ==> r.value == (p.value == []))
      ensures Valid() && Settled() && items == old(items)
      ensures r.Success? ==> operators == []
      ensures r.Failure? ==> operators == old(operators) && Snapshot() == Pipeline(old(items), old(Snapshot()), env).0
    {
      var n := Size(env);
      if n.Failure? {
        return Failure(n.error);
      }
      r := Success(n.value == 0);
    }

    method Reduce<A>(reduceFn: (A, Value) -> A, initialValue: A, env: Env) returns (r: Result<A>)
      requires Valid() && Settled()
      modifies this, Steppers()
      ensures var p := Pipeline(old(items), old(Snapshot()), env).1;
        r.Success? == p.Success? && (r.Success? ==> r.value == PhpArrays.Reduce(p.value, reduceFn, initialValue))
      ensures Valid() && Settled() && items == old(items)
      ensures r.Success? ==> operators == []
      ensures r.Failure? ==> operators == old(operators) && Snapshot() == Pipeline(old(items), old(Snapshot()), env).0
    {
      var a := ToArray(env);
      if a.Failure? {
        return Failure(a.error);
      }
      r := Success(PhpArrays.Reduce(a.value, reduceFn, initialValue));
    }

    /** `toChain()`: `of($this)`, a new chain over this chain's materialised array. */
    method ToChain(env: Env) returns (r: Result<Chain>)
      requires Valid() && Settled()
      modifies this, Steppers()
      ensures var p := Pipeline(old(items), old(Snapshot()), env).1;
        r.Success? == p.Success?
        && (r.Success? ==> fresh(r.value) && r.value.Valid() && r.value.items == Materialise(p.value) && r.value.operators == [])
      ensures Valid() && Settled() && items == old(items)
      ensures r.Success? ==> operators == []
      ensures r.Failure? ==> operators == old(operators) && Snapshot() == Pipeline(old(items), old(Snapshot()), env).0
    {
      r := Of(ChainArg(this), env);
    }
  }

  /** The attributes sortValues and sortKeys store. */
  function SortAttrs(sortFn: Option<(Value, Value) -> int>, direction: Option<int>, sortFlags: Option<int>): Attributes {
    map[
      "sorterFn" := (if sortFn.Some? then Comparator(sortFn.value) else Val(Null)),
      "flags" := Val(if sortFlags.Some? then Int(sortFlags.value) else Null),
      "direction" := Val(if direction.Some? then Int(direction.value) else Null)]
  }

  function InvalidSort(direction: int): Error {
    InvalidArgument("Invalid sort \"" + IntToString(direction) + "\". Available constants are: [SORT_ASC, SORT_DESC]")
  }

  /** What `Chain::of($items)` can be given. */
  datatype OfArg =
    | Plain(v: Value)                         // null, an array, or anything else
    | Traversable(pairs: seq<(Key, Value)>)  // an Iterator or IteratorAggregate other than a chain
    | ChainArg(chain: Chain)

  /** `Chain::of($items)`: null gives an empty chain, an array is used as it is, a
      traversable is collected with `$chain[$index] = $item` (a chain is traversed through
      its `toArray()`), anything else is rejected. */
  method Of(arg: OfArg, env: Env) returns (r: Result<Chain>)
    requires arg.ChainArg? ==> arg.chain.Valid() && arg.chain.Settled()
    modifies if arg.ChainArg? then {arg.chain} + arg.chain.Steppers() else {}
    ensures r.Success? ==> fresh(r.value) && r.value.Valid() && r.value.operators == []
    ensures arg.Plain? ==> (r.Success? <==> arg.v.Null? || arg.v.Arr?)
    ensures arg.Plain? && r.Failure? ==> r.error == InvalidArgument("Invalid constructor argument")
    ensures arg.Plain? && r.Success? ==> r.value.items == (if arg.v.Null? then [] else arg.v.entries)
    ensures arg.Traversable? ==> r.Success? && r.value.items == Materialise(arg.pairs)
    ensures arg.ChainArg? ==>
      var p := Pipeline(old(arg.chain.items), old(arg.chain.Snapshot()), env).1;
      r.Success? == p.Success? && (r.Success? ==> r.value.items == Materialise(p.value))
    ensures arg.ChainArg? ==> arg.chain.Valid() && arg.chain.Settled() && arg.chain.items == old(arg.chain.items)
    ensures arg.ChainArg? && r.Success? ==> arg.chain.operators == []
    ensures arg.ChainArg? && r.Failure? ==> (arg.chain.operators == old(arg.chain.operators)
      && arg.chain.Snapshot() == Pipeline(old(arg.chain.items), old(arg.chain.Snapshot()), env).0)
  {
    match arg {
      case Plain(v) =>
        if v.Null? {
          var c := new Chain([]);
          return Success(c);
        }
        if v.Arr? {
          var c := new Chain(v.entries);
          return Success(c);
        }
        return Failure(InvalidArgument("Invalid constructor argument"));
      case Traversable(pairs) =>
        var collected := Collect(pairs);
        var c := new Chain(collected);
        return Success(c);
      case ChainArg(other) =>
        var a := other.ToArray(env);
        if a.Failure? {
          return Failure(a.error);
        }
        var collected := Collect(a.value);
        var c := new Chain(collected);
        return Success(c);
    }
  }

  /** A query consumes the pending operators but not the items: after a successful
      `size()`, `toArray()` gives back the chain's original items. */
  method SizeThenToArray(c: Chain, env: Env) returns (n: Result<nat>, a: Result<PArray>)
    requires c.Valid() && c.Settled()
    modifies c, c.Steppers()
    ensures n.Success? ==> a == Success(old(c.items))
  {
    n := c.Size(env);
    a := c.ToArray(env);
  }

  /** After a successful fold over the first i operators, the fold over i + 1 is that
      fold and one more round, for operator i, over the array built so far. */
  lemma PipelineStep(items: PArray, ops: seq<OpSpec>, i: nat, env: Env)
    requires i < |ops| && Pipeline(items, ops[..i], env).1.Success?
    ensures var prev := Pipeline(items, ops[..i], env);
      var step := ApplyOne(ops[i], prev.1.value, env);
      Pipeline(items, ops[..i + 1], env) == (prev.0 + [step.0], step.1)
  {
    assert ops[..i + 1][..i] == ops[..i];
  }

  /** One round of the outer loop, on the snapshots before (snap) and after (now) it. */
  lemma PipelineAdvance(items: PArray, ops0: seq<OpSpec>, snap: seq<OpSpec>, now: seq<OpSpec>,
                        i: nat, cur: PArray, next: Result<PArray>, env: Env)
    requires i < |ops0| && |snap| == |ops0| && |now| == |ops0|
    requires Pipeline(items, ops0[..i], env) == (snap[..i], Success(cur))
    requires snap[i..] == ops0[i..]
    requires ApplyOne(snap[i], cur, env) == (now[i], next)
    requires now == snap[i := now[i]]
    ensures Pipeline(items, ops0[..i + 1], env) == (now[..i + 1], next)
    ensures now[i + 1..] == ops0[i + 1..]
    ensures next.Failure? ==> Pipeline(items, ops0, env) == (now, next)
  {
    assert snap[i] == ops0[i] by {
      assert snap[i..][0] == ops0[i..][0];
    }
    PipelineStep(items, ops0, i, env);
    assert now[..i + 1] == snap[..i] + [now[i]];
    assert now[i + 1..] == snap[i + 1..] == ops0[i + 1..] by {
      assert snap[i + 1..] == snap[i..][1..];
      assert ops0[i + 1..] == ops0[i..][1..];
    }
    if next.Failure? {
      PipelineFails(items, ops0, i + 1, env);
      assert now == now[..i + 1] + now[i + 1..];
    }
  }

  lemma PipelineFails(items: PArray, ops: seq<OpSpec>, n: nat, env: Env)
    requires n <= |ops| && Pipeline(items, ops[..n], env).1.Failure?
    ensures Pipeline(items, ops, env) == (Pipeline(items, ops[..n], env).0 + ops[n..], Pipeline(items, ops[..n], env).1)
  {
    ChainOperatorFacts.PipelineStopsAtFailure(items, ops[..n], ops[n..], env);
    assert ops[..n] + ops[n..] == ops;
  }
}
