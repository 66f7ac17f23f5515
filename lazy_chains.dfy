/** The lazy chains of `src/ChainMutable.php` and `src/ChainImmutable.php`: every
    builder adds a memoising stage (a `Generator`) that reads the one below it, and
    nothing runs until a stage is traversed. The stage bodies come from factories of
    a base class that is not part of this model, so they are parameters here. */
module LazyChains {
  import opened PhpValues
  import opened PhpArrays
  import opened Memo

  /** The base class's stage factories (`getMapFunction`, `getFilterFunction`, ...):
      what each stage yields as a function of what the stage below it yields. */
  datatype Stages = Stages(
    mapFn: (Value -> Value) -> StageFn,
    filter: (Option<Value -> Value>, bool) -> StageFn,
    forEach: (Value -> Value) -> StageFn,
    reverse: bool -> StageFn,
    values: StageFn,
    keys: StageFn,
    flip: StageFn,
    slice: (int, int, int, bool) -> StageFn,
    append: Value -> StageFn,
    prepend: Value -> StageFn,
    merge: PArray -> StageFn,
    unique: bool -> StageFn,
    intersect: PArray -> StageFn,
    intersectKeepIndexes: PArray -> StageFn,
    sortValues: (Option<(Value, Value) -> int>, Option<int>, Option<int>) -> StageFn,
    sortKeys: (Option<(Value, Value) -> int>, Option<int>, Option<int>) -> StageFn,
    sortByProperty: (string, int) -> StageFn,
    flatMap: (Value -> Value) -> StageFn,
    frequencyAnalysis: StageFn,
    diff: PArray -> StageFn,
    mix: StageFn,
    setValue: (Value, Value) -> StageFn,
    remove: Value -> StageFn)

  /** `static function (iterable $items) { yield from $items; }` */
  const Identity: StageFn := (ys: seq<Pair>) => ys

  // ---- the arguments of `of(...)` ----

  /** How `of(...$items)` is called: with plain values (arrays included), with a
      single Iterator or IteratorAggregate object, or with a single chain. */
  datatype Args =
    | Values(items: seq<Value>)
    | Traversable(it: Iterable)
    | MutableArg(m: ChainMutable)
    | ImmutableArg(c: ChainImmutable)

  /** The array `of` wraps for plain values: a single array argument is used as it
      is, no argument gives `[]`, and otherwise the argument list itself, keyed 0..n-1. */
  function OfValues(items: seq<Value>): (r: PArray)
    ensures |items| == 1 && items[0].Arr? ==> r == items[0].entries
    ensures !(|items| == 1 && items[0].Arr?) ==> r == Numbered(items)
  {
    if |items| == 1 && items[0].Arr? then items[0].entries
    else if |items| == 0 then []
    else Numbered(items)
  }

  /** Everything an argument's state lives in. */
  ghost function ArgObjs(args: Args): set<object>
    reads if args.MutableArg? then {args.m} else {}
    reads if args.ImmutableArg? then {args.c.generator} else {}
  {
    match args
    case Values(_) => {}
    case Traversable(it) =>
      if it.IteratorIterable? then {it.it}
      else if it.AggregateIterable? && it.getIterator.Success? then {it.getIterator.value}
      else {}
    case MutableArg(m) => {m} + m.Repr
    case ImmutableArg(c) => {c.generator} + c.generator.Repr
  }

  /** The argument is something `of` accepts, in a consistent state. */
  ghost predicate ArgReady(args: Args)
    reads ArgObjs(args)
    reads if args.MutableArg? then {args.m} else {}
    reads if args.ImmutableArg? then {args.c.generator} else {}
  {
    match args
    case Values(_) => true
    case Traversable(it) =>
      (it.IteratorIterable? && PlainIterator(it.it))
      || (it.AggregateIterable? && (it.getIterator.Success? ==> PlainIterator(it.getIterator.value)))
    case MutableArg(m) => m.Valid()
    case ImmutableArg(c) => c.Valid()
  }

  /** An IteratorAggregate whose `getIterator()` throws. */
  predicate ArgFails(args: Args) {
    args.Traversable? && args.it.AggregateIterable? && args.it.getIterator.Failure?
  }

  /** What the chain built from the argument yields. */
  ghost function ArgPairs(args: Args): seq<Pair>
    reads ArgObjs(args)
    reads if args.MutableArg? then {args.m} else {}
    reads if args.ImmutableArg? then {args.c.generator} else {}
    requires ArgReady(args)
  {
    match args
    case Values(items) => OfValues(items)
    case Traversable(it) =>
      if it.IteratorIterable? then it.it.pairs[it.it.pos..]
      else if it.getIterator.Success? then it.getIterator.value.pairs[it.getIterator.value.pos..]
      else []
    case MutableArg(m) => m.Top().Yields()
    case ImmutableArg(c) => c.generator.Yields()
  }

  /** `new static(...)` as `of` does it: the memoising generator the new chain
      wraps. A chain argument contributes its `getIterator()`, which for a mutable
      chain empties its pending stack. */
  method NewGenerator(args: Args) returns (r: Result<Generator>)
    requires ArgReady(args)
    modifies if args.MutableArg? then {args.m} else {}
    ensures r.Success? <==> !ArgFails(args)
    ensures ArgFails(args) ==> r == Failure(AggregateFailure(args.it.className, args.it.getIterator.error))
    ensures r.Success? ==> fresh(r.value) && r.value.Valid() && r.value.cache == []
    ensures r.Success? ==> fresh(r.value.Repr - old(ArgObjs(args))) && r.value.Yields() == old(ArgPairs(args))
    ensures args.MutableArg? ==> args.m.Valid() && args.m.Repr == old(args.m.Repr)
    ensures args.MutableArg? ==> args.m.operatorsChain == [args.m.generator]
    ensures args.MutableArg? && r.Success? ==> r.value.Gens() == {r.value} + old(args.m.Top()).Gens() && args.m !in r.value.Repr
    ensures args.ImmutableArg? && r.Success? ==> r.value.Gens() == {r.value} + args.c.generator.Gens()
  {
    if args.Values? {
      r := Generator.New(ArrayIterable(OfValues(args.items)));
    } else if args.Traversable? {
      r := Generator.New(args.it);
    } else if args.MutableArg? {
      var g := GeneratorOverMutable(args.m);
      r := Success(g);
    } else {
      var top := args.c.GetIterator();
      var g := new Generator.Derived(top, Identity);
      r := Success(g);
    }
  }

  /** The generator `of($m)` wraps for a mutable chain m: its former top stage, read
      through the identity; the stack of m is reset. */
  method GeneratorOverMutable(m: ChainMutable) returns (g: Generator)
    requires m.Valid()
    modifies m
    ensures fresh(g) && g.Valid() && g.cache == [] && fresh(g.Repr - old({m} + m.Repr))
    ensures g.Yields() == old(m.Top().Yields())
    ensures m.Valid() && m.Repr == old(m.Repr) && m.operatorsChain == [m.generator]
    ensures g.Gens() == {g} + old(m.Top()).Gens() && m !in g.Repr
  {
    var top := m.GetIterator();
    g := new Generator.Derived(top, Identity);
  }

  /** `of(...$elements)->toArray()`, by which the operand builders read their
      operand when they are called. */
  method Operand(args: Args) returns (r: Result<PArray>)
    requires ArgReady(args)
    modifies ArgObjs(args)
    ensures r.Success? <==> !ArgFails(args)
    ensures ArgFails(args) ==> r == Failure(AggregateFailure(args.it.className, args.it.getIterator.error))
    ensures r.Success? ==> r.value == Materialise(old(ArgPairs(args)))
    ensures args.MutableArg? ==> args.m.Valid() && args.m.Repr == old(args.m.Repr)
    ensures args.MutableArg? ==> args.m.operatorsChain == [args.m.generator]
    ensures args.MutableArg? ==> old(args.m.Top()).Valid() && old(args.m.Top()).Content() == old(args.m.Top().Content())
    ensures args.MutableArg? ==> args.m.Base() == old(args.m.Base())
    ensures args.ImmutableArg? ==> args.c.Valid()
    ensures args.ImmutableArg? ==> args.c.Content() == old(args.c.Content())
  {
    if args.MutableArg? {
      var a := OperandOfMutable(args.m);
      r := Success(a);
    } else if args.ImmutableArg? {
      var a := OperandOfImmutable(args.c);
      r := Success(a);
    } else {
      var c :- ChainImmutable.Of(args);
      var a := c.ToArray();
      r := Success(a);
    }
  }

  /** `Chain::immutable($m)->toArray()` for a mutable chain m: its pending stages
      run, and its stack is reset. */
  method OperandOfMutable(m: ChainMutable) returns (a: PArray)
    requires m.Valid()
    modifies {m} + m.Repr
    ensures a == Materialise(old(m.Top().Yields()))
    ensures m.Valid() && m.Repr == old(m.Repr) && m.operatorsChain == [m.generator]
    ensures old(m.Top()).Valid() && old(m.Top()).Content() == old(m.Top().Content())
    ensures m.Base() == old(m.Base())
  {
    var c := ImmutableOver(m);
    label Read:
    a := c.ToArray();
    ResetKeepsValid@Read(m);
  }

  /** `Chain::immutable($m)` for a mutable chain m: a new chain over m's top
      stage, with m's stack reset. */
  method ImmutableOver(m: ChainMutable) returns (c: ChainImmutable)
    requires m.Valid()
    modifies m
    ensures fresh(c) && c.Valid() && fresh(c.generator.Repr - m.Repr) && m !in c.generator.Repr
    ensures c.generator.Yields() == old(m.Top().Yields())
    ensures old(m.Top()) in c.generator.Gens() && m.generator in c.generator.Gens()
    ensures m.Valid() && m.Repr == old(m.Repr) && m.operatorsChain == [m.generator] && m.Base() == old(m.Base())
    ensures old(m.Top()).Valid() && old(m.Top()).Content() == old(m.Top().Content())
  {
    m.Top().GensValid();
    var r := ChainImmutable.Of(MutableArg(m));
    c := r.value;
  }

  /** A mutable chain whose stack is just its base stays consistent while its
      base generator does, however the objects below the base changed. */
  twostate lemma ResetKeepsValid(m: ChainMutable)
    requires old(m.Valid()) && unchanged(m) && m.operatorsChain == [m.generator] && m.generator.Valid()
    ensures m.Valid()
  {
  }

  /** `Chain::immutable($c)->toArray()` for an immutable chain c. */
  method OperandOfImmutable(c: ChainImmutable) returns (a: PArray)
    requires c.Valid()
    modifies {c.generator} + c.generator.Repr
    ensures a == Materialise(old(c.generator.Yields()))
    ensures c.Valid() && c.Content() == old(c.Content())
  {
    c.generator.GensValid();
    var r := ChainImmutable.Of(ImmutableArg(c));
    var d := r.value;
    a := d.ToArray();
  }

  // ---- the immutable chain ----

  /** `ChainImmutable`: a chain is one memoising generator and is never changed;
      every builder returns a new chain whose generator reads this one's. */
  class ChainImmutable {
    const generator: Generator

    /** The private constructor, given the generator `new Generator($iterable)` made. */
    constructor (g: Generator)
      requires g.Valid()
      ensures generator == g
    {
      generator := g;
    }

    ghost predicate Valid()
      reads generator, generator.Repr
    {
      generator.Valid()
    }

    /** What `toArray()` returns. */
    ghost function Content(): PArray
      reads generator, generator.Repr
      requires Valid()
    {
      generator.Content()
    }

    /** This chain reads `base` through `stage`, and nothing has run yet. */
    ghost predicate Over(base: ChainImmutable, stage: StageFn)
      reads generator, generator.Repr, base.generator, base.generator.Repr
    {
      Valid() && base.Valid() && generator.iter.upstream == base.generator
      && generator.iter.stage == stage && !generator.iter.started && generator.cache == []
      && generator.Yields() == stage(base.generator.Yields())
    }

    /** `new self($this->applyFn($fn))`. */
    method Derive(stage: StageFn) returns (r: ChainImmutable)
      requires Valid()
      ensures fresh(r) && fresh(r.generator.Repr - generator.Repr) && r.Over(this, stage)
      ensures r.generator.Gens() == {r.generator} + generator.Gens()
    {
      var g := new Generator.Derived(generator, stage);
      r := new ChainImmutable(g);
    }

    /** The `foreach ($this->generator ...)` loop of `toArray`: it can be repeated,
        and it changes the content of no chain this one reads. */
    method ToArray() returns (items: PArray)
      requires Valid()
      modifies generator.Repr
      ensures Valid()
      ensures items == old(Content()) && Content() == old(Content())
      ensures forall g :: g in generator.Gens() && old(allocated(g)) && old(g.Valid()) ==> g.Valid() && g.Content() == old(g.Content())
    {
      ghost var ys := generator.Yields();
      var out := generator.Traverse(TakeN(0));
      TakenTakeN(0, ys);
      items := Collect(out);
    }

    /** `foreach ($this as $item) if ($item === $value) return true;` */
    method HasValue(value: Value) returns (found: bool)
      requires Valid()
      modifies generator.Repr
      ensures Valid() && Content() == old(Content())
      ensures found <==> InArray(value, old(generator.Yields()))
    {
      ghost var ys := generator.Yields();
      var out := generator.Traverse(UntilValue(value));
      TakenUntil(value, ys);
      found := |out| > 0 && out[|out| - 1].1 == value;
    }

    /** The memoising traversal itself; nothing is reset. */
    method GetIterator() returns (g: Generator)
      requires Valid()
      ensures g == generator
    {
      g := generator;
    }

    /** A new chain over the identity stage: the same pairs. */
    method ToChain() returns (r: ChainImmutable)
      requires Valid()
      ensures fresh(r) && fresh(r.generator.Repr - generator.Repr) && r.Over(this, Identity)
      ensures r.generator.Yields() == generator.Yields()
    {
      r := Derive(Identity);
    }

    /** `of(...$items)`. */
    static method Of(args: Args) returns (r: Result<ChainImmutable>)
      requires ArgReady(args)
      modifies if args.MutableArg? then {args.m} else {}
      ensures r.Success? <==> !ArgFails(args)
      ensures ArgFails(args) ==> r == Failure(AggregateFailure(args.it.className, args.it.getIterator.error))
      ensures r.Success? ==> fresh(r.value) && fresh(r.value.generator) && r.value.Valid() && r.value.generator.cache == []
      ensures r.Success? ==> fresh(r.value.generator.Repr - old(ArgObjs(args)))
      ensures r.Success? ==> r.value.generator.Yields() == old(ArgPairs(args))
      ensures args.MutableArg? ==> args.m.Valid() && args.m.Repr == old(args.m.Repr)
      ensures args.MutableArg? ==> args.m.operatorsChain == [args.m.generator]
      ensures args.MutableArg? && r.Success? ==> r.value.generator.Gens() == {r.value.generator} + old(args.m.Top()).Gens()
      ensures args.MutableArg? && r.Success? ==> args.m !in r.value.generator.Repr
      ensures args.ImmutableArg? && r.Success? ==> r.value.generator.Gens() == {r.value.generator} + args.c.generator.Gens()
    {
      var g :- NewGenerator(args);
      var c := new ChainImmutable(g);
      r := Success(c);
    }

    // ---- builders: each returns a new chain and changes nothing ----

    method Map(st: Stages, fn: Value -> Value) returns (r: ChainImmutable)
      requires Valid()
      ensures fresh(r) && fresh(r.generator.Repr - generator.Repr) && r.Over(this, st.mapFn(fn))
    {
      r := Derive(st.mapFn(fn));
    }

    method Reverse(st: Stages, saveIndex: bool) returns (r: ChainImmutable)
      requires Valid()
      ensures fresh(r) && fresh(r.generator.Repr - generator.Repr) && r.Over(this, st.reverse(saveIndex))
    {
      r := Derive(st.reverse(saveIndex));
    }

    method Unique(st: Stages, saveIndex: bool) returns (r: ChainImmutable)
      requires Valid()
      ensures fresh(r) && fresh(r.generator.Repr - generator.Repr) && r.Over(this, st.unique(saveIndex))
    {
      r := Derive(st.unique(saveIndex));
    }

    method Prepend(st: Stages, value: Value) returns (r: ChainImmutable)
      requires Valid()
      ensures fresh(r) && fresh(r.generator.Repr - generator.Repr) && r.Over(this, st.prepend(value))
    {
      r := Derive(st.prepend(value));
    }

    method Flip(st: Stages) returns (r: ChainImmutable)
      requires Valid()
      ensures fresh(r) && fresh(r.generator.Repr - generator.Repr) && r.Over(this, st.flip)
    {
      r := Derive(st.flip);
    }

    method Keys(st: Stages) returns (r: ChainImmutable)
      requires Valid()
      ensures fresh(r) && fresh(r.generator.Repr - generator.Repr) && r.Over(this, st.keys)
    {
      r := Derive(st.keys);
    }

    method Append(st: Stages, value: Value) returns (r: ChainImmutable)
      requires Valid()
      ensures fresh(r) && fresh(r.generator.Repr - generator.Repr) && r.Over(this, st.append(value))
    {
      r := Derive(st.append(value));
    }

    method SortKeys(st: Stages, sortFn: Option<(Value, Value) -> int>, direction: Option<int>, sortFlags: Option<int>) returns (r: ChainImmutable)
      requires Valid()
      ensures fresh(r) && fresh(r.generator.Repr - generator.Repr) && r.Over(this, st.sortKeys(sortFn, direction, sortFlags))
    {
      r := Derive(st.sortKeys(sortFn, direction, sortFlags));
    }

    method Slice(st: Stages, startIncluded: int, stopExcluded: int, step: int, saveIndex: bool) returns (r: ChainImmutable)
      requires Valid()
      ensures fresh(r) && fresh(r.generator.Repr - generator.Repr) && r.Over(this, st.slice(startIncluded, stopExcluded, step, saveIndex))
    {
      r := Derive(st.slice(startIncluded, stopExcluded, step, saveIndex));
    }

    method SortValues(st: Stages, sortFn: Option<(Value, Value) -> int>, direction: Option<int>, sortFlags: Option<int>) returns (r: ChainImmutable)
      requires Valid()
      ensures fresh(r) && fresh(r.generator.Repr - generator.Repr) && r.Over(this, st.sortValues(sortFn, direction, sortFlags))
    {
      r := Derive(st.sortValues(sortFn, direction, sortFlags));
    }

    method Filter(st: Stages, fn: Option<Value -> Value>, saveIndex: bool) returns (r: ChainImmutable)
      requires Valid()
      ensures fresh(r) && fresh(r.generator.Repr - generator.Repr) && r.Over(this, st.filter(fn, saveIndex))
    {
      r := Derive(st.filter(fn, saveIndex));
    }

    method ForEach(st: Stages, fn: Value -> Value) returns (r: ChainImmutable)
      requires Valid()
      ensures fresh(r) && fresh(r.generator.Repr - generator.Repr) && r.Over(this, st.forEach(fn))
    {
      r := Derive(st.forEach(fn));
    }

    method Values(st: Stages) returns (r: ChainImmutable)
      requires Valid()
      ensures fresh(r) && fresh(r.generator.Repr - generator.Repr) && r.Over(this, st.values)
    {
      r := Derive(st.values);
    }

    method SortByProperty(st: Stages, propertyName: string, direction: int) returns (r: ChainImmutable)
      requires Valid()
      ensures fresh(r) && fresh(r.generator.Repr - generator.Repr) && r.Over(this, st.sortByProperty(propertyName, direction))
    {
      r := Derive(st.sortByProperty(propertyName, direction));
    }

    method FlatMap(st: Stages, fn: Value -> Value) returns (r: ChainImmutable)
      requires Valid()
      ensures fresh(r) && fresh(r.generator.Repr - generator.Repr) && r.Over(this, st.flatMap(fn))
    {
      r := Derive(st.flatMap(fn));
    }

    method FrequencyAnalysis(st: Stages) returns (r: ChainImmutable)
      requires Valid()
      ensures fresh(r) && fresh(r.generator.Repr - generator.Repr) && r.Over(this, st.frequencyAnalysis)
    {
      r := Derive(st.frequencyAnalysis);
    }

    method Mix(st: Stages) returns (r: ChainImmutable)
      requires Valid()
      ensures fresh(r) && fresh(r.generator.Repr - generator.Repr) && r.Over(this, st.mix)
    {
      r := Derive(st.mix);
    }

    method SetValue(st: Stages, key: Value, value: Value) returns (r: ChainImmutable)
      requires Valid()
      ensures fresh(r) && fresh(r.generator.Repr - generator.Repr) && r.Over(this, st.setValue(key, value))
    {
      r := Derive(st.setValue(key, value));
    }

    method Remove(st: Stages, key: Value) returns (r: ChainImmutable)
      requires Valid()
      ensures fresh(r) && fresh(r.generator.Repr - generator.Repr) && r.Over(this, st.remove(key))
    {
      r := Derive(st.remove(key));
    }

    // The operand builders read their operand through `of(...)->toArray()` when they
    // are called; reading it may advance this chain's own generator when it is the
    // operand, but never changes its content.

    method ReadOperand(elements: Args) returns (r: Result<PArray>)
      requires Valid() && ArgReady(elements)
      requires elements.MutableArg? ==> elements.m.Repr !! generator.Repr
      requires elements.ImmutableArg? ==> elements.c == this || elements.c.generator.Repr !! generator.Repr
      requires elements.Traversable? ==> ArgObjs(elements) !! generator.Repr
      modifies ArgObjs(elements)
      ensures Valid() && Content() == old(Content())
      ensures r.Success? <==> !ArgFails(elements)
      ensures ArgFails(elements) ==> r == Failure(AggregateFailure(elements.it.className, elements.it.getIterator.error))
      ensures r.Success? ==> r.value == Materialise(old(ArgPairs(elements)))
    {
      r := Operand(elements);
    }

    method Merge(st: Stages, elements: Args) returns (r: Result<ChainImmutable>)
      requires Valid() && ArgReady(elements)
      requires elements.MutableArg? ==> elements.m.Repr !! generator.Repr
      requires elements.ImmutableArg? ==> elements.c == this || elements.c.generator.Repr !! generator.Repr
      requires elements.Traversable? ==> ArgObjs(elements) !! generator.Repr
      modifies ArgObjs(elements)
      ensures Valid() && Content() == old(Content())
      ensures r.Success? <==> !ArgFails(elements)
      ensures ArgFails(elements) ==> r == Failure(AggregateFailure(elements.it.className, elements.it.getIterator.error))
      ensures r.Success? ==> fresh(r.value) && fresh(r.value.generator.Repr - generator.Repr)
      ensures r.Success? ==> r.value.Over(this, st.merge(Materialise(old(ArgPairs(elements)))))
    {
      var operand :- ReadOperand(elements);
      var c := Derive(st.merge(operand));
      r := Success(c);
    }

    method Intersect(st: Stages, elements: Args) returns (r: Result<ChainImmutable>)
      requires Valid() && ArgReady(elements)
      requires elements.MutableArg? ==> elements.m.Repr !! generator.Repr
      requires elements.ImmutableArg? ==> elements.c == this || elements.c.generator.Repr !! generator.Repr
      requires elements.Traversable? ==> ArgObjs(elements) !! generator.Repr
      modifies ArgObjs(elements)
      ensures Valid() && Content() == old(Content())
      ensures r.Success? <==> !ArgFails(elements)
      ensures ArgFails(elements) ==> r == Failure(AggregateFailure(elements.it.className, elements.it.getIterator.error))
      ensures r.Success? ==> fresh(r.value) && fresh(r.value.generator.Repr - generator.Repr)
      ensures r.Success? ==> r.value.Over(this, st.intersect(Materialise(old(ArgPairs(elements)))))
    {
      var operand :- ReadOperand(elements);
      var c := Derive(st.intersect(operand));
      r := Success(c);
    }

    method IntersectKeepIndexes(st: Stages, elements: Args) returns (r: Result<ChainImmutable>)
      requires Valid() && ArgReady(elements)
      requires elements.MutableArg? ==> elements.m.Repr !! generator.Repr
      requires elements.ImmutableArg? ==> elements.c == this || elements.c.generator.Repr !! generator.Repr
      requires elements.Traversable? ==> ArgObjs(elements) !! generator.Repr
      modifies ArgObjs(elements)
      ensures Valid() && Content() == old(Content())
      ensures r.Success? <==> !ArgFails(elements)
      ensures ArgFails(elements) ==> r == Failure(AggregateFailure(elements.it.className, elements.it.getIterator.error))
      ensures r.Success? ==> fresh(r.value) && fresh(r.value.generator.Repr - generator.Repr)
      ensures r.Success? ==> r.value.Over(this, st.intersectKeepIndexes(Materialise(old(ArgPairs(elements)))))
    {
      var operand :- ReadOperand(elements);
      var c := Derive(st.intersectKeepIndexes(operand));
      r := Success(c);
    }

    method Diff(st: Stages, elements: Args) returns (r: Result<ChainImmutable>)
      requires Valid() && ArgReady(elements)
      requires elements.MutableArg? ==> elements.m.Repr !! generator.Repr
      requires elements.ImmutableArg? ==> elements.c == this || elements.c.generator.Repr !! generator.Repr
      requires elements.Traversable? ==> ArgObjs(elements) !! generator.Repr
      modifies ArgObjs(elements)
      ensures Valid() && Content() == old(Content())
      ensures r.Success? <==> !ArgFails(elements)
      ensures ArgFails(elements) ==> r == Failure(AggregateFailure(elements.it.className, elements.it.getIterator.error))
      ensures r.Success? ==> fresh(r.value) && fresh(r.value.generator.Repr - generator.Repr)
      ensures r.Success? ==> r.value.Over(this, st.diff(Materialise(old(ArgPairs(elements)))))
    {
      var operand :- ReadOperand(elements);
      var c := Derive(st.diff(operand));
      r := Success(c);
    }
  }

  // ---- the mutable chain ----

  /** `ChainMutable`: a base generator and the stack `operatorsChain` of stages over
      it. Every builder returns the chain itself with one more stage on top; reading
      the chain through `getIterator` (and so `toArray` and `hasValue`) resets the
      stack to the base. */
  class ChainMutable {
    const generator: Generator
    var operatorsChain: seq<Generator>
    ghost var Repr: set<object>

    /** The private constructor, given the generator `new Generator($items)` made. */
    constructor (g: Generator)
      requires g.Valid()
      ensures Valid() && generator == g && operatorsChain == [g] && Repr == {this} + g.Repr
    {
      generator := g;
      operatorsChain := [g];
      Repr := {this} + g.Repr;
    }

    /** `end($this->operatorsChain)`. */
    function Top(): Generator
      reads this
      requires |operatorsChain| > 0
    {
      operatorsChain[|operatorsChain| - 1]
    }

    ghost predicate Valid()
      reads this, Repr
    {
      this in Repr && |operatorsChain| > 0 && operatorsChain[0] == generator
      && Top() in Repr && Top().Repr <= Repr && this !in Top().Repr && Top().Valid()
      && generator in Top().Gens()
      && generator in Repr && generator.Repr <= Repr && this !in generator.Repr && generator.Valid()
    }

    /** What the base generator holds: where every pipeline starts. */
    ghost function Base(): PArray
      reads this, Repr
      requires Valid()
    {
      generator.Content()
    }

    /** One stage over `up` through `stage` was pushed onto `prev`, and nothing has run yet. */
    ghost predicate Pushed(prev: seq<Generator>, up: Generator, stage: StageFn)
      reads this, Repr
    {
      Valid() && |operatorsChain| > 0 && operatorsChain == prev + [Top()]
      && Top().iter.upstream == up && Top().iter.stage == stage
      && !Top().iter.started && Top().cache == []
      && Top().Yields() == stage(up.Yields())
    }

    /** `$this->operatorsChain[] = new Generator($this->applyFn($up, $fn))`. */
    method PushOver(up: Generator, stage: StageFn)
      requires Valid() && up in Repr && up.Repr <= Repr && this !in up.Repr && up.Valid()
      requires generator in up.Gens()
      modifies this
      ensures Pushed(old(operatorsChain), up, stage) && fresh(Top())
      ensures fresh(Repr - old(Repr)) && Base() == old(Base())
      ensures up.Yields() == old(up.Yields())
    {
      var g := new Generator.Derived(up, stage);
      operatorsChain := operatorsChain + [g];
      Repr := Repr + g.Repr;
      ContentFramed(up);
      ContentFramed(generator);
    }

    /** `getIterator()`: the top stage, with the stack reset to the base first. */
    method GetIterator() returns (g: Generator)
      requires Valid()
      modifies this
      ensures Valid() && Repr == old(Repr) && operatorsChain == [generator] && Base() == old(Base())
      ensures g == old(Top()) && g.Valid() && g.Repr <= Repr && this !in g.Repr && generator in g.Gens()
      ensures g.Yields() == old(g.Yields())
    {
      g := Top();
      g.GensValid();
      ResetStack();
    }

    /** `foreach ($this as $k => $v)`: `getIterator()` resets the stack, then the former
        top stage is traversed for as long as the consumer takes pairs. */
    method TraverseTop(c: Consumer) returns (out: seq<Pair>, top: Generator)
      requires Valid()
      modifies Repr
      ensures Valid() && Repr == old(Repr) && operatorsChain == [generator] && Base() == old(Base())
      ensures top == old(Top()) && top.Valid() && top.Content() == old(top.Content())
      ensures out == Taken(c, old(Top().Yields()))
    {
      top := GetIterator();
      top.GensValid();
      label Reset:
      out := top.Traverse(c);
      ResetKeepsValid@Reset(this);
    }

    /** `$this->operatorsChain = [$this->generator]`: the pending stages are dropped. */
    method ResetStack()
      requires Valid()
      modifies this
      ensures Valid() && Repr == old(Repr) && operatorsChain == [generator] && Base() == old(Base())
    {
      operatorsChain := [generator];
    }

    /** `toArray()`: the top stage materialised by a full traversal; the next
        pipeline starts again from the base. */
    method ToArray() returns (items: PArray)
      requires Valid()
      modifies Repr
      ensures Valid() && Repr == old(Repr) && operatorsChain == [generator]
      ensures items == old(Top().Content())
      ensures Base() == old(Base())
      ensures old(Top()).Valid() && old(Top()).Content() == old(Top().Content())
    {
      ghost var ys := Top().Yields();
      var out, top := TraverseTop(TakeN(0));
      TakenTakeN(0, ys);
      items := Collect(out);
      label Collected:
      ResetStack();
      ContentFramed@Collected(top);
    }

    /** `foreach ($this as $k => $v) if ($v === $value) return true;`: the traversal
        goes through `getIterator`, so it also resets the stack. */
    method HasValue(value: Value) returns (found: bool)
      requires Valid()
      modifies Repr
      ensures Valid() && Repr == old(Repr) && operatorsChain == [generator] && Base() == old(Base())
      ensures found <==> InArray(value, old(Top().Yields()))
    {
      ghost var ys := Top().Yields();
      var out, top := TraverseTop(UntilValue(value));
      TakenUntil(value, ys);
      found := |out| > 0 && out[|out| - 1].1 == value;
    }

    /** `self::of($this->toArray())`: a different chain over the materialised array. */
    method ToChain() returns (r: ChainMutable)
      requires Valid()
      modifies Repr
      ensures Valid() && Repr == old(Repr) && operatorsChain == [generator] && Base() == old(Base())
      ensures fresh(r) && r.Valid() && fresh(r.Repr) && r.operatorsChain == [r.generator]
      ensures r.Base() == old(Top().Content()) && r.generator.Yields() == old(Top().Content())
    {
      ghost var ys := Top().Yields();
      var items := ToArray();
      SetAllKeepsUnique([], ys);
      MaterialiseUnique(items);
      var c := Of(Args.Values([Arr(items)]));
      r := c.Extract();
    }

    /** `of(...$items)`. */
    static method Of(args: Args) returns (r: Result<ChainMutable>)
      requires ArgReady(args)
      modifies if args.MutableArg? then {args.m} else {}
      ensures r.Success? <==> !ArgFails(args)
      ensures ArgFails(args) ==> r == Failure(AggregateFailure(args.it.className, args.it.getIterator.error))
      ensures r.Success? ==> fresh(r.value) && r.value.Valid() && r.value.operatorsChain == [r.value.generator]
      ensures r.Success? ==> fresh(r.value.Repr - old(ArgObjs(args))) && r.value.generator.cache == []
      ensures r.Success? ==> r.value.generator.Yields() == old(ArgPairs(args))
      ensures args.MutableArg? ==> args.m.Valid() && args.m.Repr == old(args.m.Repr)
      ensures args.MutableArg? ==> args.m.operatorsChain == [args.m.generator]
    {
      var g :- NewGenerator(args);
      var c := new ChainMutable(g);
      r := Success(c);
    }

    // ---- builders: each pushes one stage and returns the chain itself ----

    method Map(st: Stages, fn: Value -> Value) returns (self: ChainMutable)
      requires Valid()
      modifies this
      ensures self == this && Pushed(old(operatorsChain), old(Top()), st.mapFn(fn)) && fresh(Top())
      ensures Top().Yields() == st.mapFn(fn)(old(Top().Yields())) && Base() == old(Base())
    {
      PushOver(Top(), st.mapFn(fn));
      self := this;
    }

    method Reverse(st: Stages, saveIndex: bool) returns (self: ChainMutable)
      requires Valid()
      modifies this
      ensures self == this && Pushed(old(operatorsChain), old(Top()), st.reverse(saveIndex)) && fresh(Top())
      ensures Top().Yields() == st.reverse(saveIndex)(old(Top().Yields())) && Base() == old(Base())
    {
      PushOver(Top(), st.reverse(saveIndex));
      self := this;
    }

    method Values(st: Stages) returns (self: ChainMutable)
      requires Valid()
      modifies this
      ensures self == this && Pushed(old(operatorsChain), old(Top()), st.values) && fresh(Top())
      ensures Top().Yields() == st.values(old(Top().Yields())) && Base() == old(Base())
    {
      PushOver(Top(), st.values);
      self := this;
    }

    method Filter(st: Stages, fn: Option<Value -> Value>, saveIndex: bool) returns (self: ChainMutable)
      requires Valid()
      modifies this
      ensures self == this && Pushed(old(operatorsChain), old(Top()), st.filter(fn, saveIndex)) && fresh(Top())
      ensures Top().Yields() == st.filter(fn, saveIndex)(old(Top().Yields())) && Base() == old(Base())
    {
      PushOver(Top(), st.filter(fn, saveIndex));
      self := this;
    }

    method Slice(st: Stages, startIncluded: int, stopExcluded: int, step: int, saveIndex: bool) returns (self: ChainMutable)
      requires Valid()
      modifies this
      ensures self == this && Pushed(old(operatorsChain), old(Top()), st.slice(startIncluded, stopExcluded, step, saveIndex)) && fresh(Top())
      ensures Top().Yields() == st.slice(startIncluded, stopExcluded, step, saveIndex)(old(Top().Yields())) && Base() == old(Base())
    {
      PushOver(Top(), st.slice(startIncluded, stopExcluded, step, saveIndex));
      self := this;
    }

    method Append(st: Stages, value: Value) returns (self: ChainMutable)
      requires Valid()
      modifies this
      ensures self == this && Pushed(old(operatorsChain), old(Top()), st.append(value)) && fresh(Top())
      ensures Top().Yields() == st.append(value)(old(Top().Yields())) && Base() == old(Base())
    {
      PushOver(Top(), st.append(value));
      self := this;
    }

    method Keys(st: Stages) returns (self: ChainMutable)
      requires Valid()
      modifies this
      ensures self == this && Pushed(old(operatorsChain), old(Top()), st.keys) && fresh(Top())
      ensures Top().Yields() == st.keys(old(Top().Yields())) && Base() == old(Base())
    {
      PushOver(Top(), st.keys);
      self := this;
    }

    method Flip(st: Stages) returns (self: ChainMutable)
      requires Valid()
      modifies this
      ensures self == this && Pushed(old(operatorsChain), old(Top()), st.flip) && fresh(Top())
      ensures Top().Yields() == st.flip(old(Top().Yields())) && Base() == old(Base())
    {
      PushOver(Top(), st.flip);
      self := this;
    }

    method Prepend(st: Stages, value: Value) returns (self: ChainMutable)
      requires Valid()
      modifies this
      ensures self == this && Pushed(old(operatorsChain), old(Top()), st.prepend(value)) && fresh(Top())
      ensures Top().Yields() == st.prepend(value)(old(Top().Yields())) && Base() == old(Base())
    {
      PushOver(Top(), st.prepend(value));
      self := this;
    }

    method Unique(st: Stages, saveIndex: bool) returns (self: ChainMutable)
      requires Valid()
      modifies this
      ensures self == this && Pushed(old(operatorsChain), old(Top()), st.unique(saveIndex)) && fresh(Top())
      ensures Top().Yields() == st.unique(saveIndex)(old(Top().Yields())) && Base() == old(Base())
    {
      PushOver(Top(), st.unique(saveIndex));
      self := this;
    }

    method SortValues(st: Stages, sortFn: Option<(Value, Value) -> int>, direction: Option<int>, sortFlags: Option<int>) returns (self: ChainMutable)
      requires Valid()
      modifies this
      ensures self == this && Pushed(old(operatorsChain), old(Top()), st.sortValues(sortFn, direction, sortFlags)) && fresh(Top())
      ensures Top().Yields() == st.sortValues(sortFn, direction, sortFlags)(old(Top().Yields())) && Base() == old(Base())
    {
      PushOver(Top(), st.sortValues(sortFn, direction, sortFlags));
      self := this;
    }

    method SortKeys(st: Stages, sortFn: Option<(Value, Value) -> int>, direction: Option<int>, sortFlags: Option<int>) returns (self: ChainMutable)
      requires Valid()
      modifies this
      ensures self == this && Pushed(old(operatorsChain), old(Top()), st.sortKeys(sortFn, direction, sortFlags)) && fresh(Top())
      ensures Top().Yields() == st.sortKeys(sortFn, direction, sortFlags)(old(Top().Yields())) && Base() == old(Base())
    {
      PushOver(Top(), st.sortKeys(sortFn, direction, sortFlags));
      self := this;
    }

    method SortByProperty(st: Stages, propertyName: string, direction: int) returns (self: ChainMutable)
      requires Valid()
      modifies this
      ensures self == this && Pushed(old(operatorsChain), old(Top()), st.sortByProperty(propertyName, direction)) && fresh(Top())
      ensures Top().Yields() == st.sortByProperty(propertyName, direction)(old(Top().Yields())) && Base() == old(Base())
    {
      PushOver(Top(), st.sortByProperty(propertyName, direction));
      self := this;
    }

    method FlatMap(st: Stages, fn: Value -> Value) returns (self: ChainMutable)
      requires Valid()
      modifies this
      ensures self == this && Pushed(old(operatorsChain), old(Top()), st.flatMap(fn)) && fresh(Top())
      ensures Top().Yields() == st.flatMap(fn)(old(Top().Yields())) && Base() == old(Base())
    {
      PushOver(Top(), st.flatMap(fn));
      self := this;
    }

    method FrequencyAnalysis(st: Stages) returns (self: ChainMutable)
      requires Valid()
      modifies this
      ensures self == this && Pushed(old(operatorsChain), old(Top()), st.frequencyAnalysis) && fresh(Top())
      ensures Top().Yields() == st.frequencyAnalysis(old(Top().Yields())) && Base() == old(Base())
    {
      PushOver(Top(), st.frequencyAnalysis);
      self := this;
    }

    method Mix(st: Stages) returns (self: ChainMutable)
      requires Valid()
      modifies this
      ensures self == this && Pushed(old(operatorsChain), old(Top()), st.mix) && fresh(Top())
      ensures Top().Yields() == st.mix(old(Top().Yields())) && Base() == old(Base())
    {
      PushOver(Top(), st.mix);
      self := this;
    }

    method SetValue(st: Stages, key: Value, value: Value) returns (self: ChainMutable)
      requires Valid()
      modifies this
      ensures self == this && Pushed(old(operatorsChain), old(Top()), st.setValue(key, value)) && fresh(Top())
      ensures Top().Yields() == st.setValue(key, value)(old(Top().Yields())) && Base() == old(Base())
    {
      PushOver(Top(), st.setValue(key, value));
      self := this;
    }

    method Remove(st: Stages, key: Value) returns (self: ChainMutable)
      requires Valid()
      modifies this
      ensures self == this && Pushed(old(operatorsChain), old(Top()), st.remove(key)) && fresh(Top())
      ensures Top().Yields() == st.remove(key)(old(Top().Yields())) && Base() == old(Base())
    {
      PushOver(Top(), st.remove(key));
      self := this;
    }

    // The operand builders read the top stage first, then their operand through
    // `immutable(...)->toArray()` (or `of(...)->toArray()`), then push. When the
    // operand is this chain, reading it resets the stack before the push.

    method ReadOperand(elements: Args) returns (r: Result<PArray>, top: Generator)
      requires Valid() && ArgReady(elements)
      requires elements.MutableArg? ==> elements.m == this || elements.m.Repr !! Repr
      requires elements.ImmutableArg? ==> elements.c.generator.Repr !! Repr
      requires elements.Traversable? ==> ArgObjs(elements) !! Repr
      modifies Repr, ArgObjs(elements)
      ensures r.Success? <==> !ArgFails(elements)
      ensures ArgFails(elements) ==> r == Failure(AggregateFailure(elements.it.className, elements.it.getIterator.error))
      ensures Valid() && Base() == old(Base()) && Repr == old(Repr)
      ensures top == old(Top()) && top.Valid() && top.Content() == old(top.Content())
      ensures r.Success? ==> r.value == Materialise(old(ArgPairs(elements)))
      ensures top in Repr && top.Repr <= Repr && this !in top.Repr && generator in top.Gens()
      ensures operatorsChain == if elements.MutableArg? && elements.m == this then [generator] else old(operatorsChain)
    {
      top := Top();
      top.GensValid();
      r := Operand(elements);
    }

    method Merge(st: Stages, elements: Args) returns (r: Result<ChainMutable>)
      requires Valid() && ArgReady(elements)
      requires elements.MutableArg? ==> elements.m == this || elements.m.Repr !! Repr
      requires elements.ImmutableArg? ==> elements.c.generator.Repr !! Repr
      requires elements.Traversable? ==> ArgObjs(elements) !! Repr
      modifies Repr, ArgObjs(elements)
      ensures r.Success? <==> !ArgFails(elements)
      ensures ArgFails(elements) ==> r == Failure(AggregateFailure(elements.it.className, elements.it.getIterator.error))
      ensures Valid() && Base() == old(Base())
      ensures r.Success? ==> r.value == this && fresh(Top())
      ensures r.Success? && elements.MutableArg? && elements.m == this ==> Pushed([generator], old(Top()), st.merge(Materialise(old(ArgPairs(elements)))))
      ensures r.Success? && !(elements.MutableArg? && elements.m == this) ==> Pushed(old(operatorsChain), old(Top()), st.merge(Materialise(old(ArgPairs(elements)))))
      ensures r.Success? ==> old(Top()).Content() == old(Top().Content())
    {
      var operand, top :- ReadOperand(elements);
      PushOver(top, st.merge(operand));
      r := Success(this);
    }

    method Intersect(st: Stages, elements: Args) returns (r: Result<ChainMutable>)
      requires Valid() && ArgReady(elements)
      requires elements.MutableArg? ==> elements.m == this || elements.m.Repr !! Repr
      requires elements.ImmutableArg? ==> elements.c.generator.Repr !! Repr
      requires elements.Traversable? ==> ArgObjs(elements) !! Repr
      modifies Repr, ArgObjs(elements)
      ensures r.Success? <==> !ArgFails(elements)
      ensures ArgFails(elements) ==> r == Failure(AggregateFailure(elements.it.className, elements.it.getIterator.error))
      ensures Valid() && Base() == old(Base())
      ensures r.Success? ==> r.value == this && fresh(Top())
      ensures r.Success? && elements.MutableArg? && elements.m == this ==> Pushed([generator], old(Top()), st.intersect(Materialise(old(ArgPairs(elements)))))
      ensures r.Success? && !(elements.MutableArg? && elements.m == this) ==> Pushed(old(operatorsChain), old(Top()), st.intersect(Materialise(old(ArgPairs(elements)))))
      ensures r.Success? ==> old(Top()).Content() == old(Top().Content())
    {
      var operand, top :- ReadOperand(elements);
      PushOver(top, st.intersect(operand));
      r := Success(this);
    }

    method IntersectKeepIndexes(st: Stages, elements: Args) returns (r: Result<ChainMutable>)
      requires Valid() && ArgReady(elements)
      requires elements.MutableArg? ==> elements.m == this || elements.m.Repr !! Repr
      requires elements.ImmutableArg? ==> elements.c.generator.Repr !! Repr
      requires elements.Traversable? ==> ArgObjs(elements) !! Repr
      modifies Repr, ArgObjs(elements)
      ensures r.Success? <==> !ArgFails(elements)
      ensures ArgFails(elements) ==> r == Failure(AggregateFailure(elements.it.className, elements.it.getIterator.error))
      ensures Valid() && Base() == old(Base())
      ensures r.Success? ==> r.value == this && fresh(Top())
      ensures r.Success? && elements.MutableArg? && elements.m == this ==> Pushed([generator], old(Top()), st.intersectKeepIndexes(Materialise(old(ArgPairs(elements)))))
      ensures r.Success? && !(elements.MutableArg? && elements.m == this) ==> Pushed(old(operatorsChain), old(Top()), st.intersectKeepIndexes(Materialise(old(ArgPairs(elements)))))
      ensures r.Success? ==> old(Top()).Content() == old(Top().Content())
    {
      var operand, top :- ReadOperand(elements);
      PushOver(top, st.intersectKeepIndexes(operand));
      r := Success(this);
    }

    method Diff(st: Stages, elements: Args) returns (r: Result<ChainMutable>)
      requires Valid() && ArgReady(elements)
      requires elements.MutableArg? ==> elements.m == this || elements.m.Repr !! Repr
      requires elements.ImmutableArg? ==> elements.c.generator.Repr !! Repr
      requires elements.Traversable? ==> ArgObjs(elements) !! Repr
      modifies Repr, ArgObjs(elements)
      ensures r.Success? <==> !ArgFails(elements)
      ensures ArgFails(elements) ==> r == Failure(AggregateFailure(elements.it.className, elements.it.getIterator.error))
      ensures Valid() && Base() == old(Base())
      ensures r.Success? ==> r.value == this && fresh(Top())
      ensures r.Success? && elements.MutableArg? && elements.m == this ==> Pushed([generator], old(Top()), st.diff(Materialise(old(ArgPairs(elements)))))
      ensures r.Success? && !(elements.MutableArg? && elements.m == this) ==> Pushed(old(operatorsChain), old(Top()), st.diff(Materialise(old(ArgPairs(elements)))))
      ensures r.Success? ==> old(Top()).Content() == old(Top().Content())
    {
      var operand, top :- ReadOperand(elements);
      PushOver(top, st.diff(operand));
      r := Success(this);
    }
  }
}
