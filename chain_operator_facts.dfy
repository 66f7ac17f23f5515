/** What the eager chain's operators promise, proved about their pure semantics. */
module ChainOperatorFacts {
  import opened PhpValues
  import opened PhpArrays
  import opened ChainOperators

  predicate NoNullValues(items: PArray) {
    Null !in Vals(items)
  }

  // ---- sequence helpers: generic facts about `seq` the proofs below use ----

  lemma ValsInit(items: PArray)
    requires items != []
    ensures Vals(items) == Vals(items[..|items| - 1]) + [items[|items| - 1].1]
  {
  }

  lemma SnocInit<T>(a: seq<T>)
    requires a != []
    ensures a[..|a| - 1] + [a[|a| - 1]] == a
  {
  }

  lemma AppendSnocAssoc<T>(a: seq<T>, b: seq<T>, x: T)
    ensures a + (b + [x]) == (a + b) + [x]
  {
  }

  lemma AppendNothing<T>(a: seq<T>, b: seq<T>)
    requires b == []
    ensures a + b == a
  {
  }

  lemma AppendSnoc<T>(a: seq<T>, b: seq<T>)
    requires b != []
    ensures a + b == (a + b[..|b| - 1]) + [b[|b| - 1]]
  {
  }

  // ---- one more round of the inner loop ----

  /** One more element whose emission takes the next consecutive number. */
  lemma NumberingStep(kind: StepKind, s: StepState, attrs: Attributes, items: PArray,
                      s0: StepState, s1: StepState, c: int, vs: seq<Value>, v: Value, ws: seq<Value>)
    requires items != [] && v != Null && ws == vs + [v]
    requires RunSteps(kind, s, attrs, items[..|items| - 1]) == (s0, Success(NumberedFrom(c, vs)))
    requires Step(kind, s0, attrs, items[|items| - 1].0, items[|items| - 1].1) == (s1, Success((Int(c + |vs|), v)))
    ensures RunSteps(kind, s, attrs, items) == (s1, Success(NumberedFrom(c, ws)))
  {
    RunStepsSnoc(kind, s, attrs, items);
    NumberingInto(kind, attrs, RunSteps(kind, s, attrs, items[..|items| - 1]), items[|items| - 1], s0, s1, c, vs, v, ws);
  }

  lemma RunStepsSnoc(kind: StepKind, s: StepState, attrs: Attributes, items: PArray)
    requires items != []
    ensures RunSteps(kind, s, attrs, items) == StepInto(kind, attrs, RunSteps(kind, s, attrs, items[..|items| - 1]), items[|items| - 1])
  {
  }

  lemma NumberingInto(kind: StepKind, attrs: Attributes, prev: (StepState, Result<PArray>), entry: (Key, Value),
                      s0: StepState, s1: StepState, c: int, vs: seq<Value>, v: Value, ws: seq<Value>)
    requires v != Null && ws == vs + [v] && prev == (s0, Success(NumberedFrom(c, vs)))
    requires Step(kind, s0, attrs, entry.0, entry.1) == (s1, Success((Int(c + |vs|), v)))
    ensures StepInto(kind, attrs, prev, entry) == (s1, Success(NumberedFrom(c, ws)))
  {
    WriteInt(NumberedFrom(c, vs), c + |vs|, v);
    SetNumberedNext(c, vs, v);
  }

  /** Writing under an integer index sets that integer key. */
  lemma WriteInt(acc: PArray, i: int, v: Value)
    requires v != Null
    ensures Write(acc, (Int(i), v)) == Success(Set(acc, IntKey(i), v))
  {
  }

  /** One more round whose emission is dropped. */
  lemma DroppingInto(kind: StepKind, attrs: Attributes, prev: (StepState, Result<PArray>), entry: (Key, Value),
                     s0: StepState, s1: StepState, acc: PArray, e: Emission)
    requires (e.0 == Null || e.1 == Null) && prev == (s0, Success(acc))
    requires Step(kind, s0, attrs, entry.0, entry.1) == (s1, Success(e))
    ensures StepInto(kind, attrs, prev, entry) == (s1, Success(acc))
  {
  }

  /** One more round written under a key the array does not have yet. */
  lemma FreshKeyInto(kind: StepKind, attrs: Attributes, prev: (StepState, Result<PArray>), entry: (Key, Value),
                     s0: StepState, s1: StepState, acc: PArray, k: Key, v: Value, ws: PArray)
    requires v != Null && !HasKey(acc, k) && ws == acc + [(k, v)] && prev == (s0, Success(acc))
    requires Step(kind, s0, attrs, entry.0, entry.1) == (s1, Success((KeyValue(k), v)))
    ensures StepInto(kind, attrs, prev, entry) == (s1, Success(ws))
  {
    KeyValueRoundTrip(k);
  }

  /** One more element whose emission is dropped. */
  lemma DroppingStep(kind: StepKind, s: StepState, attrs: Attributes, items: PArray,
                     s0: StepState, s1: StepState, acc: PArray, e: Emission)
    requires items != [] && (e.0 == Null || e.1 == Null)
    requires RunSteps(kind, s, attrs, items[..|items| - 1]) == (s0, Success(acc))
    requires Step(kind, s0, attrs, items[|items| - 1].0, items[|items| - 1].1) == (s1, Success(e))
    ensures RunSteps(kind, s, attrs, items) == (s1, Success(acc))
  {
  }

  /** One more element written under a key the array does not have yet. */
  lemma FreshKeyStep(kind: StepKind, s: StepState, attrs: Attributes, items: PArray,
                     s0: StepState, s1: StepState, acc: PArray, k: Key, v: Value, ws: PArray)
    requires items != [] && v != Null && !HasKey(acc, k) && ws == acc + [(k, v)]
    requires RunSteps(kind, s, attrs, items[..|items| - 1]) == (s0, Success(acc))
    requires Step(kind, s0, attrs, items[|items| - 1].0, items[|items| - 1].1) == (s1, Success((KeyValue(k), v)))
    ensures RunSteps(kind, s, attrs, items) == (s1, Success(ws))
  {
    KeyValueRoundTrip(k);
  }

  // ---- one call of each callable ----

  lemma FilterOnce(cb: Option<Value -> Value>, save: bool, s0: StepState, attrs: Attributes, k: Key, v: Value)
    ensures !FilterKeeps(cb, v) ==> Step(FilterStep(cb, save), s0, attrs, k, v) == (s0, Success(Dropped))
    ensures FilterKeeps(cb, v) && save ==> Step(FilterStep(cb, save), s0, attrs, k, v) == (s0, Success((KeyValue(k), v)))
    ensures FilterKeeps(cb, v) && !save
        ==> Step(FilterStep(cb, save), s0, attrs, k, v) == (s0.(index := s0.index + 1), Success((Int(s0.index), v)))
  {
  }

  lemma UniqueOnce(s0: StepState, attrs: Attributes, k: Key, v: Value)
    ensures v in s0.cache ==> Step(UniqueStep, s0, attrs, k, v) == (s0, Success(Dropped))
    ensures v !in s0.cache && SaveIndexes(attrs)
        ==> Step(UniqueStep, s0, attrs, k, v) == (s0.(cache := s0.cache + [v]), Success((KeyValue(k), v)))
    ensures v !in s0.cache && !SaveIndexes(attrs)
        ==> Step(UniqueStep, s0, attrs, k, v) == (s0.(index := s0.index + 1, cache := s0.cache + [v]), Success((Int(s0.index), v)))
  {
  }

  lemma IntersectOnce(cc: PArray, save: bool, s0: StepState, attrs: Attributes, k: Key, v: Value)
    ensures !InArray(v, cc) ==> Step(IntersectStep(cc, save), s0, attrs, k, v) == (s0, Success(Dropped))
    ensures InArray(v, cc) && save ==> Step(IntersectStep(cc, save), s0, attrs, k, v) == (s0, Success((KeyValue(k), v)))
    ensures InArray(v, cc) && !save
        ==> Step(IntersectStep(cc, save), s0, attrs, k, v) == (s0.(index := s0.index + 1), Success((Int(s0.index), v)))
  {
  }

  // ---- filter ----

  /** Whether filter keeps `v`: the callback's result, or `v` itself, is not loosely false. */
  predicate FilterKeeps(cb: Option<Value -> Value>, v: Value) {
    if cb.Some? then Truthy(cb.value(v)) else Truthy(v)
  }

  /** The values filter keeps, in order. */
  function KeptValues(cb: Option<Value -> Value>, items: PArray): seq<Value>
    decreases |items|
  {
    if items == [] then []
    else
      var last := items[|items| - 1];
      KeptValues(cb, items[..|items| - 1]) + (if FilterKeeps(cb, last.1) then [last.1] else [])
  }

  /** The entries filter keeps, in order. */
  function KeptEntries(cb: Option<Value -> Value>, items: PArray): (r: PArray)
    ensures forall j :: 0 <= j < |r| ==> r[j] in items
    decreases |items|
  {
    if items == [] then []
    else
      var last := items[|items| - 1];
      var init := KeptEntries(cb, items[..|items| - 1]);
      assert forall j :: 0 <= j < |init| ==> init[j] in items[..|items| - 1];
      init + (if FilterKeeps(cb, last.1) then [last] else [])
  }

  /** No kept value is null (always so without a callback, since null is falsy). */
  predicate KeptNonNull(cb: Option<Value -> Value>, items: PArray) {
    forall i :: 0 <= i < |items| && FilterKeeps(cb, items[i].1) ==> items[i].1 != Null
  }

  /** `filter($cb)`: the kept values under keys index, index+1, ...; the counter
      advances once per kept value. */
  lemma {:induction false} FilterRenumbers(cb: Option<Value -> Value>, s: StepState, attrs: Attributes, items: PArray)
    requires KeptNonNull(cb, items)
    ensures RunSteps(FilterStep(cb, false), s, attrs, items)
         == (s.(index := s.index + |KeptValues(cb, items)|), Success(NumberedFrom(s.index, KeptValues(cb, items))))
    decreases |items|
  {
    if items != [] {
      var init := items[..|items| - 1];
      assert KeptNonNull(cb, init) by {
        forall i | 0 <= i < |init| ensures FilterKeeps(cb, init[i].1) ==> init[i].1 != Null {
          assert init[i] == items[i];
        }
      }
      FilterRenumbers(cb, s, attrs, init);
      RunStepsSnoc(FilterStep(cb, false), s, attrs, items);
      FilterInto(cb, s, attrs, RunSteps(FilterStep(cb, false), s, attrs, init), items[|items| - 1],
                 KeptValues(cb, init), KeptValues(cb, items));
    }
  }

  /** One more round of filter without `saveIndexes`: a kept value takes the next number. */
  lemma FilterInto(cb: Option<Value -> Value>, s: StepState, attrs: Attributes, prev: (StepState, Result<PArray>),
                   x: (Key, Value), k0: seq<Value>, k1: seq<Value>)
    requires FilterKeeps(cb, x.1) ==> x.1 != Null
    requires prev == (s.(index := s.index + |k0|), Success(NumberedFrom(s.index, k0)))
    requires k1 == k0 + (if FilterKeeps(cb, x.1) then [x.1] else [])
    ensures StepInto(FilterStep(cb, false), attrs, prev, x) == (s.(index := s.index + |k1|), Success(NumberedFrom(s.index, k1)))
  {
    var s1 := prev.0;
    FilterOnce(cb, false, s1, attrs, x.0, x.1);
    if FilterKeeps(cb, x.1) {
      NumberingInto(FilterStep(cb, false), attrs, prev, x, s1, s.(index := s.index + |k1|), s.index, k0, x.1, k1);
    } else {
      assert k1 == k0;
      DroppingInto(FilterStep(cb, false), attrs, prev, x, s1, s1, NumberedFrom(s.index, k0), Dropped);
    }
  }

  /** `filter()` with no callback and no `saveIndexes` keeps exactly the values that are
      not loosely false, renumbered from 0. */
  lemma FilterDefault(attrs: Attributes, items: PArray)
    ensures RunSteps(FilterStep(None, false), Fresh, attrs, items).1 == Success(Numbered(KeptValues(None, items)))
    ensures forall v :: v in KeptValues(None, items) <==> Truthy(v) && v in Vals(items)
  {
    FilterRenumbers(None, Fresh, attrs, items);
    KeptValuesMembers(None, items);
  }

  lemma {:induction false} KeptValuesMembers(cb: Option<Value -> Value>, items: PArray)
    ensures forall v :: v in KeptValues(cb, items) <==> FilterKeeps(cb, v) && v in Vals(items)
    decreases |items|
  {
    if items != [] {
      var init := items[..|items| - 1];
      KeptValuesMembers(cb, init);
      assert Vals(items) == Vals(init) + [items[|items| - 1].1];
    }
  }

  /** `filter($cb, true)`: the kept entries under their original keys. */
  lemma {:induction false} FilterSavesIndexes(cb: Option<Value -> Value>, s: StepState, attrs: Attributes, items: PArray)
    requires UniqueKeys(items) && KeptNonNull(cb, items)
    ensures RunSteps(FilterStep(cb, true), s, attrs, items) == (s, Success(KeptEntries(cb, items)))
    decreases |items|
  {
    if items != [] {
      var init := items[..|items| - 1];
      var last := items[|items| - 1];
      assert UniqueKeys(init) && KeptNonNull(cb, init) by {
        assert forall i :: 0 <= i < |init| ==> init[i] == items[i];
      }
      FilterSavesIndexes(cb, s, attrs, init);
      var acc := KeptEntries(cb, init);
      FilterOnce(cb, true, s, attrs, last.0, last.1);
      if FilterKeeps(cb, last.1) {
        assert last.1 != Null;
        assert !HasKey(acc, last.0) by {
          forall j | 0 <= j < |acc| ensures acc[j].0 != last.0 {
            assert acc[j] in init;
            var i :| 0 <= i < |init| && init[i] == acc[j];
            assert items[i] == acc[j];
          }
        }
        FreshKeyStep(FilterStep(cb, true), s, attrs, items, s, s, acc, last.0, last.1, KeptEntries(cb, items));
      } else {
        DroppingStep(FilterStep(cb, true), s, attrs, items, s, s, acc, Dropped);
        assert KeptEntries(cb, items) == acc;
      }
    }
  }

  // ---- keys, values, forEach, map ----

  function KeyValues(items: PArray): (r: seq<Value>)
    ensures |r| == |items| && forall i :: 0 <= i < |items| ==> r[i] == KeyValue(items[i].0)
  {
    seq(|items|, i requires 0 <= i < |items| => KeyValue(items[i].0))
  }

  lemma KeyValuesSnoc(items: PArray)
    requires items != []
    ensures KeyValues(items[..|items| - 1]) + [KeyValue(items[|items| - 1].0)] == KeyValues(items)
  {
    var init := items[..|items| - 1];
    var l := KeyValues(init) + [KeyValue(items[|items| - 1].0)];
    forall i | 0 <= i < |items| ensures l[i] == KeyValues(items)[i] {
      if i < |init| {
        assert l[i] == KeyValues(init)[i] && init[i] == items[i];
      }
    }
  }

  /** `keys()`: the keys, as values, under index, index+1, ... */
  lemma {:induction false} KeysRenumber(s: StepState, attrs: Attributes, items: PArray)
    ensures RunSteps(KeysStep, s, attrs, items)
         == (s.(index := s.index + |items|), Success(NumberedFrom(s.index, KeyValues(items))))
    decreases |items|
  {
    if items != [] {
      var init := items[..|items| - 1];
      KeysRenumber(s, attrs, init);
      var last := items[|items| - 1];
      var s0 := s.(index := s.index + |init|);
      KeyValuesSnoc(items);
      NumberingStep(KeysStep, s, attrs, items, s0, s.(index := s.index + |items|), s.index, KeyValues(init), KeyValue(last.0),
                    KeyValues(items));
    }
  }

  /** `values()` over non-null values: the values under index, index+1, ... */
  lemma {:induction false} ValuesRenumber(s: StepState, attrs: Attributes, items: PArray)
    requires NoNullValues(items)
    ensures RunSteps(ValuesStep, s, attrs, items)
         == (s.(index := s.index + |items|), Success(NumberedFrom(s.index, Vals(items))))
    decreases |items|
  {
    if items != [] {
      var init := items[..|items| - 1];
      ValsInit(items);
      ValuesRenumber(s, attrs, init);
      ValuesRenumberStep(s, attrs, items);
    }
  }

  /** The inductive step of ValuesRenumber. */
  lemma ValuesRenumberStep(s: StepState, attrs: Attributes, items: PArray)
    requires items != [] && items[|items| - 1].1 != Null
    requires var init := items[..|items| - 1];
      RunSteps(ValuesStep, s, attrs, init) == (s.(index := s.index + |init|), Success(NumberedFrom(s.index, Vals(init))))
    ensures RunSteps(ValuesStep, s, attrs, items)
         == (s.(index := s.index + |items|), Success(NumberedFrom(s.index, Vals(items))))
  {
    var init := items[..|items| - 1];
    var last := items[|items| - 1];
    var s1 := s.(index := s.index + |init|);
    assert Step(ValuesStep, s1, attrs, last.0, last.1) == (s1.(index := s1.index + 1), Success((Int(s1.index), last.1)));
    ValsInit(items);
    NumberingStep(ValuesStep, s, attrs, items, s1, s.(index := s.index + |items|), s.index, Vals(init), last.1, Vals(items));
  }

  /** A null value is dropped but still uses up a number: `values()` over [null, 1] gives [1 => 1]. */
  lemma ValuesSkipsNull()
    ensures RunSteps(ValuesStep, Fresh, map[], [(IntKey(0), Null), (IntKey(1), Int(1))]).1
         == Success([(IntKey(1), Int(1))])
  {
    var items := [(IntKey(0), Null), (IntKey(1), Int(1))];
    assert items[..1] == [(IntKey(0), Null)];
    assert items[..1][..0] == [];
    assert RunSteps(ValuesStep, Fresh, map[], items[..1]) == (StepState(1, 0, []), Success([]));
    assert Set([], IntKey(1), Int(1)) == [(IntKey(1), Int(1))];
  }

  function Mapped(items: PArray, f: Value -> Value): (r: PArray)
    ensures |r| == |items| && forall i :: 0 <= i < |items| ==> r[i] == (items[i].0, f(items[i].1))
  {
    seq(|items|, i requires 0 <= i < |items| => (items[i].0, f(items[i].1)))
  }

  lemma MappedSnoc(items: PArray, f: Value -> Value)
    requires items != []
    ensures Mapped(items[..|items| - 1], f) + [(items[|items| - 1].0, f(items[|items| - 1].1))] == Mapped(items, f)
  {
    var init := items[..|items| - 1];
    var l := Mapped(init, f) + [(items[|items| - 1].0, f(items[|items| - 1].1))];
    forall i | 0 <= i < |items| ensures l[i] == Mapped(items, f)[i] {
      if i < |init| {
        assert l[i] == Mapped(init, f)[i] && init[i] == items[i];
      }
    }
  }

  /** `map($f)` over an array whose mapped values are non-null: same keys, mapped values. */
  lemma {:induction false} MapKeepsKeys(f: Value -> Value, s: StepState, attrs: Attributes, items: PArray)
    requires UniqueKeys(items)
    requires forall i :: 0 <= i < |items| ==> f(items[i].1) != Null
    ensures RunSteps(MapStep(f), s, attrs, items) == (s, Success(Mapped(items, f)))
    decreases |items|
  {
    if items != [] {
      var init := items[..|items| - 1];
      assert forall i :: 0 <= i < |init| ==> init[i] == items[i];
      MapKeepsKeys(f, s, attrs, init);
      MapKeepsKeysStep(f, s, attrs, items);
    }
  }

  /** The inductive step of MapKeepsKeys. */
  lemma MapKeepsKeysStep(f: Value -> Value, s: StepState, attrs: Attributes, items: PArray)
    requires items != [] && UniqueKeys(items) && f(items[|items| - 1].1) != Null
    requires RunSteps(MapStep(f), s, attrs, items[..|items| - 1]) == (s, Success(Mapped(items[..|items| - 1], f)))
    ensures RunSteps(MapStep(f), s, attrs, items) == (s, Success(Mapped(items, f)))
  {
    var init := items[..|items| - 1];
    var last := items[|items| - 1];
    var acc := Mapped(init, f);
    assert !HasKey(acc, last.0) by {
      forall j | 0 <= j < |acc| ensures acc[j].0 != last.0 { assert acc[j].0 == init[j].0 == items[j].0; }
    }
    MappedSnoc(items, f);
    FreshKeyStep(MapStep(f), s, attrs, items, s, s, acc, last.0, f(last.1), Mapped(items, f));
  }

  /** `forEach` over non-null values returns the array unchanged. */
  lemma {:induction false} ForEachIdentity(s: StepState, attrs: Attributes, items: PArray)
    requires UniqueKeys(items) && NoNullValues(items)
    ensures RunSteps(ForEachStep, s, attrs, items) == (s, Success(items))
    decreases |items|
  {
    if items != [] {
      var init := items[..|items| - 1];
      ValsInit(items);
      assert forall i :: 0 <= i < |init| ==> init[i] == items[i];
      ForEachIdentity(s, attrs, init);
      ForEachIdentityStep(s, attrs, items);
    }
  }

  /** The inductive step of ForEachIdentity. */
  lemma ForEachIdentityStep(s: StepState, attrs: Attributes, items: PArray)
    requires items != [] && UniqueKeys(items) && items[|items| - 1].1 != Null
    requires RunSteps(ForEachStep, s, attrs, items[..|items| - 1]) == (s, Success(items[..|items| - 1]))
    ensures RunSteps(ForEachStep, s, attrs, items) == (s, Success(items))
  {
    var init := items[..|items| - 1];
    var last := items[|items| - 1];
    assert !HasKey(init, last.0) by {
      forall j | 0 <= j < |init| ensures init[j].0 != last.0 { assert init[j] == items[j]; }
    }
    SnocInit(items);
    FreshKeyStep(ForEachStep, s, attrs, items, s, s, init, last.0, last.1, items);
  }

  // ---- flip ----

  function Flipped(items: PArray): (r: seq<(Key, Value)>)
    requires forall i :: 0 <= i < |items| ==> (items[i].1.Int? || items[i].1.Str?)
    ensures |r| == |items|
    ensures forall i :: 0 <= i < |items| ==> r[i] == (KeyOrSelf(items[i].1), KeyValue(items[i].0))
  {
    seq(|items|, i requires 0 <= i < |items| => (KeyOrSelf(items[i].1), KeyValue(items[i].0)))
  }

  /** `flip()` fails exactly when some value is an array or object, which cannot be a key. */
  lemma {:induction false} FlipFails(s: StepState, attrs: Attributes, items: PArray)
    ensures RunSteps(FlipStep, s, attrs, items).1.Failure?
        <==> exists i :: 0 <= i < |items| && (items[i].1.Arr? || items[i].1.Obj?)
    decreases |items|
  {
    if items != [] {
      var init := items[..|items| - 1];
      FlipFails(s, attrs, init);
      if exists i :: 0 <= i < |init| && (init[i].1.Arr? || init[i].1.Obj?) {
        var i :| 0 <= i < |init| && (init[i].1.Arr? || init[i].1.Obj?);
        assert items[i] == init[i];
      }
      if exists i :: 0 <= i < |items| && (items[i].1.Arr? || items[i].1.Obj?) {
        var i :| 0 <= i < |items| && (items[i].1.Arr? || items[i].1.Obj?);
        if i < |items| - 1 { assert init[i] == items[i]; }
      }
    }
  }

  /** `flip()` over integer and string values: each value becomes a key and each key a
      value, written in order, so a repeated value keeps its first position and its last key. */
  lemma {:induction false} FlipSwaps(s: StepState, attrs: Attributes, items: PArray)
    requires forall i :: 0 <= i < |items| ==> (items[i].1.Int? || items[i].1.Str?)
    ensures RunSteps(FlipStep, s, attrs, items) == (s, Success(Materialise(Flipped(items))))
    decreases |items|
  {
    if items != [] {
      var init := items[..|items| - 1];
      assert forall i :: 0 <= i < |init| ==> init[i] == items[i];
      FlipSwaps(s, attrs, init);
      assert Flipped(items)[..|items| - 1] == Flipped(init);
      FlipSwapsStep(s, attrs, items);
    }
  }

  /** The inductive step of FlipSwaps: the last value, as a key, is set to the last key. */
  lemma FlipSwapsStep(s: StepState, attrs: Attributes, items: PArray)
    requires items != [] && forall i :: 0 <= i < |items| ==> (items[i].1.Int? || items[i].1.Str?)
    requires RunSteps(FlipStep, s, attrs, items[..|items| - 1]) == (s, Success(Materialise(Flipped(items)[..|items| - 1])))
    ensures RunSteps(FlipStep, s, attrs, items) == (s, Success(Materialise(Flipped(items))))
  {
    var last := items[|items| - 1];
    var fl := Flipped(items);
    assert fl[|items| - 1] == (KeyOrSelf(last.1), KeyValue(last.0));
    KeyValueRoundTrip(last.0);
    assert Write(Materialise(fl[..|items| - 1]), (last.1, KeyValue(last.0)))
        == Success(Set(Materialise(fl[..|items| - 1]), KeyOrSelf(last.1), KeyValue(last.0)));
  }

  // ---- unique ----

  /** The values not yet `seen`, first occurrences only, in order. */
  function Dedup(seen: seq<Value>, items: PArray): seq<Value>
    decreases |items|
  {
    if items == [] then []
    else
      var d := Dedup(seen, items[..|items| - 1]);
      var v := items[|items| - 1].1;
      if v in seen + d then d else d + [v]
  }

  /** The entries holding those first occurrences. */
  function DedupEntries(seen: seq<Value>, items: PArray): (r: PArray)
    ensures forall j :: 0 <= j < |r| ==> r[j] in items
    ensures Vals(r) == Dedup(seen, items)
    decreases |items|
  {
    if items == [] then []
    else
      var init := items[..|items| - 1];
      var d := DedupEntries(seen, init);
      assert forall j :: 0 <= j < |d| ==> d[j] in init;
      var last := items[|items| - 1];
      if last.1 in seen + Dedup(seen, init) then d
      else
        assert Vals(d + [last]) == Vals(d) + [last.1];
        d + [last]
  }

  predicate SaveIndexes(attrs: Attributes) {
    Truthy(AttrValue(attrs, "saveIndexes"))
  }

  /** `unique()`: each value's first occurrence, renumbered; the seen-list grows by exactly those values. */
  lemma {:induction false} UniqueRenumbers(s: StepState, attrs: Attributes, items: PArray)
    requires !SaveIndexes(attrs) && NoNullValues(items)
    ensures RunSteps(UniqueStep, s, attrs, items)
         == (s.(index := s.index + |Dedup(s.cache, items)|, cache := s.cache + Dedup(s.cache, items)),
             Success(NumberedFrom(s.index, Dedup(s.cache, items))))
    decreases |items|
  {
    if items == [] {
      assert s.cache + [] == s.cache;
    } else {
      var init := items[..|items| - 1];
      assert NoNullValues(init) by { ValsInit(items); }
      UniqueRenumbers(s, attrs, init);
      UniqueRenumbersSnoc(s, attrs, items);
    }
  }

  /** The inductive step of `UniqueRenumbers`, given the claim for all but the last entry. */
  lemma UniqueRenumbersSnoc(s: StepState, attrs: Attributes, items: PArray)
    requires items != [] && !SaveIndexes(attrs) && NoNullValues(items)
    requires RunSteps(UniqueStep, s, attrs, items[..|items| - 1])
          == (s.(index := s.index + |Dedup(s.cache, items[..|items| - 1])|,
                 cache := s.cache + Dedup(s.cache, items[..|items| - 1])),
              Success(NumberedFrom(s.index, Dedup(s.cache, items[..|items| - 1]))))
    ensures RunSteps(UniqueStep, s, attrs, items)
         == (s.(index := s.index + |Dedup(s.cache, items)|, cache := s.cache + Dedup(s.cache, items)),
             Success(NumberedFrom(s.index, Dedup(s.cache, items))))
  {
    var init, x := items[..|items| - 1], items[|items| - 1];
    var d, d1 := Dedup(s.cache, init), Dedup(s.cache, items);
    assert x.1 != Null by { ValsInit(items); }
    assert d1 == if x.1 in s.cache + d then d else d + [x.1];
    RunStepsSnoc(UniqueStep, s, attrs, items);
    UniqueInto(s, attrs, RunSteps(UniqueStep, s, attrs, init), x, d, d1);
  }

  /** One more round of unique without `saveIndexes`: a value not seen yet takes the next number. */
  lemma UniqueInto(s: StepState, attrs: Attributes, prev: (StepState, Result<PArray>), x: (Key, Value),
                   d: seq<Value>, d1: seq<Value>)
    requires !SaveIndexes(attrs) && x.1 != Null
    requires prev == (s.(index := s.index + |d|, cache := s.cache + d), Success(NumberedFrom(s.index, d)))
    requires d1 == if x.1 in s.cache + d then d else d + [x.1]
    ensures StepInto(UniqueStep, attrs, prev, x)
         == (s.(index := s.index + |d1|, cache := s.cache + d1), Success(NumberedFrom(s.index, d1)))
  {
    var s0 := prev.0;
    UniqueOnce(s0, attrs, x.0, x.1);
    if x.1 in s0.cache {
      DroppingInto(UniqueStep, attrs, prev, x, s0, s0, NumberedFrom(s.index, d), Dropped);
    } else {
      var s2 := s.(index := s.index + |d1|, cache := s.cache + d1);
      AppendSnocAssoc(s.cache, d, x.1);
      assert s0.(index := s0.index + 1, cache := s0.cache + [x.1]) == s2;
      NumberingInto(UniqueStep, attrs, prev, x, s0, s2, s.index, d, x.1, d1);
    }
  }

  /** `unique(true)`: each value's first occurrence under its original key. */
  lemma {:induction false} UniqueSavesIndexes(s: StepState, attrs: Attributes, items: PArray)
    requires SaveIndexes(attrs) && UniqueKeys(items) && NoNullValues(items)
    ensures RunSteps(UniqueStep, s, attrs, items)
         == (s.(cache := s.cache + Dedup(s.cache, items)), Success(DedupEntries(s.cache, items)))
    decreases |items|
  {
    if items == [] {
      assert s.cache + [] == s.cache;
    } else {
      var init := items[..|items| - 1];
      ValsInit(items);
      assert UniqueKeys(init) by { assert forall i :: 0 <= i < |init| ==> init[i] == items[i]; }
      UniqueSavesIndexes(s, attrs, init);
      var last := items[|items| - 1];
      var acc := DedupEntries(s.cache, init);
      assert last.1 !in s.cache + Dedup(s.cache, init) ==> !HasKey(acc, last.0) by {
        forall j | 0 <= j < |acc| ensures acc[j].0 != last.0 {
          var i :| 0 <= i < |init| && init[i] == acc[j];
          assert items[i] == acc[j];
        }
      }
      RunStepsSnoc(UniqueStep, s, attrs, items);
      UniqueSavingInto(s, attrs, RunSteps(UniqueStep, s, attrs, init), last, Dedup(s.cache, init), acc,
                       Dedup(s.cache, items), DedupEntries(s.cache, items));
    }
  }

  /** One more round of unique with `saveIndexes`: a value not seen yet keeps its key. */
  lemma UniqueSavingInto(s: StepState, attrs: Attributes, prev: (StepState, Result<PArray>), x: (Key, Value),
                         d: seq<Value>, acc: PArray, d1: seq<Value>, acc1: PArray)
    requires SaveIndexes(attrs) && x.1 != Null
    requires x.1 !in s.cache + d ==> !HasKey(acc, x.0)
    requires prev == (s.(cache := s.cache + d), Success(acc))
    requires d1 == (if x.1 in s.cache + d then d else d + [x.1])
    requires acc1 == (if x.1 in s.cache + d then acc else acc + [x])
    ensures StepInto(UniqueStep, attrs, prev, x) == (s.(cache := s.cache + d1), Success(acc1))
  {
    var s0 := prev.0;
    UniqueOnce(s0, attrs, x.0, x.1);
    if x.1 in s0.cache {
      DroppingInto(UniqueStep, attrs, prev, x, s0, s0, acc, Dropped);
    } else {
      AppendSnocAssoc(s.cache, d, x.1);
      FreshKeyInto(UniqueStep, attrs, prev, x, s0, s.(cache := s.cache + d1), acc, x.0, x.1, acc1);
    }
  }

  /** The reference meaning of `Dedup([], items)`: no value twice, and exactly the values of `items`. */
  lemma {:induction false} DedupDistinct(seen: seq<Value>, items: PArray)
    ensures forall i, j :: 0 <= i < j < |Dedup(seen, items)| ==> Dedup(seen, items)[i] != Dedup(seen, items)[j]
    ensures forall v :: v in Dedup(seen, items) <==> v !in seen && v in Vals(items)
    decreases |items|
  {
    if items != [] {
      var init := items[..|items| - 1];
      var v := items[|items| - 1].1;
      DedupDistinct(seen, init);
      assert Vals(items) == Vals(init) + [v];
    }
  }

  // ---- slice ----

  /** The position p is selected by `slice(first, last, step)`. */
  predicate SliceSelects(p: int, first: int, last: int, step: int)
    requires step != 0
  {
    first <= p < last && (p - first) % (if step > 0 then step else -step) == 0
  }

  /** The values at the selected positions, in order. */
  function SliceValues(items: PArray, first: int, last: int, step: int): seq<Value>
    requires step != 0
    decreases |items|
  {
    if items == [] then []
    else
      SliceValues(items[..|items| - 1], first, last, step)
        + (if SliceSelects(|items| - 1, first, last, step) then [items[|items| - 1].1] else [])
  }

  /** `slice(first, last, step)` with a non-zero step: the values at positions p with
      first <= p < last and (p - first) divisible by the step, renumbered from 0. */
  lemma {:induction false} SliceSelectsPositions(first: int, last: int, step: int, items: PArray)
    requires step != 0 && NoNullValues(items)
    ensures RunSteps(SliceStep, Fresh, SliceAttrs(first, last, step, false), items)
         == (StepState(|items|, |SliceValues(items, first, last, step)|, []),
             Success(Numbered(SliceValues(items, first, last, step))))
    decreases |items|
  {
    if items != [] {
      var init := items[..|items| - 1];
      var x := items[|items| - 1];
      var attrs := SliceAttrs(first, last, step, false);
      ValsInit(items);
      SliceSelectsPositions(first, last, step, init);
      var sv := SliceValues(init, first, last, step);
      var s0 := StepState(|init|, |sv|, []);
      if SliceSelects(|init|, first, last, step) {
        NumberingStep(SliceStep, Fresh, attrs, items, s0, StepState(|items|, |sv| + 1, []), 0, sv, x.1,
                      SliceValues(items, first, last, step));
      } else {
        DroppingStep(SliceStep, Fresh, attrs, items, s0, StepState(|items|, |sv|, []), Numbered(sv), Dropped);
        assert SliceValues(items, first, last, step) == sv;
      }
    }
  }

  /** The entries at the selected positions, in order, with their keys. */
  function SliceEntries(items: PArray, first: int, last: int, step: int): (r: PArray)
    requires step != 0
    ensures forall j :: 0 <= j < |r| ==> r[j] in items
    ensures Vals(r) == SliceValues(items, first, last, step)
    decreases |items|
  {
    if items == [] then []
    else
      var init := SliceEntries(items[..|items| - 1], first, last, step);
      assert forall j :: 0 <= j < |init| ==> init[j] in items[..|items| - 1];
      var x := items[|items| - 1];
      if SliceSelects(|items| - 1, first, last, step) then
        assert Vals(init + [x]) == Vals(init) + [x.1];
        init + [x]
      else init
  }

  /** One call of slice's callable with `saveIndexes`, at position p. */
  lemma SliceSavingOnce(first: int, last: int, step: int, p: int, k: Key, v: Value)
    requires step != 0
    ensures Step(SliceStep, StepState(p, 0, []), SliceAttrs(first, last, step, true), k, v)
         == (StepState(p + 1, 0, []), Success(if SliceSelects(p, first, last, step) then (KeyValue(k), v) else Dropped))
  {
  }

  /** `slice(first, last, step, true)` with a non-zero step: the entries at the selected
      positions under their own keys; the result counter is not used. */
  lemma {:induction false} SliceSavesIndexes(first: int, last: int, step: int, items: PArray)
    requires step != 0 && UniqueKeys(items) && NoNullValues(items)
    ensures RunSteps(SliceStep, Fresh, SliceAttrs(first, last, step, true), items)
         == (StepState(|items|, 0, []), Success(SliceEntries(items, first, last, step)))
    decreases |items|
  {
    if items != [] {
      var init := items[..|items| - 1];
      var x := items[|items| - 1];
      var attrs := SliceAttrs(first, last, step, true);
      ValsInit(items);
      assert UniqueKeys(init) by { assert forall i :: 0 <= i < |init| ==> init[i] == items[i]; }
      SliceSavesIndexes(first, last, step, init);
      var acc := SliceEntries(init, first, last, step);
      var s0 := StepState(|init|, 0, []);
      SliceSavingOnce(first, last, step, |init|, x.0, x.1);
      if SliceSelects(|init|, first, last, step) {
        assert !HasKey(acc, x.0) by {
          forall j | 0 <= j < |acc| ensures acc[j].0 != x.0 {
            var i :| 0 <= i < |init| && init[i] == acc[j];
            assert items[i] == acc[j];
          }
        }
        FreshKeyStep(SliceStep, Fresh, attrs, items, s0, StepState(|items|, 0, []), acc, x.0, x.1,
                     SliceEntries(items, first, last, step));
      } else {
        DroppingStep(SliceStep, Fresh, attrs, items, s0, StepState(|items|, 0, []), acc, Dropped);
      }
    }
  }

  /** With step 0 the modulo fails exactly when some position of the array lies in [first, last). */
  lemma {:induction false} SliceZeroStep(first: int, last: int, save: bool, items: PArray)
    ensures RunSteps(SliceStep, Fresh, SliceAttrs(first, last, 0, save), items).1.Failure?
        <==> (if first > 0 then first else 0) < (if last < |items| then last else |items|)
    ensures RunSteps(SliceStep, Fresh, SliceAttrs(first, last, 0, save), items).1.Success?
        ==> RunSteps(SliceStep, Fresh, SliceAttrs(first, last, 0, save), items) == (StepState(|items|, 0, []), Success([]))
    decreases |items|
  {
    if items != [] {
      SliceZeroStep(first, last, save, items[..|items| - 1]);
    }
  }

  lemma SliceValuesSnoc(items: PArray, n: nat, first: int, last: int, step: int)
    requires n < |items| && step != 0
    ensures SliceValues(items[..n + 1], first, last, step)
         == SliceValues(items[..n], first, last, step) + (if SliceSelects(n, first, last, step) then [items[n].1] else [])
  {
    assert items[..n + 1][..n] == items[..n];
  }

  /** Positions at or past `last` add nothing. */
  lemma {:induction false} SliceTail(items: PArray, n: nat, first: int, last: nat, step: int)
    requires last <= n <= |items| && step != 0
    ensures SliceValues(items[..n], first, last, step) == SliceValues(items[..last], first, last, step)
    decreases n
  {
    if n > last {
      SliceValuesSnoc(items, n - 1, first, last, step);
      SliceTail(items, n - 1, first, last, step);
    }
  }

  /** The example `slice(2, 5, 2)` over 0..100 gives [2, 4]. */
  lemma SliceExample()
    ensures SliceValues(Numbered(seq(101, i => Int(i))), 2, 5, 2) == [Int(2), Int(4)]
  {
    var items := Numbered(seq(101, i => Int(i)));
    assert items[..0] == [];
    SliceValuesSnoc(items, 0, 2, 5, 2);
    SliceValuesSnoc(items, 1, 2, 5, 2);
    SliceValuesSnoc(items, 2, 2, 5, 2);
    SliceValuesSnoc(items, 3, 2, 5, 2);
    SliceValuesSnoc(items, 4, 2, 5, 2);
    SliceTail(items, 101, 2, 5, 2);
    assert items[..101] == items;
  }

  // ---- intersect ----

  /** The values found (`===`) in the other array, in order. */
  function Common(items: PArray, other: PArray): seq<Value>
    decreases |items|
  {
    if items == [] then []
    else
      var v := items[|items| - 1].1;
      Common(items[..|items| - 1], other) + (if InArray(v, other) then [v] else [])
  }

  /** `intersect($chain)`: the values present in the other chain's array, renumbered. */
  lemma {:induction false} IntersectRenumbers(cc: PArray, s: StepState, attrs: Attributes, items: PArray)
    requires NoNullValues(items)
    ensures RunSteps(IntersectStep(cc, false), s, attrs, items)
         == (s.(index := s.index + |Common(items, cc)|), Success(NumberedFrom(s.index, Common(items, cc))))
    decreases |items|
  {
    if items != [] {
      var init := items[..|items| - 1];
      ValsInit(items);
      IntersectRenumbers(cc, s, attrs, init);
      RunStepsSnoc(IntersectStep(cc, false), s, attrs, items);
      IntersectInto(cc, s, attrs, RunSteps(IntersectStep(cc, false), s, attrs, init), items[|items| - 1],
                    Common(init, cc), Common(items, cc));
    }
  }

  /** One more round of intersect without `saveIndexes`: a value found takes the next number. */
  lemma IntersectInto(cc: PArray, s: StepState, attrs: Attributes, prev: (StepState, Result<PArray>),
                      x: (Key, Value), c: seq<Value>, c1: seq<Value>)
    requires x.1 != Null
    requires prev == (s.(index := s.index + |c|), Success(NumberedFrom(s.index, c)))
    requires c1 == c + (if InArray(x.1, cc) then [x.1] else [])
    ensures StepInto(IntersectStep(cc, false), attrs, prev, x) == (s.(index := s.index + |c1|), Success(NumberedFrom(s.index, c1)))
  {
    var s0 := prev.0;
    IntersectOnce(cc, false, s0, attrs, x.0, x.1);
    if InArray(x.1, cc) {
      NumberingInto(IntersectStep(cc, false), attrs, prev, x, s0, s.(index := s.index + |c1|), s.index, c, x.1, c1);
    } else {
      assert c1 == c;
      DroppingInto(IntersectStep(cc, false), attrs, prev, x, s0, s0, NumberedFrom(s.index, c), Dropped);
    }
  }

  /** The entries whose values are found (`===`) in the other array, in order. */
  function CommonEntries(items: PArray, other: PArray): (r: PArray)
    ensures forall j :: 0 <= j < |r| ==> r[j] in items
    ensures Vals(r) == Common(items, other)
    decreases |items|
  {
    if items == [] then []
    else
      var init := CommonEntries(items[..|items| - 1], other);
      assert forall j :: 0 <= j < |init| ==> init[j] in items[..|items| - 1];
      var x := items[|items| - 1];
      if InArray(x.1, other) then
        assert Vals(init + [x]) == Vals(init) + [x.1];
        init + [x]
      else init
  }

  /** `intersect($chain, true)`: the entries whose values the other array holds, under
      their original keys; the counter does not move. */
  lemma {:induction false} IntersectSavesIndexes(cc: PArray, s: StepState, attrs: Attributes, items: PArray)
    requires UniqueKeys(items) && NoNullValues(items)
    ensures RunSteps(IntersectStep(cc, true), s, attrs, items) == (s, Success(CommonEntries(items, cc)))
    decreases |items|
  {
    if items != [] {
      var init := items[..|items| - 1];
      var x := items[|items| - 1];
      ValsInit(items);
      assert UniqueKeys(init) by { assert forall i :: 0 <= i < |init| ==> init[i] == items[i]; }
      IntersectSavesIndexes(cc, s, attrs, init);
      var acc := CommonEntries(init, cc);
      IntersectOnce(cc, true, s, attrs, x.0, x.1);
      if InArray(x.1, cc) {
        assert !HasKey(acc, x.0) by {
          forall j | 0 <= j < |acc| ensures acc[j].0 != x.0 {
            var i :| 0 <= i < |init| && init[i] == acc[j];
            assert items[i] == acc[j];
          }
        }
        FreshKeyStep(IntersectStep(cc, true), s, attrs, items, s, s, acc, x.0, x.1, CommonEntries(items, cc));
      } else {
        DroppingStep(IntersectStep(cc, true), s, attrs, items, s, s, acc, Dropped);
      }
    }
  }

  // ---- whole-array operators ----

  lemma ReversedAllInt(a: PArray)
    requires AllIntKeys(a)
    ensures AllIntKeys(Reversed(a))
  {
  }

  /** `reverse()`: the values in reverse order under 0..n-1 (for a list); `reverse(true)`:
      the entries in reverse order with their keys. */
  lemma ReverseEffect(attrs: Attributes, items: PArray, env: Env)
    ensures Truthy(AttrValue(attrs, "saveIndex")) ==> Whole(ReverseOp, attrs, items, env) == Success(Reversed(items))
    ensures !Truthy(AttrValue(attrs, "saveIndex")) && AllIntKeys(items)
         ==> Whole(ReverseOp, attrs, items, env) == Success(Numbered(Reversed(Vals(items))))
  {
    if !Truthy(AttrValue(attrs, "saveIndex")) && AllIntKeys(items) {
      ReversedAllInt(items);
      RenumberAllInt(Reversed(items), 0);
      assert Renumber(Reversed(items), 0) == Numbered(Reversed(Vals(items)));
    }
  }

  /** The next index of a list is its length. */
  lemma NextIndexNumbered(vs: seq<Value>)
    ensures NextIndex(Numbered(vs)) == |vs|
  {
    var a := Numbered(vs);
    if vs != [] {
      assert a[|vs| - 1].0.IntKey?;
      var m := MaxIntKey(a);
      var i :| 0 <= i < |a| && a[i].0 == IntKey(m);
      assert a[|vs| - 1].0.i <= m;
    } else {
      assert !HasIntKey(a);
    }
  }

  /** `append($v)` on a list extends the list. */
  lemma AppendList(vs: seq<Value>, v: Value)
    ensures Append(Numbered(vs), v) == Numbered(vs + [v])
  {
    NextIndexNumbered(vs);
  }

  /** `append($v)` over an array PHP can hold: it throws exactly when `PHP_INT_MAX`
      is already a key; otherwise v goes in under one past the largest integer key,
      and the keys stay within PHP's integers. */
  lemma AppendEffect(attrs: Attributes, items: PArray, env: Env)
    requires IntKeysInRange(items)
    ensures var r := Whole(AppendOp, attrs, items, env);
      (r.Failure? <==> HasKey(items, IntKey(PhpIntMax)))
      && (r.Failure? ==> r.error == PlainError(NEXT_ELEMENT_OCCUPIED))
      && (r.Success? ==> r.value == items + [(IntKey(NextIndex(items)), AttrValue(attrs, "value"))]
                         && IntKeysInRange(r.value))
  {
    NextIndexOccupiedIff(items);
    if !NextIndexOccupied(items) {
      AppendInRange(items, AttrValue(attrs, "value"));
    }
  }

  /** `Chain::of([PHP_INT_MAX => 'a'])->append('b')` throws. */
  lemma AppendAtIntMax(env: Env)
    ensures Whole(AppendOp, map["value" := Val(Str("b"))], [(IntKey(PhpIntMax), Str("a"))], env)
         == Failure(PlainError(NEXT_ELEMENT_OCCUPIED))
  {
    var a := [(IntKey(PhpIntMax), Str("a"))];
    assert a[0].0.IntKey? && a[0].0.i >= PhpIntMax;
  }

  /** `prepend($v)` on a list puts `v` first and renumbers. */
  lemma PrependList(vs: seq<Value>, v: Value)
    ensures Unshift(Numbered(vs), v) == Numbered([v] + vs)
  {
    RenumberAllInt(Numbered(vs), 1);
  }

  /** `prepend(1)`, `prepend(2)`, `prepend(3)` on an empty chain give [3, 2, 1]. */
  lemma PrependThrice()
    ensures Unshift(Unshift(Unshift([], Int(1)), Int(2)), Int(3)) == Numbered([Int(3), Int(2), Int(1)])
  {
    assert Numbered([]) == [];
    PrependList([], Int(1));
    PrependList([Int(1)], Int(2));
    assert [Int(2)] + [Int(1)] == [Int(2), Int(1)];
    PrependList([Int(2), Int(1)], Int(3));
    assert [Int(3)] + [Int(2), Int(1)] == [Int(3), Int(2), Int(1)];
  }

  lemma {:induction false} MergeAllInts(ps: PArray)
    requires AllIntKeys(ps)
    ensures MergeAll([], ps) == Numbered(Vals(ps))
    decreases |ps|
  {
    if ps != [] {
      var init := ps[..|ps| - 1];
      var last := ps[|ps| - 1];
      assert AllIntKeys(init) by { assert forall i :: 0 <= i < |init| ==> init[i] == ps[i]; }
      assert last.0.IntKey?;
      MergeAllInts(init);
      assert MergeAll([], ps) == Append(Numbered(Vals(init)), last.1);
      AppendList(Vals(init), last.1);
      ValsInit(ps);
    }
  }

  /** `merge` of two integer-keyed arrays is the list of the first's values followed by the second's. */
  lemma MergeLists(a: PArray, b: PArray)
    requires AllIntKeys(a) && AllIntKeys(b)
    ensures ArrayMerge(a, b) == Numbered(Vals(a) + Vals(b))
  {
    MergeAllInts(a + b);
    assert Vals(a + b) == Vals(a) + Vals(b);
  }

  /** An order compared through a projection is still a total preorder, either way round. */
  lemma Projected<A(!new), B(!new)>(f: A -> B, cmp: (B, B) -> int, c: (A, A) -> int, flipped: bool)
    requires TotalPreorder(cmp)
    requires forall x, y :: c(x, y) == if flipped then cmp(f(y), f(x)) else cmp(f(x), f(y))
    ensures TotalPreorder(c)
  {
    forall x, y ensures c(x, y) <= 0 || c(y, x) <= 0 {
      assert cmp(f(x), f(y)) <= 0 || cmp(f(y), f(x)) <= 0;
    }
    forall x, y, z | c(x, y) <= 0 && c(y, z) <= 0 ensures c(x, z) <= 0 {
      if flipped {
        assert cmp(f(z), f(y)) <= 0 && cmp(f(y), f(x)) <= 0;
      } else {
        assert cmp(f(x), f(y)) <= 0 && cmp(f(y), f(z)) <= 0;
      }
    }
  }

  lemma ValueOrders(cmp: (Value, Value) -> int)
    requires TotalPreorder(cmp)
    ensures TotalPreorder(ByValue(cmp)) && TotalPreorder(ByValueDesc(cmp)) && TotalPreorder(ByKeyWith(cmp))
  {
    var v := (p: (Key, Value)) => p.1;
    Projected(v, cmp, ByValue(cmp), false);
    Projected(v, cmp, ByValueDesc(cmp), true);
    Projected((p: (Key, Value)) => KeyValue(p.0), cmp, ByKeyWith(cmp), false);
  }

  lemma KeyOrders(cmp: (Key, Key) -> int)
    requires TotalPreorder(cmp)
    ensures TotalPreorder(ByKey(cmp)) && TotalPreorder(ByKeyDesc(cmp))
  {
    var k := (p: (Key, Value)) => p.0;
    Projected(k, cmp, ByKey(cmp), false);
    Projected(k, cmp, ByKeyDesc(cmp), true);
  }

  lemma PropertyOrder(env: Env, path: string, direction: int)
    requires TotalPreorder(env.compare)
    ensures TotalPreorder(ByProperty(env, path, direction))
  {
    Projected((p: (Key, Value)) => Resolved(env, path, p.1), env.compare, ByProperty(env, path, direction), direction != SORT_ASC);
  }

  /** `sortValues`: without a sorter an invalid direction fails, and only then; otherwise the
      entries are permuted (each key stays with its value) into the comparator's order. */
  lemma SortValuesEffect(attrs: Attributes, items: PArray, env: Env)
    ensures Whole(SortValuesOp, attrs, items, env).Failure?
        <==> AttrComparator(attrs).None? && AttrDirection(attrs) != SORT_ASC && AttrDirection(attrs) != SORT_DESC
    ensures Whole(SortValuesOp, attrs, items, env).Success?
        ==> multiset(Whole(SortValuesOp, attrs, items, env).value) == multiset(items)
    ensures AttrComparator(attrs).None? && AttrDirection(attrs) == SORT_ASC && TotalPreorder(env.compare)
        ==> SortedBy(Whole(SortValuesOp, attrs, items, env).value, ByValue(env.compare))
    ensures AttrComparator(attrs).None? && AttrDirection(attrs) == SORT_DESC && TotalPreorder(env.compare)
        ==> SortedBy(Whole(SortValuesOp, attrs, items, env).value, ByValueDesc(env.compare))
    ensures AttrComparator(attrs).Some? && TotalPreorder(AttrComparator(attrs).value)
        ==> SortedBy(Whole(SortValuesOp, attrs, items, env).value, ByValue(AttrComparator(attrs).value))
  {
    var sorter := AttrComparator(attrs);
    if sorter.Some? {
      if TotalPreorder(sorter.value) {
        ValueOrders(sorter.value);
        SortBySorted(items, ByValue(sorter.value));
      }
    } else if TotalPreorder(env.compare) {
      ValueOrders(env.compare);
      if AttrDirection(attrs) == SORT_ASC { SortBySorted(items, ByValue(env.compare)); }
      if AttrDirection(attrs) == SORT_DESC { SortBySorted(items, ByValueDesc(env.compare)); }
    }
  }

  /** `sortKeys`: the same, ordering entries by key. */
  lemma SortKeysEffect(attrs: Attributes, items: PArray, env: Env)
    ensures Whole(SortKeysOp, attrs, items, env).Failure?
        <==> AttrComparator(attrs).None? && AttrDirection(attrs) != SORT_ASC && AttrDirection(attrs) != SORT_DESC
    ensures Whole(SortKeysOp, attrs, items, env).Success?
        ==> multiset(Whole(SortKeysOp, attrs, items, env).value) == multiset(items)
    ensures AttrComparator(attrs).None? && AttrDirection(attrs) == SORT_ASC && TotalPreorder(env.compareKeys)
        ==> SortedBy(Whole(SortKeysOp, attrs, items, env).value, ByKey(env.compareKeys))
    ensures AttrComparator(attrs).None? && AttrDirection(attrs) == SORT_DESC && TotalPreorder(env.compareKeys)
        ==> SortedBy(Whole(SortKeysOp, attrs, items, env).value, ByKeyDesc(env.compareKeys))
    ensures AttrComparator(attrs).Some? && TotalPreorder(AttrComparator(attrs).value)
        ==> SortedBy(Whole(SortKeysOp, attrs, items, env).value, ByKeyWith(AttrComparator(attrs).value))
  {
    var sorter := AttrComparator(attrs);
    if sorter.Some? {
      if TotalPreorder(sorter.value) {
        ValueOrders(sorter.value);
        SortBySorted(items, ByKeyWith(sorter.value));
      }
    } else if TotalPreorder(env.compareKeys) {
      KeyOrders(env.compareKeys);
      if AttrDirection(attrs) == SORT_ASC { SortBySorted(items, ByKey(env.compareKeys)); }
      if AttrDirection(attrs) == SORT_DESC { SortBySorted(items, ByKeyDesc(env.compareKeys)); }
    }
  }

  /** `sortByProperty`: fails exactly when there are two or more entries and some entry's
      property cannot be read; otherwise a permutation ordered by the property. */
  lemma SortByPropertyEffect(path: string, direction: int, attrs: Attributes, items: PArray, env: Env)
    ensures Whole(SortByPropertyOp(path, direction), attrs, items, env).Failure?
        <==> |items| >= 2 && exists i :: 0 <= i < |items| && env.resolve(items[i].1, path).Failure?
    ensures Whole(SortByPropertyOp(path, direction), attrs, items, env).Success?
        ==> multiset(Whole(SortByPropertyOp(path, direction), attrs, items, env).value) == multiset(items)
    ensures Whole(SortByPropertyOp(path, direction), attrs, items, env).Success? && TotalPreorder(env.compare)
        ==> SortedBy(Whole(SortByPropertyOp(path, direction), attrs, items, env).value, ByProperty(env, path, direction))
  {
    if TotalPreorder(env.compare) {
      PropertyOrder(env, path, direction);
      SortBySorted(items, ByProperty(env, path, direction));
    }
  }

  // ---- the pipeline ----

  /** Running the pipeline changes only the per-element operators' fields: every
      operator keeps its kind and attributes, and whole-array operators stay as they are. */
  lemma {:induction false} PipelineKeepsOperators(items: PArray, ops: seq<OpSpec>, env: Env)
    ensures forall j :: 0 <= j < |ops| ==>
      var o := Pipeline(items, ops, env).0[j];
      if ops[j].WholeOp? then o == ops[j]
      else o.PerElementOp? && o.kind == ops[j].kind && o.attrs == ops[j].attrs
    decreases |ops|
  {
    if ops != [] {
      PipelineKeepsOperators(items, ops[..|ops| - 1], env);
    }
  }

  /** Once an operator fails, the ones after it are not run. */
  lemma {:induction false} PipelineStopsAtFailure(items: PArray, ops: seq<OpSpec>, more: seq<OpSpec>, env: Env)
    requires Pipeline(items, ops, env).1.Failure?
    ensures Pipeline(items, ops + more, env) == (Pipeline(items, ops, env).0 + more, Pipeline(items, ops, env).1)
    decreases |more|
  {
    var p := Pipeline(items, ops, env);
    if more == [] {
      AppendNothing(ops, more);
      AppendNothing(p.0, more);
    } else {
      var init := more[..|more| - 1];
      PipelineStopsAtFailure(items, ops, init, env);
      PipelineFailedSnoc(items, ops + init, more[|more| - 1], env);
      AppendSnoc(ops, more);
      AppendSnoc(p.0, more);
    }
  }

  /** Past a failure, one more operator is carried over as it is. */
  lemma PipelineFailedSnoc(items: PArray, ops: seq<OpSpec>, op: OpSpec, env: Env)
    requires Pipeline(items, ops, env).1.Failure?
    ensures Pipeline(items, ops + [op], env) == (Pipeline(items, ops, env).0 + [op], Pipeline(items, ops, env).1)
  {
    assert (ops + [op])[..|ops|] == ops;
  }

  /** The chain test's example: over [1..5], `map(v * v)` gives [1, 4, 9, 16, 25]. */
  lemma MapSquares()
    ensures Pipeline(Numbered([Int(1), Int(2), Int(3), Int(4), Int(5)]),
                     [PerElementOp(MapStep(Square), Fresh, map[])], Env((x, y) => 0, (x, y) => 0, (v, p) => Success(v))).1
         == Success(Numbered([Int(1), Int(4), Int(9), Int(16), Int(25)]))
  {
    var items := Numbered([Int(1), Int(2), Int(3), Int(4), Int(5)]);
    MapKeepsKeys(Square, Fresh, map[], items);
    assert Mapped(items, Square) == Numbered([Int(1), Int(4), Int(9), Int(16), Int(25)]);
  }

  function Square(v: Value): Value {
    if v.Int? then Int(v.i * v.i) else Null
  }
}
