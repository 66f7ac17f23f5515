/** The memoising sequence of `src/Generator.php`: every traversal first replays
    the pairs already cached, then pulls what remains from a one-shot iterator,
    caching each pair under its key before yielding it. */
module Memo {
  import opened PhpValues
  import opened PhpArrays

  type Pair = (Key, Value)

  /** The body of a generator stage (`$fn($items)`): what it yields, as a function of
      everything the stage it reads yields. */
  type StageFn = seq<Pair> -> seq<Pair>

  // ---- consumers ----

  /** How a `foreach` over a generator ends early: `break` after the n-th item
      (`$counter === n`, which never holds for n == 0), or `return` at the first
      item whose value is `=== v`. */
  datatype Consumer = TakeN(n: nat) | UntilValue(v: Value)

  /** The consumer has seen enough once it has received `out`. */
  predicate Done(c: Consumer, out: seq<Pair>) {
    match c
    case TakeN(n) => n != 0 && |out| >= n
    case UntilValue(v) => |out| > 0 && out[|out| - 1].1 == v
  }

  /** The first length at or after m at which the consumer stops (or all of ys). */
  function StopAt(c: Consumer, ys: seq<Pair>, m: nat): (k: nat)
    requires m <= |ys|
    ensures m <= k <= |ys|
    decreases |ys| - m
  {
    if m == |ys| || Done(c, ys[..m]) then m else StopAt(c, ys, m + 1)
  }

  /** What a consumer receives from a traversal yielding ys. */
  function Taken(c: Consumer, ys: seq<Pair>): seq<Pair> {
    ys[..StopAt(c, ys, 0)]
  }

  /** A consumer that has not stopped takes the next item too. */
  lemma ConsumerContinues(c: Consumer, ys: seq<Pair>, out: seq<Pair>)
    requires |out| < |ys| && out == ys[..|out|] && !Done(c, out)
    requires StopAt(c, ys, |out|) == StopAt(c, ys, 0)
    ensures out + [ys[|out|]] == ys[..|out| + 1]
    ensures StopAt(c, ys, |out| + 1) == StopAt(c, ys, 0)
  {
    StopAtPasses(c, ys, out);
    PrefixSnoc(ys, |out|);
  }

  lemma StopAtPasses(c: Consumer, ys: seq<Pair>, out: seq<Pair>)
    requires |out| < |ys| && out == ys[..|out|] && !Done(c, out)
    ensures StopAt(c, ys, |out|) == StopAt(c, ys, |out| + 1)
  {
  }

  lemma PrefixSnoc(ys: seq<Pair>, m: nat)
    requires m < |ys|
    ensures ys[..m] + [ys[m]] == ys[..m + 1]
  {
  }

  /** Where the consumer has stopped, or the items ran out, it has taken everything it will. */
  lemma TakenWhenStopped(c: Consumer, ys: seq<Pair>, m: nat)
    requires m <= |ys| && (m == |ys| || Done(c, ys[..m]))
    requires StopAt(c, ys, m) == StopAt(c, ys, 0)
    ensures Taken(c, ys) == ys[..m]
  {
  }

  /** Where a traversal stands while pulling: ys is the cache followed by the
      iterator's pairs from p0, and the consumer has taken the cache and the
      pairs up to pos without stopping early. */
  ghost predicate Pulling(c: Consumer, ys: seq<Pair>, out0: seq<Pair>, pairs: seq<Pair>, p0: nat, pos: nat, out: seq<Pair>) {
    p0 <= pos <= |pairs| && ys == out0 + pairs[p0..] && out == out0 + pairs[p0..pos]
    && |out| <= |ys| && StopAt(c, ys, |out|) == StopAt(c, ys, 0)
  }

  /** One more pair pulled: the consumer takes it and the cache records it. */
  lemma PullingStep(c: Consumer, ys: seq<Pair>, out0: seq<Pair>, pairs: seq<Pair>, p0: nat, pos: nat, out: seq<Pair>)
    requires Pulling(c, ys, out0, pairs, p0, pos, out) && pos < |pairs| && !Done(c, out)
    ensures Pulling(c, ys, out0, pairs, p0, pos + 1, out + [pairs[pos]])
    ensures forall acc :: SetAll(acc, pairs[p0..pos + 1]) == Set(SetAll(acc, pairs[p0..pos]), pairs[pos].0, pairs[pos].1)
  {
    assert pairs[p0..pos + 1] == pairs[p0..pos] + [pairs[pos]];
    assert out == ys[..|out|];
    assert ys[|out|] == pairs[pos];
    ConsumerContinues(c, ys, out);
    forall acc ensures SetAll(acc, pairs[p0..pos + 1]) == Set(SetAll(acc, pairs[p0..pos]), pairs[pos].0, pairs[pos].1) {
      SetAllSnoc(acc, pairs[p0..pos], pairs[pos]);
    }
  }

  /** Once the consumer stops or the pairs run out, it has taken everything it will. */
  lemma PullingStopped(c: Consumer, ys: seq<Pair>, out0: seq<Pair>, pairs: seq<Pair>, p0: nat, pos: nat, out: seq<Pair>)
    requires Pulling(c, ys, out0, pairs, p0, pos, out) && (pos == |pairs| || Done(c, out))
    ensures out == Taken(c, ys) && |out| == |out0| + (pos - p0)
  {
    assert out == ys[..|out|];
    TakenWhenStopped(c, ys, |out|);
  }

  lemma {:induction false} StopAtTakeN(n: nat, ys: seq<Pair>, m: nat)
    requires m <= |ys|
    ensures StopAt(TakeN(n), ys, m)
         == if n == 0 || n > |ys| then |ys| else if m > n then m else n
    decreases |ys| - m
  {
    if m < |ys| && !Done(TakeN(n), ys[..m]) {
      StopAtTakeN(n, ys, m + 1);
    }
  }

  /** Breaking after the n-th item gives the first n items, or everything if there
      are not that many (or n is 0). */
  lemma TakenTakeN(n: nat, ys: seq<Pair>)
    ensures Taken(TakeN(n), ys) == if n == 0 || n >= |ys| then ys else ys[..n]
  {
    StopAtTakeN(n, ys, 0);
  }

  lemma {:induction false} StopAtUntil(v: Value, ys: seq<Pair>, m: nat)
    requires m <= |ys|
    requires forall j :: 0 <= j < m ==> ys[j].1 != v
    ensures var k := StopAt(UntilValue(v), ys, m);
      (forall j :: 0 <= j < k - 1 ==> ys[j].1 != v)
      && ((k > 0 && ys[k - 1].1 == v) <==> exists i :: m <= i < |ys| && ys[i].1 == v)
    decreases |ys| - m
  {
    if m < |ys| {
      if ys[m].1 != v {
        StopAtUntil(v, ys, m + 1);
        var k := StopAt(UntilValue(v), ys, m + 1);
        if exists i :: m <= i < |ys| && ys[i].1 == v {
          var i :| m <= i < |ys| && ys[i].1 == v;
          assert m + 1 <= i;
        }
      } else {
        assert ys[..m + 1][m] == ys[m];
      }
    }
  }

  /** Stopping at the first `=== v` item: the consumer's last item is v exactly when v
      occurs at all, and nothing before it is v. */
  lemma TakenUntil(v: Value, ys: seq<Pair>)
    ensures var out := Taken(UntilValue(v), ys);
      (|out| > 0 && out[|out| - 1].1 == v) <==> InArray(v, ys)
    ensures var out := Taken(UntilValue(v), ys);
      forall j :: 0 <= j < |out| - 1 ==> out[j].1 != v
  {
    StopAtUntil(v, ys, 0);
  }

  // ---- what a pull does to the cache ----

  /** Pulling p into a cache a and leaving q in the source changes nothing a full
      materialisation (`$items[$k] = $v` over everything) would collect. */
  lemma PullKeepsContent(a: PArray, p: seq<Pair>, q: seq<Pair>)
    requires UniqueKeys(a)
    ensures Materialise(SetAll(a, p) + q) == Materialise(a + p + q)
  {
    var x := SetAll(a, p);
    SetAllKeepsUnique(a, p);
    calc {
      Materialise(x + q);
      SetAll([], x + q);
      { SetAllConcat([], x, q); }
      SetAll(SetAll([], x), q);
      { MaterialiseUnique(x); }
      SetAll(x, q);
      { SetAllConcat(a, p, q); }
      SetAll(a, p + q);
      { MaterialiseUnique(a); }
      SetAll(SetAll([], a), p + q);
      { SetAllConcat([], a, p + q); }
      SetAll([], a + (p + q));
      { assert a + (p + q) == a + p + q; }
      Materialise(a + p + q);
    }
  }

  /** When the keys are distinct, pulling only moves pairs from the source to the
      cache: the sequence a full traversal yields stays the same. */
  lemma PullKeepsYields(a: PArray, q: seq<Pair>, m: nat)
    requires m <= |q| && UniqueKeys(a + q)
    ensures SetAll(a, q[..m]) + q[m..] == a + q
  {
    assert UniqueKeys(a + q[..m]) by {
      forall i, j | 0 <= i < j < |a + q[..m]| ensures (a + q[..m])[i].0 != (a + q[..m])[j].0 {
        assert (a + q[..m])[i] == (a + q)[i];
        assert (a + q[..m])[j] == (a + q)[j];
      }
    }
    SetAllFresh(a, q[..m]);
    assert a + q[..m] + q[m..] == a + q;
  }

  /** What Traverse promises about the cache, from what the pull loop did. */
  lemma AfterPull(cache0: PArray, q: seq<Pair>, m: nat, ys: seq<Pair>)
    requires m <= |q| && UniqueKeys(cache0) && ys == cache0 + q
    ensures Materialise(SetAll(cache0, q[..m]) + q[m..]) == Materialise(ys)
    ensures UniqueKeys(ys) ==> SetAll(cache0, q[..m]) + q[m..] == ys
    ensures |SetAll(cache0, q[..m])| >= |cache0| && Keys(SetAll(cache0, q[..m]))[..|cache0|] == Keys(cache0)
  {
    PullKeepsContent(cache0, q[..m], q[m..]);
    assert q[..m] + q[m..] == q;
    assert cache0 + q[..m] + q[m..] == cache0 + q;
    if UniqueKeys(ys) {
      PullKeepsYields(cache0, q, m);
    }
    SetAllKeysGrow(cache0, q[..m]);
  }

  lemma {:induction false} SetAllKeysGrow(a: PArray, ps: seq<Pair>)
    ensures |SetAll(a, ps)| >= |a| && Keys(SetAll(a, ps))[..|a|] == Keys(a)
    decreases |ps|
  {
    if ps != [] {
      var init := SetAll(a, ps[..|ps| - 1]);
      SetAllKeysGrow(a, ps[..|ps| - 1]);
      var last := ps[|ps| - 1];
      assert Keys(Set(init, last.0, last.1))[..|init|] == Keys(init);
      assert Keys(init)[..|a|] == Keys(a);
      assert Keys(Set(init, last.0, last.1))[..|a|] == Keys(init)[..|a|];
    }
  }

  // ---- the iterator and the generator ----

  /** The `\Iterator` a Generator wraps: either a finite sequence of pairs with a
      cursor (an array's `ArrayIterator`, or an iterator handed in), or a stage over
      another Generator that has not started yet. A stage starts on the first
      `valid()`, when it reads everything its upstream yields. */
  class Source {
    const upstream: Generator?
    const stage: StageFn
    var started: bool
    var pairs: seq<Pair>
    var pos: nat

    constructor Of(pairs: seq<Pair>)
      ensures upstream == null && started && this.pairs == pairs && pos == 0
    {
      upstream := null;
      stage := (xs: seq<Pair>) => xs;
      started := true;
      this.pairs := pairs;
      pos := 0;
    }

    constructor Over(upstream: Generator, stage: StageFn)
      ensures this.upstream == upstream && this.stage == stage && !started && pairs == [] && pos == 0
    {
      this.upstream := upstream;
      this.stage := stage;
      started := false;
      pairs := [];
      pos := 0;
    }
  }

  /** A well-formed iterator handed in from outside: a plain cursor over its pairs. */
  predicate PlainIterator(it: Source)
    reads it
  {
    it.upstream == null && it.started && it.pos <= |it.pairs|
  }

  /** What `new Generator($iterator)` can be given. */
  datatype Iterable =
    | ArrayIterable(entries: PArray)
    | IteratorIterable(it: Source)
    | AggregateIterable(className: string, getIterator: Result<Source>)
    | NotIterable

  /** Only an `\Exception` from `getIterator()` is caught; an `\Error` passes through. */
  predicate IsException(e: Error) {
    e.InvalidArgument? || e.Runtime?
  }

  function AggregateFailure(className: string, e: Error): Error {
    if IsException(e) then
      Runtime("Failed to get iterator on IteratorAggregate object of class \"" + className
        + "\". Got the error: \"" + e.message + "\"", Some(e))
    else e
  }

  /** Reading the never-assigned typed property in the constructor's `assert`
      (with `zend.assertions` on; otherwise the first `getIterator()` reads it). */
  const Uninitialized: Error :=
    PlainError("Typed property VKPHPUtils\\Chain\\Generator::$iterator must not be accessed before initialization")

  class Generator {
    var cache: PArray
    const iter: Source
    ghost const depth: nat
    ghost const Repr: set<object>

    /** The stages below this one, linked through constant fields. */
    ghost predicate Linked()
      decreases depth
    {
      iter.upstream != null ==> iter.upstream.depth < depth && iter.upstream.Linked()
    }

    /** This generator and every generator it reads, directly or not. */
    ghost function Gens(): set<Generator>
      requires Linked()
      decreases depth
    {
      {this} + (if iter.upstream == null then {} else iter.upstream.Gens())
    }

    ghost predicate Valid()
      reads this, Repr
      decreases depth
    {
      this in Repr && iter in Repr && Linked()
      && UniqueKeys(cache)
      && iter.pos <= |iter.pairs|
      && (iter.upstream == null ==> iter.started)
      && (iter.upstream != null ==>
            iter.upstream in Repr && iter.upstream.Repr <= Repr
            && this !in iter.upstream.Repr && iter !in iter.upstream.Repr
            && iter.upstream.Valid())
    }

    /** What the iterator has still to produce. */
    ghost function Rest(): seq<Pair>
      reads this, Repr
      requires Valid()
      decreases depth, 0
    {
      if iter.started then iter.pairs[iter.pos..]
      else iter.stage(iter.upstream.Yields())
    }

    /** What a complete traversal yields from now on: the cache, then the rest. */
    ghost function Yields(): seq<Pair>
      reads this, Repr
      requires Valid()
      decreases depth, 1
    {
      cache + Rest()
    }

    /** What collecting a complete traversal with `$items[$k] = $v` gives. */
    ghost function Content(): PArray
      reads this, Repr
      requires Valid()
    {
      Materialise(Yields())
    }

    lemma {:induction false} GensValid()
      requires Valid()
      ensures forall g :: g in Gens() ==> g.Valid() && g.Repr <= Repr
      decreases depth
    {
      if iter.upstream != null {
        iter.upstream.GensValid();
      }
    }

    constructor FromIterator(it: Source)
      requires PlainIterator(it)
      ensures Valid() && fresh(Repr - {it}) && iter == it && cache == [] && Gens() == {this}
      ensures Yields() == it.pairs[it.pos..]
    {
      iter := it;
      cache := [];
      depth := 0;
      Repr := {this, it};
    }

    /** A generator over `$this->applyFn($upstream, $fn)`: nothing runs until it is
        first traversed. */
    constructor Derived(upstream: Generator, stage: StageFn)
      requires upstream.Valid()
      ensures Valid() && fresh(Repr - upstream.Repr) && Repr == {this, iter} + upstream.Repr
      ensures iter.upstream == upstream && iter.stage == stage && !iter.started && cache == []
      ensures Gens() == {this} + upstream.Gens()
      ensures Yields() == stage(upstream.Yields())
    {
      var it := new Source.Over(upstream, stage);
      iter := it;
      cache := [];
      depth := upstream.depth + 1;
      Repr := {this, it} + upstream.Repr;
    }

    /** `new Generator($iterator)`: an array is wrapped in an ArrayIterator, an
        IteratorAggregate contributes its `getIterator()` (an exception from it is
        wrapped in a RuntimeException that keeps it as previous), an Iterator is used
        as it is; anything else leaves the iterator property unset. */
    static method New(arg: Iterable) returns (r: Result<Generator>)
      requires arg.IteratorIterable? ==> PlainIterator(arg.it)
      requires arg.AggregateIterable? && arg.getIterator.Success? ==> PlainIterator(arg.getIterator.value)
      ensures r.Success? ==> r.value.Valid() && r.value.cache == [] && r.value.Gens() == {r.value}
      ensures r.Success? ==> fresh(r.value) && fresh(r.value.Repr - {r.value.iter})
      ensures arg.ArrayIterable? ==> r.Success? && r.value.Yields() == arg.entries && fresh(r.value.Repr)
      ensures arg.IteratorIterable? ==> r.Success? && r.value.iter == arg.it
      ensures arg.IteratorIterable? && r.Success? ==> r.value.Yields() == arg.it.pairs[arg.it.pos..]
      ensures arg.AggregateIterable? ==> (r.Success? <==> arg.getIterator.Success?)
      ensures arg.AggregateIterable? && r.Success? ==> r.value.iter == arg.getIterator.value
      ensures arg.AggregateIterable? && r.Failure? ==> r.error == AggregateFailure(arg.className, arg.getIterator.error)
      ensures arg.NotIterable? ==> r == Failure(Uninitialized)
    {
      if arg.ArrayIterable? {
        var it := new Source.Of(arg.entries);
        var g := new Generator.FromIterator(it);
        r := Success(g);
      } else if arg.IteratorIterable? {
        var g := new Generator.FromIterator(arg.it);
        r := Success(g);
      } else if arg.AggregateIterable? {
        if arg.getIterator.Failure? {
          return Failure(AggregateFailure(arg.className, arg.getIterator.error));
        }
        var g := new Generator.FromIterator(arg.getIterator.value);
        r := Success(g);
      } else {
        r := Failure(Uninitialized);
      }
    }

    /** A stage's iterator starts on the first `valid()`: it reads its upstream through
        to the end and holds what the stage yields for that. */
    method Start()
      requires Valid()
      modifies Repr
      decreases depth, 1
      ensures Valid() && iter.started
      ensures cache == old(cache) && Rest() == old(Rest())
      ensures old(iter.started) ==> iter.pos == old(iter.pos) && iter.pairs == old(iter.pairs)
      ensures forall g :: g in Gens() && old(allocated(g)) && old(g.Valid()) ==> g.Valid() && g.Content() == old(g.Content())
    {
      if !iter.started {
        var up := iter.upstream;
        ghost var upYields := up.Yields();
        up.GensValid();
        var all := up.Traverse(TakeN(0));
        TakenTakeN(0, upYields);
        up.GensValid();
        label Traversed:
        iter.pairs := iter.stage(all);
        iter.pos := 0;
        iter.started := true;
        GensFramed@Traversed(up);
        assert iter.pairs[iter.pos..] == iter.pairs;
      }
    }

    /** The `while ($this->iterator->valid())` loop of `getIterator`: each pair is
        cached under its key, the iterator advanced, and the cached value yielded,
        until the consumer stops or the iterator is exhausted. */
    method Pull(c: Consumer, ghost ys: seq<Pair>, out0: seq<Pair>) returns (out: seq<Pair>)
      requires Valid() && iter.started
      requires out0 == cache && ys == cache + Rest()
      requires StopAt(c, ys, |out0|) == StopAt(c, ys, 0)
      modifies this, iter
      ensures Valid() && iter.started
      ensures out == Taken(c, ys)
      ensures |out| >= |old(cache)| && |out| - |old(cache)| <= |old(Rest())|
      ensures cache == SetAll(old(cache), old(Rest())[..|out| - |old(cache)|])
      ensures Rest() == old(Rest())[|out| - |old(cache)|..]
      ensures iter.pos == old(iter.pos) + (|out| - |old(cache)|) && iter.pairs == old(iter.pairs)
    {
      ghost var q := Rest();
      ghost var p0 := iter.pos;
      assert q == iter.pairs[p0..];
      out := PullLoop(c, ys, out0);
      CursorMoved(this);
      assert iter.pairs[p0..iter.pos] == q[..|out| - |out0|];
      assert iter.pairs[iter.pos..] == q[|out| - |out0|..];
    }

    /** The pull loop seen from outside: what a complete traversal would collect
        is unchanged. */
    method PullSettled(c: Consumer, ghost ys: seq<Pair>, out0: seq<Pair>) returns (out: seq<Pair>)
      requires Valid() && iter.started
      requires out0 == cache && ys == cache + Rest()
      requires StopAt(c, ys, |out0|) == StopAt(c, ys, 0)
      modifies this, iter
      ensures Valid() && iter.started
      ensures out == Taken(c, ys) && |out| >= |old(cache)|
      ensures Content() == old(Content())
      ensures UniqueKeys(ys) ==> Yields() == ys
      ensures |cache| >= |old(cache)| && Keys(cache)[..|old(cache)|] == Keys(old(cache))
      ensures iter.pos == old(iter.pos) + (|out| - |old(cache)|) && iter.pairs == old(iter.pairs)
    {
      ghost var cache0 := cache;
      ghost var q := Rest();
      out := Pull(c, ys, out0);
      ghost var m := |out| - |cache0|;
      ghost var cache1 := SetAll(cache0, q[..m]);
      assert cache == cache1 && Rest() == q[m..];
      AfterPull(cache0, q, m, ys);
      assert Keys(cache1)[..|cache0|] == Keys(cache0);
    }

    /** The loop itself, stated on the iterator's cursor. */
    method PullLoop(c: Consumer, ghost ys: seq<Pair>, out0: seq<Pair>) returns (out: seq<Pair>)
      requires UniqueKeys(cache) && iter.started && iter.pos <= |iter.pairs|
      requires out0 == cache && ys == cache + iter.pairs[iter.pos..]
      requires StopAt(c, ys, |out0|) == StopAt(c, ys, 0)
      modifies this, iter
      ensures UniqueKeys(cache) && iter.started && iter.pairs == old(iter.pairs) && iter.pos <= |iter.pairs|
      ensures old(iter.pos) <= iter.pos && |out| == |out0| + (iter.pos - old(iter.pos))
      ensures out == Taken(c, ys)
      ensures cache == SetAll(old(cache), iter.pairs[old(iter.pos)..iter.pos])
    {
      ghost var p0 := iter.pos;
      ghost var pairs := iter.pairs;
      out := out0;
      assert pairs[p0..p0] == [];
      while !Done(c, out) && iter.pos < |iter.pairs|
        invariant UniqueKeys(cache) && iter.started && iter.pairs == pairs
        invariant Pulling(c, ys, out0, pairs, p0, iter.pos, out)
        invariant cache == SetAll(out0, pairs[p0..iter.pos])
      {
        PullingStep(c, ys, out0, pairs, p0, iter.pos, out);
        var p := PullOne();
        out := out + [p];
      }
      PullingStopped(c, ys, out0, pairs, p0, iter.pos, out);
    }

    /** One round of that loop: `$this->cache[$key = key()] = current()`, `next()`,
        and `yield $key => $this->cache[$key]`. */
    method PullOne() returns (p: Pair)
      requires UniqueKeys(cache) && iter.started && iter.pos < |iter.pairs|
      modifies this, iter
      ensures UniqueKeys(cache) && iter.started && iter.pairs == old(iter.pairs) && iter.pos == old(iter.pos) + 1
      ensures p == old(iter.pairs[iter.pos]) && cache == Set(old(cache), p.0, p.1)
    {
      var k := iter.pairs[iter.pos].0;
      var v := iter.pairs[iter.pos].1;
      SetKeepsUnique(cache, k, v);
      GetAfterSet(cache, k, v, k);
      cache := Set(cache, k, v);
      iter.pos := iter.pos + 1;
      p := (k, Get(cache, k).value);
    }

    /** A traversal of `getIterator()` by consumer c: the cached pairs in cache order,
        then new pairs pulled from the iterator. It yields a prefix of `Yields()`,
        changes no generator's `Content()`, and when the keys are distinct leaves
        `Yields()` as it was. */
    method Traverse(c: Consumer) returns (out: seq<Pair>)
      requires Valid()
      modifies Repr
      decreases depth, 3
      ensures Valid()
      ensures out == Taken(c, old(Yields()))
      ensures Content() == old(Content())
      ensures UniqueKeys(old(Yields())) ==> Yields() == old(Yields())
      ensures |cache| >= |old(cache)| && Keys(cache)[..|old(cache)|] == Keys(old(cache))
      ensures old(iter.started) ==> iter.pairs == old(iter.pairs)
      ensures old(iter.started) ==> iter.pos == old(iter.pos) + (if |out| > |old(cache)| then |out| - |old(cache)| else 0)
      ensures forall g :: g in Gens() && old(allocated(g)) && old(g.Valid()) ==> g.Valid() && g.Content() == old(g.Content())
    {
      ghost var ys := Yields();
      out := Replay(c);
      if Done(c, out) {
        SetAllKeysGrow(cache, []);
        return;
      }
      out := Resume(c, ys, out);
    }

    /** The rest of a traversal once the cached pairs are replayed and the consumer
        still wants more: start the iterator and pull from it. */
    method Resume(c: Consumer, ghost ys: seq<Pair>, out0: seq<Pair>) returns (out: seq<Pair>)
      requires Valid() && ys == Yields() && out0 == cache
      requires StopAt(c, ys, |out0|) == StopAt(c, ys, 0)
      modifies Repr
      decreases depth, 2
      ensures Valid()
      ensures out == Taken(c, ys) && |out| >= |old(cache)|
      ensures Content() == old(Content())
      ensures UniqueKeys(ys) ==> Yields() == ys
      ensures |cache| >= |old(cache)| && Keys(cache)[..|old(cache)|] == Keys(old(cache))
      ensures old(iter.started) ==> iter.pairs == old(iter.pairs)
      ensures old(iter.started) ==> iter.pos == old(iter.pos) + (|out| - |old(cache)|)
      ensures forall g :: g in Gens() && old(allocated(g)) && old(g.Valid()) ==> g.Valid() && g.Content() == old(g.Content())
    {
      GensValid();
      Start();
      label Started:
      out := PullSettled(c, ys, out0);
      OwnStateOnly@Started(this);
    }

    /** The `foreach ($this->cache ...)` loop of `getIterator`. */
    method Replay(c: Consumer) returns (out: seq<Pair>)
      requires Valid()
      ensures |out| <= |Yields()| && out == Yields()[..|out|] && StopAt(c, Yields(), |out|) == StopAt(c, Yields(), 0)
      ensures Done(c, out) || out == cache
      ensures |out| <= |cache|
      ensures Done(c, out) ==> out == Taken(c, Yields())
    {
      ghost var ys := Yields();
      out := [];
      var i := 0;
      while i < |cache| && !Done(c, out)
        invariant 0 <= i <= |cache| && out == cache[..i] && out == ys[..i]
        invariant StopAt(c, ys, |out|) == StopAt(c, ys, 0)
      {
        out := out + [cache[i]];
        i := i + 1;
      }
    }
  }

  /** Moving a started generator's cursor and growing its cache keeps it valid. */
  twostate lemma CursorMoved(g: Generator)
    requires old(g.Valid()) && unchanged(g.Repr - {g, g.iter})
    requires UniqueKeys(g.cache) && g.iter.started && g.iter.pos <= |g.iter.pairs|
    ensures g.Valid()
  {
    if g.iter.upstream != null {
      ContentFramed(g.iter.upstream);
    }
  }

  /** A generator that changed only its own cache and iterator and kept its content
      leaves every generator below it as it was. */
  twostate lemma OwnStateOnly(g0: Generator)
    requires old(g0.Valid()) && g0.Valid() && g0.Content() == old(g0.Content())
    requires unchanged(g0.Repr - {g0, g0.iter})
    ensures forall g :: g in g0.Gens() && old(allocated(g)) && old(g.Valid()) ==> g.Valid() && g.Content() == old(g.Content())
  {
    var up := g0.iter.upstream;
    if up != null {
      ContentFramed(up);
      up.GensValid();
    }
    forall g | g in g0.Gens() && old(allocated(g)) && old(g.Valid())
      ensures g.Valid() && g.Content() == old(g.Content())
    {
      if g != g0 {
        assert g in up.Gens();
        ContentFramed(g);
      }
    }
  }

  /** A generator none of whose objects changed keeps its content. */
  twostate lemma ContentFramed(g: Generator)
    requires old(g.Valid()) && unchanged(g.Repr)
    ensures g.Valid() && g.Yields() == old(g.Yields()) && g.Content() == old(g.Content())
  {
  }

  /** A stack of generators none of whose objects changed keeps every level's content. */
  twostate lemma GensFramed(up: Generator)
    requires old(up.Valid()) && unchanged(up.Repr)
    requires forall g :: g in up.Gens() ==> old(allocated(g)) && old(g.Valid()) && g.Repr <= up.Repr
    ensures up.Valid() && forall g :: g in up.Gens() ==> g.Valid() && g.Content() == old(g.Content())
  {
    forall g | g in up.Gens()
      ensures g.Valid() && g.Content() == old(g.Content())
    {
      ContentFramed(g);
    }
  }

  // ---- the traversals of the generator tests ----

  function Ints(n: nat): (r: seq<Value>)
    ensures |r| == n && forall i :: 0 <= i < n ==> r[i] == Int(i)
  {
    seq(n, i requires 0 <= i < n => Int(i))
  }

  lemma NumberedUnique(vs: seq<Value>)
    ensures UniqueKeys(Numbered(vs))
  {
  }

  /** One traversal broken after n items of a generator whose keys are distinct:
      the first n items (all of them if there are fewer), and the generator yields
      the same sequence afterwards. */
  method TraverseFirst(g: Generator, n: nat) returns (out: seq<Pair>)
    requires g.Valid() && UniqueKeys(g.Yields())
    modifies g.Repr
    ensures g.Valid() && g.Yields() == old(g.Yields())
    ensures out == if n == 0 || n >= |g.Yields()| then g.Yields() else g.Yields()[..n]
  {
    TakenTakeN(n, g.Yields());
    out := g.Traverse(TakeN(n));
  }

  /** Four traversals of one generator over `yield 0..9`, broken after 1, 5, 10 and 20
      items: each returns the prefix of that length, however far the previous one got. */
  method SequentialTraversals() returns (a: seq<Pair>, b: seq<Pair>, c: seq<Pair>, d: seq<Pair>)
    ensures a == Numbered(Ints(10))[..1] && b == Numbered(Ints(10))[..5]
    ensures c == Numbered(Ints(10)) && d == Numbered(Ints(10))
  {
    var ys := Numbered(Ints(10));
    NumberedUnique(Ints(10));
    var src := new Source.Of(ys);
    var g := new Generator.FromIterator(src);
    assert ys[0..] == ys;
    a := TraverseFirst(g, 1);
    b := TraverseFirst(g, 5);
    c := TraverseFirst(g, 10);
    d := TraverseFirst(g, 20);
  }
}
