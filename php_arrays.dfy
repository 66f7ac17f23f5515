/** PHP arrays as ordered (key, value) lists, and the built-in array
    functions the chain relies on: `$a[$k] = $v`, `$a[] = $v`,
    `array_unshift`, `array_merge`, `array_reverse`, `in_array`,
    `array_key_exists`, `array_reduce` and the sorts. */
module PhpArrays {
  import opened PhpValues

  type PArray = seq<(Key, Value)>

  function Keys(a: PArray): (r: seq<Key>)
    ensures |r| == |a| && forall i :: 0 <= i < |a| ==> r[i] == a[i].0
  {
    seq(|a|, i requires 0 <= i < |a| => a[i].0)
  }

  function Vals(a: PArray): (r: seq<Value>)
    ensures |r| == |a| && forall i :: 0 <= i < |a| ==> r[i] == a[i].1
  {
    seq(|a|, i requires 0 <= i < |a| => a[i].1)
  }

  /** Keys of a PHP array are unique. */
  ghost predicate UniqueKeys(a: PArray) {
    forall i, j :: 0 <= i < j < |a| ==> a[i].0 != a[j].0
  }

  /** `array_key_exists($k, $a)`. */
  predicate HasKey(a: PArray, k: Key) {
    exists i :: 0 <= i < |a| && a[i].0 == k
  }

  /** `in_array($v, $a, true)`: some entry holds a value `===` to `v`. */
  predicate InArray(v: Value, a: PArray) {
    exists i :: 0 <= i < |a| && a[i].1 == v
  }

  /** Position of the first entry with key `k`. */
  function IndexOf(a: PArray, k: Key): (r: nat)
    requires HasKey(a, k)
    ensures r < |a| && a[r].0 == k
    ensures forall j :: 0 <= j < r ==> a[j].0 != k
  {
    if a[0].0 == k then 0
    else
      assert HasKey(a[1..], k) by {
        var i :| 0 <= i < |a| && a[i].0 == k;
        assert a[1..][i - 1].0 == k;
      }
      1 + IndexOf(a[1..], k)
  }

  /** `$a[$k] = $v`: overwrite in place when the key exists, else append. */
  function Set(a: PArray, k: Key, v: Value): PArray {
    if HasKey(a, k) then a[IndexOf(a, k) := (k, v)] else a + [(k, v)]
  }

  lemma SetKeepsUnique(a: PArray, k: Key, v: Value)
    requires UniqueKeys(a)
    ensures UniqueKeys(Set(a, k, v))
    ensures HasKey(Set(a, k, v), k)
  {
    var r := Set(a, k, v);
    if HasKey(a, k) {
      assert r[IndexOf(a, k)].0 == k;
    } else {
      assert r[|a|].0 == k;
    }
  }

  /** The value stored under `k`, if any (`$a[$k] ?? null` without the default). */
  function Get(a: PArray, k: Key): Option<Value> {
    if HasKey(a, k) then Some(a[IndexOf(a, k)].1) else None
  }

  lemma GetAfterSet(a: PArray, k: Key, v: Value, k': Key)
    requires UniqueKeys(a)
    ensures Get(Set(a, k, v), k) == Some(v)
    ensures k' != k ==> Get(Set(a, k, v), k') == Get(a, k')
  {
    var r := Set(a, k, v);
    SetKeepsUnique(a, k, v);
    if k' != k {
      if HasKey(a, k') {
        var i := IndexOf(a, k');
        assert r[i] == a[i];
        assert HasKey(r, k');
        assert IndexOf(r, k') == i;
      } else {
        assert forall j :: 0 <= j < |r| ==> r[j].0 != k';
      }
    } else {
      assert HasKey(r, k);
    }
  }

  /** Writing every pair of `ps` in order: what `foreach ($ps as $k => $v) $a[$k] = $v;` leaves. */
  function SetAll(acc: PArray, ps: seq<(Key, Value)>): PArray
    decreases |ps|
  {
    if ps == [] then acc
    else
      var last := ps[|ps| - 1];
      Set(SetAll(acc, ps[..|ps| - 1]), last.0, last.1)
  }

  /** Writing one more pair. */
  lemma SetAllSnoc(acc: PArray, ps: seq<(Key, Value)>, p: (Key, Value))
    ensures SetAll(acc, ps + [p]) == Set(SetAll(acc, ps), p.0, p.1)
  {
    assert (ps + [p])[..|ps|] == ps;
  }

  /** The array a traversal collects into, as `$items[$k] = $v` does. */
  function Materialise(ps: seq<(Key, Value)>): PArray {
    SetAll([], ps)
  }

  /** A `foreach ($pairs as $k => $v) { $a[$k] = $v; }` loop: it leaves the materialised array. */
  method Collect(pairs: seq<(Key, Value)>) returns (a: PArray)
    ensures a == Materialise(pairs)
  {
    a := [];
    var n := 0;
    while n < |pairs|
      invariant 0 <= n <= |pairs|
      invariant a == SetAll([], pairs[..n])
    {
      assert pairs[..n + 1][..n] == pairs[..n];
      a := Set(a, pairs[n].0, pairs[n].1);
      n := n + 1;
    }
    assert pairs[..n] == pairs;
  }

  lemma {:induction false} SetAllConcat(acc: PArray, p: seq<(Key, Value)>, q: seq<(Key, Value)>)
    ensures SetAll(acc, p + q) == SetAll(SetAll(acc, p), q)
    decreases |q|
  {
    if q == [] {
      assert p + q == p;
    } else {
      assert (p + q)[..|p + q| - 1] == p + q[..|q| - 1];
      assert (p + q)[|p + q| - 1] == q[|q| - 1];
      SetAllConcat(acc, p, q[..|q| - 1]);
    }
  }

  lemma {:induction false} SetAllKeepsUnique(acc: PArray, ps: seq<(Key, Value)>)
    requires UniqueKeys(acc)
    ensures UniqueKeys(SetAll(acc, ps))
    decreases |ps|
  {
    if ps != [] {
      SetAllKeepsUnique(acc, ps[..|ps| - 1]);
      SetKeepsUnique(SetAll(acc, ps[..|ps| - 1]), ps[|ps| - 1].0, ps[|ps| - 1].1);
    }
  }

  /** Writing pairs with fresh, distinct keys only appends them. */
  lemma {:induction false} SetAllFresh(acc: PArray, ps: seq<(Key, Value)>)
    requires UniqueKeys(acc + ps)
    ensures SetAll(acc, ps) == acc + ps
    decreases |ps|
  {
    if ps != [] {
      var init := ps[..|ps| - 1];
      assert acc + ps == (acc + init) + [ps[|ps| - 1]];
      assert UniqueKeys(acc + init) by {
        forall i, j | 0 <= i < j < |acc + init|
          ensures (acc + init)[i].0 != (acc + init)[j].0
        {
          assert (acc + init)[i] == (acc + ps)[i];
          assert (acc + init)[j] == (acc + ps)[j];
        }
      }
      SetAllFresh(acc, init);
      var last := ps[|ps| - 1];
      assert !HasKey(acc + init, last.0) by {
        forall i | 0 <= i < |acc + init| ensures (acc + init)[i].0 != last.0 {
          assert (acc + init)[i] == (acc + ps)[i];
          assert last == (acc + ps)[|acc + ps| - 1];
        }
      }
    }
  }

  lemma MaterialiseUnique(ps: seq<(Key, Value)>)
    requires UniqueKeys(ps)
    ensures Materialise(ps) == ps
  {
    assert [] + ps == ps;
    SetAllFresh([], ps);
  }

  // ---- `$a[] = $v` ----

  predicate HasIntKey(a: PArray) {
    exists i :: 0 <= i < |a| && a[i].0.IntKey?
  }

  /** The largest integer key. */
  function MaxIntKey(a: PArray): (m: int)
    requires HasIntKey(a)
    ensures exists i :: 0 <= i < |a| && a[i].0 == IntKey(m)
    ensures forall i :: 0 <= i < |a| && a[i].0.IntKey? ==> a[i].0.i <= m
    decreases |a|
  {
    var last := a[|a| - 1];
    var init := a[..|a| - 1];
    if !HasIntKey(init) then
      assert last.0.IntKey? by {
        assert forall i :: 0 <= i < |a| - 1 ==> a[i] == init[i];
        var i :| 0 <= i < |a| && a[i].0.IntKey?;
      }
      assert forall i :: 0 <= i < |init| ==> !init[i].0.IntKey?;
      last.0.i
    else
      var m := MaxIntKey(init);
      assert forall i :: 0 <= i < |a| - 1 ==> a[i] == init[i];
      if last.0.IntKey? && last.0.i > m then last.0.i else m
  }

  /** The key `$a[] = ...` uses: one past the largest integer key, 0 when there is none. */
  function NextIndex(a: PArray): int {
    if HasIntKey(a) then MaxIntKey(a) + 1 else 0
  }

  lemma NextIndexFresh(a: PArray)
    ensures !HasKey(a, IntKey(NextIndex(a)))
  {
    if HasKey(a, IntKey(NextIndex(a))) {
      var i :| 0 <= i < |a| && a[i].0 == IntKey(NextIndex(a));
    }
  }

  /** Every integer key fits PHP's 64-bit integers, as in every array PHP can build. */
  predicate IntKeysInRange(a: PArray) {
    forall i :: 0 <= i < |a| && a[i].0.IntKey? ==> -PhpIntMax - 1 <= a[i].0.i <= PhpIntMax
  }

  /** `$a[] = $v` has no next index left: an integer key is already `PHP_INT_MAX`.
      PHP then throws instead of appending. */
  predicate NextIndexOccupied(a: PArray) {
    exists i :: 0 <= i < |a| && a[i].0.IntKey? && a[i].0.i >= PhpIntMax
  }

  /** Over a PHP-sized array, the append fails exactly when `PHP_INT_MAX` is a key. */
  lemma NextIndexOccupiedIff(a: PArray)
    requires IntKeysInRange(a)
    ensures NextIndexOccupied(a) <==> HasKey(a, IntKey(PhpIntMax))
  {
    if NextIndexOccupied(a) {
      var i :| 0 <= i < |a| && a[i].0.IntKey? && a[i].0.i >= PhpIntMax;
      assert a[i].0 == IntKey(PhpIntMax);
    }
    if HasKey(a, IntKey(PhpIntMax)) {
      var i :| 0 <= i < |a| && a[i].0 == IntKey(PhpIntMax);
      assert a[i].0.IntKey? && a[i].0.i >= PhpIntMax;
    }
  }

  /** An append that does not fail keeps the keys within PHP's integers. */
  lemma AppendInRange(a: PArray, v: Value)
    requires IntKeysInRange(a) && !NextIndexOccupied(a)
    ensures IntKeysInRange(Append(a, v))
  {
    var r := Append(a, v);
    forall i | 0 <= i < |r| && r[i].0.IntKey?
      ensures -PhpIntMax - 1 <= r[i].0.i <= PhpIntMax
    {
      if i < |a| {
        assert r[i] == a[i];
      } else if HasIntKey(a) {
        var j :| 0 <= j < |a| && a[j].0 == IntKey(MaxIntKey(a));
      }
    }
  }

  /** `$a[] = $v` when a next index is free. */
  function Append(a: PArray, v: Value): (r: PArray)
    ensures r == a + [(IntKey(NextIndex(a)), v)]
  {
    NextIndexFresh(a);
    Set(a, IntKey(NextIndex(a)), v)
  }

  // ---- renumbering: array_unshift, array_reverse, array_merge ----

  /** The integers start, start+1, ..., start+n-1. */
  function Range(start: int, n: nat): seq<int>
  {
    seq(n, j => start + j)
  }

  lemma RangeCons(start: int, n: nat)
    ensures [start] + Range(start + 1, n) == Range(start, n + 1)
  {
  }

  /** The integer keys of an array, in order. */
  function IntKeysOf(a: PArray): seq<int>
    decreases |a|
  {
    if a == [] then [] else (if a[0].0.IntKey? then [a[0].0.i] else []) + IntKeysOf(a[1..])
  }

  lemma {:induction false} IntKeysOfConcat(a: PArray, b: PArray)
    ensures IntKeysOf(a + b) == IntKeysOf(a) + IntKeysOf(b)
    decreases |a|
  {
    if a != [] {
      assert (a + b)[1..] == a[1..] + b;
      IntKeysOfConcat(a[1..], b);
      var h := if a[0].0.IntKey? then [a[0].0.i] else [];
      assert IntKeysOf(a + b) == h + (IntKeysOf(a[1..]) + IntKeysOf(b));
      assert h + (IntKeysOf(a[1..]) + IntKeysOf(b)) == (h + IntKeysOf(a[1..])) + IntKeysOf(b);
    } else {
      assert a + b == b;
    }
  }

  /** Reversing an array reverses its integer keys. */
  lemma {:induction false} IntKeysReversed(a: PArray)
    ensures IntKeysOf(Reversed(a)) == Reversed(IntKeysOf(a))
    decreases |a|
  {
    if a != [] {
      assert Reversed(a) == Reversed(a[1..]) + [a[0]];
      IntKeysReversed(a[1..]);
      IntKeysOfConcat(Reversed(a[1..]), [a[0]]);
      assert [a[0]][1..] == [];
      var h := if a[0].0.IntKey? then [a[0].0.i] else [];
      assert Reversed(h + IntKeysOf(a[1..])) == Reversed(IntKeysOf(a[1..])) + Reversed(h);
    }
  }

  /** Integer keys replaced by start, start+1, ... in order; string keys kept. */
  function Renumber(a: PArray, start: int): (r: PArray)
    ensures |r| == |a|
    ensures forall i :: 0 <= i < |a| ==> r[i].1 == a[i].1
    ensures forall i :: 0 <= i < |a| && a[i].0.StrKey? ==> r[i].0 == a[i].0
    ensures forall i :: 0 <= i < |a| ==> r[i].0.IntKey? == a[i].0.IntKey?
    ensures IntKeysOf(r) == Range(start, |IntKeysOf(a)|)
    decreases |a|
  {
    if a == [] then []
    else
      var c := |IntKeysOf(a[1..])|;
      if a[0].0.IntKey? then
        var rest := Renumber(a[1..], start + 1);
        var r := [(IntKey(start), a[0].1)] + rest;
        assert r[1..] == rest;
        RangeCons(start, c);
        r
      else
        var rest := Renumber(a[1..], start);
        var r := [a[0]] + rest;
        assert r[1..] == rest;
        r
  }

  /** Values under the consecutive integer keys c, c+1, ... */
  function NumberedFrom(c: int, vs: seq<Value>): (r: PArray)
    ensures |r| == |vs| && forall j :: 0 <= j < |vs| ==> r[j] == (IntKey(c + j), vs[j])
  {
    seq(|vs|, j requires 0 <= j < |vs| => (IntKey(c + j), vs[j]))
  }

  /** Values numbered from 0: a PHP list. */
  function Numbered(vs: seq<Value>): (r: PArray)
    ensures |r| == |vs| && forall j :: 0 <= j < |vs| ==> r[j] == (IntKey(j), vs[j])
  {
    NumberedFrom(0, vs)
  }

  /** Writing the next consecutive key of a numbered run appends to the run. */
  lemma SetNumberedNext(c: int, vs: seq<Value>, v: Value)
    ensures Set(NumberedFrom(c, vs), IntKey(c + |vs|), v) == NumberedFrom(c, vs + [v])
  {
    var a := NumberedFrom(c, vs);
    assert !HasKey(a, IntKey(c + |vs|)) by {
      forall i | 0 <= i < |a| ensures a[i].0 != IntKey(c + |vs|) { }
    }
  }

  predicate AllIntKeys(a: PArray) {
    forall i :: 0 <= i < |a| ==> a[i].0.IntKey?
  }

  lemma {:induction false} RenumberAllInt(a: PArray, start: int)
    requires AllIntKeys(a)
    ensures forall j :: 0 <= j < |a| ==> Renumber(a, start)[j] == (IntKey(start + j), a[j].1)
    decreases |a|
  {
    if a != [] {
      assert AllIntKeys(a[1..]) by {
        forall i | 0 <= i < |a[1..]| ensures a[1..][i].0.IntKey? { assert a[1..][i] == a[i + 1]; }
      }
      RenumberAllInt(a[1..], start + 1);
    }
  }

  lemma ValsCons(x: (Key, Value), a: PArray)
    ensures Vals([x] + a) == [x.1] + Vals(a)
  {
    assert forall i :: 1 <= i <= |a| ==> ([x] + a)[i] == a[i - 1];
  }

  lemma ValsRenumber(a: PArray, start: int)
    ensures Vals(Renumber(a, start)) == Vals(a)
  {
  }

  lemma IntKeysCons(i: int, v: Value, a: PArray)
    ensures IntKeysOf([(IntKey(i), v)] + a) == [i] + IntKeysOf(a)
  {
    assert ([(IntKey(i), v)] + a)[1..] == a;
  }

  lemma IntKeysConsRange(i: int, v: Value, rest: PArray, n: nat)
    requires IntKeysOf(rest) == Range(i + 1, n)
    ensures IntKeysOf([(IntKey(i), v)] + rest) == Range(i, n + 1)
  {
    IntKeysCons(i, v, rest);
    RangeCons(i, n);
  }

  /** `array_unshift($a, $v)`: `v` first under key 0, integer keys renumbered from 1. */
  function Unshift(a: PArray, v: Value): (r: PArray)
    ensures |r| == |a| + 1 && r[0] == (IntKey(0), v)
    ensures Vals(r) == [v] + Vals(a)
    ensures r[1..] == Renumber(a, 1)
    ensures IntKeysOf(r) == Range(0, |IntKeysOf(a)| + 1)
  {
    var rest := Renumber(a, 1);
    ValsCons((IntKey(0), v), rest);
    ValsRenumber(a, 1);
    IntKeysConsRange(0, v, rest, |IntKeysOf(a)|);
    assert ([(IntKey(0), v)] + rest)[1..] == rest;
    [(IntKey(0), v)] + rest
  }

  function Reversed<T>(s: seq<T>): (r: seq<T>)
    ensures |r| == |s| && forall i :: 0 <= i < |s| ==> r[i] == s[|s| - 1 - i]
  {
    seq(|s|, i requires 0 <= i < |s| => s[|s| - 1 - i])
  }

  /** `array_reverse($a, $preserve)`: with `preserve` the entries are reversed with
      their keys; without it, integer keys are renumbered 0, 1, ... in the new order,
      while string keys always travel with their values. */
  function ArrayReverse(a: PArray, preserve: bool): (r: PArray)
    ensures |r| == |a| && Vals(r) == Reversed(Vals(a))
    ensures preserve ==> forall i :: 0 <= i < |a| ==> r[i] == a[|a| - 1 - i]
    ensures !preserve ==> forall i :: 0 <= i < |a| && a[|a| - 1 - i].0.StrKey? ==> r[i] == a[|a| - 1 - i]
    ensures !preserve ==> forall i :: 0 <= i < |a| ==> r[i].0.IntKey? == a[|a| - 1 - i].0.IntKey?
    ensures !preserve ==> IntKeysOf(r) == Range(0, |IntKeysOf(a)|)
  {
    IntKeysReversed(a);
    var r := if preserve then Reversed(a) else Renumber(Reversed(a), 0);
    assert forall i :: 0 <= i < |r| ==> Vals(r)[i] == Reversed(Vals(a))[i];
    r
  }

  /** What `array_merge` does with each pair: integer keys are appended under the next
      index, string keys are written with `$r[$k] = $v` (a later value overwrites in place). */
  function MergeAll(acc: PArray, ps: seq<(Key, Value)>): PArray
    decreases |ps|
  {
    if ps == [] then acc
    else
      var r := MergeAll(acc, ps[..|ps| - 1]);
      var last := ps[|ps| - 1];
      if last.0.IntKey? then Append(r, last.1) else Set(r, last.0, last.1)
  }

  /** `array_merge($a, $b)`. */
  function ArrayMerge(a: PArray, b: PArray): PArray {
    MergeAll([], a + b)
  }

  /** Reading a key of a unique-keyed array knows only the last entry and the rest. */
  lemma GetSnoc(ps: PArray, k: Key)
    requires ps != [] && UniqueKeys(ps)
    ensures HasKey(ps, k) <==> HasKey(ps[..|ps| - 1], k) || ps[|ps| - 1].0 == k
    ensures Get(ps, k) == if ps[|ps| - 1].0 == k then Some(ps[|ps| - 1].1) else Get(ps[..|ps| - 1], k)
  {
    var init, last := ps[..|ps| - 1], ps[|ps| - 1];
    assert forall i :: 0 <= i < |init| ==> init[i] == ps[i];
    if HasKey(ps, k) {
      var i :| 0 <= i < |ps| && ps[i].0 == k;
      if i < |init| { assert init[i].0 == k; }
    }
    if last.0 == k {
      var r := IndexOf(ps, k);
      assert r == |ps| - 1;
    } else if HasKey(init, k) {
      var r1, r2 := IndexOf(ps, k), IndexOf(init, k);
      assert ps[r2].0 == k;
      assert r1 < |init| && init[r1].0 == k;
    }
  }

  lemma {:induction false} MergeAllConcat(acc: PArray, p: seq<(Key, Value)>, q: seq<(Key, Value)>)
    ensures MergeAll(acc, p + q) == MergeAll(MergeAll(acc, p), q)
    decreases |q|
  {
    if q == [] {
      assert p + q == p;
    } else {
      var qi := q[..|q| - 1];
      assert (p + q)[..|p + q| - 1] == p + qi;
      assert (p + q)[|p + q| - 1] == q[|q| - 1];
      MergeAllConcat(acc, p, qi);
    }
  }

  lemma {:induction false} MergeAllUnique(acc: PArray, ps: seq<(Key, Value)>)
    requires UniqueKeys(acc)
    ensures UniqueKeys(MergeAll(acc, ps))
    decreases |ps|
  {
    if ps != [] {
      var init, last := ps[..|ps| - 1], ps[|ps| - 1];
      MergeAllUnique(acc, init);
      var r := MergeAll(acc, init);
      if last.0.IntKey? {
        SetKeepsUnique(r, IntKey(NextIndex(r)), last.1);
      } else {
        SetKeepsUnique(r, last.0, last.1);
      }
    }
  }

  /** Under a string key, merging leaves the value of the last pair with that key,
      or the accumulated value when no pair has it. */
  lemma {:induction false} MergeAllGetStr(acc: PArray, ps: PArray, k: Key)
    requires UniqueKeys(acc) && UniqueKeys(ps) && k.StrKey?
    ensures Get(MergeAll(acc, ps), k) == if HasKey(ps, k) then Get(ps, k) else Get(acc, k)
    decreases |ps|
  {
    if ps != [] {
      var init, last := ps[..|ps| - 1], ps[|ps| - 1];
      assert UniqueKeys(init) by { assert forall i :: 0 <= i < |init| ==> init[i] == ps[i]; }
      MergeAllGetStr(acc, init, k);
      MergeAllUnique(acc, init);
      GetSnoc(ps, k);
      var r := MergeAll(acc, init);
      if last.0.IntKey? {
        GetAfterSet(r, IntKey(NextIndex(r)), last.1, k);
      } else {
        GetAfterSet(r, last.0, last.1, k);
      }
    }
  }

  /** `array_merge($a, $b)` under a string key: the second array's value wins, and a
      key only the first array has keeps its value. */
  lemma ArrayMergeStrKey(a: PArray, b: PArray, k: Key)
    requires UniqueKeys(a) && UniqueKeys(b) && k.StrKey?
    ensures Get(ArrayMerge(a, b), k) == if HasKey(b, k) then Get(b, k) else Get(a, k)
  {
    MergeAllConcat([], a, b);
    MergeAllGetStr([], a, k);
    MergeAllUnique([], a);
    MergeAllGetStr(MergeAll([], a), b, k);
  }

  // ---- array_reduce ----

  /** `array_reduce($a, $fn, $init)`: `fn` folded over the values from the left. */
  function Reduce<A>(a: PArray, fn: (A, Value) -> A, init: A): A
    decreases |a|
  {
    if a == [] then init else fn(Reduce(a[..|a| - 1], fn, init), a[|a| - 1].1)
  }

  // ---- sorting ----

  /** `cmp(x, y) <= 0` read as "x may come before y" is total and transitive. */
  ghost predicate TotalPreorder<T(!new)>(cmp: (T, T) -> int) {
    (forall x, y :: cmp(x, y) <= 0 || cmp(y, x) <= 0) &&
    (forall x, y, z :: cmp(x, y) <= 0 && cmp(y, z) <= 0 ==> cmp(x, z) <= 0)
  }

  ghost predicate SortedBy<T>(s: seq<T>, cmp: (T, T) -> int) {
    forall i, j :: 0 <= i < j < |s| ==> cmp(s[i], s[j]) <= 0
  }

  function Insert<T>(x: T, s: seq<T>, cmp: (T, T) -> int): (r: seq<T>)
    ensures multiset(r) == multiset(s) + multiset{x}
    decreases |s|
  {
    if s == [] then [x]
    else if cmp(x, s[0]) <= 0 then [x] + s
    else
      assert s == [s[0]] + s[1..];
      [s[0]] + Insert(x, s[1..], cmp)
  }

  /** The order a PHP sort by comparator `cmp` leaves: a permutation of the input,
      sorted when `cmp` is a total preorder. Ties are broken one fixed way. */
  function SortBy<T>(s: seq<T>, cmp: (T, T) -> int): (r: seq<T>)
    ensures multiset(r) == multiset(s)
    decreases |s|
  {
    if s == [] then []
    else
      assert s == [s[0]] + s[1..];
      Insert(s[0], SortBy(s[1..], cmp), cmp)
  }

  /** A sorted list stays sorted with an element in front that precedes all of it. */
  lemma SortedCons<T>(y: T, r: seq<T>, cmp: (T, T) -> int)
    requires SortedBy(r, cmp)
    requires forall z :: z in multiset(r) ==> cmp(y, z) <= 0
    ensures SortedBy([y] + r, cmp)
  {
    forall i, j | 0 <= i < j < |[y] + r| ensures cmp(([y] + r)[i], ([y] + r)[j]) <= 0 {
      assert ([y] + r)[j] == r[j - 1];
      if i == 0 {
        assert r[j - 1] in multiset(r);
      } else {
        assert ([y] + r)[i] == r[i - 1];
      }
    }
  }

  lemma SortedTail<T>(s: seq<T>, cmp: (T, T) -> int)
    requires s != [] && SortedBy(s, cmp)
    ensures SortedBy(s[1..], cmp)
    ensures forall z :: z in multiset(s[1..]) ==> cmp(s[0], z) <= 0
  {
    forall i, j | 0 <= i < j < |s[1..]| ensures cmp(s[1..][i], s[1..][j]) <= 0 {
      assert s[1..][i] == s[i + 1] && s[1..][j] == s[j + 1];
    }
    forall z | z in multiset(s[1..]) ensures cmp(s[0], z) <= 0 {
      var j :| 0 <= j < |s[1..]| && s[1..][j] == z;
      assert s[j + 1] == z;
    }
  }

  lemma {:induction false} InsertSorted<T(!new)>(x: T, s: seq<T>, cmp: (T, T) -> int)
    requires TotalPreorder(cmp) && SortedBy(s, cmp)
    ensures SortedBy(Insert(x, s, cmp), cmp)
    decreases |s|
  {
    if s != [] {
      if cmp(x, s[0]) <= 0 {
        InsertFront(x, s, cmp);
      } else {
        SortedTail(s, cmp);
        InsertSorted(x, s[1..], cmp);
        InsertBehind(x, s, cmp);
      }
    }
  }

  /** x goes in front of a sorted list whose head it may precede. */
  lemma InsertFront<T(!new)>(x: T, s: seq<T>, cmp: (T, T) -> int)
    requires TotalPreorder(cmp) && SortedBy(s, cmp) && s != [] && cmp(x, s[0]) <= 0
    ensures SortedBy([x] + s, cmp)
  {
    SortedTail(s, cmp);
    assert s == [s[0]] + s[1..];
    forall z | z in multiset(s) ensures cmp(x, z) <= 0 {
      if z != s[0] { assert z in multiset(s[1..]); }
    }
    SortedCons(x, s, cmp);
  }

  /** The head of a sorted list stays in front when x goes in behind it. */
  lemma InsertBehind<T(!new)>(x: T, s: seq<T>, cmp: (T, T) -> int)
    requires TotalPreorder(cmp) && s != [] && cmp(x, s[0]) > 0
    requires forall z :: z in multiset(s[1..]) ==> cmp(s[0], z) <= 0
    requires SortedBy(Insert(x, s[1..], cmp), cmp)
    ensures SortedBy([s[0]] + Insert(x, s[1..], cmp), cmp)
  {
    var r := Insert(x, s[1..], cmp);
    forall z | z in multiset(r) ensures cmp(s[0], z) <= 0 {
      assert z in multiset(s[1..]) + multiset{x};
    }
    SortedCons(s[0], r, cmp);
  }

  lemma {:induction false} SortBySorted<T(!new)>(s: seq<T>, cmp: (T, T) -> int)
    requires TotalPreorder(cmp)
    ensures SortedBy(SortBy(s, cmp), cmp)
    decreases |s|
  {
    if s != [] {
      SortBySorted(s[1..], cmp);
      InsertSorted(s[0], SortBy(s[1..], cmp), cmp);
    }
  }
}
