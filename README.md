# php-utils-chain in Dafny

A model of the chainable collection library `php-utils-chain` with proofs about it. The model has five parts:

- **The eager chain** of `src/Chain.php`.
  - Builder methods append operator records to a pending list.
  - `toArray` folds the pending operators over the stored items in `applyOperators`, then empties the list.
  - There are two kinds of operator:
    - per-element callable objects, which carry counters and a seen-list of their own;
    - whole-array callables.
  - The operator records are the value classes of `src/Functor`.
- **The memoising generator** of `src/Generator.php`.
  - Every traversal first replays the cached `(key, value)` pairs.
  - It then pulls the remaining pairs from a one-shot iterator, caching each pair under its key before yielding it.
- **The mutable lazy chain** of `src/ChainMutable.php`.
  - It holds a stack `operatorsChain` of memoising stages over a base generator.
  - Each builder pushes one stage and returns the chain itself.
  - Reading the chain resets the stack to the base.
- **The immutable lazy chain** of `src/ChainImmutable.php`.
  - Each builder returns a new chain whose generator reads the receiver's generator.
- **The string wrapper** of `src/StringChain.php`, restricted to ASCII.

The Dafny modules follow that structure:

| module | file | what it holds |
|---|---|---|
| `PhpValues` | `php_values.dfy` | keys, values, strict equality, truthiness, the exceptions |
| `PhpArrays` | `php_arrays.dfy` | PHP arrays as ordered key/value lists, and the built-in array functions |
| `Functor` | `functor.dfy` | the operator records |
| `ChainOperators` | `chain_operators.dfy` | what each eager operator computes, as pure functions, and the fold `Pipeline` |
| `ChainOperatorFacts` | `chain_operator_facts.dfy` | what those operators promise |
| `EagerChain` | `eager_chain.dfy` | the eager chain as classes: `Chain` with `items` and `operators`, and `Stepper` (a per-element callable with its mutable fields) |
| `Memo` | `memo.dfy` | the memoising generator, a class |
| `LazyChains` | `lazy_chains.dfy` | `ChainImmutable` and `ChainMutable` |
| `StringChains` | `string_chain.dfy` | the string wrapper, a datatype with member functions |

Things the running program takes from outside become parameters:

- **The environment.** `Env` bundles what comes from PHP itself:
  - `<=>` on values and on keys;
  - the Symfony property reader used by `sortByProperty`.
- **The user callbacks.** They are pure functions.
- **The lazy chains' stage bodies.** These come from stage factories in a base class that is not part of this model, so they are the fields of `LazyChains.Stages`.
- **The randomness of `StringChain::random`.** The values it draws are the parameter `draws`.

Notes on how the code is read:

- **Truthiness.** `filter` keeps values that are not `== false`. The model follows the code, so the string `"0"` is falsy too, as PHP has it.
- **Null results.** `applyOperators` drops any per-element result whose key or value is null, but the operator's counter still advances. So `values()` over `[null, 1]` gives `[1 => 1]` (`ChainOperatorFacts.ValuesSkipsNull`).
- **`sortByProperty`.**
  - It checks its direction when its callable object is constructed, so at call time (`src/Chain.php:509-517`).
  - It files its operator under the `sortValues` tag.
  - `sortValues` and `sortKeys` check their direction only when the pipeline runs.
- **When `merge` operands are read.**
  - In the eager chain, `merge`'s operand chain is read when the pipeline runs.
  - `intersect` materialises its operand chain when the operator is built.
  - The lazy chains read every operand of `merge`, `intersect`, `intersectKeepIndexes` and `diff` when the builder is called.
- **Unique keys.** A PHP array is a `seq<(Key, Value)>` whose keys the model keeps unique (`UniqueKeys`).
  - `$a[$k] = $v` is `PhpArrays.Set`: it overwrites in place or appends.
  - `$a[] = $v` uses one past the largest integer key, or 0 when there is none.

## Model

| member | source | states |
|---|---|---|
| PhpValues.ValueKey | src/Chain.php:292-294 | a non-null emitted key is usable exactly when it is an int, string or bool; an int or string is its own key, true and false are 1 and 0, an array or object raises |
| PhpValues.KeyValueRoundTrip | src/Chain.php:162-177 | a key read back as a value (as `keys()` and `flip()` yield it) is non-null and writes back as the same key |
| PhpValues.Truthy | src/Chain.php:95-106 | filter's `== false` test: null, false, 0, "", "0" and the empty array are falsy |
| PhpValues.KeyValue | src/Chain.php:162-177 | a key read back as a value: an integer key as an int, a string key as a string |
| PhpValues.PhpMod | src/Chain.php:318-337 | PHP's `%` truncates: the remainder takes the dividend's sign, is smaller than the divisor in magnitude, and is what the truncated quotient (`TruncDiv`) leaves: a = b * TruncDiv(a, b) + r |
| PhpValues.IntToString | src/Chain.php:509-517 | the decimal form interpolated into the exception messages starts with '-' exactly for negatives, and its digits denote the absolute value |
| PhpValues.NatToString | src/Chain.php:509-517 | non-empty, all decimal digits, no leading zero, and the digits denote n (`DigitsValue`) |
| PhpArrays.Keys | src/Chain.php:290 | the keys of an array, position by position |
| PhpArrays.Vals | src/Chain.php:290 | the values of an array, position by position |
| PhpArrays.IndexOf | src/Chain.php:345-348 | the position of the first entry with key k, and no earlier entry has it |
| PhpArrays.Set | src/Chain.php:292-294 | `$a[$k] = $v`: overwrite in place when the key exists, else append |
| PhpArrays.SetAll | src/Chain.php:290-295 | a run of `$a[$k] = $v` writes, in order |
| PhpArrays.Materialise | src/Chain.php:606-611 | the array a traversal's pairs collect into |
| PhpArrays.SetKeepsUnique | src/Chain.php:292-294 | `$a[$k] = $v` keeps the keys unique and leaves k present |
| PhpArrays.GetAfterSet | src/Chain.php:292-294 | after `$a[$k] = $v`, reading k gives v and every other key reads as before |
| PhpArrays.SetAllSnoc | src/Chain.php:290-295 | writing one more pair is one more `$a[$k] = $v` |
| PhpArrays.SetAllConcat | src/Chain.php:290-295 | writing p then q is writing p + q |
| PhpArrays.SetAllKeepsUnique | src/Chain.php:290-295 | a run of writes keeps the keys unique |
| PhpArrays.SetAllFresh | src/Chain.php:290-295 | writes under fresh, distinct keys only append |
| PhpArrays.MaterialiseUnique | src/Chain.php:606-611 | collecting a traversal whose keys are distinct gives back exactly its pairs |
| PhpArrays.Collect | src/Chain.php:606-611 | the `foreach ... $chain[$index] = $item` loop leaves the materialised array |
| PhpArrays.MaxIntKey | src/Chain.php:403-417 | the largest integer key: it occurs, and no integer key exceeds it |
| PhpArrays.NextIndexFresh | src/Chain.php:403-417 | the key `$a[] = $v` uses is not yet in the array |
| PhpArrays.NextIndex | src/Chain.php:403-417 | the key `$a[] = $v` uses: one past the largest integer key, 0 when there is none |
| PhpArrays.Append | src/Chain.php:403-417 | `$a[] = $v`, when a next index is free, appends v under one past the largest integer key |
| PhpArrays.NextIndexOccupiedIff | src/Chain.php:410 | over an array whose integer keys fit 64 bits, `$a[] = $v` has no next index exactly when `PHP_INT_MAX` is already a key |
| PhpArrays.AppendInRange | src/Chain.php:410 | an append that does not fail keeps every integer key within PHP's 64-bit integers |
| PhpArrays.Renumber | src/Chain.php:419-432 | keeps the length, the values, the string keys and which positions hold integer keys; the integer keys become start, start+1, ... in order |
| PhpArrays.NumberedFrom | src/Chain.php:162-194 | values under consecutive integer keys c, c+1, ... |
| PhpArrays.Numbered | src/Chain.php:162-194 | values under 0..n-1: a PHP list |
| PhpArrays.SetNumberedNext | src/Chain.php:292-294 | writing the next consecutive key of a numbered run extends the run |
| PhpArrays.RenumberAllInt | src/Chain.php:419-432 | over integer keys only, renumbering from s gives keys s, s+1, ... with the values in order |
| PhpArrays.Unshift | src/Chain.php:419-432 | `array_unshift`: v first under key 0, then exactly `Renumber(a, 1)` (so string-keyed entries unchanged); the values are v then the old values, and the integer keys of the result are 0, 1, ... |
| PhpArrays.Reversed | src/Chain.php:365-376 | the reference reversal: position i holds the element n-1-i |
| PhpArrays.ArrayReverse | src/Chain.php:365-376 | `array_reverse`: values in reverse order; with preserve the entries keep their keys; without it string-keyed entries keep theirs and the integer keys become 0, 1, ... in the new order |
| PhpArrays.Insert | src/Chain.php:434-468 | insertion adds exactly one element (as a multiset) |
| PhpArrays.SortBy | src/Chain.php:434-468 | a sort by comparator is a permutation of its input |
| PhpArrays.SortedTail | src/Chain.php:434-468 | the tail of a sorted list is sorted and its head precedes all of it |
| PhpArrays.InsertSorted | src/Chain.php:434-468 | under a total preorder, inserting into a sorted list keeps it sorted |
| PhpArrays.SortBySorted | src/Chain.php:434-468 | under a total preorder, the sort's result is sorted |
| PhpArrays.MergeAll | src/Chain.php:393-396 | `array_merge` pair by pair: integer keys appended under the next index, string keys written in place |
| PhpArrays.ArrayMerge | src/Chain.php:393-396 | `array_merge($a, $b)` as that fold over a followed by b |
| PhpArrays.MergeAllUnique | src/Chain.php:393-396 | merging keeps the keys unique |
| PhpArrays.MergeAllGetStr | src/Chain.php:393-396 | under a string key, the merge holds the value of the pairs' entry with that key, or the accumulated value when they have none |
| PhpArrays.ArrayMergeStrKey | src/Chain.php:393-396 | `array_merge($a, $b)` under a string key: b's value wins, and a key only a has keeps a's value |
| Functor.NewOperator | src/Functor/Operator.php:45-65 | `getCallable` and `getAttributes` return exactly what was passed; the attributes default to the empty array |
| Functor.NewMapOperator | src/Functor/MapOperator.php:11-50 | construction succeeds exactly for the nine per-element tags, else "Unsupported type"; `getType`, the callable and the attributes are what was passed |
| Functor.NewIterableCallableOperator | src/Functor/IterableCallableOperator.php:12-38 | construction succeeds exactly for the six whole-array tags, else "Unsupported type"; `getType`, the callable and the attributes are what was passed |
| Functor.TypeTagsPartition | src/Functor/Operator.php:11-28 | the fifteen tags are distinct, and each belongs to exactly one of the two accepted sets |
| ChainOperators.FirstResolveError | src/Chain.php:538-544 | there is no error exactly when every entry's property can be read; otherwise the first failing read in array order |
| ChainOperators.Pipeline | src/Chain.php:284-307 | the fold reports one operator record per pending operator |
| ChainOperators.Step | src/Chain.php:291 | one call of a per-element callable: its fields afterwards and the emitted `[$index, $value]`, per operator kind |
| ChainOperators.FilterCall | src/Chain.php:92-116 | filter's `__invoke` |
| ChainOperators.UniqueCall | src/Chain.php:204-216 | unique's `__invoke` |
| ChainOperators.SliceCall | src/Chain.php:318-337 | slice's `__invoke` |
| ChainOperators.IntersectCall | src/Chain.php:252-263 | intersect's `__invoke` |
| ChainOperators.Write | src/Chain.php:292-294 | an emission is written unless its index or value is null; an array or object index raises |
| ChainOperators.RunSteps | src/Chain.php:290-295 | the inner `foreach` over the current array, stopping at the first error |
| ChainOperators.AppendCall | src/Chain.php:407-413 | append's callable: the Error when `PHP_INT_MAX` is already a key, else `$items[] = $value` (its properties are `ChainOperatorFacts.AppendEffect`) |
| ChainOperators.SortValuesCall | src/Chain.php:438-464 | sortValues' callable: `uasort` with the sorter, else `asort`/`arsort`, and the invalid-direction error (its properties are `ChainOperatorFacts.SortValuesEffect`) |
| ChainOperators.SortKeysCall | src/Chain.php:556-581 | sortKeys' callable: `uksort` with the sorter, else `ksort`/`krsort`, and the invalid-direction error (its properties are `ChainOperatorFacts.SortKeysEffect`) |
| ChainOperators.SortByPropertyCall | src/Chain.php:528-545 | sortByProperty's `__invoke`: `uasort` by the property read from each value, failing with a read error when two or more entries are compared (its properties are `ChainOperatorFacts.SortByPropertyEffect`) |
| ChainOperators.Whole | src/Chain.php:296-297 | each whole-array callable applied to the current array: reverse, merge, append (which throws when `PHP_INT_MAX` is already a key), prepend and the three sorts |
| ChainOperators.ApplyOne | src/Chain.php:289-297 | one round of the outer `foreach`, per operator kind |
| ChainOperatorFacts.WriteInt | src/Chain.php:292-294 | a non-null value emitted under an integer index is set under that integer key |
| ChainOperatorFacts.RunStepsSnoc | src/Chain.php:290-295 | the inner loop over n+1 entries is the loop over n entries and one more round |
| ChainOperatorFacts.FilterOnce | src/Chain.php:92-116 | one call of filter's callable: a falsy result drops the entry; a truthy one keeps its key (saveIndexes) or takes the next index |
| ChainOperatorFacts.UniqueOnce | src/Chain.php:204-216 | one call of unique's callable: a value already seen is dropped; a new one is recorded and keeps its key or takes the next index |
| ChainOperatorFacts.IntersectOnce | src/Chain.php:252-263 | one call of intersect's callable: a value absent from the operand is dropped; a present one keeps its key with the counter unchanged (saveIndexes) or takes the next index |
| ChainOperatorFacts.KeptEntries | src/Chain.php:92-116 | every entry filter keeps is an entry of the input |
| ChainOperatorFacts.FilterRenumbers | src/Chain.php:71-121 | `filter($cb)` gives the kept values under index, index+1, ...; the counter advances once per kept value |
| ChainOperatorFacts.FilterDefault | src/Chain.php:71-121 | `filter()` keeps exactly the values that are not loosely false, numbered from 0 |
| ChainOperatorFacts.KeptValuesMembers | src/Chain.php:92-116 | a value is kept exactly when it passes the test and occurs in the input |
| ChainOperatorFacts.FilterSavesIndexes | src/Chain.php:71-121 | `filter($cb, true)` gives the kept entries under their original keys |
| ChainOperatorFacts.KeyValues | src/Chain.php:162-177 | keys read back as values, position by position |
| ChainOperatorFacts.KeysRenumber | src/Chain.php:162-177 | `keys()` gives the keys, as values, under 0, 1, ... |
| ChainOperatorFacts.ValuesRenumber | src/Chain.php:179-194 | `values()` over non-null values gives the values under 0, 1, ... |
| ChainOperatorFacts.ValuesSkipsNull | src/Chain.php:290-295 | a null value is dropped but still uses up a number: `values()` over [null, 1] gives [1 => 1] |
| ChainOperatorFacts.Mapped | src/Chain.php:42-69 | mapping keeps every key and maps every value |
| ChainOperatorFacts.MapKeepsKeys | src/Chain.php:42-69 | `map($f)` with non-null results keeps the keys and maps the values |
| ChainOperatorFacts.ForEachIdentity | src/Chain.php:123-148 | `forEach` over non-null values returns the array unchanged |
| ChainOperatorFacts.Flipped | src/Chain.php:150-160 | each value becomes a key and each key a value, in order |
| ChainOperatorFacts.FlipFails | src/Chain.php:150-160 | `flip()` fails exactly when some value is an array or object, which cannot be a key |
| ChainOperatorFacts.FlipSwaps | src/Chain.php:150-160 | `flip()` over int and string values writes the swapped pairs in order, so a repeated value keeps its first position and its last key (tests/ChainTest.php:162-169) |
| ChainOperatorFacts.DedupEntries | src/Chain.php:204-216 | the first-occurrence entries are entries of the input, holding the deduplicated values |
| ChainOperatorFacts.UniqueRenumbers | src/Chain.php:196-221 | `unique()` gives each value's first occurrence under index, index+1, ...; the seen-list grows by exactly those values |
| ChainOperatorFacts.UniqueSavesIndexes | src/Chain.php:196-221 | `unique(true)` gives each value's first occurrence under its original key |
| ChainOperatorFacts.DedupDistinct | src/Chain.php:204-216 | the reference meaning of unique: no value twice, and exactly the values of the input that were not seen before |
| ChainOperatorFacts.SliceSelectsPositions | src/Chain.php:309-343 | `slice(f, l, s)` with s != 0 keeps the values at positions p with f <= p < l and (p - f) divisible by s, numbered from 0 |
| ChainOperatorFacts.SliceZeroStep | src/Chain.php:318-337 | a step of 0 fails with "Modulo by zero" exactly when some position lies in [f, l) |
| ChainOperatorFacts.SliceTail | src/Chain.php:318-337 | positions at or past the end of the range add nothing |
| ChainOperatorFacts.SliceExample | tests/ChainTest.php:204-208 | `slice(2, 5, 2)` over 0..100 gives [2, 4] |
| ChainOperatorFacts.SliceEntries | src/Chain.php:318-337 | the entries at the selected positions are entries of the input, holding exactly the selected values |
| ChainOperatorFacts.SliceSavesIndexes | src/Chain.php:309-343 | `slice(f, l, s, true)` with s != 0 gives the entries at the selected positions under their own keys |
| ChainOperatorFacts.IntersectRenumbers | src/Chain.php:223-268 | `intersect($chain)` gives the values present in the other array, under 0, 1, ... |
| ChainOperatorFacts.CommonEntries | src/Chain.php:252-263 | the entries whose values the other array holds are entries of the input, holding exactly those values |
| ChainOperatorFacts.IntersectSavesIndexes | src/Chain.php:223-268 | `intersect($chain, true)` gives those entries under their original keys, with the counter unchanged |
| ChainOperatorFacts.ReversedAllInt | src/Chain.php:365-376 | reversing keeps the keys all integers |
| ChainOperatorFacts.ReverseEffect | src/Chain.php:365-376 | `reverse(true)` reverses the entries with their keys; `reverse()` on an integer-keyed array gives the values reversed under 0..n-1 |
| ChainOperatorFacts.NextIndexNumbered | src/Chain.php:403-417 | the next index of a list is its length |
| ChainOperatorFacts.AppendList | src/Chain.php:403-417 | `append($v)` on a list extends the list |
| ChainOperatorFacts.AppendEffect | src/Chain.php:403-417 | `append($v)` over a PHP-sized array throws "Cannot add element to the array as the next element is already occupied" exactly when `PHP_INT_MAX` is a key; otherwise v is added under the next index and the keys stay within 64 bits |
| ChainOperatorFacts.AppendAtIntMax | src/Chain.php:410 | `Chain::of([PHP_INT_MAX => 'a'])->append('b')` throws that Error |
| ChainOperatorFacts.PrependList | src/Chain.php:419-432 | `prepend($v)` on a list puts v first and renumbers |
| ChainOperatorFacts.PrependThrice | tests/ChainTest.php:139-144 | `prepend(1)`, `prepend(2)`, `prepend(3)` on an empty chain give [3, 2, 1] |
| ChainOperatorFacts.MergeAllInts | src/Chain.php:393-396 | merging integer-keyed pairs into nothing gives their values as a list |
| ChainOperatorFacts.MergeLists | src/Chain.php:378-401 | `merge` of two integer-keyed arrays is the first's values followed by the second's, numbered from 0 |
| ChainOperatorFacts.Projected | src/Chain.php:538-544 | an order compared through a projection, either way round, is still a total preorder |
| ChainOperatorFacts.ValueOrders | src/Chain.php:434-468 | ordering entries by value, ascending or descending, or by key through a user comparator, is a total preorder when the comparison is |
| ChainOperatorFacts.KeyOrders | src/Chain.php:552-586 | ordering entries by key, either way round, is a total preorder when the key comparison is |
| ChainOperatorFacts.PropertyOrder | src/Chain.php:538-544 | sortByProperty's comparator is a total preorder when `<=>` is |
| ChainOperatorFacts.SortValuesEffect | src/Chain.php:434-468 | without a sorter an invalid direction fails, and only then; otherwise the entries are permuted into the comparator's order, each key staying with its value |
| ChainOperatorFacts.SortKeysEffect | src/Chain.php:552-586 | the same, ordering entries by key |
| ChainOperatorFacts.SortByPropertyEffect | src/Chain.php:528-545 | fails exactly when there are two or more entries and some property cannot be read; otherwise a permutation ordered by the property |
| ChainOperatorFacts.PipelineKeepsOperators | src/Chain.php:284-307 | running the pipeline changes only the per-element operators' fields: each operator keeps its kind and attributes |
| ChainOperatorFacts.PipelineStopsAtFailure | src/Chain.php:287-302 | once an operator fails, the ones after it are not run |
| ChainOperatorFacts.PipelineFailedSnoc | src/Chain.php:287-302 | past a failure, one more operator is carried over unchanged |
| ChainOperatorFacts.MapSquares | tests/ChainTest.php:38-57 | over [1..5], `map(v * v)` gives [1, 4, 9, 16, 25] |
| EagerChain.Stepper.constructor | src/Chain.php:56-59 | a new callable object has its counters at 0 and an empty seen-list |
| EagerChain.Stepper.Invoke | src/Chain.php:291 | one `__invoke` call changes the object's fields and returns the emission, as the operator's step function says |
| EagerChain.Stepper.RunOver | src/Chain.php:290-295 | the inner `foreach` loop leaves the fields and the array as the inner fold says, or stops at the first error |
| EagerChain.RunStepsStops | src/Chain.php:290-295 | once the inner fold fails, the remaining entries are not visited |
| EagerChain.RunWhole | src/Chain.php:296-297 | a whole-array callable applied to the current array computes the whole-array function |
| EagerChain.Chain.constructor | src/Chain.php:35-40 | a new chain holds the items and no operators |
| EagerChain.Chain.Snapshot | src/Chain.php:284-307 | one operator record per pending operator, with the callable's current fields |
| EagerChain.Chain.ApplyOperators | src/Chain.php:284-307 | the pending operators folded over the items; on success the list is emptied, on failure it stays with the fields the failing round left; the items never change; the chain stays valid |
| EagerChain.Chain.ApplyAt | src/Chain.php:287-302 | one round of the outer loop changes only the i-th operator's fields |
| EagerChain.Chain.ApplyStepAt | src/Chain.php:289-295 | a per-element round runs the callable over the array and changes only that callable's fields |
| EagerChain.Chain.ApplyWholeAt | src/Chain.php:296-297 | a whole-array round is a function of the array and changes nothing |
| EagerChain.Chain.ToArray | src/Chain.php:275-282 | the items themselves when nothing is pending, else the pipeline's result; the next pipeline starts from the same items; the chain stays valid, with every merge operand settled |
| EagerChain.Chain.AddStep | src/Chain.php:44-66 | a builder appends one per-element operator with the given tag and a fresh callable object, and leaves the earlier ones |
| EagerChain.Chain.AddWhole | src/Chain.php:367-373 | a builder appends one whole-array operator |
| EagerChain.Chain.Map | src/Chain.php:42-69 | appends a map operator with fresh fields and returns the chain itself |
| EagerChain.Chain.Filter | src/Chain.php:71-121 | appends a filter operator for the callback and saveIndexes flag |
| EagerChain.Chain.ForEach | src/Chain.php:123-148 | appends a forEach operator |
| EagerChain.Chain.Flip | src/Chain.php:150-160 | appends a flip operator |
| EagerChain.Chain.Keys | src/Chain.php:162-177 | appends a keys operator |
| EagerChain.Chain.Values | src/Chain.php:179-194 | appends a values operator |
| EagerChain.Chain.Unique | src/Chain.php:196-221 | appends a unique operator with the saveIndexes attribute |
| EagerChain.Chain.Slice | src/Chain.php:309-343 | appends a slice operator with the first, last, step and saveIndexes attributes |
| EagerChain.Chain.Intersect | src/Chain.php:223-268 | the other chain is materialised now; if that fails nothing is appended and the error is passed on, otherwise an intersect operator over that array is appended. The operand keeps its items and stays valid; on success nothing is pending on it, on failure its operators stay as the failing round left them |
| EagerChain.Chain.Reverse | src/Chain.php:365-376 | appends a reverse operator with the saveIndex attribute |
| EagerChain.Chain.Merge | src/Chain.php:378-401 | appends a merge operator that reads the other chain when the pipeline runs |
| EagerChain.Chain.Append | src/Chain.php:403-417 | appends an append operator with the value attribute |
| EagerChain.Chain.Prepend | src/Chain.php:419-432 | appends a prepend operator with the value attribute |
| EagerChain.Chain.SortValues | src/Chain.php:434-468 | appends a sortValues operator with the sorter, flags and direction attributes; the direction is not checked yet |
| EagerChain.Chain.SortKeys | src/Chain.php:552-586 | appends a sortKeys operator with the sorter, flags and direction attributes |
| EagerChain.Chain.SortByProperty | src/Chain.php:480-550 | fails now exactly for a direction other than SORT_ASC or SORT_DESC, appending nothing; otherwise appends the operator under the sortValues tag |
| EagerChain.Chain.HasValue | src/Chain.php:270-273 | whether the materialised array holds a value `===` to the given one, or the pipeline's error. The chain keeps its items and stays valid; on success nothing is pending, on failure the operators stay with the fields the failing round left. |
| EagerChain.Chain.HasKey | src/Chain.php:345-348 | whether the materialised array has the key, or the pipeline's error. The chain keeps its items and stays valid; on success nothing is pending, on failure the operators stay with the fields the failing round left. |
| EagerChain.Chain.Size | src/Chain.php:360-363 | the number of entries of the materialised array, or the pipeline's error. The chain keeps its items and stays valid; on success nothing is pending, on failure the operators stay with the fields the failing round left. |
| EagerChain.Chain.IsEmpty | src/Chain.php:355-358 | whether the materialised array is empty, or the pipeline's error. The chain keeps its items and stays valid; on success nothing is pending, on failure the operators stay with the fields the failing round left. |
| EagerChain.Chain.Reduce | src/Chain.php:350-353 | the callback folded over the materialised values from the left, or the pipeline's error. The chain keeps its items and stays valid; on success nothing is pending, on failure the operators stay with the fields the failing round left. |
| EagerChain.Chain.ToChain | src/Chain.php:588-591 | a fresh chain over this chain's materialised array, with nothing pending. The chain keeps its items and stays valid; on success nothing is pending, on failure the operators stay with the fields the failing round left. |
| EagerChain.Of | src/Chain.php:597-619 | null gives an empty chain and an array is used as it is; a traversable or chain is collected with `$chain[$index] = $item`; anything else raises "Invalid constructor argument". A chain argument keeps its items and stays valid; on success nothing is pending on it, on failure its operators stay as the failing round left them |
| EagerChain.SizeThenToArray | src/Chain.php:275-307 | after a successful `size()`, `toArray()` gives back the original items: the query consumed the pending operators and kept the items |
| EagerChain.PipelineStep | src/Chain.php:287-302 | one more successful round of the outer loop extends the fold by that operator |
| EagerChain.PipelineAdvance | src/Chain.php:287-302 | one round of the outer loop, on the operator records before and after; a failing round ends the fold |
| EagerChain.PipelineFails | src/Chain.php:287-302 | a failure within the first n operators is the whole pipeline's result, and the later operators keep their fields |
| Memo.StopAt | src/Generator.php:37-48 | the length at which a consumer stops lies between where it is and the end |
| Memo.ConsumerContinues | src/Generator.php:43-47 | a consumer that has not stopped takes the next item too |
| Memo.TakenWhenStopped | src/Generator.php:37-48 | where the consumer stopped or the items ran out, it has taken everything it will |
| Memo.PullingStep | src/Generator.php:43-47 | one more pair pulled: the consumer takes it and the cache records it with `$cache[$key] = ...` |
| Memo.PullingStopped | src/Generator.php:43-47 | when the consumer stops or the pairs run out, it has taken everything it will |
| Memo.StopAtTakeN | tests/Unit/GeneratorTest.php:26-69 | breaking after the n-th item stops at n, or at the end if there are fewer (or n is 0) |
| Memo.TakenTakeN | tests/Unit/GeneratorTest.php:26-69 | breaking after the n-th item gives the first n items, or all of them |
| Memo.StopAtUntil | src/ChainImmutable.php:87-96 | returning at the first `===` match stops right after the first match, and stops on a match exactly when there is one |
| Memo.TakenUntil | src/ChainImmutable.php:87-96 | the last item taken is the value exactly when the value occurs, and nothing before it is the value |
| Memo.PullKeepsContent | src/Generator.php:43-47 | moving pairs from the source into the cache changes nothing a full materialisation collects |
| Memo.PullKeepsYields | src/Generator.php:43-47 | with distinct keys, pulling only moves pairs from the source to the cache |
| Memo.AfterPull | src/Generator.php:37-48 | after a traversal the content is unchanged, the yields are unchanged for distinct keys, and the cache only grows with its existing keys in place |
| Memo.SetAllKeysGrow | src/Generator.php:44 | `$cache[$key] = ...` only grows the cache and keeps the existing keys in order |
| Memo.Source.Of | src/Generator.php:16-17 | an ArrayIterator over the pairs, at its start |
| Memo.Source.Over | src/ChainMutable.php:37-40 | a stage over an upstream generator that has not started |
| Memo.Generator.GensValid | src/Generator.php:14-35 | every generator a generator reads is consistent and within its footprint |
| Memo.Generator.FromIterator | src/Generator.php:30-31 | an Iterator is used as it is, with an empty cache; a full traversal yields its remaining pairs |
| Memo.Generator.Derived | src/ChainMutable.php:27 | a generator over a stage yields the stage applied to what its upstream yields, and nothing runs yet |
| Memo.Generator.New | src/Generator.php:14-35 | an array is wrapped in an ArrayIterator; an IteratorAggregate contributes its `getIterator()`, and an exception from it becomes a RuntimeException chaining the original; an Iterator is used as it is; anything else fails at construction with the Error of reading the unset typed property, which is where `assert` reads it when `zend.assertions` is on (with assertions compiled out, PHP constructs the object and raises the same Error on the first `getIterator()`, src/Generator.php:43) |
| Memo.AggregateFailure | src/Generator.php:18-29 | an `\Exception` from `getIterator()` becomes a RuntimeException naming the class and message and chaining the original; any other error passes through |
| Memo.Generator.Start | src/Generator.php:43 | a stage starts on the first `valid()`, reading its upstream through to the end; the content of every generator below stays the same |
| Memo.Generator.Pull | src/Generator.php:43-47 | the pull loop gives what the consumer takes; each new pair is cached under its key, and the iterator advances once per new pair |
| Memo.Generator.PullSettled | src/Generator.php:43-47 | after the pull loop, the content is unchanged and the cache only grew |
| Memo.Generator.PullLoop | src/Generator.php:43-47 | the loop on the cursor: the cursor moves once per pair taken, and the cache is the old cache with those pairs written |
| Memo.Generator.PullOne | src/Generator.php:44-46 | one round: the current pair is cached under its key and the iterator advances by one |
| Memo.Generator.Traverse | src/Generator.php:37-48 | a traversal gives what the consumer takes of the full sequence (a prefix); it changes no generator's content, keeps the sequence for distinct keys, only grows the cache and moves the cursor once per new pair |
| Memo.Generator.Resume | src/Generator.php:43-47 | after the replay, starting the iterator and pulling finishes the traversal with the same guarantees |
| Memo.Generator.Replay | src/Generator.php:39-41 | the replay yields the cached pairs in cache order, a prefix of the full sequence, until the consumer stops |
| Memo.CursorMoved | src/Generator.php:44-45 | moving a started generator's cursor and growing its cache keeps it consistent |
| Memo.OwnStateOnly | src/ChainImmutable.php:28-31 | a stage that changed only its own cache and iterator leaves every generator below it as it was |
| Memo.ContentFramed | src/Generator.php:37-48 | a generator none of whose objects changed yields the same |
| Memo.GensFramed | src/ChainImmutable.php:28-31 | a stack none of whose objects changed keeps every level's content |
| Memo.TraverseFirst | tests/Unit/GeneratorTest.php:26-69 | a traversal broken after n items gives the first n (or all), and the generator yields the same sequence afterwards |
| Memo.SequentialTraversals | tests/Unit/GeneratorTest.php:16-69 | traversals of one generator over 0..9 broken after 1, 5, 10 and 20 items give [0], [0..4], [0..9] and [0..9] |
| LazyChains.OfValues | src/ChainImmutable.php:111-127 | a single array argument is used as it is; otherwise the argument list, keyed 0..n-1, and no argument gives [] |
| LazyChains.NewGenerator | src/ChainImmutable.php:111-127 | the generator `of` wraps yields the argument's pairs; only an IteratorAggregate that throws fails; a chain argument contributes its `getIterator()`, which resets a mutable chain's stack |
| LazyChains.GeneratorOverMutable | src/ChainMutable.php:216-218 | a mutable chain argument contributes its former top stage, read through the identity, and its stack is reset |
| LazyChains.Operand | src/ChainImmutable.php:103 | `of(...)->toArray()` is the materialised pairs of the argument, or the IteratorAggregate's error |
| LazyChains.OperandOfMutable | src/ChainMutable.php:166 | reading a mutable operand runs its pending stages and resets its stack, keeping its base |
| LazyChains.ImmutableOver | src/ChainMutable.php:166 | a new immutable chain over a mutable chain's top stage; the mutable chain's stack is reset |
| LazyChains.ResetKeepsValid | src/ChainMutable.php:78 | a mutable chain reset to its base stays consistent while its base generator does |
| LazyChains.OperandOfImmutable | src/ChainImmutable.php:103 | reading an immutable operand gives its materialised pairs and keeps its content |
| LazyChains.ChainImmutable.constructor | src/ChainImmutable.php:11-14 | the chain wraps the given generator |
| LazyChains.ChainImmutable.Derive | src/ChainImmutable.php:28-31 | `new self($this->applyFn($fn))`: a fresh chain reading this one through the stage, with nothing evaluated yet |
| LazyChains.ChainImmutable.ToArray | src/ChainImmutable.php:44-52 | the full traversal's materialised array; it can be repeated, and the content of no chain below changes |
| LazyChains.ChainImmutable.HasValue | src/ChainImmutable.php:87-96 | true exactly when some yielded value is `===` to the given one; the content is unchanged |
| LazyChains.ChainImmutable.GetIterator | src/ChainImmutable.php:132-135 | the memoising generator itself, with nothing reset |
| LazyChains.ChainImmutable.ToChain | src/ChainImmutable.php:65-74 | a new chain over the identity stage, yielding the same pairs |
| LazyChains.ChainImmutable.Of | src/ChainImmutable.php:111-127 | a fresh chain yielding the argument's pairs, or the IteratorAggregate's error |
| LazyChains.ChainImmutable.Map | src/ChainImmutable.php:19-22 | a new chain over the map stage |
| LazyChains.ChainImmutable.Reverse | src/ChainImmutable.php:36-39 | a new chain over the reverse stage |
| LazyChains.ChainImmutable.Unique | src/ChainImmutable.php:57-60 | a new chain over the unique stage |
| LazyChains.ChainImmutable.Prepend | src/ChainImmutable.php:79-82 | a new chain over the prepend stage |
| LazyChains.ChainImmutable.Flip | src/ChainImmutable.php:140-143 | a new chain over the flip stage |
| LazyChains.ChainImmutable.Keys | src/ChainImmutable.php:148-151 | a new chain over the keys stage |
| LazyChains.ChainImmutable.Append | src/ChainImmutable.php:156-159 | a new chain over the append stage |
| LazyChains.ChainImmutable.SortKeys | src/ChainImmutable.php:164-170 | a new chain over the sortKeys stage |
| LazyChains.ChainImmutable.Slice | src/ChainImmutable.php:175-178 | a new chain over the slice stage |
| LazyChains.ChainImmutable.SortValues | src/ChainImmutable.php:183-189 | a new chain over the sortValues stage |
| LazyChains.ChainImmutable.Filter | src/ChainImmutable.php:194-197 | a new chain over the filter stage |
| LazyChains.ChainImmutable.ForEach | src/ChainImmutable.php:202-205 | a new chain over the forEach stage |
| LazyChains.ChainImmutable.Values | src/ChainImmutable.php:210-213 | a new chain over the values stage |
| LazyChains.ChainImmutable.SortByProperty | src/ChainImmutable.php:234-237 | a new chain over the sortByProperty stage |
| LazyChains.ChainImmutable.FlatMap | src/ChainImmutable.php:242-245 | a new chain over the flatMap stage |
| LazyChains.ChainImmutable.FrequencyAnalysis | src/ChainImmutable.php:250-253 | a new chain over the frequencyAnalysis stage |
| LazyChains.ChainImmutable.Mix | src/ChainImmutable.php:266-269 | a new chain over the mix stage |
| LazyChains.ChainImmutable.SetValue | src/ChainImmutable.php:274-277 | a new chain over the setValue stage |
| LazyChains.ChainImmutable.Remove | src/ChainImmutable.php:282-285 | a new chain over the remove stage |
| LazyChains.ChainImmutable.ReadOperand | src/ChainImmutable.php:103 | the operand, materialised now, or the IteratorAggregate's error; this chain's content is unchanged even when it is its own operand |
| LazyChains.ChainImmutable.Merge | src/ChainImmutable.php:101-104 | the operand is read now; a new chain over the merge stage with that array, or the operand's error |
| LazyChains.ChainImmutable.Intersect | src/ChainImmutable.php:218-221 | the same for intersect |
| LazyChains.ChainImmutable.IntersectKeepIndexes | src/ChainImmutable.php:226-229 | the same for intersectKeepIndexes |
| LazyChains.ChainImmutable.Diff | src/ChainImmutable.php:258-261 | the same for diff |
| LazyChains.ChainMutable.constructor | src/ChainMutable.php:16-20 | the stack holds just the base generator |
| LazyChains.ChainMutable.PushOver | src/ChainMutable.php:27 | one stage over the given generator is pushed on top, leaving the rest of the stack and the base |
| LazyChains.ChainMutable.GetIterator | src/ChainMutable.php:75-81 | returns the former top stage, and the stack is reset to the base at once |
| LazyChains.ChainMutable.TraverseTop | src/ChainMutable.php:75-81 | `foreach ($this ...)`: the stack is reset, then the former top stage is traversed for as long as the consumer takes pairs |
| LazyChains.ChainMutable.ResetStack | src/ChainMutable.php:240 | the stack is just the base again |
| LazyChains.ChainMutable.ToArray | src/ChainMutable.php:234-243 | the top stage's materialised array; the stack is reset, so the next pipeline starts from the base |
| LazyChains.ChainMutable.HasValue | src/ChainMutable.php:176-185 | true exactly when the top stage yields a value `===` to the given one; the stack is reset |
| LazyChains.ChainMutable.ToChain | src/ChainMutable.php:205-208 | a different chain whose base holds this chain's materialised array |
| LazyChains.ChainMutable.Of | src/ChainMutable.php:213-229 | a fresh chain whose base yields the argument's pairs, or the IteratorAggregate's error |
| LazyChains.ChainMutable.Map | src/ChainMutable.php:25-30 | returns the chain itself with one map stage pushed; the base is unchanged |
| LazyChains.ChainMutable.Reverse | src/ChainMutable.php:45-55 | the same with the reverse stage |
| LazyChains.ChainMutable.Values | src/ChainMutable.php:60-70 | the same with the values stage |
| LazyChains.ChainMutable.Filter | src/ChainMutable.php:86-96 | the same with the filter stage |
| LazyChains.ChainMutable.Slice | src/ChainMutable.php:101-111 | the same with the slice stage |
| LazyChains.ChainMutable.Append | src/ChainMutable.php:116-126 | the same with the append stage |
| LazyChains.ChainMutable.Keys | src/ChainMutable.php:131-141 | the same with the keys stage |
| LazyChains.ChainMutable.Flip | src/ChainMutable.php:146-156 | the same with the flip stage |
| LazyChains.ChainMutable.Prepend | src/ChainMutable.php:190-200 | the same with the prepend stage |
| LazyChains.ChainMutable.Unique | src/ChainMutable.php:248-258 | the same with the unique stage |
| LazyChains.ChainMutable.SortValues | src/ChainMutable.php:293-303 | the same with the sortValues stage |
| LazyChains.ChainMutable.SortKeys | src/ChainMutable.php:308-318 | the same with the sortKeys stage |
| LazyChains.ChainMutable.SortByProperty | src/ChainMutable.php:323-334 | the same with the sortByProperty stage |
| LazyChains.ChainMutable.FlatMap | src/ChainMutable.php:339-349 | the same with the flatMap stage |
| LazyChains.ChainMutable.FrequencyAnalysis | src/ChainMutable.php:354-361 | the same with the frequencyAnalysis stage |
| LazyChains.ChainMutable.Mix | src/ChainMutable.php:378-383 | the same with the mix stage |
| LazyChains.ChainMutable.SetValue | src/ChainMutable.php:388-395 | the same with the setValue stage |
| LazyChains.ChainMutable.Remove | src/ChainMutable.php:400-407 | the same with the remove stage |
| LazyChains.ChainMutable.ReadOperand | src/ChainMutable.php:166 | the former top stage and the operand, materialised now; reading this chain as its own operand resets its stack first |
| LazyChains.ChainMutable.Merge | src/ChainMutable.php:161-171 | the operand is read when merge is called; one merge stage with that array is pushed over the former top, or the operand's error is passed on |
| LazyChains.ChainMutable.Intersect | src/ChainMutable.php:263-273 | the same for intersect |
| LazyChains.ChainMutable.IntersectKeepIndexes | src/ChainMutable.php:278-288 | the same for intersectKeepIndexes |
| LazyChains.ChainMutable.Diff | src/ChainMutable.php:366-373 | the same for diff, whose operand is read through `of(...)` |
| StringChains.TrimLeft | src/StringChain.php:97-100 | `ltrim`: a suffix of the string; every character removed is in the list, and the first one kept is not |
| StringChains.TrimRight | src/StringChain.php:102-105 | `rtrim`: a prefix of the string; every character removed is in the list, and the last one kept is not |
| StringChains.FindFrom | src/StringChain.php:118-123 | the first position at or after i where the needle occurs, or -1 when there is none |
| StringChains.StringChain.ToUpperCase | src/StringChain.php:54-57 | the same string up to case, with no lower-case letter, and everything that is not a lower-case letter unchanged |
| StringChains.StringChain.ToLowerCase | src/StringChain.php:59-62 | the same string up to case, with no upper-case letter, and everything that is not an upper-case letter unchanged |
| StringChains.StringChain.ToPascalCase | src/StringChain.php:64-67 | no underscore and no space is left |
| StringChains.StringChain.ToCamelCase | src/StringChain.php:74-77 | the Pascal-case form with its first character lower-cased |
| StringChains.StringChain.Capitalize | src/StringChain.php:79-82 | the same string up to case: the first character not lower-case, the rest not upper-case |
| StringChains.StringChain.Trim | src/StringChain.php:92-95 | `trim` removes from both ends: it is `rtrim` followed by `ltrim` |
| StringChains.StringChain.TrimLeftChain | src/StringChain.php:97-100 | `trimLeft($chars)` is `ltrim` |
| StringChains.StringChain.TrimRightChain | src/StringChain.php:102-105 | `trimRight($chars)` is `rtrim` |
| StringChains.StringChain.SubString | src/StringChain.php:107-110 | `mb_substr`: a negative start counts from the end and is clamped to 0; the result is the slice of the clamped length at that start, and "" when the start is at or past the end |
| StringChains.StringChain.IndexOf | src/StringChain.php:118-123 | `mb_strpos`: a ValueError exactly when the offset lies outside the string; otherwise the first occurrence at or after the offset, and -1 exactly when there is none |
| StringChains.StringChain.CharAt | src/StringChain.php:130-133 | the i-th character for 0 <= i < n, the character counted from the end for -n <= i < 0, and "" otherwise |
| StringChains.StringChain.Size | src/StringChain.php:125-128 | `mb_strlen`: the number of characters |
| StringChains.Random | src/StringChain.php:35-47 | length max(n, 0), every character drawn from the character set; an empty set with n > 0 raises the ValueError of `random_int` |
| StringChains.CaseFacts | src/StringChain.php:54-62 | per character: upper-casing leaves no lower-case letter, lower-casing no upper-case one, and each changes only letters |
| StringChains.CaseMappingsCompose | src/StringChain.php:54-62 | upper-casing after lower-casing is upper-casing, and both mappings are idempotent |
| StringChains.CapitalizeIdempotent | src/StringChain.php:79-82 | `capitalize()` twice is `capitalize()` once |
| StringChains.RemoveCharKeeps | src/StringChain.php:66 | removing a character leaves none of it and keeps every other character |
| StringChains.PascalNoSeparators | src/StringChain.php:66 | the Pascal-case expression leaves neither underscores nor spaces |
| StringChains.PascalSplitsAtSeparator | src/StringChain.php:64-67 | an underscore or space splits `toPascalCase` into the Pascal-case forms of the two sides |
| StringChains.PascalOfWord | src/StringChain.php:64-67 | a single word has only its first letter upper-cased, so 'string_STRING' becomes 'StringSTRING' (tests/Unit/StringChainTest.php:38-43) |
| StringChains.TrimRightCons | src/StringChain.php:102-105 | `rtrim` of a string with one more character in front |
| StringChains.TrimCommutes | src/StringChain.php:92-95 | trimming the left end then the right is trimming the right end then the left |
| StringChains.TrimIdempotent | src/StringChain.php:92-105 | trimming twice is trimming once, at either end or both |
| StringChains.TrimLeftTwice | src/StringChain.php:97-100 | `ltrim` twice is `ltrim` once |
| StringChains.TrimRightTwice | src/StringChain.php:102-105 | `rtrim` twice is `rtrim` once |
| StringChains.SubStringNegativeStart | src/StringChain.php:107-110 | a negative start names the same position counted from the end |
| StringChains.SubStringDefaultLength | src/StringChain.php:107 | with the default length `PHP_INT_MAX`, `subString` from a position inside the string is the whole rest |
| StringChains.SubStringConcat | src/StringChain.php:107-110 | two consecutive pieces join into the piece of their summed length |
| StringChains.CharAtIsSubString | src/StringChain.php:130-133 | `charAt(i)` is the one-character `subString(i, 1)` for every i >= -n; below that `charAt` gives "" while `subString` clamps to the first character |
| StringChains.PositionExamples | tests/Unit/StringChainTest.php:89-133 | `subString(-3, 300)` of "string  " is "g  ", `subString(100, 100)` is "", `indexOf('t')` of "string" is 1 and `indexOf('b')` is -1, `charAt(-6)` is "s" and `charAt(-7)` is "" |

## Left out

- **`TYPE_FLAT_MAP`.** `MapOperator::TYPES` refers to it (`src/Functor/MapOperator.php:14`), but `Operator.php` does not define it. In PHP this is an error as soon as `TYPES` is read. `Functor.MAP_TYPES` lists only the nine defined per-element tags.
- **The "Failed functor" branch of `applyOperators`** (`src/Chain.php:298-299`). Every pending operator in the model is one of the two kinds, so the branch cannot be reached.
- **Per-element laziness of the lazy chains.**
  - A stage is a function of the whole sequence its upstream yields. It is evaluated on the first `valid()` of its iterator.
  - The model does not capture the interleaving of pulls between stages.
  - It does not capture user callbacks that see a partial upstream.
- **Interleaved cursors.** Two traversals of one generator that overlap in time are not modelled. Only sequential traversals are.
- **Iterators that throw.** A user iterator that throws part-way through a traversal is not modelled. The only failure modelled is an `IteratorAggregate` whose `getIterator()` throws; a `Traversable` argument otherwise never fails.
- **Stage bodies.** The stage bodies of the lazy chains (`getMapFunction`, `getDiffFunction`, `getMixFunction`, ...) and `Chain::immutable` live in a base class that is not part of this model. They are the parameters `LazyChains.Stages`. `Chain::immutable(...)` is modelled as `ChainImmutable.Of`.
- **Random and `mix`.**
  - `mix` is an opaque stage.
  - `StringChains.Random`: the values `random_int` returns are the parameter `draws`. The model does not say they are random.
- **Symfony `PropertyAccess`** is the parameter `Env.resolve`, a partial function.
- **ChainOperators.FirstResolveError** picks the first failing property read in array order. When several reads fail, PHP raises the one `uasort` happens to make first. That depends on the sort's comparison order: under SORT_DESC the comparator reads its second argument first, and on more than 16 entries the pivot choice of PHP's sort reorders the reads. The model does not follow that order; only whether some read fails is exact.
- **PHP's comparison rules.**
  - `<=>` is the parameter `Env.compare`.
  - The key comparison of the built-in sorts is the parameter `Env.compareKeys`.
  - The `flags` attribute of `sortValues`/`sortKeys` is stored but not interpreted.
  - PHP sort stability is not claimed: `SortBy` breaks ties one fixed way.
- **Numeric-string key coercion** (`'1'` as key 1) is not modelled. Neither are floats as values or keys.
- **PHP's hidden next-index counter.** `NextIndex` is one past the largest integer key present, or 0 when there is none. That is PHP 8.3's rule for an array built by writes alone (before 8.3, an array whose integer keys are all negative appended under 0). PHP keeps the next index as a per-array counter that `unset` does not lower, so an input array whose largest integer key was unset appends one key higher in PHP than `NextIndex` says.
- **EagerChain.Chain.ApplyOperators** requires every pending `merge` to name a chain with no pending operators of its own, so that reading it is reading its items. `Chain.php` runs a pending merge operand's own pipeline (and a chain merged with itself recurses without end).
- **EagerChain.Chain.ToArray** and the queries built on it (`HasValue`, `HasKey`, `Size`, `IsEmpty`, `Reduce`, `ToChain`) carry the same requirement.
- **EagerChain.Chain.ForEach**: the callback is not a parameter. Its side effects are the only thing it does, and they are not modelled.
- **After a failed `toArray`,** the eager chain keeps its pending operators with the counters as the failing round left them. `Valid()` is not promised for that state.
- **LazyChains.ChainMutable.Merge**, `LazyChains.ChainImmutable.Merge`, and likewise `Intersect`, `IntersectKeepIndexes` and `Diff` of both lazy chains: the operand must be this chain itself or share no objects with it. An operand built over this chain's own generators is not modelled.
- **A multi-argument `of(...)` holding chain or iterator objects as values.** Objects in `LazyChains.Args.Values` are identities only.
- **`getIterator` returning an `ArrayIterator`.** The eager chain's `getIterator` is used only through `of`. Its `jsonSerialize`, and `count()` integration, are not modelled.
- **Unicode.** Only ASCII case mapping is modelled for `mb_strtoupper`/`mb_strtolower`/`ucfirst`/`lcfirst`/`ucwords`.
- **Multibyte strings.** A string is single-byte text: each character stands for one byte. `charAt` (`$this->string[$index]`), `trim` and `ucfirst` work on bytes, while `size`, `subString` and `indexOf` count characters. The two agree only on single-byte text, so `CharAtIsSubString` and the rest of the string model speak about such text only.
- **`toUnderScoreCase`** (a regular expression) is not modelled.
- **`StringChain::toChain`** is not modelled: it depends on the base class's `Chain::immutable`.
- **StringChains.TrimLeft** and `TrimRight` take the character list literally: the `a..z` range syntax of PHP's `trim` family is not interpreted.
- **StringChains.StringChain.SubString**: a string longer than `PHP_INT_MAX` characters is not considered.
- PhpValues.ValueKey: the TypeError for an array or object key carries the message of PHP before 8.3, "Illegal offset type"; PHP 8.3 words it "Cannot access offset of type … on array". The error kind and the cases are the same in both.
- **Integer width.** Integer values and keys are unbounded. The 64-bit limit is modelled only where PHP raises an error at it: `append` when `PHP_INT_MAX` is already a key (`ChainOperators.Whole`), and the `PHP_INT_MAX` default length of `subString`. Arithmetic that would overflow into a float is not modelled.
- **`zend.assertions`.** `Memo.Generator.New` reports a non-iterable argument at construction, as PHP does with assertions enabled. With assertions compiled out the failure moves to the first `getIterator()`; that timing is not modelled.
- **Exception codes.** `Memo.AggregateFailure` keeps the original error as `previous` but has no field for the code that `$e->getCode()` passes on (src/Generator.php:27); exception codes are not modelled.
- **StringChains.StringChain.ToPascalCase** states only that no separator is left. What the result is follows from `PascalSplitsAtSeparator` and `PascalOfWord`.
- **The test model classes** (`tests/Model/*`) and the PHPUnit harness are not modelled.
