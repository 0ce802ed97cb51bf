# micrometer `Tags` in Dafny

This project models micrometer's immutable tag collection `Tags`, the set of
`key=value` labels attached to a metric. A `Tags` holds `Tag(key, value)` string
pairs in ascending key order, and each key appears at most once. The operations
modelled are:

- the factories `empty()`, `of(key, value)`, `of(String...)`, `of(Iterable<Tag>)` and the deprecated `zip(String...)`;
- the merges `and(key, value)`, `and(String...)`, `and(Tag...)`, `and(Iterable<Tag>)`, and the static `concat(...)` forms that call `of(...).and(...)`;
- the traversals `iterator()` and `stream()`.

Most contracts state what the assertions of the JUnit suite `TagsTest.java` pin
down. Where the suite leaves a case open, the model follows the documented rules
of `Tags` instead. These cases are:

- `of(String...)` and `zip(String...)` reject an odd-length array with `IllegalArgument`. The suite checks an odd length only for `and(String...)`.
- `and(Tag...)` and `and(Iterable<Tag>)` return the receiver for an empty argument that is not `null`. The suite passes only `null`.
- `of(Iterable<Tag>)` sorts the elements by key and keeps the last value given for each key. The suite passes a single tag.
- `of(key, value)`, `of(String...)`, `zip`, and `of(Iterable<Tag>)` given a plain sequence return a `fresh` instance. The suite asserts no identity for them.
- The key order is lexicographic on every key. The suite only shows `t1` before `t2` before `t3`.

The model has these parts:

- `TagOrder` (`tag_order.dfy`): the `Tag` value and the lexicographic order on keys.
- `TagMerge` (`tag_merge.dfy`): the value semantics.
  - `LastValue(s, k)` is the value that applying `s` from left to right leaves for key `k`.
  - `Put` adds a single tag. `Merge` folds `Put` over the incoming tags, so a later tag beats an earlier one and the argument beats the receiver.
  - `Normalize` is `Merge` starting from nothing.
  - The lemmas show three things: the result is strictly sorted; each key maps to the argument's last value, or else to the receiver's; and a strictly sorted sequence is determined by its key/value mapping.
- `KeyValues` (`key_values.dfy`): flat `"k1", "v1", "k2", "v2", ...` arrays. `Pairs` turns one into tags and returns an error for an odd length. `Flatten` is its inverse.
- `Instrument` (`tags.dfy`): the class `Tags`.
  - Its single field is a `const` sequence, so no instance ever changes.
  - A merge with nothing to add returns the receiver itself. Any other merge returns a `fresh` instance.
  - `OfIterable` returns the instance it was given when that argument is already a `Tags`.
  - A `null` argument to the `and(...)` forms, or as the second argument of `concat`, is `Option.None`. An `IllegalArgumentException` is `Result.Err(IllegalArgument)`.
- `TagsTest` (`tags_test.dfy`): the `assertTags` helper as a `while` loop that walks the tags and the expected array together, plus one method per `@Test`. Each of these methods performs the test's calls, and its postcondition is what the test asserts.

## Model

| member | source | states |
|---|---|---|
| `TagOrder.KeyLessIrreflexive` | micrometer-core/src/test/java/io/micrometer/core/instrument/TagsTest.java:121-128 | the key order never puts a key before itself |
| `TagOrder.KeyLessTransitive` | micrometer-core/src/test/java/io/micrometer/core/instrument/TagsTest.java:121-128 | the key order is transitive |
| `TagOrder.KeyLessTotal` | micrometer-core/src/test/java/io/micrometer/core/instrument/TagsTest.java:121-128 | any two different keys are ordered one way or the other, so every collection has one ascending order (`t1` before `t2`) |
| `TagOrder.KeyLessAsymmetric` | micrometer-core/src/test/java/io/micrometer/core/instrument/TagsTest.java:121-128 | of two keys at most one comes first |
| `TagMerge.LastValue` | micrometer-core/src/test/java/io/micrometer/core/instrument/TagsTest.java:46-50 | the value a key maps to after a sequence of tags: `None` iff no tag has the key, otherwise the value of a tag with that key that no later tag overrides |
| `TagMerge.LastValueIsLast` | micrometer-core/src/test/java/io/micrometer/core/instrument/TagsTest.java:46-50 | `LastValue(s, k) == Some(v)` iff some `(k, v)` in `s` has no later tag with key `k` (last write wins) |
| `TagMerge.Put` | micrometer-core/src/test/java/io/micrometer/core/instrument/TagsTest.java:52-59 | adding one tag to a strictly sorted sequence keeps it strictly sorted; the result holds exactly the new tag and the old tags with other keys |
| `TagMerge.PutLastValue` | micrometer-core/src/test/java/io/micrometer/core/instrument/TagsTest.java:40-44 | after adding `(k, v)` the key `k` maps to `v` and every other key keeps its value |
| `TagMerge.Merge` | micrometer-core/src/test/java/io/micrometer/core/instrument/TagsTest.java:121-128 | merging any tags into a strictly sorted sequence gives a strictly sorted (key-ascending, key-unique) sequence |
| `TagMerge.Normalize` | micrometer-core/src/test/java/io/micrometer/core/instrument/TagsTest.java:188-192 | building from an arbitrary tag sequence gives a strictly sorted, key-unique sequence |
| `TagMerge.MergeLastValue` | micrometer-core/src/test/java/io/micrometer/core/instrument/TagsTest.java:121-128 | after a merge a key maps to the argument's last value for it, and only if the argument lacks the key, to the receiver's value |
| `TagMerge.MergeContains` | micrometer-core/src/test/java/io/micrometer/core/instrument/TagsTest.java:121-128 | `(k, v)` is in the merge iff the argument's last value for `k` is `v`, or the argument lacks `k` and `(k, v)` is in the receiver |
| `TagMerge.SortedUnique` | micrometer-core/src/test/java/io/micrometer/core/instrument/TagsTest.java:121-128 | two strictly sorted sequences mapping every key alike are equal, so the result's order is fixed by its contents alone |
| `TagMerge.MergeDeterminedByLastValues` | micrometer-core/src/test/java/io/micrometer/core/instrument/TagsTest.java:121-128 | two arguments that leave every key with the same last value give the same merge, whatever the order of their pairs |
| `TagMerge.MergeChain` | micrometer-core/src/test/java/io/micrometer/core/instrument/TagsTest.java:40-44 | merging `xs` then `ys` equals merging `xs + ys` at once, so last write wins across chained calls too |
| `TagMerge.NormalizeSorted` | micrometer-core/src/test/java/io/micrometer/core/instrument/TagsTest.java:175-180 | rebuilding a collection from its own sorted, key-unique tags gives back the same tags |
| `TagMerge.NormalizeAppend` | micrometer-core/src/test/java/io/micrometer/core/instrument/TagsTest.java:105-112 | sorting and deduplicating the receiver's tags followed by the new ones equals merging the new ones into the receiver |
| `TagMerge.MergeDisjoint` | micrometer-core/src/test/java/io/micrometer/core/instrument/TagsTest.java:61-68 | when no incoming key is in the receiver, the merge holds exactly the receiver's tags plus the normalized incoming ones |
| `KeyValues.Pairs` | micrometer-core/src/test/java/io/micrometer/core/instrument/TagsTest.java:70-73 | a flat key/value array is accepted iff its length is even, an odd length gives `IllegalArgument`, and pair `i` is `(keyValues[2i], keyValues[2i+1])` |
| `KeyValues.Flatten` | micrometer-core/src/test/java/io/micrometer/core/instrument/TagsTest.java:199-208 | tags written out as a flat array of twice the length, key at `2i`, value at `2i+1` |
| `KeyValues.PairsFlatten` | micrometer-core/src/test/java/io/micrometer/core/instrument/TagsTest.java:199-208 | pairing a flattened tag sequence gives the tags back |
| `KeyValues.FlattenPairs` | micrometer-core/src/test/java/io/micrometer/core/instrument/TagsTest.java:199-208 | flattening the pairs of an even-length array gives the array back |
| `KeyValues.NormalizePairsLastWins` | micrometer-core/src/test/java/io/micrometer/core/instrument/TagsTest.java:46-50 | a flat array builds a collection holding `(k, v)` iff some pair `k, v` has no later pair with key `k` |
| `Instrument.Tags.constructor` | micrometer-core/src/test/java/io/micrometer/core/instrument/TagsTest.java:188-192 | the sort-and-deduplicate step behind every factory: the new instance holds `Normalize(items)`, so it is valid |
| `Instrument.Tags.MergedWith` | micrometer-core/src/test/java/io/micrometer/core/instrument/TagsTest.java:52-59 | the merge step behind every `and` form: a new valid instance holding `Merge(receiver, incoming)` |
| `Instrument.Tags.Empty` | micrometer-core/src/test/java/io/micrometer/core/instrument/TagsTest.java:194-197 | `empty()` is a collection with no tags |
| `Instrument.Tags.Of` | micrometer-core/src/test/java/io/micrometer/core/instrument/TagsTest.java:34-38 | `of(k, v)` is a new collection holding exactly `[(k, v)]` |
| `Instrument.Tags.OfKeyValues` | micrometer-core/src/test/java/io/micrometer/core/instrument/TagsTest.java:188-192 | `of(String...)` rejects an odd length with `IllegalArgument` and otherwise is a new collection of the normalized pairs |
| `Instrument.Tags.Zip` | micrometer-core/src/test/java/io/micrometer/core/instrument/TagsTest.java:162-167 | `zip` has exactly the contract of `of(String...)` |
| `Instrument.Tags.OfIterable` | micrometer-core/src/test/java/io/micrometer/core/instrument/TagsTest.java:169-180 | `of(existingTags)` returns that very instance; `of` of another collection is a new instance of its normalized tags |
| `Instrument.Tags.And` | micrometer-core/src/test/java/io/micrometer/core/instrument/TagsTest.java:52-59 | `and(k, v)` is a new instance equal to the receiver's tags with `(k, v)` put in |
| `Instrument.Tags.AndKeyValues` | micrometer-core/src/test/java/io/micrometer/core/instrument/TagsTest.java:61-87 | `and(String...)`: null or empty returns the receiver itself; odd length fails with `IllegalArgument`; otherwise a new instance with the pairs merged in |
| `Instrument.Tags.AndTags` | micrometer-core/src/test/java/io/micrometer/core/instrument/TagsTest.java:89-103 | `and(Tag...)`: null or empty returns the receiver itself; otherwise a new instance with the tags merged in |
| `Instrument.Tags.AndIterable` | micrometer-core/src/test/java/io/micrometer/core/instrument/TagsTest.java:105-119 | `and(Iterable)`: null or empty returns the receiver itself; otherwise a new instance with the iterable's tags merged in |
| `Instrument.Tags.ConcatKeyValues` | micrometer-core/src/test/java/io/micrometer/core/instrument/TagsTest.java:153-160 | `concat(base, String...)` is `of(base).and(keyValues)`: odd length fails with `IllegalArgument`; with nothing to add the result holds `base` normalized and is `base` itself when `base` is a `Tags`, a new instance otherwise; else a new instance with the pairs merged into `base` |
| `Instrument.Tags.ConcatIterable` | micrometer-core/src/test/java/io/micrometer/core/instrument/TagsTest.java:144-151 | `concat(base, Iterable)` is `of(base).and(other)`: with nothing to add the result holds `base` normalized and is `base` itself when `base` is a `Tags`, a new instance otherwise; else a new instance with `other` merged into `base` |
| `Instrument.Tags.Iterator` | micrometer-core/src/test/java/io/micrometer/core/instrument/TagsTest.java:130-135 | `iterator()` yields exactly the stored tags, strictly ascending by key |
| `Instrument.Tags.Stream` | micrometer-core/src/test/java/io/micrometer/core/instrument/TagsTest.java:137-142 | `stream()` yields the same tags in the same order as `iterator()` |
| `TagsTest.AssertTags` | micrometer-core/src/test/java/io/micrometer/core/instrument/TagsTest.java:199-208 | the lockstep walk passes iff the tags, flattened key before value, are exactly the expected array (no mismatch, nothing left over) |
| `TagsTest.CreatesListWithSingleTag` | micrometer-core/src/test/java/io/micrometer/core/instrument/TagsTest.java:34-38 | `of("k1","v1")` holds exactly `(k1, v1)` |
| `TagsTest.ConcatOnTwoTagsWithSameKeyAreMergedIntoOneTag` | micrometer-core/src/test/java/io/micrometer/core/instrument/TagsTest.java:40-44 | `concat(of("k","v1"), "k","v2")` holds exactly `(k, v2)` |
| `TagsTest.ZipOnTwoTagsWithSameKeyAreMergedIntoOneTag` | micrometer-core/src/test/java/io/micrometer/core/instrument/TagsTest.java:46-50 | `zip("k","v1","k","v2")` holds exactly `(k, v2)` |
| `TagsTest.AndKeyValueShouldReturnNewInstanceWithAddedTags` | micrometer-core/src/test/java/io/micrometer/core/instrument/TagsTest.java:52-59 | the merge is another instance; the source still reads `t1 v1`, the merge `t1 v1 t2 v2` |
| `TagsTest.AndKeyValuesShouldReturnNewInstanceWithAddedTags` | micrometer-core/src/test/java/io/micrometer/core/instrument/TagsTest.java:61-68 | the merge is another instance; the source still reads `t1 v1`, the merge `t1 v1 t2 v2 t3 v3` |
| `TagsTest.AndKeyValuesWhenKeyValuesAreOddShouldThrowException` | micrometer-core/src/test/java/io/micrometer/core/instrument/TagsTest.java:70-73 | `empty().and("t1","v1","t2")` fails with `IllegalArgument` |
| `TagsTest.AndKeyValuesWhenKeyValuesAreEmptyShouldReturnCurrentInstance` | micrometer-core/src/test/java/io/micrometer/core/instrument/TagsTest.java:75-80 | `and(new String[0])` is the receiver itself |
| `TagsTest.AndKeyValuesWhenKeyValuesAreNullShouldReturnCurrentInstance` | micrometer-core/src/test/java/io/micrometer/core/instrument/TagsTest.java:82-87 | `and((String[]) null)` is the receiver itself |
| `TagsTest.AndTagsShouldReturnANewInstanceWithTags` | micrometer-core/src/test/java/io/micrometer/core/instrument/TagsTest.java:89-96 | `and(Tag)` is another instance; the source reads `t1 v1`, the merge `t1 v1 t2 v2` |
| `TagsTest.AndTagsWhenTagsAreEmptyShouldReturnCurrentInstance` | micrometer-core/src/test/java/io/micrometer/core/instrument/TagsTest.java:98-103 | `and((Tag[]) null)` is the receiver itself |
| `TagsTest.AndIterableShouldReturnNewInstanceWithTags` | micrometer-core/src/test/java/io/micrometer/core/instrument/TagsTest.java:105-112 | `and(singleton)` is another instance; the source reads `t1 v1`, the merge `t1 v1 t2 v2` |
| `TagsTest.AndIterableWhenIterableIsNullShouldReturnCurrentInstance` | micrometer-core/src/test/java/io/micrometer/core/instrument/TagsTest.java:114-119 | `and((Iterable<Tag>) null)` is the receiver itself |
| `TagsTest.AndWhenAlreadyContainsKeyShouldReplaceValue` | micrometer-core/src/test/java/io/micrometer/core/instrument/TagsTest.java:121-128 | `of("t1","v1").and("t2","v2","t1","v3")` is another instance reading `t1 v3 t2 v2`; the source still reads `t1 v1` |
| `TagsTest.IteratorShouldIterateTags` | micrometer-core/src/test/java/io/micrometer/core/instrument/TagsTest.java:130-135 | the iterator of `of("t1","v1")` yields exactly `(t1, v1)` |
| `TagsTest.StreamShouldStreamTags` | micrometer-core/src/test/java/io/micrometer/core/instrument/TagsTest.java:137-142 | the stream of `of("t1","v1")` yields exactly `(t1, v1)` |
| `TagsTest.ConcatIterableShouldReturnNewInstanceWithAddedTags` | micrometer-core/src/test/java/io/micrometer/core/instrument/TagsTest.java:144-151 | `concat(source, singleton)` is another instance reading `t1 v1 t2 v2`; the source still reads `t1 v1` |
| `TagsTest.ConcatStringsShouldReturnNewInstanceWithAddedTags` | micrometer-core/src/test/java/io/micrometer/core/instrument/TagsTest.java:153-160 | `concat(source, "t2","v2")` is another instance reading `t1 v1 t2 v2`; the source still reads `t1 v1` |
| `TagsTest.ZipShouldReturnNewInstanceWithTags` | micrometer-core/src/test/java/io/micrometer/core/instrument/TagsTest.java:162-167 | `zip("t1","v1","t2","v2")` reads `t1 v1 t2 v2` |
| `TagsTest.OfIterableShouldReturnNewInstanceWithTags` | micrometer-core/src/test/java/io/micrometer/core/instrument/TagsTest.java:169-173 | `of(singleton)` reads `t1 v1` |
| `TagsTest.OfIterableWhenIterableIsTagsShouldReturnSameInstance` | micrometer-core/src/test/java/io/micrometer/core/instrument/TagsTest.java:175-180 | `of(source)` is `source` itself |
| `TagsTest.OfKeyValueShouldReturnNewInstance` | micrometer-core/src/test/java/io/micrometer/core/instrument/TagsTest.java:182-186 | `of("t1","v1")` reads `t1 v1` |
| `TagsTest.OfKeyValuesShouldReturnNewInstance` | micrometer-core/src/test/java/io/micrometer/core/instrument/TagsTest.java:188-192 | `of("t1","v1","t2","v2")` reads `t1 v1 t2 v2` |
| `TagsTest.EmptyShouldNotContainTags` | micrometer-core/src/test/java/io/micrometer/core/instrument/TagsTest.java:194-197 | the iterator of `empty()` yields nothing |

## Left out

- `Tags.java` and `Tag.java` are not part of this model. The behaviour comes from the assertions of `TagsTest.java`, plus the documented rules of `Tags` for the cases listed at the top, which the suite leaves open.
- Instrument.Tags.Empty: promises only an instance with no tags. Whether `empty()` returns a shared instance or a new one is left open. The tests only check that `empty()` has no tags.
- The key order is lexicographic over Dafny characters, which are Unicode scalar values. Java's `String.compareTo` compares UTF-16 code units. The two orders differ only between supplementary characters and characters U+E000 to U+FFFF.
- Ordering tags by value after key is not modelled. A collection never holds two tags with the same key, so a value tie-break can never apply.
- `iterator()` and `stream()` return the backing sequence. There is no lazy `Stream` and no stateful `Iterator` cursor. Both restart trivially.
- Only the `and(...)` forms and the second argument of `concat` take `Option`, where `None` stands for `null`. A `null` passed to `of(String...)`, `zip`, `of(Iterable<Tag>)`, or as the first argument of `concat` is not modelled. The tests never pass one.
- An `Iterable<Tag>` argument is `TagIterable`, either an existing `Tags` or a plain sequence of tags.
- The exception message and the JUnit/AssertJ machinery (`assertThat`, `assertThatThrownBy`, `containsExactly`) are left out. Of what these helpers check, the scenario methods state only the asserted facts. The cases listed at the top follow the documented rules of `Tags`.
- `equals`, `hashCode` and `toString` of `Tags` are not modelled. The tests do not use them.
