/**
 * The scenarios of the `Tags` test suite, each a method whose postcondition is
 * what the scenario asserts, together with the `assertTags` helper.
 */
module TagsTest {
  import opened Wrappers
  import opened TagOrder
  import opened TagMerge
  import opened KeyValues
  import opened Instrument

  /**
   * `assertTags`: walks the collection's tags and the expected flat key/value
   * array in lockstep. It passes exactly when the tags, written out key before
   * value, are the expected array: no tag differs and no expected entry is left.
   */
  method AssertTags(tags: Tags, keyValues: seq<string>) returns (passes: bool)
    requires tags.Valid()
    ensures passes <==> Flatten(tags.Iterator()) == keyValues
  {
    var actual := tags.Iterator();
    var i, j := 0, 0;
    while i < |actual|
      invariant 0 <= i <= |actual| && j == 2 * i && j <= |keyValues|
      invariant forall m :: 0 <= m < i ==> keyValues[2 * m] == actual[m].key && keyValues[2 * m + 1] == actual[m].value
    {
      var tag := actual[i];
      i := i + 1;
      if j == |keyValues| || tag.key != keyValues[j] {
        return false;
      }
      j := j + 1;
      if j == |keyValues| || tag.value != keyValues[j] {
        return false;
      }
      j := j + 1;
    }
    passes := j == |keyValues|;
    if passes {
      FlattenPairs(keyValues);
      assert Pairs(keyValues).value == actual;
    }
  }

  /** createsListWithSingleTag: `of("k1", "v1")` holds exactly `(k1, v1)`. */
  method CreatesListWithSingleTag() returns (tags: Tags)
    ensures tags.Valid() && tags.Iterator() == [Tag("k1", "v1")]
  {
    tags := Tags.Of("k1", "v1");
  }

  /** concatOnTwoTagsWithSameKeyAreMergedIntoOneTag: the concatenated value wins. */
  method ConcatOnTwoTagsWithSameKeyAreMergedIntoOneTag() returns (tags: Tags)
    ensures tags.Valid() && tags.Iterator() == [Tag("k", "v2")]
  {
    var base := Tags.Of("k", "v1");
    var r := Tags.ConcatKeyValues(TagsInstance(base), Some(["k", "v2"]));
    assert Pairs(["k", "v2"]).value == [Tag("k", "v2")];
    assert Merge([Tag("k", "v1")], [Tag("k", "v2")]) == Merge([Tag("k", "v2")], []);
    tags := r.value;
  }

  /** zipOnTwoTagsWithSameKeyAreMergedIntoOneTag: the later pair wins. */
  method ZipOnTwoTagsWithSameKeyAreMergedIntoOneTag() returns (tags: Tags)
    ensures tags.Valid() && tags.Iterator() == [Tag("k", "v2")]
  {
    var r := Tags.Zip(["k", "v1", "k", "v2"]);
    assert Pairs(["k", "v1", "k", "v2"]).value == [Tag("k", "v1"), Tag("k", "v2")];
    assert Merge([], [Tag("k", "v1"), Tag("k", "v2")]) == Merge([Tag("k", "v1")], [Tag("k", "v2")]);
    assert Merge([Tag("k", "v1")], [Tag("k", "v2")]) == Merge([Tag("k", "v2")], []);
    tags := r.value;
  }

  /** andKeyValueShouldReturnNewInstanceWithAddedTags */
  method AndKeyValueShouldReturnNewInstanceWithAddedTags() returns (source: Tags, merged: Tags)
    ensures source != merged
    ensures source.Valid() && merged.Valid()
    ensures Flatten(source.Iterator()) == ["t1", "v1"]
    ensures Flatten(merged.Iterator()) == ["t1", "v1", "t2", "v2"]
  {
    source := Tags.Of("t1", "v1");
    merged := source.And("t2", "v2");
    var sourcePasses := AssertTags(source, ["t1", "v1"]);
    var mergedPasses := AssertTags(merged, ["t1", "v1", "t2", "v2"]);
    assert sourcePasses && mergedPasses;
  }

  /** `t3` goes after both `t1` and `t2`. */
  lemma PutThirdKey()
    ensures Put([Tag("t1", "v1"), Tag("t2", "v2")], Tag("t3", "v3")) == [Tag("t1", "v1"), Tag("t2", "v2"), Tag("t3", "v3")]
  {
    assert Put([Tag("t2", "v2")], Tag("t3", "v3")) == [Tag("t2", "v2"), Tag("t3", "v3")];
  }

  /** The merge `andKeyValuesShouldReturnNewInstanceWithAddedTags` performs, worked out step by step. */
  lemma MergeTwoLaterKeys()
    ensures Pairs(["t2", "v2", "t3", "v3"]).value == [Tag("t2", "v2"), Tag("t3", "v3")]
    ensures Merge([Tag("t1", "v1")], [Tag("t2", "v2"), Tag("t3", "v3")]) == [Tag("t1", "v1"), Tag("t2", "v2"), Tag("t3", "v3")]
  {
    assert Pairs(["t2", "v2", "t3", "v3"]).value == [Tag("t2", "v2"), Tag("t3", "v3")];
    assert Put([Tag("t1", "v1")], Tag("t2", "v2")) == [Tag("t1", "v1"), Tag("t2", "v2")];
    PutThirdKey();
    var incoming := [Tag("t2", "v2"), Tag("t3", "v3")];
    assert Merge([Tag("t1", "v1")], incoming) == Merge([Tag("t1", "v1"), Tag("t2", "v2")], incoming[1..]);
    assert incoming[1..] == [Tag("t3", "v3")];
    assert Merge([Tag("t1", "v1"), Tag("t2", "v2")], [Tag("t3", "v3")]) == Merge([Tag("t1", "v1"), Tag("t2", "v2"), Tag("t3", "v3")], []);
  }

  /** The three tags of that scenario, written out as the flat array it expects. */
  lemma FlattenThreeTags()
    ensures Flatten([Tag("t1", "v1"), Tag("t2", "v2"), Tag("t3", "v3")]) == ["t1", "v1", "t2", "v2", "t3", "v3"]
  {
  }

  /** andKeyValuesShouldReturnNewInstanceWithAddedTags */
  method AndKeyValuesShouldReturnNewInstanceWithAddedTags() returns (source: Tags, merged: Tags)
    ensures source != merged
    ensures source.Valid() && merged.Valid()
    ensures Flatten(source.Iterator()) == ["t1", "v1"]
    ensures Flatten(merged.Iterator()) == ["t1", "v1", "t2", "v2", "t3", "v3"]
  {
    source := Tags.Of("t1", "v1");
    var r := source.AndKeyValues(Some(["t2", "v2", "t3", "v3"]));
    MergeTwoLaterKeys();
    FlattenThreeTags();
    merged := r.value;
    var sourcePasses := AssertTags(source, ["t1", "v1"]);
    var mergedPasses := AssertTags(merged, ["t1", "v1", "t2", "v2", "t3", "v3"]);
    assert sourcePasses && mergedPasses;
  }

  /** andKeyValuesWhenKeyValuesAreOddShouldThrowException */
  method AndKeyValuesWhenKeyValuesAreOddShouldThrowException() returns (r: Result<Tags>)
    ensures r == Err(IllegalArgument)
  {
    var empty := Tags.Empty();
    r := empty.AndKeyValues(Some(["t1", "v1", "t2"]));
  }

  /** andKeyValuesWhenKeyValuesAreEmptyShouldReturnCurrentInstance */
  method AndKeyValuesWhenKeyValuesAreEmptyShouldReturnCurrentInstance() returns (source: Tags, merged: Tags)
    ensures source == merged
  {
    source := Tags.Of("t1", "v1");
    var r := source.AndKeyValues(Some([]));
    merged := r.value;
  }

  /** andKeyValuesWhenKeyValuesAreNullShouldReturnCurrentInstance */
  method AndKeyValuesWhenKeyValuesAreNullShouldReturnCurrentInstance() returns (source: Tags, merged: Tags)
    ensures source == merged
  {
    source := Tags.Of("t1", "v1");
    var r := source.AndKeyValues(None);
    merged := r.value;
  }

  /** The merge the `and` and `concat` scenarios perform: `t2` goes after `t1`. */
  lemma MergeSecondKey()
    ensures Pairs(["t2", "v2"]).value == [Tag("t2", "v2")]
    ensures Merge([Tag("t1", "v1")], [Tag("t2", "v2")]) == [Tag("t1", "v1"), Tag("t2", "v2")]
  {
    assert Merge([Tag("t1", "v1")], [Tag("t2", "v2")]) == Merge([Tag("t1", "v1"), Tag("t2", "v2")], []);
  }

  /** What `of("t1", "v1", "t2", "v2")` and `zip` with the same array build: two tags, already in order. */
  lemma NormalizeFirstTwoKeys()
    ensures Pairs(["t1", "v1", "t2", "v2"]).value == [Tag("t1", "v1"), Tag("t2", "v2")]
    ensures Normalize([Tag("t1", "v1"), Tag("t2", "v2")]) == [Tag("t1", "v1"), Tag("t2", "v2")]
  {
    assert Merge([], [Tag("t1", "v1"), Tag("t2", "v2")]) == Merge([Tag("t1", "v1")], [Tag("t2", "v2")]);
    MergeSecondKey();
  }

  /** andTagsShouldReturnANewInstanceWithTags */
  method AndTagsShouldReturnANewInstanceWithTags() returns (source: Tags, merged: Tags)
    ensures source != merged
    ensures source.Valid() && merged.Valid()
    ensures Flatten(source.Iterator()) == ["t1", "v1"]
    ensures Flatten(merged.Iterator()) == ["t1", "v1", "t2", "v2"]
  {
    source := Tags.Of("t1", "v1");
    merged := source.AndTags(Some([Tag("t2", "v2")]));
    MergeSecondKey();
    var sourcePasses := AssertTags(source, ["t1", "v1"]);
    var mergedPasses := AssertTags(merged, ["t1", "v1", "t2", "v2"]);
    assert sourcePasses && mergedPasses;
  }

  /** andTagsWhenTagsAreEmptyShouldReturnCurrentInstance */
  method AndTagsWhenTagsAreEmptyShouldReturnCurrentInstance() returns (source: Tags, merged: Tags)
    ensures source == merged
  {
    source := Tags.Of("t1", "v1");
    merged := source.AndTags(None);
  }

  /** andIterableShouldReturnNewInstanceWithTags */
  method AndIterableShouldReturnNewInstanceWithTags() returns (source: Tags, merged: Tags)
    ensures source != merged
    ensures source.Valid() && merged.Valid()
    ensures Flatten(source.Iterator()) == ["t1", "v1"]
    ensures Flatten(merged.Iterator()) == ["t1", "v1", "t2", "v2"]
  {
    source := Tags.Of("t1", "v1");
    merged := source.AndIterable(Some(Elements([Tag("t2", "v2")])));
    MergeSecondKey();
    var sourcePasses := AssertTags(source, ["t1", "v1"]);
    var mergedPasses := AssertTags(merged, ["t1", "v1", "t2", "v2"]);
    assert sourcePasses && mergedPasses;
  }

  /** andIterableWhenIterableIsNullShouldReturnCurrentInstance */
  method AndIterableWhenIterableIsNullShouldReturnCurrentInstance() returns (source: Tags, merged: Tags)
    ensures source == merged
  {
    source := Tags.Of("t1", "v1");
    merged := source.AndIterable(None);
  }

  /** The merge `andWhenAlreadyContainsKeyShouldReplaceValue` performs, worked out step by step. */
  lemma MergeReplacesExistingKey()
    ensures Pairs(["t2", "v2", "t1", "v3"]).value == [Tag("t2", "v2"), Tag("t1", "v3")]
    ensures Merge([Tag("t1", "v1")], [Tag("t2", "v2"), Tag("t1", "v3")]) == [Tag("t1", "v3"), Tag("t2", "v2")]
  {
  }

  /** andWhenAlreadyContainsKeyShouldReplaceValue: the argument's value replaces the receiver's, keys stay sorted. */
  method AndWhenAlreadyContainsKeyShouldReplaceValue() returns (source: Tags, merged: Tags)
    ensures source != merged
    ensures source.Valid() && merged.Valid()
    ensures Flatten(source.Iterator()) == ["t1", "v1"]
    ensures Flatten(merged.Iterator()) == ["t1", "v3", "t2", "v2"]
  {
    source := Tags.Of("t1", "v1");
    var r := source.AndKeyValues(Some(["t2", "v2", "t1", "v3"]));
    MergeReplacesExistingKey();
    merged := r.value;
    var sourcePasses := AssertTags(source, ["t1", "v1"]);
    var mergedPasses := AssertTags(merged, ["t1", "v3", "t2", "v2"]);
    assert sourcePasses && mergedPasses;
  }

  /** iteratorShouldIterateTags */
  method IteratorShouldIterateTags() returns (tags: Tags)
    ensures tags.Valid() && tags.Iterator() == [Tag("t1", "v1")]
  {
    tags := Tags.Of("t1", "v1");
  }

  /** streamShouldStreamTags */
  method StreamShouldStreamTags() returns (tags: Tags)
    ensures tags.Valid() && tags.Stream() == [Tag("t1", "v1")]
  {
    tags := Tags.Of("t1", "v1");
  }

  /** concatIterableShouldReturnNewInstanceWithAddedTags */
  method ConcatIterableShouldReturnNewInstanceWithAddedTags() returns (source: Tags, merged: Tags)
    ensures source != merged
    ensures source.Valid() && merged.Valid()
    ensures Flatten(source.Iterator()) == ["t1", "v1"]
    ensures Flatten(merged.Iterator()) == ["t1", "v1", "t2", "v2"]
  {
    source := Tags.Of("t1", "v1");
    merged := Tags.ConcatIterable(TagsInstance(source), Some(Elements([Tag("t2", "v2")])));
    NormalizeSorted(source.tags);
    MergeSecondKey();
    assert merged.tags == [Tag("t1", "v1"), Tag("t2", "v2")];
    var sourcePasses := AssertTags(source, ["t1", "v1"]);
    var mergedPasses := AssertTags(merged, ["t1", "v1", "t2", "v2"]);
    assert sourcePasses && mergedPasses;
  }

  /** concatStringsShouldReturnNewInstanceWithAddedTags */
  method ConcatStringsShouldReturnNewInstanceWithAddedTags() returns (source: Tags, merged: Tags)
    ensures source != merged
    ensures source.Valid() && merged.Valid()
    ensures Flatten(source.Iterator()) == ["t1", "v1"]
    ensures Flatten(merged.Iterator()) == ["t1", "v1", "t2", "v2"]
  {
    source := Tags.Of("t1", "v1");
    var r := Tags.ConcatKeyValues(TagsInstance(source), Some(["t2", "v2"]));
    NormalizeSorted(source.tags);
    MergeSecondKey();
    merged := r.value;
    assert merged.tags == [Tag("t1", "v1"), Tag("t2", "v2")];
    var sourcePasses := AssertTags(source, ["t1", "v1"]);
    var mergedPasses := AssertTags(merged, ["t1", "v1", "t2", "v2"]);
    assert sourcePasses && mergedPasses;
  }

  /** zipShouldReturnNewInstanceWithTags */
  method ZipShouldReturnNewInstanceWithTags() returns (tags: Tags)
    ensures tags.Valid() && Flatten(tags.Iterator()) == ["t1", "v1", "t2", "v2"]
  {
    var r := Tags.Zip(["t1", "v1", "t2", "v2"]);
    NormalizeFirstTwoKeys();
    tags := r.value;
    var passes := AssertTags(tags, ["t1", "v1", "t2", "v2"]);
    assert passes;
  }

  /** ofIterableShouldReturnNewInstanceWithTags */
  method OfIterableShouldReturnNewInstanceWithTags() returns (tags: Tags)
    ensures tags.Valid() && Flatten(tags.Iterator()) == ["t1", "v1"]
  {
    tags := Tags.OfIterable(Elements([Tag("t1", "v1")]));
    assert Merge([], [Tag("t1", "v1")]) == Merge([Tag("t1", "v1")], []);
    var passes := AssertTags(tags, ["t1", "v1"]);
    assert passes;
  }

  /** ofIterableWhenIterableIsTagsShouldReturnSameInstance */
  method OfIterableWhenIterableIsTagsShouldReturnSameInstance() returns (source: Tags, tags: Tags)
    ensures tags == source
  {
    source := Tags.Of("t1", "v1");
    tags := Tags.OfIterable(TagsInstance(source));
  }

  /** ofKeyValueShouldReturnNewInstance */
  method OfKeyValueShouldReturnNewInstance() returns (tags: Tags)
    ensures tags.Valid() && Flatten(tags.Iterator()) == ["t1", "v1"]
  {
    tags := Tags.Of("t1", "v1");
    var passes := AssertTags(tags, ["t1", "v1"]);
    assert passes;
  }

  /** ofKeyValuesShouldReturnNewInstance */
  method OfKeyValuesShouldReturnNewInstance() returns (tags: Tags)
    ensures tags.Valid() && Flatten(tags.Iterator()) == ["t1", "v1", "t2", "v2"]
  {
    var r := Tags.OfKeyValues(["t1", "v1", "t2", "v2"]);
    NormalizeFirstTwoKeys();
    tags := r.value;
    var passes := AssertTags(tags, ["t1", "v1", "t2", "v2"]);
    assert passes;
  }

  /** emptyShouldNotContainTags */
  method EmptyShouldNotContainTags() returns (tags: Tags)
    ensures tags.Valid() && tags.Iterator() == []
  {
    tags := Tags.Empty();
  }
}
