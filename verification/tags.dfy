/**
 * The immutable tag collection `Tags`: its factories, its merge operations and
 * its traversal. Every instance keeps its tags in ascending key order with each
 * key once; an operation that adds tags returns a new instance or, when there
 * is nothing to add, the receiver itself.
 */
module Instrument {
  import opened Wrappers
  import opened TagOrder
  import opened TagMerge
  import opened KeyValues

  /** An `Iterable<Tag>` argument: an existing `Tags` instance or any other collection of tags. */
  datatype TagIterable = TagsInstance(instance: Tags) | Elements(items: seq<Tag>)

  /** The tags an iterable argument yields, in iteration order. */
  function Items(source: TagIterable): seq<Tag>
  {
    match source
    case TagsInstance(t) => t.tags
    case Elements(s) => s
  }

  /** A `Tags` instance passed as an iterable keeps its own invariant. */
  predicate ValidIterable(source: TagIterable)
  {
    source.TagsInstance? ==> source.instance.Valid()
  }

  class Tags {
    /** The tags, ascending by key; a `const`, so no instance ever changes. */
    const tags: seq<Tag>

    /** The collection invariant: keys strictly ascend, so each key occurs once. */
    predicate Valid()
    {
      StrictlySorted(tags)
    }

    /** Sorts the given tags by key and keeps, for each key, the last tag given for it. */
    constructor (items: seq<Tag>)
      ensures Valid() && tags == Normalize(items)
    {
      tags := Normalize(items);
    }

    /** `Tags.empty()`: a collection without tags. Whether it is a shared
        instance or a new one is left open. */
    static method Empty() returns (r: Tags)
      ensures r.Valid() && r.tags == []
    {
      r := new Tags([]);
    }

    /** `Tags.of(key, value)`: exactly the one tag. */
    static method Of(key: string, value: string) returns (r: Tags)
      ensures fresh(r) && r.Valid() && r.tags == [Tag(key, value)]
    {
      NormalizeSorted([Tag(key, value)]);
      r := new Tags([Tag(key, value)]);
    }

    /**
     * `Tags.of(String...)`: the tags of a flat key/value array, a later pair
     * overriding an earlier one with the same key; an odd length is rejected.
     */
    static method OfKeyValues(keyValues: seq<string>) returns (r: Result<Tags>)
      ensures r.Err? <==> |keyValues| % 2 == 1
      ensures r.Err? ==> r.error == IllegalArgument
      ensures r.Ok? ==> fresh(r.value) && r.value.Valid() && r.value.tags == Normalize(Pairs(keyValues).value)
    {
      var pairs := Pairs(keyValues);
      if pairs.Err? {
        return Err(pairs.error);
      }
      var t := new Tags(pairs.value);
      return Ok(t);
    }

    /** `Tags.zip(String...)`: the deprecated alias of `OfKeyValues`. */
    static method Zip(keyValues: seq<string>) returns (r: Result<Tags>)
      ensures r.Err? <==> |keyValues| % 2 == 1
      ensures r.Err? ==> r.error == IllegalArgument
      ensures r.Ok? ==> fresh(r.value) && r.value.Valid() && r.value.tags == Normalize(Pairs(keyValues).value)
    {
      r := OfKeyValues(keyValues);
    }

    /**
     * `Tags.of(Iterable<Tag>)`: an existing `Tags` comes back as the very same
     * instance; any other collection is sorted and deduplicated into a new one.
     */
    static method OfIterable(source: TagIterable) returns (r: Tags)
      requires ValidIterable(source)
      ensures source.TagsInstance? ==> r == source.instance
      ensures source.Elements? ==> fresh(r)
      ensures r.Valid() && r.tags == Normalize(Items(source))
    {
      match source
      case TagsInstance(t) =>
        NormalizeSorted(t.tags);
        r := t;
      case Elements(s) =>
        r := new Tags(s);
    }

    /** The one merge all `and` forms share: a new instance, the incoming tags winning. */
    method MergedWith(incoming: seq<Tag>) returns (r: Tags)
      requires Valid()
      ensures fresh(r) && r.Valid() && r.tags == Merge(tags, incoming)
    {
      NormalizeAppend(tags, incoming);
      r := new Tags(tags + incoming);
    }

    /** `and(key, value)`: a new instance in which `key` maps to `value`. */
    method And(key: string, value: string) returns (r: Tags)
      requires Valid()
      ensures fresh(r) && r.Valid() && r.tags == Put(tags, Tag(key, value))
    {
      r := MergedWith([Tag(key, value)]);
      assert Merge(tags, [Tag(key, value)]) == Merge(Put(tags, Tag(key, value)), []);
    }

    /**
     * `and(String...)`: a null or empty array gives back the receiver itself;
     * an odd length is rejected; otherwise a new instance with the pairs merged in.
     */
    method AndKeyValues(keyValues: Option<seq<string>>) returns (r: Result<Tags>)
      requires Valid()
      ensures keyValues.None? || keyValues.value == [] ==> r == Ok(this)
      ensures r.Err? <==> keyValues.Some? && |keyValues.value| % 2 == 1
      ensures r.Err? ==> r.error == IllegalArgument
      ensures keyValues.Some? && keyValues.value != [] && r.Ok? ==>
                fresh(r.value) && r.value.Valid() && r.value.tags == Merge(tags, Pairs(keyValues.value).value)
    {
      if keyValues.None? || keyValues.value == [] {
        return Ok(this);
      }
      var pairs := Pairs(keyValues.value);
      if pairs.Err? {
        return Err(pairs.error);
      }
      var t := MergedWith(pairs.value);
      return Ok(t);
    }

    /** `and(Tag...)`: a null or empty array gives back the receiver; otherwise as `AndIterable`. */
    method AndTags(incoming: Option<seq<Tag>>) returns (r: Tags)
      requires Valid()
      ensures incoming.None? || incoming.value == [] ==> r == this
      ensures incoming.Some? && incoming.value != [] ==>
                fresh(r) && r.Valid() && r.tags == Merge(tags, incoming.value)
    {
      if incoming.None? {
        r := AndIterable(None);
      } else {
        r := AndIterable(Some(Elements(incoming.value)));
      }
    }

    /**
     * `and(Iterable<Tag>)`: a null or empty iterable gives back the receiver
     * itself; otherwise a new instance with the iterable's tags merged in.
     */
    method AndIterable(incoming: Option<TagIterable>) returns (r: Tags)
      requires Valid()
      requires incoming.Some? ==> ValidIterable(incoming.value)
      ensures incoming.None? || Items(incoming.value) == [] ==> r == this
      ensures incoming.Some? && Items(incoming.value) != [] ==>
                fresh(r) && r.Valid() && r.tags == Merge(tags, Items(incoming.value))
    {
      if incoming.None? || Items(incoming.value) == [] {
        return this;
      }
      r := MergedWith(Items(incoming.value));
    }

    /** `Tags.concat(Iterable<Tag>, String...)`: `of(base).and(keyValues)`. */
    static method ConcatKeyValues(base: TagIterable, keyValues: Option<seq<string>>) returns (r: Result<Tags>)
      requires ValidIterable(base)
      ensures base.TagsInstance? && (keyValues.None? || keyValues.value == []) ==> r == Ok(base.instance)
      ensures r.Err? <==> keyValues.Some? && |keyValues.value| % 2 == 1
      ensures r.Err? ==> r.error == IllegalArgument
      ensures r.Ok? ==> r.value.Valid()
      ensures r.Ok? ==> r.value.tags == if keyValues.None? || keyValues.value == [] then Normalize(Items(base))
                                        else Merge(Normalize(Items(base)), Pairs(keyValues.value).value)
      ensures r.Ok? && (base.Elements? || (keyValues.Some? && keyValues.value != [])) ==> fresh(r.value)
    {
      var t := OfIterable(base);
      r := t.AndKeyValues(keyValues);
    }

    /** `Tags.concat(Iterable<Tag>, Iterable<Tag>)`: `of(base).and(other)`. */
    static method ConcatIterable(base: TagIterable, other: Option<TagIterable>) returns (r: Tags)
      requires ValidIterable(base)
      requires other.Some? ==> ValidIterable(other.value)
      ensures base.TagsInstance? && (other.None? || Items(other.value) == []) ==> r == base.instance
      ensures r.Valid()
      ensures r.tags == if other.None? || Items(other.value) == [] then Normalize(Items(base))
                        else Merge(Normalize(Items(base)), Items(other.value))
      ensures base.Elements? || (other.Some? && Items(other.value) != []) ==> fresh(r)
    {
      var t := OfIterable(base);
      r := t.AndIterable(other);
    }

    /** `iterator()`: the stored tags, in ascending key order, and nothing else. */
    function Iterator(): (r: seq<Tag>)
      requires Valid()
      ensures r == tags && StrictlySorted(r)
    {
      tags
    }

    /** `stream()`: the same tags in the same order as `Iterator`. */
    function Stream(): (r: seq<Tag>)
      requires Valid()
      ensures r == Iterator()
    {
      tags
    }
  }
}
