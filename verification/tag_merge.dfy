/**
 * The value semantics of a tag collection: a sequence of tags in ascending key
 * order with every key at most once, and the last-write-wins merge that builds it.
 */
module TagMerge {
  import opened Wrappers
  import opened TagOrder

  /** Keys strictly ascend; in particular no key occurs twice. */
  predicate StrictlySorted(s: seq<Tag>)
  {
    forall i, j :: 0 <= i < j < |s| ==> KeyLess(s[i].key, s[j].key)
  }

  /**
   * The value the LAST tag with key `k` in `s` carries, or `None` when no tag
   * of `s` has that key: what a key maps to after applying `s` left to right.
   */
  function LastValue(s: seq<Tag>, k: string): (r: Option<string>)
    ensures r.None? <==> forall i :: 0 <= i < |s| ==> s[i].key != k
    ensures r.Some? ==> Tag(k, r.value) in s
    ensures r.Some? ==> exists i :: 0 <= i < |s| && s[i] == Tag(k, r.value) &&
                                    forall j :: i < j < |s| ==> s[j].key != k
  {
    if s == [] then None
    else
      var later := LastValue(s[1..], k);
      if later.Some? then
        assert forall j :: 1 <= j < |s| ==> s[j] == s[1..][j - 1];
        later
      else if s[0].key == k then
        assert forall j :: 1 <= j < |s| ==> s[j] == s[1..][j - 1];
        Some(s[0].value)
      else
        assert forall j :: 1 <= j < |s| ==> s[j] == s[1..][j - 1];
        None
  }

  /** `LastValue` finds the tag for `k` that no later tag of `s` overrides. */
  lemma LastValueIsLast(s: seq<Tag>, k: string, v: string)
    ensures LastValue(s, k) == Some(v) <==>
            exists i :: 0 <= i < |s| && s[i] == Tag(k, v) && forall j :: i < j < |s| ==> s[j].key != k
  {
  }

  /** An incoming value shadows an existing one. */
  function Override(incoming: Option<string>, existing: Option<string>): Option<string>
  {
    if incoming.Some? then incoming else existing
  }

  /** In a key-unique sequence a tag is present exactly when its key maps to its value. */
  lemma SortedLastValue(s: seq<Tag>, k: string, v: string)
    requires StrictlySorted(s)
    ensures Tag(k, v) in s <==> LastValue(s, k) == Some(v)
  {
    if Tag(k, v) in s {
      var i :| 0 <= i < |s| && s[i] == Tag(k, v);
      var r := LastValue(s, k);
      var j :| 0 <= j < |s| && s[j] == Tag(k, r.value) && forall m :: j < m < |s| ==> s[m].key != k;
      if i < j {
        KeyLessIrreflexive(k);
      }
    }
  }

  /** A tag whose key precedes every key of a strictly sorted sequence may be put in front. */
  lemma SortedCons(t: Tag, s: seq<Tag>)
    requires StrictlySorted(s)
    requires forall x :: x in s ==> KeyLess(t.key, x.key)
    ensures StrictlySorted([t] + s)
  {
  }

  /** The first key of a strictly sorted sequence precedes all the others. */
  lemma SortedTail(s: seq<Tag>)
    requires StrictlySorted(s) && s != []
    ensures StrictlySorted(s[1..])
    ensures forall x :: x in s[1..] ==> KeyLess(s[0].key, x.key) && x.key != s[0].key
    ensures forall x :: x in s <==> x == s[0] || x in s[1..]
  {
    forall x | x in s[1..] ensures KeyLess(s[0].key, x.key) && x.key != s[0].key {
      var j :| 0 <= j < |s[1..]| && s[1..][j] == x;
      assert s[j + 1] == x;
      KeyLessIrreflexive(s[0].key);
    }
    assert s == [s[0]] + s[1..];
  }

  /**
   * Adds one tag: the tag takes the place of the tag with the same key, if
   * any, and otherwise goes where its key belongs in ascending order.
   */
  function Put(s: seq<Tag>, t: Tag): (r: seq<Tag>)
    requires StrictlySorted(s)
    ensures StrictlySorted(r)
    ensures forall x :: x in r <==> x == t || (x in s && x.key != t.key)
  {
    if s == [] then [t]
    else if s[0].key == t.key then
      SortedTail(s);
      SortedCons(t, s[1..]);
      [t] + s[1..]
    else if KeyLess(t.key, s[0].key) then
      SortedTail(s);
      assert forall x :: x in s[1..] ==> KeyLess(t.key, x.key) by {
        forall x | x in s[1..] ensures KeyLess(t.key, x.key) {
          KeyLessTransitive(t.key, s[0].key, x.key);
        }
      }
      SortedCons(t, s);
      KeyLessIrreflexive(t.key);
      [t] + s
    else
      SortedTail(s);
      KeyLessTotal(s[0].key, t.key);
      var rest := Put(s[1..], t);
      SortedCons(s[0], rest);
      [s[0]] + rest
  }

  /** Applies the incoming tags one after another, so a later tag beats an earlier one. */
  function Merge(s: seq<Tag>, incoming: seq<Tag>): (r: seq<Tag>)
    requires StrictlySorted(s)
    ensures StrictlySorted(r)
    decreases |incoming|
  {
    if incoming == [] then s else Merge(Put(s, incoming[0]), incoming[1..])
  }

  /** Sorts and deduplicates an arbitrary sequence of tags, last write winning. */
  function Normalize(items: seq<Tag>): (r: seq<Tag>)
    ensures StrictlySorted(r)
  {
    Merge([], items)
  }

  /** After `Put`, the new tag's key maps to its value and every other key is unaffected. */
  lemma PutLastValue(s: seq<Tag>, t: Tag, k: string)
    requires StrictlySorted(s)
    ensures LastValue(Put(s, t), k) == if k == t.key then Some(t.value) else LastValue(s, k)
  {
    var r := Put(s, t);
    var got := LastValue(r, k);
    var want := if k == t.key then Some(t.value) else LastValue(s, k);
    if got.Some? {
      SortedLastValue(r, k, got.value);
      SortedLastValue(s, k, got.value);
    }
    if want.Some? {
      SortedLastValue(r, k, want.value);
      SortedLastValue(s, k, want.value);
    }
  }

  /**
   * The merge law: after merging, a key maps to the last value the incoming
   * tags give it, and only when they give it none, to its value in `s`.
   */
  lemma {:induction false} MergeLastValue(s: seq<Tag>, incoming: seq<Tag>, k: string)
    requires StrictlySorted(s)
    ensures LastValue(Merge(s, incoming), k) == Override(LastValue(incoming, k), LastValue(s, k))
    decreases |incoming|
  {
    if incoming != [] {
      var t := incoming[0];
      MergeLastValue(Put(s, t), incoming[1..], k);
      PutLastValue(s, t, k);
    }
  }

  /** The same law, stated on the tags the merged sequence holds. */
  lemma MergeContains(s: seq<Tag>, incoming: seq<Tag>, k: string, v: string)
    requires StrictlySorted(s)
    ensures Tag(k, v) in Merge(s, incoming) <==>
            LastValue(incoming, k) == Some(v) || (LastValue(incoming, k) == None && Tag(k, v) in s)
  {
    MergeLastValue(s, incoming, k);
    SortedLastValue(Merge(s, incoming), k, v);
    SortedLastValue(s, k, v);
  }

  /** A strictly sorted sequence is determined by the value each key maps to. */
  lemma {:induction false} SortedUnique(a: seq<Tag>, b: seq<Tag>)
    requires StrictlySorted(a) && StrictlySorted(b)
    requires forall k :: LastValue(a, k) == LastValue(b, k)
    ensures a == b
    decreases |a| + |b|
  {
    if a != [] {
      assert LastValue(a, a[0].key).Some?;
    }
    if b != [] {
      assert LastValue(b, b[0].key).Some?;
    }
    if a != [] && b != [] {
      HeadIsMinimum(a, b[0].key);
      HeadIsMinimum(b, a[0].key);
      if KeyLess(a[0].key, b[0].key) {
        KeyLessAsymmetric(a[0].key, b[0].key);
      }
      var k0 := a[0].key;
      SortedLastValue(a, k0, a[0].value);
      SortedLastValue(b, k0, b[0].value);
      assert a[0] == b[0];
      forall k ensures LastValue(a[1..], k) == LastValue(b[1..], k) {
        TailLastValue(a, k);
        TailLastValue(b, k);
      }
      SortedUnique(a[1..], b[1..]);
      assert a == [a[0]] + a[1..] && b == [b[0]] + b[1..];
    }
  }

  /** Every key present in a strictly sorted sequence is at least its first key. */
  lemma HeadIsMinimum(s: seq<Tag>, k: string)
    requires StrictlySorted(s) && s != []
    requires LastValue(s, k).Some?
    ensures k == s[0].key || KeyLess(s[0].key, k)
  {
  }

  /** Dropping the first tag of a strictly sorted sequence forgets only its key. */
  lemma TailLastValue(s: seq<Tag>, k: string)
    requires StrictlySorted(s) && s != []
    ensures LastValue(s[1..], k) == if k == s[0].key then None else LastValue(s, k)
  {
    if k == s[0].key {
      forall i | 0 <= i < |s[1..]| ensures s[1..][i].key != k {
        assert s[1..][i] == s[i + 1];
        KeyLessIrreflexive(k);
      }
    }
  }

  /**
   * Merging depends on the incoming tags only through the last value each
   * gives a key: the order of distinct keys in the argument does not matter.
   */
  lemma MergeDeterminedByLastValues(s: seq<Tag>, xs: seq<Tag>, ys: seq<Tag>)
    requires StrictlySorted(s)
    requires forall k :: LastValue(xs, k) == LastValue(ys, k)
    ensures Merge(s, xs) == Merge(s, ys)
  {
    forall k ensures LastValue(Merge(s, xs), k) == LastValue(Merge(s, ys), k) {
      MergeLastValue(s, xs, k);
      MergeLastValue(s, ys, k);
    }
    SortedUnique(Merge(s, xs), Merge(s, ys));
  }

  /** Merging twice in a row is merging the concatenated arguments once. */
  lemma {:induction false} MergeChain(s: seq<Tag>, xs: seq<Tag>, ys: seq<Tag>)
    requires StrictlySorted(s)
    ensures Merge(Merge(s, xs), ys) == Merge(s, xs + ys)
    decreases |xs|
  {
    if xs != [] {
      assert (xs + ys)[0] == xs[0] && (xs + ys)[1..] == xs[1..] + ys;
      MergeChain(Put(s, xs[0]), xs[1..], ys);
    } else {
      assert xs + ys == ys;
    }
  }

  /** Normalizing an already sorted, key-unique sequence gives it back unchanged. */
  lemma NormalizeSorted(s: seq<Tag>)
    requires StrictlySorted(s)
    ensures Normalize(s) == s
  {
    forall k ensures LastValue(Normalize(s), k) == LastValue(s, k) {
      MergeLastValue([], s, k);
    }
    SortedUnique(Normalize(s), s);
  }

  /** Concatenating a collection's tags with new ones and normalizing is merging them in. */
  lemma NormalizeAppend(s: seq<Tag>, incoming: seq<Tag>)
    requires StrictlySorted(s)
    ensures Normalize(s + incoming) == Merge(s, incoming)
  {
    MergeChain([], s, incoming);
    NormalizeSorted(s);
  }

  /**
   * When no incoming key is already present, the merge holds exactly the
   * tags of `s` together with the normalized incoming tags.
   */
  lemma MergeDisjoint(s: seq<Tag>, incoming: seq<Tag>)
    requires StrictlySorted(s)
    requires forall i, j :: 0 <= i < |s| && 0 <= j < |incoming| ==> s[i].key != incoming[j].key
    ensures forall x :: x in Merge(s, incoming) <==> x in s || x in Normalize(incoming)
  {
    forall x ensures x in Merge(s, incoming) <==> x in s || x in Normalize(incoming) {
      MergeContains(s, incoming, x.key, x.value);
      MergeContains([], incoming, x.key, x.value);
      SortedLastValue(s, x.key, x.value);
    }
  }
}
