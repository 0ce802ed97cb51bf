/**
 * Flat alternating key/value arrays (`"k1", "v1", "k2", "v2", ...`) and the
 * tags they stand for.
 */
module KeyValues {
  import opened Wrappers
  import opened TagOrder
  import opened TagMerge

  /**
   * Pairs up a flat key/value array; an odd length is an `IllegalArgumentException`.
   */
  function Pairs(keyValues: seq<string>): (r: Result<seq<Tag>>)
    ensures r.Ok? <==> |keyValues| % 2 == 0
    ensures r.Err? ==> r.error == IllegalArgument
    ensures r.Ok? ==> |r.value| * 2 == |keyValues| &&
                      forall i :: 0 <= i < |r.value| ==> r.value[i] == Tag(keyValues[2 * i], keyValues[2 * i + 1])
    decreases |keyValues|
  {
    if |keyValues| % 2 == 1 then Err(IllegalArgument)
    else if keyValues == [] then Ok([])
    else
      var rest := Pairs(keyValues[2..]).value;
      var r := [Tag(keyValues[0], keyValues[1])] + rest;
      assert forall i :: 1 <= i < |r| ==> r[i] == rest[i - 1];
      Ok(r)
  }

  /** Writes tags out as a flat key/value array, key before value, in order. */
  function Flatten(tags: seq<Tag>): (r: seq<string>)
    ensures |r| == 2 * |tags|
    ensures forall i :: 0 <= i < |tags| ==> r[2 * i] == tags[i].key && r[2 * i + 1] == tags[i].value
  {
    if tags == [] then []
    else
      var rest := Flatten(tags[1..]);
      var r := [tags[0].key, tags[0].value] + rest;
      assert forall i :: 1 <= i < |tags| ==> r[2 * i] == rest[2 * (i - 1)] && r[2 * i + 1] == rest[2 * (i - 1) + 1];
      r
  }

  /** Pairing up a flattened tag sequence gives the tags back. */
  lemma {:induction false} PairsFlatten(tags: seq<Tag>)
    ensures Pairs(Flatten(tags)) == Ok(tags)
  {
    if tags != [] {
      PairsFlatten(tags[1..]);
      var flat := Flatten(tags);
      assert flat[2..] == Flatten(tags[1..]);
      assert flat[0] == tags[0].key && flat[1] == tags[0].value;
      assert tags == [tags[0]] + tags[1..];
    }
  }

  /** Flattening the pairs of an even-length array gives the array back. */
  lemma {:induction false} FlattenPairs(keyValues: seq<string>)
    requires |keyValues| % 2 == 0
    ensures Pairs(keyValues).Ok? && Flatten(Pairs(keyValues).value) == keyValues
    decreases |keyValues|
  {
    if keyValues != [] {
      FlattenPairs(keyValues[2..]);
      var tags := Pairs(keyValues).value;
      assert tags[1..] == Pairs(keyValues[2..]).value;
      assert keyValues == [keyValues[0], keyValues[1]] + keyValues[2..];
    }
  }

  /**
   * A flat key/value array builds a collection holding `(k, v)` exactly when
   * some pair `k, v` occurs in it and no later pair has the key `k`.
   */
  lemma NormalizePairsLastWins(keyValues: seq<string>, k: string, v: string)
    requires |keyValues| % 2 == 0
    ensures Tag(k, v) in Normalize(Pairs(keyValues).value) <==>
            exists i :: 0 <= i < |keyValues| / 2 && keyValues[2 * i] == k && keyValues[2 * i + 1] == v &&
                        forall j :: i < j < |keyValues| / 2 ==> keyValues[2 * j] != k
  {
    var tags := Pairs(keyValues).value;
    MergeContains([], tags, k, v);
    LastValueIsLast(tags, k, v);
  }
}
