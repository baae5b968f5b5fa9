/** `sorted_files_from_bucket`: the object-versions of a bucket, ordered by the
    position of their key in a list of desired keys (utils.py:19-31). */
module BucketSort {
  import opened Wrappers
  import opened Models

  /** `keys or []`: a missing or empty list means "no explicit order". */
  function KeysOrEmpty(keys: Option<seq<string>>): seq<string> {
    match keys
    case None => []
    case Some(ks) => ks
  }

  /** `dict(zip(keys, range(len(keys))))`: later pairs overwrite earlier ones. */
  function SortBy(keys: seq<string>): map<string, nat> {
    if keys == [] then map[]
    else SortBy(keys[..|keys| - 1])[keys[|keys| - 1] := |keys| - 1]
  }

  /** `sortby.get(key, total)`. */
  function Rank(keys: seq<string>, key: string): nat {
    var sortby := SortBy(keys);
    if key in sortby then sortby[key] else |keys|
  }

  /** A listed key ranks at the LAST index where it occurs; an unlisted key
      ranks at `len(keys)`. */
  lemma {:induction false} RankIsLastIndex(keys: seq<string>, key: string)
    ensures key in keys ==>
      Rank(keys, key) < |keys| && keys[Rank(keys, key)] == key &&
      forall j :: Rank(keys, key) < j < |keys| ==> keys[j] != key
    ensures key !in keys ==> Rank(keys, key) == |keys|
  {
    SortByDomain(keys, key);
  }

  lemma {:induction false} SortByDomain(keys: seq<string>, key: string)
    ensures key in SortBy(keys) <==> key in keys
    ensures key in SortBy(keys) ==>
      SortBy(keys)[key] < |keys| && keys[SortBy(keys)[key]] == key &&
      forall j :: SortBy(keys)[key] < j < |keys| ==> keys[j] != key
  {
    if keys != [] {
      var init := keys[..|keys| - 1];
      SortByDomain(init, key);
      assert keys == init + [keys[|keys| - 1]];
      assert key in keys <==> key in init || key == keys[|keys| - 1];
    }
  }

  function RankOf(keys: seq<string>, x: ObjectVersion): nat {
    Rank(keys, x.key)
  }

  /** Puts `x` before the first element whose rank is not smaller. */
  function Insert(keys: seq<string>, x: ObjectVersion, s: seq<ObjectVersion>): seq<ObjectVersion> {
    if s == [] then [x]
    else if RankOf(keys, x) <= RankOf(keys, s[0]) then [x] + s
    else [s[0]] + Insert(keys, x, s[1..])
  }

  /** A stable sort by rank, the behaviour of Python's `sorted(..., key=...)`. */
  function SortByRank(keys: seq<string>, s: seq<ObjectVersion>): seq<ObjectVersion> {
    if s == [] then [] else Insert(keys, s[0], SortByRank(keys, s[1..]))
  }

  /** `sorted_files_from_bucket(bucket, keys)`, with the bucket's query result
      `ObjectVersion.get_by_bucket(bucket).all()` given as `values`. */
  function SortedFilesFromBucket(values: seq<ObjectVersion>, keys: Option<seq<string>>): seq<ObjectVersion> {
    SortByRank(KeysOrEmpty(keys), values)
  }

  predicate RankOrdered(keys: seq<string>, s: seq<ObjectVersion>) {
    forall i, j :: 0 <= i < j < |s| ==> RankOf(keys, s[i]) <= RankOf(keys, s[j])
  }

  /** The subsequence of `s` whose rank is `r`, in the order of `s`. */
  function WithRank(keys: seq<string>, s: seq<ObjectVersion>, r: nat): seq<ObjectVersion> {
    if s == [] then []
    else (if RankOf(keys, s[0]) == r then [s[0]] else []) + WithRank(keys, s[1..], r)
  }

  lemma {:induction false} InsertPermutes(keys: seq<string>, x: ObjectVersion, s: seq<ObjectVersion>)
    ensures multiset(Insert(keys, x, s)) == multiset(s) + multiset{x}
  {
    if s != [] && RankOf(keys, x) > RankOf(keys, s[0]) {
      InsertPermutes(keys, x, s[1..]);
      assert s == [s[0]] + s[1..];
    }
  }

  lemma {:induction false} InsertOrdered(keys: seq<string>, x: ObjectVersion, s: seq<ObjectVersion>)
    requires RankOrdered(keys, s)
    ensures RankOrdered(keys, Insert(keys, x, s))
  {
    if s != [] && RankOf(keys, x) > RankOf(keys, s[0]) {
      var rest := Insert(keys, x, s[1..]);
      InsertOrdered(keys, x, s[1..]);
      InsertPermutes(keys, x, s[1..]);
      forall j | 0 <= j < |rest| ensures RankOf(keys, s[0]) <= RankOf(keys, rest[j]) {
        assert rest[j] in multiset(rest);
        assert rest[j] in multiset(s[1..]) + multiset{x};
        if rest[j] != x {
          assert rest[j] in s[1..];
        }
      }
    }
  }

  lemma {:induction false} InsertWithRank(keys: seq<string>, x: ObjectVersion, s: seq<ObjectVersion>, r: nat)
    ensures WithRank(keys, Insert(keys, x, s), r) ==
      (if RankOf(keys, x) == r then [x] else []) + WithRank(keys, s, r)
  {
    var head := if RankOf(keys, x) == r then [x] else [];
    if s == [] {
      assert Insert(keys, x, s) == [x];
      assert WithRank(keys, [x], r) == head + WithRank(keys, [], r);
    } else if RankOf(keys, x) <= RankOf(keys, s[0]) {
      var out := [x] + s;
      assert out[0] == x && out[1..] == s;
      assert WithRank(keys, out, r) == head + WithRank(keys, s, r);
    } else {
      var rest := Insert(keys, x, s[1..]);
      var out := [s[0]] + rest;
      var first := if RankOf(keys, s[0]) == r then [s[0]] else [];
      InsertWithRank(keys, x, s[1..], r);
      assert out[0] == s[0] && out[1..] == rest;
      assert WithRank(keys, out, r) == first + WithRank(keys, rest, r);
      assert WithRank(keys, s, r) == first + WithRank(keys, s[1..], r);
      assert RankOf(keys, x) == r ==> first == [];
    }
  }

  /** No object-version is lost or duplicated (utils.py:30-31). */
  lemma {:induction false} SortedFilesPermutes(values: seq<ObjectVersion>, keys: Option<seq<string>>)
    ensures multiset(SortedFilesFromBucket(values, keys)) == multiset(values)
    ensures |SortedFilesFromBucket(values, keys)| == |values|
  {
    var ks := KeysOrEmpty(keys);
    if values != [] {
      SortedFilesPermutes(values[1..], keys);
      InsertPermutes(ks, values[0], SortByRank(ks, values[1..]));
      assert values == [values[0]] + values[1..];
    }
    assert |multiset(SortedFilesFromBucket(values, keys))| == |multiset(values)|;
  }

  /** The output is non-decreasing in rank (utils.py:28-31). */
  lemma {:induction false} SortedFilesOrdered(values: seq<ObjectVersion>, keys: Option<seq<string>>)
    ensures RankOrdered(KeysOrEmpty(keys), SortedFilesFromBucket(values, keys))
  {
    var ks := KeysOrEmpty(keys);
    if values != [] {
      SortedFilesOrdered(values[1..], keys);
      InsertOrdered(ks, values[0], SortByRank(ks, values[1..]));
    }
  }

  /** Stability: for every rank, the items of that rank appear in the output
      in exactly their input order (utils.py:31). */
  lemma {:induction false} SortedFilesStable(values: seq<ObjectVersion>, keys: Option<seq<string>>, r: nat)
    ensures WithRank(KeysOrEmpty(keys), SortedFilesFromBucket(values, keys), r) ==
            WithRank(KeysOrEmpty(keys), values, r)
  {
    var ks := KeysOrEmpty(keys);
    if values != [] {
      SortedFilesStable(values[1..], keys, r);
      InsertWithRank(ks, values[0], SortByRank(ks, values[1..]), r);
    }
  }

  /** Every item whose key is listed comes before every item whose key is not. */
  lemma ListedBeforeUnlisted(values: seq<ObjectVersion>, keys: Option<seq<string>>, i: nat, j: nat)
    requires i < j < |SortedFilesFromBucket(values, keys)|
    requires SortedFilesFromBucket(values, keys)[j].key in KeysOrEmpty(keys)
    ensures SortedFilesFromBucket(values, keys)[i].key in KeysOrEmpty(keys)
  {
    var ks := KeysOrEmpty(keys);
    var out := SortedFilesFromBucket(values, keys);
    SortedFilesOrdered(values, keys);
    RankIsLastIndex(ks, out[i].key);
    RankIsLastIndex(ks, out[j].key);
    assert RankOf(ks, out[i]) <= RankOf(ks, out[j]);
  }

  /** With `keys` None or empty every rank is 0, so the input order is kept. */
  lemma {:induction false} NoKeysKeepsOrder(values: seq<ObjectVersion>, keys: Option<seq<string>>)
    requires keys.None? || keys.value == []
    ensures SortedFilesFromBucket(values, keys) == values
  {
    if values != [] {
      NoKeysKeepsOrder(values[1..], keys);
      assert values == [values[0]] + values[1..];
    }
  }
}
