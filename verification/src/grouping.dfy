/**
 * The bucket-filling loops of batch extraction, stated once for any key: a dictionary
 * of lists that is filled by `groups.setdefault(key(x), []).append(x)` in input order,
 * and the slicing of a list into consecutive chunks.
 */
module Grouping {

  /** One entry of an insertion-ordered dictionary of lists. */
  datatype Bucket<K, V> = Bucket(key: K, items: seq<V>)

  function KeysOf<K, V>(bs: seq<Bucket<K, V>>): (ks: seq<K>)
    ensures |ks| == |bs|
    ensures forall i :: 0 <= i < |bs| ==> ks[i] == bs[i].key
  {
    if bs == [] then [] else [bs[0].key] + KeysOf(bs[1..])
  }

  predicate Distinct<K(==)>(ks: seq<K>)
  {
    forall i, j :: 0 <= i < j < |ks| ==> ks[i] != ks[j]
  }

  /** `groups.get(k, [])`. */
  function ItemsOf<K(==), V>(bs: seq<Bucket<K, V>>, k: K): seq<V>
  {
    if bs == [] then [] else if bs[0].key == k then bs[0].items else ItemsOf(bs[1..], k)
  }

  /** With distinct keys, looking a bucket's key up finds that bucket. */
  lemma {:induction false} ItemsOfDistinct<K, V>(bs: seq<Bucket<K, V>>, i: int)
    requires Distinct(KeysOf(bs)) && 0 <= i < |bs|
    ensures ItemsOf(bs, bs[i].key) == bs[i].items
  {
    if i > 0 {
      assert KeysOf(bs)[0] != KeysOf(bs)[i];
      assert KeysOf(bs[1..]) == KeysOf(bs)[1..];
      ItemsOfDistinct(bs[1..], i - 1);
    }
  }

  /** The number of items over all buckets. */
  function Total<K, V>(bs: seq<Bucket<K, V>>): nat
  {
    if bs == [] then 0 else |bs[0].items| + Total(bs[1..])
  }

  /** `groups.setdefault(k, []).append(v)`: a new key opens a bucket at the end. */
  function AddTo<K(==), V>(bs: seq<Bucket<K, V>>, k: K, v: V): (r: seq<Bucket<K, V>>)
    ensures k in KeysOf(bs) ==> KeysOf(r) == KeysOf(bs)
    ensures k !in KeysOf(bs) ==> KeysOf(r) == KeysOf(bs) + [k]
  {
    if bs == [] then [Bucket(k, [v])]
    else if bs[0].key == k then [Bucket(k, bs[0].items + [v])] + bs[1..]
    else
      var tail := AddTo(bs[1..], k, v);
      assert KeysOf([bs[0]] + tail) == [bs[0].key] + KeysOf(tail);
      assert KeysOf(bs) == [bs[0].key] + KeysOf(bs[1..]);
      [bs[0]] + tail
  }

  /** Appending to bucket `k` lengthens that bucket by `v` and leaves every other alone. */
  lemma {:induction false} AddToItems<K, V>(bs: seq<Bucket<K, V>>, k: K, v: V, k': K)
    ensures ItemsOf(AddTo(bs, k, v), k') == if k' == k then ItemsOf(bs, k) + [v] else ItemsOf(bs, k')
  {
    if bs != [] && bs[0].key != k {
      AddToItems(bs[1..], k, v, k');
    }
  }

  lemma {:induction false} AddToTotal<K, V>(bs: seq<Bucket<K, V>>, k: K, v: V)
    ensures Total(AddTo(bs, k, v)) == Total(bs) + 1
  {
    if bs != [] && bs[0].key != k {
      AddToTotal(bs[1..], k, v);
    }
  }

  /** The loop `for x in xs: groups.setdefault(key(x), []).append(x)` run on `bs`. */
  function Place<K(==), V>(bs: seq<Bucket<K, V>>, xs: seq<V>, key: V -> K): seq<Bucket<K, V>>
  {
    if xs == [] then bs
    else AddTo(Place(bs, xs[..|xs| - 1], key), key(xs[|xs| - 1]), xs[|xs| - 1])
  }

  /** `[x for x in xs if key(x) == k]`. */
  function Filter<K(==), V>(xs: seq<V>, key: V -> K, k: K): (r: seq<V>)
    ensures |r| <= |xs|
  {
    if xs == [] then []
    else Filter(xs[..|xs| - 1], key, k) + (if key(xs[|xs| - 1]) == k then [xs[|xs| - 1]] else [])
  }

  /** Some element of `xs` has key `k`. */
  predicate Occurs<K(==), V>(xs: seq<V>, key: V -> K, k: K)
  {
    exists i :: 0 <= i < |xs| && key(xs[i]) == k
  }

  /** Each bucket gains exactly the elements with its key, in input order. */
  lemma {:induction false} PlaceItems<K, V>(bs: seq<Bucket<K, V>>, xs: seq<V>, key: V -> K, k: K)
    ensures ItemsOf(Place(bs, xs, key), k) == ItemsOf(bs, k) + Filter(xs, key, k)
  {
    if xs == [] {
      assert ItemsOf(bs, k) + [] == ItemsOf(bs, k);
    } else {
      var init := xs[..|xs| - 1];
      PlaceItems(bs, init, key, k);
      AddToItems(Place(bs, init, key), key(xs[|xs| - 1]), xs[|xs| - 1], k);
    }
  }

  /** Every element lands in one bucket: the item count grows by the number of elements. */
  lemma {:induction false} PlaceTotal<K, V>(bs: seq<Bucket<K, V>>, xs: seq<V>, key: V -> K)
    ensures Total(Place(bs, xs, key)) == Total(bs) + |xs|
  {
    if xs != [] {
      PlaceTotal(bs, xs[..|xs| - 1], key);
      AddToTotal(Place(bs, xs[..|xs| - 1], key), key(xs[|xs| - 1]), xs[|xs| - 1]);
    }
  }

  /**
   * The keys afterwards are the keys before followed by the new keys; they stay
   * distinct, and a key is present exactly when it was or some element carries it.
   */
  lemma {:induction false} PlaceKeys<K, V>(bs: seq<Bucket<K, V>>, xs: seq<V>, key: V -> K)
    requires Distinct(KeysOf(bs))
    ensures Distinct(KeysOf(Place(bs, xs, key)))
    ensures KeysOf(bs) <= KeysOf(Place(bs, xs, key))
    ensures forall k :: k in KeysOf(Place(bs, xs, key)) <==> k in KeysOf(bs) || Occurs(xs, key, k)
  {
    if xs != [] {
      var init := xs[..|xs| - 1];
      var last := xs[|xs| - 1];
      PlaceKeys(bs, init, key);
      var before := Place(bs, init, key);
      assert Place(bs, xs, key) == AddTo(before, key(last), last);
      AddToKeys(before, key(last), last);
      forall k ensures Occurs(xs, key, k) <==> Occurs(init, key, k) || key(last) == k {
        OccursLast(xs, key, k);
      }
    }
  }

  /** One `setdefault(...).append` keeps the keys distinct and adds exactly its own key. */
  lemma AddToKeys<K, V>(bs: seq<Bucket<K, V>>, k: K, v: V)
    requires Distinct(KeysOf(bs))
    ensures Distinct(KeysOf(AddTo(bs, k, v)))
    ensures KeysOf(bs) <= KeysOf(AddTo(bs, k, v))
    ensures forall x :: x in KeysOf(AddTo(bs, k, v)) <==> x in KeysOf(bs) || x == k
  {
    if k !in KeysOf(bs) {
      var ks := KeysOf(bs) + [k];
      assert forall i :: 0 <= i < |KeysOf(bs)| ==> ks[i] == KeysOf(bs)[i];
    }
  }

  /** A key occurs in a list exactly when it occurs in its front or is the last element's. */
  lemma OccursLast<K, V>(xs: seq<V>, key: V -> K, k: K)
    requires xs != []
    ensures Occurs(xs, key, k) <==> Occurs(xs[..|xs| - 1], key, k) || key(xs[|xs| - 1]) == k
  {
    var init := xs[..|xs| - 1];
    if Occurs(init, key, k) {
      var i :| 0 <= i < |init| && key(init[i]) == k;
      assert xs[i] == init[i];
    }
    if Occurs(xs, key, k) && key(xs[|xs| - 1]) != k {
      var i :| 0 <= i < |xs| && key(xs[i]) == k;
      assert init[i] == xs[i];
    }
  }

  /** When every element's key already has a bucket, no bucket is opened. */
  lemma {:induction false} PlaceKnownKeys<K, V>(bs: seq<Bucket<K, V>>, xs: seq<V>, key: V -> K)
    requires forall i :: 0 <= i < |xs| ==> key(xs[i]) in KeysOf(bs)
    ensures KeysOf(Place(bs, xs, key)) == KeysOf(bs)
  {
    if xs != [] {
      PlaceKnownKeys(bs, xs[..|xs| - 1], key);
    }
  }

  /** `pages_by_type`: the elements grouped by key, starting from an empty dictionary. */
  function GroupBy<K(==,!new), V>(xs: seq<V>, key: V -> K): (r: seq<Bucket<K, V>>)
    ensures Distinct(KeysOf(r))
    ensures forall k :: k in KeysOf(r) <==> Occurs(xs, key, k)
    ensures forall k :: ItemsOf(r, k) == Filter(xs, key, k)
    ensures Total(r) == |xs|
  {
    var r := Place([], xs, key);
    PlaceKeys([], xs, key);
    PlaceTotal([], xs, key);
    assert forall k :: ItemsOf(r, k) == Filter(xs, key, k) by {
      forall k ensures ItemsOf(r, k) == Filter(xs, key, k) {
        PlaceItems([], xs, key, k);
      }
    }
    r
  }

  /** The position of the first element with key `k`, or `|xs|` when there is none. */
  function FirstAt<K(==), V>(xs: seq<V>, key: V -> K, k: K): (p: nat)
    ensures p <= |xs|
    ensures p < |xs| ==> key(xs[p]) == k
    ensures forall i :: 0 <= i < p ==> key(xs[i]) != k
  {
    if xs == [] then 0 else if key(xs[0]) == k then 0 else 1 + FirstAt(xs[1..], key, k)
  }

  /** A key found in a prefix is first found at the same place in the whole list. */
  lemma {:induction false} FirstAtPrefix<K, V>(xs: seq<V>, key: V -> K, k: K, n: nat)
    requires n <= |xs| && FirstAt(xs[..n], key, k) < n
    ensures FirstAt(xs, key, k) == FirstAt(xs[..n], key, k)
  {
    assert xs[..n][0] == xs[0];
    if key(xs[0]) != k {
      assert xs[..n][1..] == xs[1..][..n - 1];
      FirstAtPrefix(xs[1..], key, k, n - 1);
    }
  }

  /**
   * The groups come in order of first appearance: of two groups, the earlier one's key
   * occurs in the input before the later one's does.
   */
  lemma {:induction false} GroupByOrder<K(!new), V>(xs: seq<V>, key: V -> K)
    ensures forall i, j :: 0 <= i < j < |GroupBy(xs, key)| ==>
      FirstAt(xs, key, GroupBy(xs, key)[i].key) < FirstAt(xs, key, GroupBy(xs, key)[j].key)
    ensures forall i :: 0 <= i < |GroupBy(xs, key)| ==> FirstAt(xs, key, GroupBy(xs, key)[i].key) < |xs|
  {
    if xs != [] {
      var n := |xs| - 1;
      var init := xs[..n];
      var last := xs[n];
      var before := GroupBy(init, key);
      var after := GroupBy(xs, key);
      GroupByOrder(init, key);
      assert after == AddTo(before, key(last), last);
      assert xs[..n] == init;
      forall i | 0 <= i < |before| ensures FirstAt(xs, key, before[i].key) == FirstAt(init, key, before[i].key) {
        FirstAtPrefix(xs, key, before[i].key, n);
      }
      assert KeysOf(before) <= KeysOf(after) by {
        if key(last) !in KeysOf(before) {
          assert KeysOf(after) == KeysOf(before) + [key(last)];
        }
      }
      forall i | 0 <= i < |after| ensures FirstAt(xs, key, after[i].key) < |xs| && (i < |before| ==> after[i].key == before[i].key) {
        assert KeysOf(after)[i] == after[i].key;
        if i < |before| {
          assert KeysOf(before)[i] == before[i].key;
        } else {
          assert after[i].key == key(last);
          assert FirstAt(xs, key, key(last)) <= n;
        }
      }
      if key(last) !in KeysOf(before) {
        assert !Occurs(init, key, key(last));
        assert forall p :: 0 <= p < n ==> init[p] == xs[p];
      }
    }
  }

  /** `MAX_PAGES_PER_BATCH`: the most page images sent to the model in one request. */
  const BatchSize: nat := 10

  /** `[xs[i:i + 10] for i in range(0, len(xs), 10)]`. */
  function Chunks<V>(xs: seq<V>): (r: seq<seq<V>>)
    ensures |r| == (|xs| + BatchSize - 1) / BatchSize
    ensures forall c :: c in r ==> 1 <= |c| <= BatchSize
    decreases |xs|
  {
    if xs == [] then []
    else if |xs| <= BatchSize then [xs]
    else [xs[..BatchSize]] + Chunks(xs[BatchSize..])
  }

  function Flatten<V>(cs: seq<seq<V>>): seq<V>
  {
    if cs == [] then [] else cs[0] + Flatten(cs[1..])
  }

  /** The chunks put back together are the list, and every chunk but the last is full. */
  lemma {:induction false} ChunksCover<V>(xs: seq<V>)
    ensures Flatten(Chunks(xs)) == xs
    ensures forall i :: 0 <= i < |Chunks(xs)| - 1 ==> |Chunks(xs)[i]| == BatchSize
    decreases |xs|
  {
    if |xs| > BatchSize {
      ChunksCover(xs[BatchSize..]);
      assert xs == xs[..BatchSize] + xs[BatchSize..];
      var r := Chunks(xs);
      forall i | 0 <= i < |r| - 1 ensures |r[i]| == BatchSize {
        if i > 0 {
          assert r[i] == Chunks(xs[BatchSize..])[i - 1];
        }
      }
    } else if xs != [] {
      assert Flatten([xs]) == xs + [];
    }
  }
}
