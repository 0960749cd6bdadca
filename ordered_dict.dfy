/**
 * A Python `dict` with string keys as an insertion-ordered list of entries. `d[k] = v`
 * replaces the value of an existing key where it stands and appends a new
 * key at the end; `dict(items)` performs those assignments left to right.
 */
module OrderedDict {
  import opened Wrappers

  /** No key occurs twice. */
  ghost predicate DistinctKeys<V>(d: seq<(string, V)>) {
    forall i, j :: 0 <= i < j < |d| ==> d[i].0 != d[j].0
  }

  /** `d.get(k)`: the value under the first entry with key `k`. */
  function Get<V>(d: seq<(string, V)>, k: string): (r: Option<V>)
    ensures r == None <==> forall i :: 0 <= i < |d| ==> d[i].0 != k
    ensures r.Some? ==> exists i :: 0 <= i < |d| && d[i] == (k, r.value)
  {
    if |d| == 0 then None
    else if d[0].0 == k then Some(d[0].1)
    else Get(d[1..], k)
  }

  /** `k in d`. */
  predicate HasKey<V>(d: seq<(string, V)>, k: string) {
    Get(d, k).Some?
  }

  /** `d[k] = v` on a copy of `d`. */
  function Set<V>(d: seq<(string, V)>, k: string, v: V): (r: seq<(string, V)>)
    ensures Get(r, k) == Some(v)
    ensures !HasKey(d, k) ==> r == d + [(k, v)]
    ensures HasKey(d, k) ==> |r| == |d|
  {
    if |d| == 0 then [(k, v)]
    else if d[0].0 == k then [(k, v)] + d[1..]
    else
      assert d == [d[0]] + d[1..];
      [d[0]] + Set(d[1..], k, v)
  }

  /**
   * Assignment to a key that is present replaces the value of its first entry
   * where it stands; every other entry keeps its place and its value.
   */
  lemma {:induction false} SetReplacesInPlace<V>(d: seq<(string, V)>, k: string, v: V, i: nat)
    requires i < |d| && d[i].0 == k
    requires forall j :: 0 <= j < i ==> d[j].0 != k
    ensures Set(d, k, v) == d[i := (k, v)]
  {
    if i > 0 {
      assert d[0].0 != k;
      var tail := d[1..];
      SetReplacesInPlace(tail, k, v, i - 1);
      var r := [d[0]] + tail[i - 1 := (k, v)];
      assert Set(d, k, v) == r;
      forall j | 0 <= j < |d| ensures r[j] == d[i := (k, v)][j] {
        if j > 0 {
          assert r[j] == tail[i - 1 := (k, v)][j - 1];
        }
      }
    } else {
      assert d[0].0 == k;
      assert [(k, v)] + d[1..] == d[0 := (k, v)];
    }
  }

  /** Assignment to one key leaves every other key's value as it was. */
  lemma {:induction false} SetOther<V>(d: seq<(string, V)>, k: string, v: V, other: string)
    requires other != k
    ensures Get(Set(d, k, v), other) == Get(d, other)
  {
    if |d| > 0 && d[0].0 != k {
      SetOther(d[1..], k, v, other);
    }
  }

  /** Assignment keeps keys distinct. */
  lemma {:induction false} SetKeepsDistinct<V>(d: seq<(string, V)>, k: string, v: V)
    requires DistinctKeys(d)
    ensures DistinctKeys(Set(d, k, v))
  {
    if |d| > 0 && d[0].0 != k {
      SetKeepsDistinct(d[1..], k, v);
      var r := Set(d, k, v);
      assert r == [d[0]] + Set(d[1..], k, v);
      assert Get(d[1..], d[0].0) == None;
      SetOther(d[1..], k, v, d[0].0);
      forall j | 0 < j < |r| ensures r[0].0 != r[j].0 {
        assert r[j] == Set(d[1..], k, v)[j - 1];
      }
    }
  }

  /** Python's `dict(items)`: assign each pair in order. */
  function FromItems<V>(items: seq<(string, V)>): (r: seq<(string, V)>)
    ensures DistinctKeys(r)
    ensures |items| > 0 ==> Get(r, items[|items| - 1].0) == Some(items[|items| - 1].1)
  {
    if |items| == 0 then []
    else
      var last := items[|items| - 1];
      var init := FromItems(items[..|items| - 1]);
      SetKeepsDistinct(init, last.0, last.1);
      Set(init, last.0, last.1)
  }

  /** `dict(tuple(d.items()))` is `d` again: the list of items rebuilds the dict in its order. */
  lemma {:induction false} FromItemsRoundTrip<V>(d: seq<(string, V)>)
    requires DistinctKeys(d)
    ensures FromItems(d) == d
  {
    if |d| > 0 {
      var init := d[..|d| - 1];
      var last := d[|d| - 1];
      assert DistinctKeys(init) by {
        forall i, j | 0 <= i < j < |init| ensures init[i].0 != init[j].0 {
          assert init[i] == d[i] && init[j] == d[j];
        }
      }
      FromItemsRoundTrip(init);
      assert !HasKey(init, last.0) by {
        forall i | 0 <= i < |init| ensures init[i].0 != last.0 {
          assert init[i] == d[i];
        }
      }
      assert init + [last] == d;
    }
  }
}
