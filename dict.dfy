/** A dictionary filled by a loop: for each element in turn, either
    `dict[k] = v` or nothing. The game-data generator builds every one of
    its lookup and output tables this way, and the stat-table converter its
    tables of files and of rows. */
module Dict {
  import opened Wrappers

  /** The dictionary left after visiting `xs` in order, where element `x`
      writes the pair `entry(x)` when there is one; a later write replaces
      an earlier one under the same key. */
  function Collect<K(==), T, V>(xs: seq<T>, entry: T -> Option<(K, V)>): map<K, V>
    decreases |xs|
  {
    if |xs| == 0 then map[]
    else
      var m := Collect(xs[..|xs| - 1], entry);
      match entry(xs[|xs| - 1])
      case None => m
      case Some(kv) => m[kv.0 := kv.1]
  }

  /** The loop itself: an empty dictionary, one assignment per writing element. */
  method CollectLoop<K(==), T, V>(xs: seq<T>, entry: T -> Option<(K, V)>) returns (m: map<K, V>)
    ensures m == Collect(xs, entry)
  {
    m := map[];
    for i := 0 to |xs|
      invariant m == Collect(xs[..i], entry)
    {
      assert xs[..i + 1][..i] == xs[..i];
      match entry(xs[i])
      case None =>
      case Some(kv) => m := m[kv.0 := kv.1];
    }
    assert xs[..|xs|] == xs;
  }

  /** One more element: it writes its pair, or leaves the dictionary as it was. */
  lemma CollectStep<K, T, V>(xs: seq<T>, entry: T -> Option<(K, V)>, i: nat)
    requires i < |xs|
    ensures entry(xs[i]).None? ==> Collect(xs[..i + 1], entry) == Collect(xs[..i], entry)
    ensures entry(xs[i]).Some? ==>
      Collect(xs[..i + 1], entry) == Collect(xs[..i], entry)[entry(xs[i]).value.0 := entry(xs[i]).value.1]
  {
    assert xs[..i + 1][..i] == xs[..i];
  }

  /** `m[k]`, absent as `None`. */
  function Get<K(==), V>(m: map<K, V>, k: K): (r: Option<V>)
    ensures r.Some? <==> k in m
  {
    if k in m then Some(m[k]) else None
  }

  /** A key is present exactly when some element writes it. */
  lemma {:induction false} CollectDomain<K, T, V>(xs: seq<T>, entry: T -> Option<(K, V)>, k: K)
    ensures k in Collect(xs, entry) <==>
      exists i :: 0 <= i < |xs| && entry(xs[i]).Some? && entry(xs[i]).value.0 == k
    decreases |xs|
  {
    if |xs| > 0 {
      var init := xs[..|xs| - 1];
      CollectDomain(init, entry, k);
      if exists i :: 0 <= i < |init| && entry(init[i]).Some? && entry(init[i]).value.0 == k {
        var i :| 0 <= i < |init| && entry(init[i]).Some? && entry(init[i]).value.0 == k;
        assert xs[i] == init[i];
      }
      if exists i :: 0 <= i < |xs| && entry(xs[i]).Some? && entry(xs[i]).value.0 == k {
        var i :| 0 <= i < |xs| && entry(xs[i]).Some? && entry(xs[i]).value.0 == k;
        if i < |init| {
          assert init[i] == xs[i];
        }
      }
    }
  }

  /** The value under a key is the one written by the last element writing that key. */
  lemma {:induction false} CollectLast<K, T, V>(xs: seq<T>, entry: T -> Option<(K, V)>, i: nat)
    requires i < |xs| && entry(xs[i]).Some?
    requires forall j :: i < j < |xs| ==> entry(xs[j]).None? || entry(xs[j]).value.0 != entry(xs[i]).value.0
    ensures entry(xs[i]).value.0 in Collect(xs, entry)
    ensures Collect(xs, entry)[entry(xs[i]).value.0] == entry(xs[i]).value.1
    decreases |xs|
  {
    if i < |xs| - 1 {
      var init := xs[..|xs| - 1];
      assert init[i] == xs[i];
      forall j | i < j < |init|
        ensures entry(init[j]).None? || entry(init[j]).value.0 != entry(init[i]).value.0
      {
        assert init[j] == xs[j];
      }
      CollectLast(init, entry, i);
    }
  }

  /** A property every written value has holds of every value in the dictionary. */
  lemma {:induction false} CollectValues<K, T, V>(xs: seq<T>, entry: T -> Option<(K, V)>, p: V -> bool)
    requires forall i :: 0 <= i < |xs| && entry(xs[i]).Some? ==> p(entry(xs[i]).value.1)
    ensures forall k :: k in Collect(xs, entry) ==> p(Collect(xs, entry)[k])
    decreases |xs|
  {
    if |xs| > 0 {
      var init := xs[..|xs| - 1];
      forall i | 0 <= i < |init| && entry(init[i]).Some?
        ensures p(entry(init[i]).value.1)
      {
        assert init[i] == xs[i];
      }
      CollectValues(init, entry, p);
    }
  }
}
