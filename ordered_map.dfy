/**
 * A PHP array with string keys, as the dispatch core uses it: an ordered
 * association list. Iteration (`foreach`) follows insertion order, a key
 * occurs at most once, assigning to a new key appends at the end and
 * `unset` removes the entry in place, keeping the order of the others.
 */
module OrderedMap {
  import opened Wrappers

  datatype Entry<V> = Entry(key: string, value: V)

  /** `array_key_exists($k, $m)` */
  predicate HasKey<V>(m: seq<Entry<V>>, k: string) {
    m != [] && (m[0].key == k || HasKey(m[1..], k))
  }

  ghost predicate DistinctKeys<V>(m: seq<Entry<V>>) {
    forall i, j :: 0 <= i < j < |m| ==> m[i].key != m[j].key
  }

  /** `array_key_exists($k, $m) ? $m[$k] : NULL` */
  function Lookup<V>(m: seq<Entry<V>>, k: string): (r: Option<V>)
    ensures r.Some? <==> HasKey(m, k)
    ensures r.Some? ==> Entry(k, r.value) in m
  {
    if m == [] then None
    else if m[0].key == k then Some(m[0].value)
    else Lookup(m[1..], k)
  }

  /** The position of key k. */
  function IndexOf<V>(m: seq<Entry<V>>, k: string): (p: nat)
    requires HasKey(m, k)
    ensures p < |m| && m[p].key == k
    ensures forall j :: 0 <= j < p ==> m[j].key != k
  {
    if m[0].key == k then 0 else 1 + IndexOf(m[1..], k)
  }

  /** `if (!array_key_exists($k, $m)) $m[$k] = $v;`: the first value stored under a key wins. */
  function Insert<V>(m: seq<Entry<V>>, k: string, v: V): (r: seq<Entry<V>>)
    ensures HasKey(m, k) ==> r == m
    ensures !HasKey(m, k) ==> r == m + [Entry(k, v)]
    ensures DistinctKeys(m) ==> DistinctKeys(r)
  {
    if HasKey(m, k) then m
    else
      HasKeyAt(m, k);
      m + [Entry(k, v)]
  }

  /** `unset($m[$k])`: removes the entry with key k, if any. */
  function Remove<V>(m: seq<Entry<V>>, k: string): (r: seq<Entry<V>>)
    ensures |r| == if HasKey(m, k) then |m| - 1 else |m|
    ensures forall e :: e in r ==> e in m
  {
    if m == [] then []
    else if m[0].key == k then m[1..]
    else [m[0]] + Remove(m[1..], k)
  }

  /**
   * The entries of m whose key lies in ks, in m's order: the effect of
   * `foreach ($m as $k => $v) if (array_key_exists($k, $other)) ...`.
   */
  function Restrict<V>(m: seq<Entry<V>>, ks: set<string>): seq<Entry<V>>
    decreases |m|
  {
    if m == [] then []
    else
      Restrict(m[..|m| - 1], ks) + (if m[|m| - 1].key in ks then [m[|m| - 1]] else [])
  }

  ghost function KeySet<V>(m: seq<Entry<V>>): set<string> {
    set e | e in m :: e.key
  }

  // ---------------------------------------------------------------------------
  // Lemmas

  /** One more entry of m considered by the filter. */
  lemma RestrictStep<V>(m: seq<Entry<V>>, i: nat, ks: set<string>)
    requires i < |m|
    ensures Restrict(m[..i + 1], ks) == Restrict(m[..i], ks) + (if m[i].key in ks then [m[i]] else [])
  {
    assert m[..i + 1][..i] == m[..i];
  }

  /** HasKey is the existence of an entry with that key. */
  lemma {:induction false} HasKeyAt<V>(m: seq<Entry<V>>, k: string)
    ensures HasKey(m, k) <==> exists i :: 0 <= i < |m| && m[i].key == k
  {
    if m != [] {
      HasKeyAt(m[1..], k);
      assert forall i :: 1 <= i < |m| ==> m[1..][i - 1] == m[i];
    }
  }

  /** Looking a key up in a + b finds it in a first. */
  lemma {:induction false} LookupConcat<V>(a: seq<Entry<V>>, b: seq<Entry<V>>, x: string)
    ensures Lookup(a + b, x) == if HasKey(a, x) then Lookup(a, x) else Lookup(b, x)
  {
    if a != [] {
      assert (a + b)[0] == a[0];
      assert (a + b)[1..] == a[1..] + b;
      LookupConcat(a[1..], b, x);
    } else {
      assert a + b == b;
    }
  }

  /** With distinct keys, every stored pair is what Lookup returns for its key. */
  lemma {:induction false} LookupDistinct<V>(m: seq<Entry<V>>, i: nat)
    requires DistinctKeys(m) && i < |m|
    ensures Lookup(m, m[i].key) == Some(m[i].value)
  {
    if i > 0 {
      assert m[1..][i - 1] == m[i];
      LookupDistinct(m[1..], i - 1);
    }
  }

  /**
   * Insert stores v under k exactly when k was absent and leaves every
   * other key's value alone.
   */
  lemma LookupAfterInsert<V>(m: seq<Entry<V>>, k: string, v: V, x: string)
    ensures Lookup(Insert(m, k, v), x)
         == if x == k && !HasKey(m, k) then Some(v) else Lookup(m, x)
  {
    if !HasKey(m, k) {
      LookupConcat(m, [Entry(k, v)], x);
    }
  }

  /** Removing a present key cuts exactly its entry out, keeping the others in order. */
  lemma {:induction false} RemoveSplices<V>(m: seq<Entry<V>>, k: string)
    requires HasKey(m, k)
    ensures Remove(m, k) == m[..IndexOf(m, k)] + m[IndexOf(m, k) + 1..]
  {
    if m[0].key == k {
      assert m[..0] + m[1..] == m[1..];
    } else {
      var tail := m[1..];
      var p := IndexOf(tail, k);
      assert IndexOf(m, k) == p + 1;
      RemoveSplices(tail, k);
      ConsSplice(m, p);
    }
  }

  lemma ConsSplice<V>(m: seq<Entry<V>>, p: nat)
    requires p + 1 < |m|
    ensures [m[0]] + (m[1..][..p] + m[1..][p + 1..]) == m[..p + 1] + m[p + 2..]
  {
    assert m[..p + 1] == [m[0]] + m[1..][..p];
    assert m[p + 2..] == m[1..][p + 1..];
  }

  /** Remove introduces no key. */
  lemma {:induction false} RemoveAddsNoKey<V>(m: seq<Entry<V>>, k: string, x: string)
    ensures HasKey(Remove(m, k), x) ==> HasKey(m, x)
  {
    if m != [] && m[0].key != k {
      RemoveAddsNoKey(m[1..], k, x);
      assert ([m[0]] + Remove(m[1..], k))[1..] == Remove(m[1..], k);
    }
  }

  /** Removing an absent key changes nothing. */
  lemma {:induction false} RemoveAbsent<V>(m: seq<Entry<V>>, k: string)
    requires !HasKey(m, k)
    ensures Remove(m, k) == m
  {
    if m != [] {
      RemoveAbsent(m[1..], k);
    }
  }

  /**
   * On an array with distinct keys, unset removes k for good, keeps the
   * keys distinct and leaves every other key's value as it was.
   */
  lemma {:induction false} LookupAfterRemove<V>(m: seq<Entry<V>>, k: string, x: string)
    requires DistinctKeys(m)
    ensures DistinctKeys(Remove(m, k))
    ensures Lookup(Remove(m, k), x) == if x == k then None else Lookup(m, x)
  {
    if m != [] {
      var tail := m[1..];
      assert DistinctKeys(tail) by {
        assert forall i :: 0 <= i < |tail| ==> tail[i] == m[i + 1];
      }
      HasKeyAt(tail, m[0].key);
      if m[0].key == k {
        HasKeyAt(tail, k);
      } else {
        LookupAfterRemove(tail, k, x);
        var r := Remove(tail, k);
        RemoveAddsNoKey(tail, k, m[0].key);
        HasKeyAt(r, m[0].key);
        assert forall i :: 1 <= i < |r| + 1 ==> ([m[0]] + r)[i] == r[i - 1];
      }
    }
  }

  /**
   * Restrict keeps an entry iff its key is in ks, so on an array with
   * distinct keys every key of both m and ks occurs in the result exactly
   * once, and no other key occurs at all.
   */
  lemma {:induction false} RestrictKeys<V>(m: seq<Entry<V>>, ks: set<string>)
    requires DistinctKeys(m)
    ensures DistinctKeys(Restrict(m, ks))
    ensures KeySet(Restrict(m, ks)) == KeySet(m) * ks
    ensures forall e :: e in Restrict(m, ks) ==> e in m && e.key in ks
  {
    if m != [] {
      var init, last := m[..|m| - 1], m[|m| - 1];
      RestrictKeys(init, ks);
      var r := Restrict(init, ks);
      assert KeySet(m) == KeySet(init) + {last.key} by {
        assert forall i :: 0 <= i < |init| ==> init[i] == m[i];
      }
      assert last.key !in KeySet(init);
      if last.key in ks {
        assert Restrict(m, ks) == r + [last];
        assert KeySet(r + [last]) == KeySet(r) + {last.key} by {
          assert forall i :: 0 <= i < |r| ==> (r + [last])[i] == r[i];
        }
      } else {
        assert Restrict(m, ks) == r;
      }
    }
  }

  /** With distinct keys the number of entries is the number of keys. */
  lemma {:induction false} DistinctKeysCard<V>(m: seq<Entry<V>>)
    requires DistinctKeys(m)
    ensures |KeySet(m)| == |m|
  {
    if m != [] {
      var init := m[..|m| - 1];
      DistinctKeysCard(init);
      assert KeySet(m) == KeySet(init) + {m[|m| - 1].key} by {
        assert forall i :: 0 <= i < |init| ==> init[i] == m[i];
      }
    }
  }
}
