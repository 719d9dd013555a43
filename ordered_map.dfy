/** Ruby's Hash: a map that remembers the order in which its keys were first inserted.
    Assigning to an existing key keeps that key's position; deleting a key removes it. */
module OrderedMaps {
  import opened Values

  datatype OrderedMap<K(==,!new), V(!new)> = OrderedMap(keys: seq<K>, entries: map<K, V>) {
    ghost predicate Valid() {
      && Distinct(keys)
      && (forall k :: k in entries <==> k in keys)
    }
  }

  /** A well-formed Hash: the key list and the map agree, and no key is listed twice. */
  type Hash<K(==,!new), V(!new)> = m: OrderedMap<K, V> | m.Valid() witness OrderedMap([], map[])

  /** No element occurs twice. */
  ghost predicate Distinct<K(!new)>(s: seq<K>) {
    forall i, j :: 0 <= i < j < |s| ==> s[i] != s[j]
  }

  function Empty<K(==,!new), V(!new)>(): (m: Hash<K, V>)
    ensures m.entries == map[]
  {
    OrderedMap([], map[])
  }

  /** `hash[key] = value`. */
  function Put<K(==,!new), V(!new)>(m: Hash<K, V>, key: K, value: V): (r: Hash<K, V>)
    ensures r.entries == m.entries[key := value]
    ensures key in m.entries ==> r.keys == m.keys
    ensures key !in m.entries ==> r.keys == m.keys + [key]
  {
    if key in m.entries then OrderedMap(m.keys, m.entries[key := value])
    else OrderedMap(m.keys + [key], m.entries[key := value])
  }

  /** `hash[key]`, nil when absent. */
  function Get<K(==,!new), V(!new)>(m: Hash<K, V>, key: K): Option<V> {
    if key in m.entries then Some(m.entries[key]) else None
  }

  function RemoveFromSeq<K(==,!new)>(s: seq<K>, key: K): (r: seq<K>)
    ensures forall x :: x in r <==> x in s && x != key
    ensures |r| <= |s|
    ensures key in s ==> |r| < |s|
  {
    if s == [] then []
    else if s[0] == key then RemoveFromSeq(s[1..], key)
    else [s[0]] + RemoveFromSeq(s[1..], key)
  }

  lemma {:induction false} RemoveFromSeqDistinct<K(!new)>(s: seq<K>, key: K)
    requires Distinct(s)
    ensures Distinct(RemoveFromSeq(s, key))
  {
    if s != [] {
      RemoveFromSeqDistinct(s[1..], key);
      var rest := RemoveFromSeq(s[1..], key);
      assert s[0] !in s[1..] by {
        forall j | 0 <= j < |s[1..]| ensures s[1..][j] != s[0] {
          assert s[1..][j] == s[j + 1];
        }
      }
      assert s[0] !in rest;
      if s[0] != key {
        var r := [s[0]] + rest;
        assert r == RemoveFromSeq(s, key);
        forall i, j | 0 <= i < j < |r| ensures r[i] != r[j] {
          assert r[j] == rest[j - 1];
          if i > 0 {
            assert r[i] == rest[i - 1];
          }
        }
        assert Distinct(r);
      }
    }
  }

  /** Deleting a key that sits at position `p` of a list without repeats closes the gap: the
      keys before and after it keep their order. */
  lemma {:induction false} RemoveAt<K(!new)>(s: seq<K>, key: K, p: nat)
    requires Distinct(s) && p < |s| && s[p] == key
    ensures RemoveFromSeq(s, key) == s[..p] + s[p + 1..]
  {
    if p == 0 {
      assert key !in s[1..] by {
        forall j | 0 <= j < |s[1..]| ensures s[1..][j] != key {
          assert s[1..][j] == s[j + 1];
        }
      }
      RemoveAbsent(s[1..], key);
      assert s[..0] + s[1..] == s[1..];
    } else {
      assert s[0] != key;
      assert s[1..][p - 1] == key;
      RemoveAt(s[1..], key, p - 1);
      assert s[..p] == [s[0]] + s[1..][..p - 1];
      assert s[p + 1..] == s[1..][p..];
    }
  }

  /** The same, at whichever position the key sits. */
  lemma RemoveFromSeqAt<K(!new)>(s: seq<K>, key: K)
    requires Distinct(s)
    ensures forall p :: 0 <= p < |s| && s[p] == key ==> RemoveFromSeq(s, key) == s[..p] + s[p + 1..]
  {
    forall p | 0 <= p < |s| && s[p] == key ensures RemoveFromSeq(s, key) == s[..p] + s[p + 1..] {
      RemoveAt(s, key, p);
    }
  }

  /** `hash.delete(key)`: the entry goes, and the other keys keep their insertion order. */
  function Remove<K(==,!new), V(!new)>(m: Hash<K, V>, key: K): (r: Hash<K, V>)
    ensures r.entries == map k | k in m.entries && k != key :: m.entries[k]
    ensures r.keys == RemoveFromSeq(m.keys, key)
    ensures key in m.entries ==> |r.keys| == |m.keys| - 1
    ensures key !in m.entries ==> r.keys == m.keys
    ensures forall p :: 0 <= p < |m.keys| && m.keys[p] == key ==> r.keys == m.keys[..p] + m.keys[p + 1..]
  {
    RemoveFromSeqDistinct(m.keys, key);
    RemoveFromSeqAt(m.keys, key);
    if key !in m.entries then RemoveAbsent(m.keys, key); m
    else
      var ks := RemoveFromSeq(m.keys, key);
      RemoveCount(m.keys, key);
      OrderedMap(ks, m.entries - {key})
  }

  lemma {:induction false} RemoveCount<K(!new)>(s: seq<K>, key: K)
    requires Distinct(s)
    requires key in s
    ensures |RemoveFromSeq(s, key)| == |s| - 1
  {
    if s[0] != key {
      RemoveCount(s[1..], key);
    } else {
      assert key !in s[1..];
      RemoveAbsent(s[1..], key);
    }
  }

  lemma {:induction false} RemoveAbsent<K(!new)>(s: seq<K>, key: K)
    requires key !in s
    ensures RemoveFromSeq(s, key) == s
  {
    if s != [] {
      RemoveAbsent(s[1..], key);
    }
  }

  /** The elements of `s` not listed in `gone`, in their order in `s`. */
  function Without<K(==,!new)>(s: seq<K>, gone: seq<K>): (r: seq<K>)
    ensures forall x :: x in r <==> x in s && x !in gone
    ensures |r| <= |s|
  {
    if s == [] then []
    else
      assert forall x :: x in s <==> x == s[0] || x in s[1..];
      (if s[0] in gone then [] else [s[0]]) + Without(s[1..], gone)
  }

  /** Deleting one more key from what is left is leaving out one more key. */
  lemma {:induction false} WithoutOneMore<K(!new)>(s: seq<K>, gone: seq<K>, key: K)
    ensures RemoveFromSeq(Without(s, gone), key) == Without(s, gone + [key])
  {
    if s != [] {
      WithoutOneMore(s[1..], gone, key);
      var rest, more := Without(s[1..], gone), Without(s[1..], gone + [key]);
      assert RemoveFromSeq(rest, key) == more;
      assert s[0] in gone + [key] <==> s[0] in gone || s[0] == key;
      if s[0] in gone {
        assert Without(s, gone) == rest;
        assert Without(s, gone + [key]) == more;
      } else {
        var w := [s[0]] + rest;
        assert Without(s, gone) == w;
        assert w[0] == s[0] && w[1..] == rest;
        if s[0] == key {
          assert Without(s, gone + [key]) == more;
          assert RemoveFromSeq(w, key) == RemoveFromSeq(rest, key);
        } else {
          assert Without(s, gone + [key]) == [s[0]] + more;
          assert RemoveFromSeq(w, key) == [s[0]] + RemoveFromSeq(rest, key);
        }
      }
    }
  }

  /** Leaving out nothing leaves the list as it is. */
  lemma {:induction false} WithoutNothing<K(!new)>(s: seq<K>)
    ensures Without(s, []) == s
  {
    if s != [] {
      WithoutNothing(s[1..]);
    }
  }

  /** `Without` reads `gone` only at the elements of `s`. */
  lemma {:induction false} WithoutAgrees<K(!new)>(s: seq<K>, gone: seq<K>, gone': seq<K>)
    requires forall x :: x in s ==> (x in gone <==> x in gone')
    ensures Without(s, gone) == Without(s, gone')
  {
    if s != [] {
      assert forall x :: x in s[1..] ==> x in s;
      WithoutAgrees(s[1..], gone, gone');
    }
  }

  /** Deleting the keys whose entries satisfy `p` keeps, in order, the keys whose entries
      satisfy the opposite `q`. */
  lemma {:induction false} WithoutKeysWhere<K(!new), V(!new)>(ks: seq<K>, entries: map<K, V>, p: V -> bool, q: V -> bool)
    requires forall k :: k in ks ==> k in entries
    requires forall v :: q(v) == !p(v)
    ensures Without(ks, KeysWhere(ks, entries, p)) == KeysWhere(ks, entries, q)
  {
    if ks != [] {
      assert forall x :: x in ks[1..] ==> x in ks;
      WithoutKeysWhere(ks[1..], entries, p, q);
      WithoutAgrees(ks[1..], KeysWhere(ks, entries, p), KeysWhere(ks[1..], entries, p));
    }
  }

  /** The selection of a concatenation is the concatenation of the selections: `KeysWhere`
      keeps key order. */
  lemma {:induction false} KeysWhereAppend<K(!new), V(!new)>(a: seq<K>, b: seq<K>, entries: map<K, V>, p: V -> bool)
    requires forall k :: k in a + b ==> k in entries
    ensures KeysWhere(a + b, entries, p) == KeysWhere(a, entries, p) + KeysWhere(b, entries, p)
  {
    if a != [] {
      assert (a + b)[0] == a[0] && (a + b)[1..] == a[1..] + b;
      KeysWhereAppend(a[1..], b, entries, p);
    } else {
      assert a + b == b;
    }
  }

  /** The values whose entries satisfy `p`, in key order: `hash.values.select(&p)`. */
  function Select<K(==,!new), V(!new)>(m: Hash<K, V>, p: V -> bool): (r: seq<V>)
    ensures forall v :: v in r <==> exists k :: k in m.entries && m.entries[k] == v && p(v)
    ensures |r| == |KeysWhere(m.keys, m.entries, p)|
    ensures forall i :: 0 <= i < |r| ==> r[i] == m.entries[KeysWhere(m.keys, m.entries, p)[i]]
  {
    SelectFrom(m.keys, m.entries, p)
  }

  function SelectFrom<K(==,!new), V(!new)>(ks: seq<K>, entries: map<K, V>, p: V -> bool): (r: seq<V>)
    requires forall k :: k in ks ==> k in entries
    ensures forall v :: v in r <==> exists k :: k in ks && entries[k] == v && p(v)
    ensures |r| == |KeysWhere(ks, entries, p)|
    ensures forall i :: 0 <= i < |r| ==> r[i] == entries[KeysWhere(ks, entries, p)[i]]
  {
    if ks == [] then []
    else
      var rest := SelectFrom(ks[1..], entries, p);
      var restKeys := KeysWhere(ks[1..], entries, p);
      assert forall k :: k in ks <==> k == ks[0] || k in ks[1..];
      if p(entries[ks[0]]) then
        assert KeysWhere(ks, entries, p) == [ks[0]] + restKeys;
        [entries[ks[0]]] + rest
      else
        assert KeysWhere(ks, entries, p) == restKeys;
        rest
  }

  /** The keys whose entries satisfy `p`, in key order. */
  function KeysWhere<K(==,!new), V(!new)>(ks: seq<K>, entries: map<K, V>, p: V -> bool): (r: seq<K>)
    requires forall k :: k in ks ==> k in entries
    ensures forall k :: k in r <==> k in ks && p(entries[k])
    ensures |r| <= |ks|
  {
    if ks == [] then []
    else
      var rest := KeysWhere(ks[1..], entries, p);
      assert forall k :: k in ks <==> k == ks[0] || k in ks[1..];
      if p(entries[ks[0]]) then [ks[0]] + rest else rest
  }

  /** The last key, in insertion order, whose entry satisfies `p`:
      `hash.values.reverse.find(&p)`, identified by its key. */
  function LastKeyWhere<K(==,!new), V(!new)>(m: Hash<K, V>, p: V -> bool): (r: Option<K>)
    ensures r.Some? ==> exists i :: 0 <= i < |m.keys| && m.keys[i] == r.value && p(m.entries[r.value])
                                    && forall j :: i < j < |m.keys| ==> !p(m.entries[m.keys[j]])
    ensures r.None? ==> forall k :: k in m.entries ==> !p(m.entries[k])
  {
    var i := LastIndexWhere(m.keys, m.entries, p, |m.keys|);
    if i.Some? then Some(m.keys[i.value]) else None
  }

  function LastIndexWhere<K(==,!new), V(!new)>(ks: seq<K>, entries: map<K, V>, p: V -> bool, n: nat): (r: Option<nat>)
    requires n <= |ks|
    requires forall k :: k in ks ==> k in entries
    ensures r.Some? ==> r.value < n && p(entries[ks[r.value]])
                        && forall j :: r.value < j < n ==> !p(entries[ks[j]])
    ensures r.None? ==> forall j :: 0 <= j < n ==> !p(entries[ks[j]])
  {
    if n == 0 then None
    else if p(entries[ks[n - 1]]) then Some(n - 1)
    else LastIndexWhere(ks, entries, p, n - 1)
  }
}
