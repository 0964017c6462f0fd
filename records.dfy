/** JavaScript objects used as records keyed by string: their entries keep insertion
    order, which `Object.entries` and `Object.values` expose. A record is a sequence of
    entries; the records the programs build never repeat a key. Keys are taken to be
    neither integer-like (JavaScript lists those first, in ascending order) nor names of
    Object.prototype members (which `record[key]` would find by inheritance). */
module Records {
  import opened Common

  datatype Entry<V> = Entry(key: string, value: V)

  predicate UniqueKeys<V>(r: seq<Entry<V>>) {
    forall i, j :: 0 <= i < j < |r| ==> r[i].key != r[j].key
  }

  predicate HasKey<V>(r: seq<Entry<V>>, k: string) {
    exists i :: 0 <= i < |r| && r[i].key == k
  }

  /** `r[k]`: the value of the first entry with key k. */
  function Lookup<V>(r: seq<Entry<V>>, k: string): (o: Option<V>)
    ensures o.Some? <==> HasKey(r, k)
    ensures o.Some? ==> exists i :: 0 <= i < |r| && r[i] == Entry(k, o.value)
  {
    if r == [] then None
    else if r[0].key == k then Some(r[0].value)
    else
      var o := Lookup(r[1..], k);
      assert forall i :: 0 <= i < |r| - 1 ==> r[1..][i] == r[i + 1];
      assert HasKey(r[1..], k) ==> HasKey(r, k);
      o
  }

  /** The keys, in order. */
  function Keys<V>(r: seq<Entry<V>>): (ks: seq<string>)
    ensures |ks| == |r|
  {
    if r == [] then [] else [r[0].key] + Keys(r[1..])
  }

  lemma {:induction false} KeysAt<V>(r: seq<Entry<V>>, i: nat)
    requires i < |r|
    ensures Keys(r)[i] == r[i].key
  {
    if i > 0 {
      KeysAt(r[1..], i - 1);
    }
  }

  /** `Object.values(r)`: the values, in order. */
  function Values<V>(r: seq<Entry<V>>): (vs: seq<V>)
    ensures |vs| == |r| && forall i :: 0 <= i < |r| ==> vs[i] == r[i].value
  {
    if r == [] then [] else [r[0].value] + Values(r[1..])
  }

  /** `{ ...r, [k]: v }`: an existing key keeps its place and takes the new value; a new
      key goes at the end. */
  function Put<V>(r: seq<Entry<V>>, k: string, v: V): (r': seq<Entry<V>>)
    ensures Lookup(r', k) == Some(v)
    ensures forall k' :: k' != k ==> Lookup(r', k') == Lookup(r, k')
  {
    if r == [] then [Entry(k, v)]
    else if r[0].key == k then [Entry(k, v)] + r[1..]
    else [r[0]] + Put(r[1..], k, v)
  }

  lemma KeysCons<V>(e: Entry<V>, r: seq<Entry<V>>)
    ensures Keys([e] + r) == [e.key] + Keys(r)
  {
    assert ([e] + r)[1..] == r;
  }

  lemma HasKeyIffInKeys<V>(r: seq<Entry<V>>, k: string)
    ensures HasKey(r, k) <==> k in Keys(r)
  {
    if HasKey(r, k) {
      var i :| 0 <= i < |r| && r[i].key == k;
      KeysAt(r, i);
    }
    if k in Keys(r) {
      var i :| 0 <= i < |r| && Keys(r)[i] == k;
      KeysAt(r, i);
    }
  }

  lemma HasKeyCons<V>(e: Entry<V>, r: seq<Entry<V>>, k: string)
    ensures HasKey([e] + r, k) <==> e.key == k || HasKey(r, k)
  {
    var c := [e] + r;
    if e.key == k {
      assert c[0].key == k;
    }
    if HasKey(r, k) {
      var i :| 0 <= i < |r| && r[i].key == k;
      assert c[i + 1].key == k;
    }
    if HasKey(c, k) && e.key != k {
      var i :| 0 <= i < |c| && c[i].key == k;
      assert i > 0 && r[i - 1] == c[i];
    }
  }

  /** Put keeps the order of the keys when the key is already there... */
  lemma {:induction false} PutKeysExisting<V>(r: seq<Entry<V>>, k: string, v: V)
    requires HasKey(r, k)
    ensures Keys(Put(r, k, v)) == Keys(r)
  {
    var e, tail := r[0], r[1..];
    assert r == [e] + tail;
    KeysCons(e, tail);
    if e.key == k {
      KeysCons(Entry(k, v), tail);
    } else {
      HasKeyCons(e, tail, k);
      PutKeysExisting(tail, k, v);
      KeysCons(e, Put(tail, k, v));
    }
  }

  /** ...and adds a new key at the end. */
  lemma {:induction false} PutKeysNew<V>(r: seq<Entry<V>>, k: string, v: V)
    requires !HasKey(r, k)
    ensures Keys(Put(r, k, v)) == Keys(r) + [k]
  {
    if r != [] {
      var e, tail := r[0], r[1..];
      assert r == [e] + tail;
      KeysCons(e, tail);
      HasKeyCons(e, tail, k);
      PutKeysNew(tail, k, v);
      KeysCons(e, Put(tail, k, v));
      assert [e.key] + (Keys(tail) + [k]) == [e.key] + Keys(tail) + [k];
    }
  }

  /** A record is without repeats exactly when its tail is and its first key does not
      occur in the tail. */
  lemma UniqueCons<V>(e: Entry<V>, r: seq<Entry<V>>)
    ensures UniqueKeys([e] + r) <==> UniqueKeys(r) && !HasKey(r, e.key)
  {
    var c := [e] + r;
    assert forall i :: 0 <= i < |r| ==> c[i + 1] == r[i];
    forall i | 0 <= i < |r| ensures UniqueKeys(c) ==> r[i].key != e.key {
      assert c[0] == e && c[i + 1] == r[i];
    }
  }

  /** Put never repeats a key. */
  lemma {:induction false} PutUnique<V>(r: seq<Entry<V>>, k: string, v: V)
    requires UniqueKeys(r)
    ensures UniqueKeys(Put(r, k, v))
  {
    if r == [] {
    } else if r[0].key == k {
      UniqueCons(r[0], r[1..]);
      assert [r[0]] + r[1..] == r;
      UniqueCons(Entry(k, v), r[1..]);
    } else {
      var rest := Put(r[1..], k, v);
      UniqueCons(r[0], r[1..]);
      assert [r[0]] + r[1..] == r;
      PutUnique(r[1..], k, v);
      if HasKey(r[1..], k) {
        PutKeysExisting(r[1..], k, v);
      } else {
        PutKeysNew(r[1..], k, v);
      }
      HasKeyIffInKeys(r[1..], r[0].key);
      HasKeyIffInKeys(rest, r[0].key);
      UniqueCons(r[0], rest);
    }
  }

  /** `delete r[k]` on a copy: the other entries stay, in order. */
  function Remove<V>(r: seq<Entry<V>>, k: string): (r': seq<Entry<V>>)
    ensures Lookup(r', k) == None
    ensures forall k' :: k' != k ==> Lookup(r', k') == Lookup(r, k')
  {
    if r == [] then []
    else if r[0].key == k then Remove(r[1..], k)
    else [r[0]] + Remove(r[1..], k)
  }

  /** Removing a key never repeats one. */
  lemma {:induction false} RemoveUnique<V>(r: seq<Entry<V>>, k: string)
    requires UniqueKeys(r)
    ensures UniqueKeys(Remove(r, k))
  {
    if r != [] {
      var e, tail := r[0], r[1..];
      assert r == [e] + tail;
      UniqueCons(e, tail);
      RemoveUnique(tail, k);
      if e.key != k {
        assert Lookup(Remove(tail, k), e.key) == Lookup(tail, e.key);
        UniqueCons(e, Remove(tail, k));
      }
    }
  }
}
