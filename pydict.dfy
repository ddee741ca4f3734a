/**
 * A Python `dict`: a finite map that also remembers the order in which its keys
 * were first inserted, which is the order `list(d.values())` reports them in.
 */
module PyDict {
  import opened Wrappers

  datatype Dict<K(==, !new), V> = Dict(keys: seq<K>, entries: map<K, V>) {

    /** Keys are distinct and are exactly the keys of the map. */
    ghost predicate Valid() {
      && (forall i, j :: 0 <= i < j < |keys| ==> keys[i] != keys[j])
      && (forall k :: k in entries <==> k in keys)
    }

    /** `d.get(k)` */
    function Get(k: K): Option<V> {
      if k in entries then Some(entries[k]) else None
    }

    /** `d[k] = v`: overwrites in place when `k` is present, appends otherwise. */
    function Put(k: K, v: V): (d: Dict<K, V>)
      requires Valid()
      ensures d.Valid()
      ensures d.Get(k) == Some(v)
      ensures forall k' :: k' != k ==> d.Get(k') == Get(k')
      ensures k in entries ==> d.keys == keys
      ensures k !in entries ==> d.keys == keys + [k]
    {
      if k in entries then Dict(keys, entries[k := v])
      else Dict(keys + [k], entries[k := v])
    }

    /** `d.pop(k, None)`: removes `k` when present, keeping the order of the other keys. */
    function Pop(k: K): (d: Dict<K, V>)
      requires Valid()
      ensures d.Valid()
      ensures d.Get(k) == None
      ensures forall k' :: k' != k ==> d.Get(k') == Get(k')
      ensures k !in entries ==> d == this
      ensures k in entries ==> exists i :: 0 <= i < |keys| && keys[i] == k && d.keys == keys[..i] + keys[i + 1..]
    {
      if k !in entries then this
      else
        var i := IndexOf(keys, k);
        DropIndex(keys, i);
        Dict(keys[..i] + keys[i + 1..], entries - {k})
    }

    /** `list(d.values())` */
    function Values(): (vs: seq<V>)
      requires Valid()
      ensures |vs| == |keys|
      ensures forall i :: 0 <= i < |keys| ==> vs[i] == entries[keys[i]]
    {
      seq(|keys|, i requires 0 <= i < |keys| => entries[keys[i]])
    }
  }

  function Empty<K(==, !new), V>(): (d: Dict<K, V>)
    ensures d.Valid() && d.keys == [] && d.entries == map[]
  {
    Dict([], map[])
  }

  /** Dropping one element of a list of distinct elements leaves the others, still distinct. */
  lemma DropIndex<K>(s: seq<K>, i: nat)
    requires i < |s| && forall a, b :: 0 <= a < b < |s| ==> s[a] != s[b]
    ensures var t := s[..i] + s[i + 1..];
      && (forall a, b :: 0 <= a < b < |t| ==> t[a] != t[b])
      && (forall x :: x in t <==> x in s && x != s[i])
  {
    var t := s[..i] + s[i + 1..];
    assert forall j :: 0 <= j < |t| ==> t[j] == (if j < i then s[j] else s[j + 1]);
    forall x | x in s && x != s[i] ensures x in t {
      var j :| 0 <= j < |s| && s[j] == x;
      if j < i {
        assert t[j] == x;
      } else {
        assert t[j - 1] == x;
      }
    }
  }

  function IndexOf<K(==)>(s: seq<K>, k: K): (i: nat)
    requires k in s
    ensures i < |s| && s[i] == k && k !in s[..i]
  {
    if s[0] == k then 0 else 1 + IndexOf(s[1..], k)
  }

  /** A value is listed by `values()` exactly when some key maps to it. */
  lemma ValuesMembership<K(!new), V>(d: Dict<K, V>, v: V)
    requires d.Valid()
    ensures v in d.Values() <==> exists k :: k in d.entries && d.entries[k] == v
  {
    if v in d.Values() {
      var i :| 0 <= i < |d.keys| && d.Values()[i] == v;
      assert d.keys[i] in d.entries;
    }
    if exists k :: k in d.entries && d.entries[k] == v {
      var k :| k in d.entries && d.entries[k] == v;
      var i := IndexOf(d.keys, k);
      assert d.Values()[i] == v;
    }
  }

  /** Inserting a new key appends its value; overwriting keeps every position. */
  lemma {:induction false} PutValues<K(!new), V>(d: Dict<K, V>, k: K, v: V)
    requires d.Valid()
    ensures k !in d.entries ==> d.Put(k, v).Values() == d.Values() + [v]
    ensures k in d.entries ==>
      var i := IndexOf(d.keys, k);
      d.Put(k, v).Values() == d.Values()[i := v]
  {
    var d' := d.Put(k, v);
    if k in d.entries {
      var i := IndexOf(d.keys, k);
      forall j | 0 <= j < |d.keys|
        ensures d'.Values()[j] == d.Values()[i := v][j]
      {
        if j != i {
          assert d.keys[j] != k;
        }
      }
    } else {
      assert forall j :: 0 <= j < |d.keys| ==> d.keys[j] != k;
    }
  }

  /** Inserting a new key and then removing it gives the dict back, order included. */
  lemma PutThenPop<K(!new), V>(d: Dict<K, V>, k: K, v: V)
    requires d.Valid() && k !in d.entries
    ensures d.Put(k, v).Pop(k) == d
  {
    var put := d.Put(k, v);
    assert put == Dict(d.keys + [k], d.entries[k := v]);
    assert k !in d.keys;
    var i := IndexOf(put.keys, k);
    assert i == |d.keys|;
    assert put.Pop(k) == Dict(put.keys[..i] + put.keys[i + 1..], put.entries - {k});
    assert put.keys[..i] == d.keys && put.keys[i + 1..] == [];
    assert put.entries - {k} == d.entries;
  }

  /** Removing a present key removes exactly its value from `values()`. */
  lemma PopValues<K(!new), V>(d: Dict<K, V>, k: K)
    requires d.Valid() && k in d.entries
    ensures
      var i := IndexOf(d.keys, k);
      d.Pop(k).Values() == d.Values()[..i] + d.Values()[i + 1..]
  {
    var i := IndexOf(d.keys, k);
    var vs, ws := d.Pop(k).Values(), d.Values()[..i] + d.Values()[i + 1..];
    assert |vs| == |ws|;
    forall j | 0 <= j < |vs| ensures vs[j] == ws[j] {
      if j < i {
      } else {
      }
    }
  }
}
