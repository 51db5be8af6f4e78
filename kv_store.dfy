/**
 * The key-value store behind every entity: point `get` and `set` on string
 * keys, and `getByPrefix`, which returns the records of all keys that start
 * with a prefix. The store's own implementation is not part of this model;
 * it is the finite map below. A prefix scan's order is unspecified, so the
 * store keeps an arbitrary enumeration of its keys (here: first-write
 * order) and every count proved about a scan holds for any enumeration.
 */
module KvStore {
  import opened Values

  type Db = map<string, Record>

  predicate NoDup(ks: seq<string>)
  {
    forall i, j :: 0 <= i < j < |ks| ==> ks[i] != ks[j]
  }

  /** `ks` lists every key of `d`, each once. */
  ghost predicate Enumerates(ks: seq<string>, d: Db)
  {
    NoDup(ks) && forall k :: k in ks <==> k in d
  }

  /** The records whose keys, taken in the order of `ks`, start with `p`. */
  function Scan(d: Db, ks: seq<string>, p: string): (rs: seq<Record>)
    ensures |rs| <= |ks|
    ensures forall r :: r in rs ==> exists k :: k in ks && k in d && p <= k && d[k] == r
  {
    if ks == [] then []
    else
      var rest := Scan(d, ks[1..], p);
      if ks[0] in d && p <= ks[0] then [d[ks[0]]] + rest else rest
  }

  /** Every record under the prefix is scanned. */
  lemma {:induction false} ScanComplete(d: Db, ks: seq<string>, p: string, k: string)
    requires k in ks && k in d && p <= k
    ensures d[k] in Scan(d, ks, p)
  {
    if ks[0] != k {
      ScanComplete(d, ks[1..], p, k);
    }
  }

  /** `rs.filter(P)`. */
  function Filter(rs: seq<Record>, P: Record -> bool): (out: seq<Record>)
    ensures |out| <= |rs|
    ensures forall r :: r in out <==> r in rs && P(r)
  {
    if rs == [] then []
    else if P(rs[0]) then [rs[0]] + Filter(rs[1..], P)
    else Filter(rs[1..], P)
  }

  /** The keys of `ks` that hold a record under `p` satisfying `P`. */
  ghost function Matching(d: Db, ks: seq<string>, p: string, P: Record -> bool): set<string>
  {
    set k | k in ks && k in d && p <= k && P(d[k])
  }

  /** Counting the filtered scan counts the matching keys: the count does not
      depend on the order in which the store enumerates its keys. */
  lemma {:induction false} FilterScanCount(d: Db, ks: seq<string>, p: string, P: Record -> bool)
    requires NoDup(ks)
    ensures |Filter(Scan(d, ks, p), P)| == |Matching(d, ks, p, P)|
  {
    if ks == [] {
      assert Matching(d, ks, p, P) == {};
    } else {
      NoDupTail(ks);
      FilterScanCount(d, ks[1..], p, P);
      MatchingCons(d, ks, p, P);
      FilterScanCons(d, ks, p, P);
    }
  }

  /** The rest of a list without duplicates has none, and lacks the head. */
  lemma NoDupTail(ks: seq<string>)
    requires NoDup(ks) && ks != []
    ensures NoDup(ks[1..]) && ks[0] !in ks[1..]
  {
    forall i, j | 0 <= i < j < |ks[1..]| ensures ks[1..][i] != ks[1..][j] {
      assert ks[1..][i] == ks[i + 1] && ks[1..][j] == ks[j + 1];
    }
    forall i | 0 <= i < |ks[1..]| ensures ks[1..][i] != ks[0] {
      assert ks[1..][i] == ks[i + 1];
    }
  }

  /** The head key matches at most once more than the rest of the keys. */
  lemma MatchingCons(d: Db, ks: seq<string>, p: string, P: Record -> bool)
    requires ks != [] && ks[0] !in ks[1..]
    ensures |Matching(d, ks, p, P)|
            == |Matching(d, ks[1..], p, P)| + (if ks[0] in d && p <= ks[0] && P(d[ks[0]]) then 1 else 0)
  {
    var k := ks[0];
    assert k !in Matching(d, ks[1..], p, P);
    if k in d && p <= k && P(d[k]) {
      assert Matching(d, ks, p, P) == {k} + Matching(d, ks[1..], p, P);
    } else {
      assert Matching(d, ks, p, P) == Matching(d, ks[1..], p, P);
    }
  }

  /** The filtered scan gains exactly the head's record when it passes. */
  lemma FilterScanCons(d: Db, ks: seq<string>, p: string, P: Record -> bool)
    requires ks != []
    ensures |Filter(Scan(d, ks, p), P)|
            == |Filter(Scan(d, ks[1..], p), P)| + (if ks[0] in d && p <= ks[0] && P(d[ks[0]]) then 1 else 0)
  {
    var rest := Scan(d, ks[1..], p);
    if ks[0] in d && p <= ks[0] {
      assert Scan(d, ks, p) == [d[ks[0]]] + rest;
      assert ([d[ks[0]]] + rest)[1..] == rest;
    }
  }

  /** The records under a prefix, without a filter. */
  lemma ScanCount(d: Db, ks: seq<string>, p: string)
    requires Enumerates(ks, d)
    ensures |Scan(d, ks, p)| == |set k | k in d && p <= k|
  {
    var all := (r: Record) => true;
    FilterScanCount(d, ks, p, all);
    FilterAll(Scan(d, ks, p), all);
    assert Matching(d, ks, p, all) == set k | k in d && p <= k;
  }

  lemma {:induction false} FilterAll(rs: seq<Record>, P: Record -> bool)
    requires forall r :: P(r)
    ensures Filter(rs, P) == rs
  {
    if rs != [] {
      FilterAll(rs[1..], P);
      assert [rs[0]] + rs[1..] == rs;
    }
  }

  /** Counting a filtered prefix scan of the store counts the keys under the
      prefix whose records pass the filter, whatever the enumeration. */
  lemma FilterCount(kv: Store, p: string, P: Record -> bool)
    requires kv.Valid()
    ensures |Filter(kv.GetByPrefix(p), P)| == |set k | k in kv.data && p <= k && P(kv.data[k])|
  {
    FilterScanCount(kv.data, kv.order, p, P);
    assert Matching(kv.data, kv.order, p, P) == set k | k in kv.data && p <= k && P(kv.data[k]);
  }

  /** The store: a map from key to record, with the enumeration a scan uses. */
  class Store {
    var data: Db
    var order: seq<string>

    ghost predicate Valid()
      reads this
    {
      Enumerates(order, data)
    }

    constructor ()
      ensures Valid() && data == map[]
    {
      data := map[];
      order := [];
    }

    /** `kv.get(key)`: the record, or `None` when the key is absent. */
    function Get(key: string): (r: Option<Record>)
      reads this
      ensures r.Some? <==> key in data
      ensures r.Some? ==> r.value == data[key]
    {
      if key in data then Some(data[key]) else None
    }

    /** `kv.set(key, rec)`: insert or replace the record under `key`. */
    method Set(key: string, rec: Record)
      requires Valid()
      modifies this
      ensures Valid()
      ensures data == old(data)[key := rec]
      ensures order == if key in old(data) then old(order) else old(order) + [key]
    {
      if key !in data {
        order := order + [key];
      }
      data := data[key := rec];
    }

    /** `kv.getByPrefix(p)`: exactly the records whose keys start with `p`,
        one entry per key. */
    function GetByPrefix(p: string): (rs: seq<Record>)
      reads this
      requires Valid()
      ensures forall r :: r in rs <==> exists k :: k in data && p <= k && data[k] == r
      ensures |rs| == |set k | k in data && p <= k|
    {
      var rs := Scan(data, order, p);
      forall k | k in data && p <= k ensures data[k] in rs {
        ScanComplete(data, order, p, k);
      }
      ScanCount(data, order, p);
      rs
    }
  }
}
