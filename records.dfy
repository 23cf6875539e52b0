/** Record lists bucketed by record type: the `{'items': [...], 'talents': [...], ...}`
    dicts the parsers return and the import works through. */
module Records {
  import opened Values

  /** A dict from record type to a list of records, its keys in insertion order. */
  datatype Buckets = Buckets(order: seq<string>, lists: map<string, seq<Dict>>)
  {
    /** Each type is listed once, and the listed types are exactly those with a list. */
    ghost predicate Valid() {
      (forall i, j :: 0 <= i < j < |order| ==> order[i] != order[j]) &&
      (forall k :: k in lists <==> k in order)
    }

    /** `b[k]` for a present key, `[]` for a missing one. */
    function Get(k: string): seq<Dict> {
      if k in lists then lists[k] else []
    }

    /** `b[k] = records`: an existing key keeps its position, a new key goes last. */
    function Put(k: string, records: seq<Dict>): (r: Buckets)
      ensures r.lists == lists[k := records]
      ensures Valid() ==> r.Valid()
    {
      if k in lists then Buckets(order, lists[k := records])
      else Buckets(order + [k], lists[k := records])
    }
  }

  /** A dict display whose every list is empty. */
  function EmptyBuckets(types: seq<string>): (r: Buckets)
    ensures r.order == types
    ensures forall k :: k in r.lists <==> k in types
    ensures forall k :: k in r.lists ==> r.lists[k] == []
  {
    Buckets(types, map k | k in types :: [])
  }

  /** `sum(len(records) for records in b.values())`, over the first `n` keys. */
  function SumLengths(b: Buckets, n: nat): nat
    requires n <= |b.order|
  {
    if n == 0 then 0 else SumLengths(b, n - 1) + |b.Get(b.order[n - 1])|
  }

  function Total(b: Buckets): nat {
    SumLengths(b, |b.order|)
  }
}
