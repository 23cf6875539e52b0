/** Loosely-typed decoded values (JSON documents and XML-derived records) and Python's dict
    operations on them. */
module Values {
  import opened Wrappers
  import opened Text

  datatype Value =
    | VNone
    | VBool(b: bool)
    | VInt(i: int)
    | VStr(s: string)
    | VList(items: seq<Value>)
    | VDict(d: Dict)

  /** What a dict holds, key by key. */
  type Fields = map<string, Value>

  /** `m.get(k, default)` on the contents of a dict. */
  function At(m: Fields, k: string, default: Value): Value {
    if k in m then m[k] else default
  }

  /** A Python dict: its keys in insertion order, and what each key holds. */
  datatype Dict = Dict(keys: seq<string>, vals: map<string, Value>)
  {
    /** The listed keys are exactly the keys that hold a value. `Put` lists a key only when
        it is new, but `Valid` itself does not demand that no key is listed twice. */
    ghost predicate Valid() {
      (forall i :: 0 <= i < |keys| ==> keys[i] in vals) &&
      (forall k :: k in vals ==> k in keys)
    }

    /** `k in d` */
    predicate Has(k: string) {
      k in vals
    }

    /** `d.get(k)` as an option. */
    function Find(k: string): Option<Value> {
      if k in vals then Some(vals[k]) else None
    }

    /** `d.get(k, default)` */
    function Get(k: string, default: Value): Value {
      if k in vals then vals[k] else default
    }

    /** `d[k] = v`: an existing key keeps its position, a new key goes last. */
    function Put(k: string, v: Value): (r: Dict)
      ensures r.vals == vals[k := v]
      ensures Valid() ==> r.Valid()
    {
      Dict(if k in vals then keys else keys + [k], vals[k := v])
    }

    /** `d.pop(k, None)` with the result discarded. */
    function Remove(k: string): (r: Dict)
      ensures r.vals == vals - {k}
    {
      Dict(Without(keys, k), vals - {k})
    }
  }

  const EmptyDict: Dict := Dict([], map[])

  /** `ks` with every occurrence of `k` dropped. */
  function Without(ks: seq<string>, k: string): (r: seq<string>)
    ensures forall x :: x in r <==> x in ks && x != k
    decreases |ks|
  {
    if ks == [] then []
    else if ks[0] == k then Without(ks[1..], k)
    else [ks[0]] + Without(ks[1..], k)
  }

  /** A dict display `{k1: v1, k2: v2, ...}`: later entries overwrite earlier ones. */
  function FromFields(fs: seq<(string, Value)>): (r: Dict)
    ensures r.Valid()
    decreases |fs|
  {
    if fs == [] then EmptyDict
    else FromFields(fs[..|fs| - 1]).Put(fs[|fs| - 1].0, fs[|fs| - 1].1)
  }

  /** A new key goes last. */
  lemma PutNewKey(d: Dict, k: string, v: Value)
    requires d.Valid() && k !in d.keys
    ensures d.Put(k, v).keys == d.keys + [k]
  {
  }

  /** `d.update({k1: v1, k2: v2, ...})`: each entry put in turn. */

  function PutAll(d: Dict, fs: seq<(string, Value)>): (r: Dict)
    ensures d.Valid() ==> r.Valid()
    decreases |fs|
  {
    if fs == [] then d
    else PutAll(d, fs[..|fs| - 1]).Put(fs[|fs| - 1].0, fs[|fs| - 1].1)
  }

  /** An entry not overwritten by a later one holds its value afterwards. */
  lemma {:induction false} PutAllAt(d: Dict, fs: seq<(string, Value)>, i: nat)
    requires i < |fs| && forall j :: i < j < |fs| ==> fs[j].0 != fs[i].0
    ensures fs[i].0 in PutAll(d, fs).vals && PutAll(d, fs).vals[fs[i].0] == fs[i].1
    decreases |fs|
  {
    if i < |fs| - 1 {
      var init := fs[..|fs| - 1];
      assert forall j :: i < j < |init| ==> init[j] == fs[j];
      PutAllAt(d, init, i);
    }
  }

  /** A key no entry names keeps what it held. */
  lemma {:induction false} PutAllOther(d: Dict, fs: seq<(string, Value)>, k: string)
    requires forall j :: 0 <= j < |fs| ==> fs[j].0 != k
    ensures (k in PutAll(d, fs).vals <==> k in d.vals) && (k in d.vals ==> PutAll(d, fs).vals[k] == d.vals[k])
    decreases |fs|
  {
    if fs != [] {
      var init := fs[..|fs| - 1];
      assert forall j :: 0 <= j < |init| ==> init[j] == fs[j];
      PutAllOther(d, init, k);
    }
  }

  /** Python truthiness: `None`, `False`, `0`, `''`, `[]` and `{}` are false. */
  predicate Truthy(v: Value) {
    match v
    case VNone => false
    case VBool(b) => b
    case VInt(i) => i != 0
    case VStr(s) => s != ""
    case VList(xs) => xs != []
    case VDict(d) => d.vals != map[]
  }

  /** `a or b or ... or z`: the first truthy operand, or else the last one. */
  function Or(vs: seq<Value>): (r: Value)
    requires |vs| > 0
    ensures r in vs
    ensures Truthy(r) <==> exists i :: 0 <= i < |vs| && Truthy(vs[i])
    ensures Truthy(r) ==> exists i :: 0 <= i < |vs| && vs[i] == r && forall j :: 0 <= j < i ==> !Truthy(vs[j])
  {
    if |vs| == 1 || Truthy(vs[0]) then vs[0]
    else
      var r := Or(vs[1..]);
      assert forall i :: 0 < i < |vs| ==> vs[i] == vs[1..][i - 1];
      r
  }

  /** Python's iteration over a value (`for x in v`): list items, the characters of a string,
      the keys of a dict in insertion order; anything else raises `TypeError`. */
  function Iterate(v: Value): (r: Result<seq<Value>>)
    ensures v.VList? ==> r == Ok(v.items)
    ensures r.Err? <==> !(v.VList? || v.VStr? || v.VDict?)
  {
    match v
    case VList(xs) => Ok(xs)
    case VStr(s) => Ok(seq(|s|, i requires 0 <= i < |s| => VStr([s[i]])))
    case VDict(d) => Ok(seq(|d.keys|, i requires 0 <= i < |d.keys| => VStr(d.keys[i])))
    case _ => Err("TypeError: object is not iterable")
  }

  /** Lists and dicts cannot be dict keys: using one in `d.get(x)` raises `TypeError`. */
  predicate Hashable(v: Value) {
    !(v.VList? || v.VDict?)
  }

  /** `table.get(x, x)` for a string-keyed table: strings are looked up, other hashable
      values come back unchanged, unhashable ones raise. */
  function LookupOrSelf(table: map<string, string>, v: Value): (r: Result<Value>)
    ensures r.Err? <==> !Hashable(v)
    ensures v.VStr? ==> r == Ok(VStr(if v.s in table then table[v.s] else v.s))
    ensures Hashable(v) && !v.VStr? ==> r == Ok(v)
  {
    if !Hashable(v) then Err("TypeError: unhashable type")
    else if v.VStr? && v.s in table then Ok(VStr(table[v.s]))
    else Ok(v)
  }

  /** What `extra` holds for the first `n` of its keys. */
  function KeysPrefix(extra: Dict, n: nat): map<string, Value>
    requires n <= |extra.keys|
  {
    if n == 0 then map[]
    else
      var k := extra.keys[n - 1];
      var prev := KeysPrefix(extra, n - 1);
      if k in extra.vals then prev[k := extra.vals[k]] else prev
  }

  lemma {:induction false} KeysPrefixSpec(extra: Dict, n: nat)
    requires n <= |extra.keys|
    ensures forall k :: k in KeysPrefix(extra, n) <==> k in extra.keys[..n] && k in extra.vals
    ensures forall k :: k in KeysPrefix(extra, n) ==> KeysPrefix(extra, n)[k] == extra.vals[k]
  {
    if n > 0 {
      KeysPrefixSpec(extra, n - 1);
      assert extra.keys[..n] == extra.keys[..n - 1] + [extra.keys[n - 1]];
    }
  }

  lemma {:induction false} KeysPrefixAt(extra: Dict, n: nat, k: string)
    requires n <= |extra.keys| && k in KeysPrefix(extra, n)
    ensures k in extra.vals && KeysPrefix(extra, n)[k] == extra.vals[k]
  {
    if extra.keys[n - 1] != k || extra.keys[n - 1] !in extra.vals {
      KeysPrefixAt(extra, n - 1, k);
    }
  }

  /** Updating the left side of a merge shows through unless the right side has the key. */
  lemma MergeUpdate(m: map<string, Value>, n: map<string, Value>, k: string, v: Value)
    ensures k !in n ==> m[k := v] + n == (m + n)[k := v]
    ensures k in n ==> m[k := v] + n == m + n
    ensures k in m && m[k] == v ==> m[k := v] == m
  {
  }

  lemma KeysPrefixAll(extra: Dict)
    requires extra.Valid()
    ensures KeysPrefix(extra, |extra.keys|) == extra.vals
  {
    KeysPrefixSpec(extra, |extra.keys|);
    assert extra.keys[..|extra.keys|] == extra.keys;
  }

  /** The loop `for k, v in extra.items(): if k not in d: d[k] = v`, which fills in the
      keys `d` lacks and leaves every present key alone. */
  method FillMissing(d: Dict, extra: Dict) returns (r: Dict)
    requires extra.Valid()
    ensures r.vals == extra.vals + d.vals
  {
    r := d;
    var i := 0;
    while i < |extra.keys|
      invariant 0 <= i <= |extra.keys|
      invariant r.vals == KeysPrefix(extra, i) + d.vals
    {
      var k := extra.keys[i];
      assert KeysPrefix(extra, i + 1) == KeysPrefix(extra, i)[k := extra.vals[k]];
      MergeUpdate(KeysPrefix(extra, i), d.vals, k, extra.vals[k]);
      if !r.Has(k) {
        r := r.Put(k, extra.vals[k]);
      } else if k !in d.vals {
        KeysPrefixAt(extra, i, k);
      }
      i := i + 1;
    }
    KeysPrefixAll(extra);
  }

  /** The loop `for k, v in extra.items(): d[k] = v` (that is, `d.update(extra)`). */
  method UpdateWith(d: Dict, extra: Dict) returns (r: Dict)
    requires extra.Valid()
    ensures r.vals == d.vals + extra.vals
  {
    r := d;
    var i := 0;
    while i < |extra.keys|
      invariant 0 <= i <= |extra.keys|
      invariant r.vals == d.vals + KeysPrefix(extra, i)
    {
      var k := extra.keys[i];
      assert KeysPrefix(extra, i + 1) == KeysPrefix(extra, i)[k := extra.vals[k]];
      assert d.vals + KeysPrefix(extra, i)[k := extra.vals[k]] == (d.vals + KeysPrefix(extra, i))[k := extra.vals[k]];
      r := r.Put(k, extra.vals[k]);
      i := i + 1;
    }
    KeysPrefixAll(extra);
  }
}
