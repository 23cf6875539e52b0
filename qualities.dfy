/** Weapon and armour qualities (`_map_qualities_with_counts` in src/data_mapper.py):
    OggDude quality keys become Realm VTT quality names, and ranked qualities also set a
    count field on the item. */
module Qualities {
  import opened Wrappers
  import opened Text
  import opened Values
  import opened MapperTables

  /** A quality that contributes to the result: its key and its rank. */
  datatype QualityEntry = QualityEntry(key: string, count: Value)

  /** The two results: the mapped names in order, and the count fields. */
  datatype MappedQualities = MappedQualities(names: seq<string>, counts: Dict)

  /** What one element of the quality list contributes. A string contributes itself with
      rank 1; a dict contributes its `Key` with its `Count` (default 1) when the key is
      truthy; anything else contributes nothing. A truthy key that is not a string raises
      when it is upper-cased. */
  function EntryOf(q: Value): (r: Result<Option<QualityEntry>>)
    ensures q.VStr? ==> r == Ok(Some(QualityEntry(q.s, VInt(1))))
    ensures r.Err? <==>
      q.VDict? && Truthy(q.d.Get("Key", VStr(""))) && !q.d.Get("Key", VStr("")).VStr?
    ensures r.Ok? && r.value.None? <==>
      !q.VStr? && !(q.VDict? && Truthy(q.d.Get("Key", VStr(""))))
  {
    match q
    case VStr(s) => Ok(Some(QualityEntry(s, VInt(1))))
    case VDict(fields) =>
      var key := fields.Get("Key", VStr(""));
      if !Truthy(key) then Ok(None)
      else if key.VStr? then Ok(Some(QualityEntry(key.s, fields.Get("Count", VInt(1)))))
      else Err("AttributeError: quality key has no upper()")
    case _ => Ok(None)
  }

  /** The contributing entries of a quality list, in list order; a raising element makes the
      whole call raise. */
  function Entries(qs: seq<Value>): Result<seq<QualityEntry>>
    decreases |qs|
  {
    if qs == [] then Ok([])
    else
      match Entries(qs[..|qs| - 1])
      case Err(e) => Err(e)
      case Ok(prev) =>
        match EntryOf(qs[|qs| - 1])
        case Err(e) => Err(e)
        case Ok(None) => Ok(prev)
        case Ok(Some(entry)) => Ok(prev + [entry])
  }

  /** The mapped quality names of the entries, one per entry. */
  function Names(es: seq<QualityEntry>): (r: seq<string>)
    ensures |r| == |es| && forall i :: 0 <= i < |es| ==> r[i] == QualityName(es[i].key)
  {
    seq(|es|, i requires 0 <= i < |es| => QualityName(es[i].key))
  }

  /** The count fields the entries set, each assignment overwriting the previous one. */
  function Counts(es: seq<QualityEntry>): Dict
    decreases |es|
  {
    if es == [] then EmptyDict
    else
      var prev := Counts(es[..|es| - 1]);
      var e := es[|es| - 1];
      match CountField(e.key)
      case Some(f) => prev.Put(f, e.count)
      case None => prev
  }

  /** `_map_qualities_with_counts`, as the loop the source runs. */
  method MapQualitiesWithCounts(qualities: seq<Value>) returns (r: Result<MappedQualities>)
    ensures r.Ok? <==> Entries(qualities).Ok?
    ensures r.Ok? ==>
      r.value == MappedQualities(Names(Entries(qualities).value), Counts(Entries(qualities).value))
  {
    hide QualityName, CountField, QualityMapping, QualityCountFields, Upper, Lower;
    var mapped: seq<string> := [];
    var counts: Dict := EmptyDict;
    ghost var entries: seq<QualityEntry> := [];
    var i := 0;
    while i < |qualities|
      invariant 0 <= i <= |qualities|
      invariant Entries(qualities[..i]) == Ok(entries)
      invariant mapped == Names(entries) && counts == Counts(entries)
    {
      var q := qualities[i];
      assert qualities[..i + 1][..i] == qualities[..i];
      var key: string;
      var count: Value;
      if q.VStr? {
        key, count := q.s, VInt(1);
      } else if q.VDict? && Truthy(q.d.Get("Key", VStr(""))) {
        var k := q.d.Get("Key", VStr(""));
        if !k.VStr? {
          assert Entries(qualities[..i + 1]).Err?;
          ProperPrefixErr(qualities, i + 1);
          return Err("AttributeError: quality key has no upper()");
        }
        key, count := k.s, q.d.Get("Count", VInt(1));
      } else {
        i := i + 1;
        continue;
      }
      mapped := mapped + [QualityName(key)];
      var field := CountField(key);
      if field.Some? {
        counts := counts.Put(field.value, count);
      }
      entries := entries + [QualityEntry(key, count)];
      i := i + 1;
    }
    assert qualities[..|qualities|] == qualities;
    r := Ok(MappedQualities(mapped, counts));
  }

  /** Once a prefix raises, the whole list does. */
  lemma {:induction false} ProperPrefixErr(qs: seq<Value>, n: nat)
    requires n <= |qs| && Entries(qs[..n]).Err?
    ensures Entries(qs).Err?
    decreases |qs| - n
  {
    if n < |qs| {
      assert qs[..n + 1][..n] == qs[..n];
      ProperPrefixErr(qs, n + 1);
    } else {
      assert qs[..n] == qs;
    }
  }

  /** The conversion raises exactly when some element raises. */
  lemma {:induction false} EntriesOkIff(qs: seq<Value>)
    ensures Entries(qs).Ok? <==> forall i :: 0 <= i < |qs| ==> EntryOf(qs[i]).Ok?
    decreases |qs|
  {
    if qs != [] {
      var init := qs[..|qs| - 1];
      EntriesOkIff(init);
      assert forall i :: 0 <= i < |init| ==> init[i] == qs[i];
    }
  }

  /** A list of strings maps element by element, in order, each with rank 1. */
  lemma {:induction false} EntriesOfStrings(qs: seq<Value>)
    requires forall i :: 0 <= i < |qs| ==> qs[i].VStr?
    ensures Entries(qs) == Ok(StringEntries(qs))
    decreases |qs|
  {
    if qs != [] {
      var init := qs[..|qs| - 1];
      var last := QualityEntry(qs[|qs| - 1].s, VInt(1));
      assert forall i :: 0 <= i < |init| ==> init[i] == qs[i];
      EntriesOfStrings(init);
      assert EntryOf(qs[|qs| - 1]) == Ok(Some(last));
      assert Entries(qs) == Ok(StringEntries(init) + [last]);
      assert StringEntries(qs) == StringEntries(init) + [last];
    }
  }

  /** Each string of a list as an entry of rank 1. */
  function StringEntries(qs: seq<Value>): (r: seq<QualityEntry>)
    requires forall i :: 0 <= i < |qs| ==> qs[i].VStr?
    ensures |r| == |qs| && forall i :: 0 <= i < |qs| ==> r[i] == QualityEntry(qs[i].s, VInt(1))
  {
    seq(|qs|, i requires 0 <= i < |qs| => QualityEntry(qs[i].s, VInt(1)))
  }

  /** The counts form a proper dict, so they can be merged into the item. */
  lemma {:induction false} CountsValid(es: seq<QualityEntry>)
    ensures Counts(es).Valid()
    decreases |es|
  {
    if es != [] {
      CountsValid(es[..|es| - 1]);
    }
  }

  /** A count field holds the rank of the LAST entry that sets it. */
  lemma {:induction false} CountsLastWins(es: seq<QualityEntry>, f: string, i: nat)
    requires i < |es| && CountField(es[i].key) == Some(f)
    requires forall j :: i < j < |es| ==> CountField(es[j].key) != Some(f)
    ensures Counts(es).Find(f) == Some(es[i].count)
    decreases |es|
  {
    if i < |es| - 1 {
      CountsLastWins(es[..|es| - 1], f, i);
    }
  }

  /** Only count fields of contributing entries are set. */
  lemma {:induction false} CountsOnlySetFields(es: seq<QualityEntry>, f: string)
    requires forall j :: 0 <= j < |es| ==> CountField(es[j].key) != Some(f)
    ensures Counts(es).Find(f) == None
    decreases |es|
  {
    if es != [] {
      CountsOnlySetFields(es[..|es| - 1], f);
    }
  }
}
