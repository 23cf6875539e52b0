/** `XMLParser.filter_by_sources` and `XMLParser.scan_directory`: the records of every file
    found, kept when one of their sources is selected, and filed under their record type. */
module XmlScan {
  import opened Wrappers
  import opened Values
  import opened Records
  import opened Sources
  import opened XmlElements
  import opened Filtering
  import opened XmlParsing
  import opened XmlFiles

  // ---------------------------------------------------------------------------------------
  // The source filter
  // ---------------------------------------------------------------------------------------

  /** The loop over a record's sources: the first one a selected config names keeps the
      record; a comparison on a source that is not a string raises. */
  function SourcesMatch(configs: seq<SourceConfig>, selected: seq<string>, vs: seq<Value>): (r: Result<bool>)
    ensures (forall j :: 0 <= j < |vs| ==> vs[j].VStr?) ==> r.Ok?
    ensures r == Ok(true) <==>
      exists j :: 0 <= j < |vs| && vs[j].VStr? && Named(configs, selected, vs[j].s) &&
        (forall k :: 0 <= k < j ==> vs[k].VStr?)
    decreases |vs|
  {
    if vs == [] then Ok(false)
    else
      var rest := SourcesMatch(configs, selected, vs[1..]);
      assert forall j :: 0 < j < |vs| ==> vs[j] == vs[1..][j - 1];
      match OggdudeMatch(configs, selected, vs[0])
      case Err(e) => Err(e)
      case Ok(b) => if b then Ok(true) else rest
  }

  /** The loop raises exactly when a comparison is reached and a source that is not a string
      comes before any source that matches. */
  lemma {:induction false} SourcesMatchErr(configs: seq<SourceConfig>, selected: seq<string>, vs: seq<Value>)
    ensures SourcesMatch(configs, selected, vs).Err? <==>
      ComparesSource(configs, selected) &&
      exists j :: 0 <= j < |vs| && !vs[j].VStr? &&
        (forall k :: 0 <= k < j ==> vs[k].VStr? && !Named(configs, selected, vs[k].s))
    decreases |vs|
  {
    hide OggdudeMatch, Named, ComparesSource;
    if vs != [] {
      var rest := vs[1..];
      SourcesMatchErr(configs, selected, rest);
      assert forall j :: 0 < j < |vs| ==> vs[j] == rest[j - 1];
      var m := OggdudeMatch(configs, selected, vs[0]);
      if m.Ok? && !m.value {
        assert SourcesMatch(configs, selected, vs) == SourcesMatch(configs, selected, rest);
        if vs[0].VStr? {
          assert !Named(configs, selected, vs[0].s);
          if SourcesMatch(configs, selected, rest).Err? {
            var j :| 0 <= j < |rest| && !rest[j].VStr? &&
              (forall k :: 0 <= k < j ==> rest[k].VStr? && !Named(configs, selected, rest[k].s));
            assert !vs[j + 1].VStr? && forall k :: 0 <= k < j + 1 ==> vs[k].VStr? && !Named(configs, selected, vs[k].s);
          }
        } else {
          assert !ComparesSource(configs, selected);
        }
      }
    }
  }

  /** Some selected config names one of the record's sources. */
  predicate SourceNamed(configs: seq<SourceConfig>, selected: seq<string>, x: Dict) {
    WellFormedRecord(x) && exists j :: 0 <= j < |x.vals["sources"].items| && Named(configs, selected, x.vals["sources"].items[j].s)
  }

  /** The test `filter_by_sources` applies to one record: its `sources` (none when missing)
      must be iterable, and one of them must match. */
  function KeptBySources(configs: seq<SourceConfig>, selected: seq<string>, x: Dict): Result<bool> {
    match Iterate(x.Get("sources", VList([])))
    case Err(e) => Err(e)
    case Ok(vs) => SourcesMatch(configs, selected, vs)
  }

  /** On a well-formed record the test cannot raise, and it keeps the record exactly when a
      selected config names one of its sources. */
  lemma KeptWellFormed(configs: seq<SourceConfig>, selected: seq<string>, x: Dict)
    requires WellFormedRecord(x)
    ensures KeptBySources(configs, selected, x) == Ok(SourceNamed(configs, selected, x))
  {
    var vs := x.vals["sources"].items;
    assert Iterate(x.Get("sources", VList([]))) == Ok(vs);
    var r := SourcesMatch(configs, selected, vs);
    assert forall k :: 0 <= k < |vs| ==> vs[k].VStr?;
    assert r.Ok?;
    if SourceNamed(configs, selected, x) {
      var j :| 0 <= j < |vs| && Named(configs, selected, vs[j].s);
      assert forall k :: 0 <= k < j ==> vs[k].VStr?;
      assert r == Ok(true);
    } else {
      assert forall j :: 0 <= j < |vs| ==> !Named(configs, selected, vs[j].s);
      assert r != Ok(true);
      assert !r.value;
    }
  }

  function SourceTest(configs: seq<SourceConfig>, selected: seq<string>): Dict -> Result<bool> {
    (x: Dict) => KeptBySources(configs, selected, x)
  }

  /** `filter_by_sources`: an empty selection keeps everything. */
  function FilteredBySources(configs: seq<SourceConfig>, selected: seq<string>, records: seq<Dict>): Result<seq<Dict>> {
    if selected == [] then Ok(records) else Filter(records, SourceTest(configs, selected))
  }

  method FilterBySources(configs: seq<SourceConfig>, selected: seq<string>, records: seq<Dict>)
    returns (r: Result<seq<Dict>>)
    ensures r == FilteredBySources(configs, selected, records)
  {
    if selected == [] {
      return Ok(records);
    }
    r := FilterRecords(records, SourceTest(configs, selected));
  }

  /** On well-formed records the filter cannot raise, and a record is kept exactly when the
      selection is empty or some selected config names one of its sources. */
  lemma FilterBySourcesKeeps(configs: seq<SourceConfig>, selected: seq<string>, records: seq<Dict>)
    requires forall i :: 0 <= i < |records| ==> WellFormedRecord(records[i])
    ensures var r := FilteredBySources(configs, selected, records);
      r.Ok? && forall x :: x in r.value <==> x in records && (selected == [] || SourceNamed(configs, selected, x))
  {
    if selected != [] {
      var keep := SourceTest(configs, selected);
      forall x | x in records ensures keep(x) == Ok(SourceNamed(configs, selected, x)) {
        KeptWellFormed(configs, selected, x);
      }
      FilterPrefixOk(records, keep, |records|);
      FilterKeepsAccepted(records, keep);
    }
  }

  /** The kept records come in their original order, each once. */
  lemma FilterBySourcesOrder(configs: seq<SourceConfig>, selected: seq<string>, records: seq<Dict>)
    requires selected != [] && FilteredBySources(configs, selected, records).Ok?
    ensures var r := FilteredBySources(configs, selected, records).value;
      var ps := KeptPositions(records, SourceTest(configs, selected), |records|);
      |r| == |ps| && (forall k :: 0 <= k < |r| ==> r[k] == records[ps[k]]) &&
      forall k, l :: 0 <= k < l < |ps| ==> ps[k] < ps[l]
  {
    FilterPrefixPositions(records, SourceTest(configs, selected), |records|);
  }

  /** The filter raises exactly when the test raises on some record. */
  lemma FilterBySourcesErr(configs: seq<SourceConfig>, selected: seq<string>, records: seq<Dict>)
    ensures FilteredBySources(configs, selected, records).Err? <==>
      selected != [] && exists i :: 0 <= i < |records| && KeptBySources(configs, selected, records[i]).Err?
  {
    if selected != [] {
      FilterPrefixOk(records, SourceTest(configs, selected), |records|);
    }
  }

  /** Filtering the filtered records again changes nothing. */
  lemma FilterBySourcesIdempotent(configs: seq<SourceConfig>, selected: seq<string>, records: seq<Dict>)
    requires FilteredBySources(configs, selected, records).Ok?
    ensures var r := FilteredBySources(configs, selected, records).value;
      FilteredBySources(configs, selected, r) == Ok(r)
  {
    if selected != [] {
      FilterIdempotent(records, SourceTest(configs, selected));
    }
  }

  // ---------------------------------------------------------------------------------------
  // Filing records under their type
  // ---------------------------------------------------------------------------------------

  /** The keys of the dict `scan_directory` fills, in display order. */
  function XmlBucketTypes(): seq<string> {
    ["weapons", "species", "careers", "specializations", "talents", "force_powers", "vehicles",
     "armor", "gear", "npcs"]
  }

  /** The categorisation loop over the first `n` records: `record_type in all_records` raises
      on an unhashable type, a record of a listed type is appended to its list, and any other
      record is dropped. */
  function Bucketed(b: Buckets, records: seq<Dict>, n: nat): Result<Buckets>
    requires n <= |records|
  {
    if n == 0 then Ok(b)
    else match Bucketed(b, records, n - 1)
      case Err(e) => Err(e)
      case Ok(acc) =>
        var t := RecordTypeOf(records[n - 1]);
        if !Hashable(t) then Err("TypeError: unhashable type")
        else if t.VStr? && t.s in acc.lists then Ok(acc.Put(t.s, acc.Get(t.s) + [records[n - 1]]))
        else Ok(acc)
  }

  /** The records among the first `n` whose type is the string `t`, in order. */
  function OfTypeNamed(records: seq<Dict>, t: string, n: nat): (r: seq<Dict>)
    requires n <= |records|
    ensures forall x :: x in r <==> x in records[..n] && RecordTypeOf(x) == VStr(t)
  {
    if n == 0 then []
    else
      var prev := OfTypeNamed(records, t, n - 1);
      assert records[..n] == records[..n - 1] + [records[n - 1]];
      if RecordTypeOf(records[n - 1]) == VStr(t) then prev + [records[n - 1]] else prev
  }

  /** The loop raises exactly when some record's type is unhashable; otherwise the keys stay
      as they were and each list gains, in order, the records of its type. */
  lemma {:induction false} BucketedSpec(b: Buckets, records: seq<Dict>, n: nat)
    requires n <= |records|
    ensures Bucketed(b, records, n).Ok? <==> forall i :: 0 <= i < n ==> Hashable(RecordTypeOf(records[i]))
    ensures Bucketed(b, records, n).Ok? ==>
      var r := Bucketed(b, records, n).value;
      r.order == b.order && r.lists.Keys == b.lists.Keys &&
      forall t :: t in b.lists ==> r.lists[t] == b.lists[t] + OfTypeNamed(records, t, n)
  {
    if n > 0 {
      BucketedSpec(b, records, n - 1);
    }
  }

  /** Once the loop has raised it stays raised. */
  lemma {:induction false} BucketedErrPersists(b: Buckets, records: seq<Dict>, n: nat, m: nat)
    requires n <= m <= |records| && Bucketed(b, records, n).Err?
    ensures Bucketed(b, records, m) == Bucketed(b, records, n)
    decreases m - n
  {
    if n < m {
      BucketedErrPersists(b, records, n, m - 1);
    }
  }

  /** The categorisation loop of `scan_directory` for one file's records. */
  method BucketRecords(b: Buckets, records: seq<Dict>) returns (r: Result<Buckets>)
    ensures r == Bucketed(b, records, |records|)
  {
    var acc := b;
    for i := 0 to |records|
      invariant Bucketed(b, records, i) == Ok(acc)
    {
      var t := RecordTypeOf(records[i]);
      if !Hashable(t) {
        BucketedErrPersists(b, records, i + 1, |records|);
        return Err("TypeError: unhashable type");
      }
      if t.VStr? && t.s in acc.lists {
        acc := acc.Put(t.s, acc.Get(t.s) + [records[i]]);
      }
    }
    r := Ok(acc);
  }

  // ---------------------------------------------------------------------------------------
  // The scan
  // ---------------------------------------------------------------------------------------

  /** What one file adds: its records are filtered when sources are selected, then filed. */
  function FileAdded(configs: seq<SourceConfig>, selected: seq<string>, b: Buckets, records: seq<Dict>): Result<Buckets> {
    match FilteredBySources(configs, selected, records)
    case Err(e) => Err(e)
    case Ok(kept) => Bucketed(b, kept, |kept|)
  }

  method AddFile(configs: seq<SourceConfig>, selected: seq<string>, b: Buckets, records: seq<Dict>)
    returns (r: Result<Buckets>)
    ensures r == FileAdded(configs, selected, b, records)
  {
    var kept := FilterBySources(configs, selected, records);
    if kept.Err? {
      return Err(kept.error);
    }
    r := BucketRecords(b, kept.value);
  }

  /** The scan after the first `n` of the files found. */
  function ScanPrefix(fm: FieldMapping, configs: seq<SourceConfig>, selected: seq<string>,
                      files: seq<Option<Element>>, n: nat): Result<Buckets>
    requires ValidMapping(fm) && n <= |files|
  {
    if n == 0 then Ok(EmptyBuckets(XmlBucketTypes()))
    else match ScanPrefix(fm, configs, selected, files, n - 1)
      case Err(e) => Err(e)
      case Ok(b) => FileAdded(configs, selected, b, ParsedFile(fm, files[n - 1]))
  }

  /** `scan_directory`: `None` when the directory does not exist, otherwise the files the
      recursive search finds, each its root element or `None` when it is not well-formed. */
  function Scanned(fm: FieldMapping, configs: seq<SourceConfig>, selected: seq<string>,
                   dir: Option<seq<Option<Element>>>): Result<Buckets>
    requires ValidMapping(fm)
  {
    match dir
    case None => Ok(EmptyBuckets(XmlBucketTypes()))
    case Some(files) => ScanPrefix(fm, configs, selected, files, |files|)
  }

  lemma {:induction false} ScanErrPersists(fm: FieldMapping, configs: seq<SourceConfig>, selected: seq<string>,
                                            files: seq<Option<Element>>, n: nat, m: nat)
    requires ValidMapping(fm) && n <= m <= |files| && ScanPrefix(fm, configs, selected, files, n).Err?
    ensures ScanPrefix(fm, configs, selected, files, m) == ScanPrefix(fm, configs, selected, files, n)
    decreases m - n
  {
    if n < m {
      ScanErrPersists(fm, configs, selected, files, n, m - 1);
    }
  }

  method ScanDirectory(fm: FieldMapping, configs: seq<SourceConfig>, selected: seq<string>,
                       dir: Option<seq<Option<Element>>>) returns (r: Result<Buckets>)
    requires ValidMapping(fm)
    ensures r == Scanned(fm, configs, selected, dir)
  {
    if dir.None? {
      return Ok(EmptyBuckets(XmlBucketTypes()));
    }
    var files := dir.value;
    var acc := EmptyBuckets(XmlBucketTypes());
    for i := 0 to |files|
      invariant ScanPrefix(fm, configs, selected, files, i) == Ok(acc)
    {
      var added := ScanFile(fm, configs, selected, files, i, acc);
      if added.Err? {
        ScanErrPersists(fm, configs, selected, files, i + 1, |files|);
        return added;
      }
      acc := added.value;
    }
    r := Ok(acc);
  }

  /** One pass of the loop over the files: parse, filter, file. */
  method ScanFile(fm: FieldMapping, configs: seq<SourceConfig>, selected: seq<string>,
                  files: seq<Option<Element>>, i: nat, acc: Buckets) returns (r: Result<Buckets>)
    requires ValidMapping(fm) && i < |files| && ScanPrefix(fm, configs, selected, files, i) == Ok(acc)
    ensures r == ScanPrefix(fm, configs, selected, files, i + 1)
  {
    var records := ParseXmlFile(fm, files[i]);
    r := AddFile(configs, selected, acc, records);
  }

  // ---------------------------------------------------------------------------------------
  // What the scan promises
  // ---------------------------------------------------------------------------------------

  /** Every list holds only records of its own type. */
  predicate FiledByType(b: Buckets) {
    forall t :: t in b.lists ==> forall x :: x in b.lists[t] ==> RecordTypeOf(x) == VStr(t)
  }

  /** For one file of well-formed records the pass cannot raise, the keys stay as they were,
      and a list gains exactly the records of its type that the filter keeps. */
  lemma FileAddedSpec(configs: seq<SourceConfig>, selected: seq<string>, b: Buckets, records: seq<Dict>)
    requires forall i :: 0 <= i < |records| ==> WellFormedRecord(records[i])
    ensures var r := FileAdded(configs, selected, b, records);
      r.Ok? && r.value.order == b.order && r.value.lists.Keys == b.lists.Keys &&
      forall t, x :: t in b.lists ==>
        (x in r.value.lists[t] <==>
          x in b.lists[t] ||
          (x in records && RecordTypeOf(x) == VStr(t) && (selected == [] || SourceNamed(configs, selected, x))))
  {
    FilterBySourcesKeeps(configs, selected, records);
    var kept := FilteredBySources(configs, selected, records).value;
    assert forall i :: 0 <= i < |kept| ==> Hashable(RecordTypeOf(kept[i])) by {
      forall i | 0 <= i < |kept| ensures Hashable(RecordTypeOf(kept[i])) {
        assert kept[i] in kept;
      }
    }
    BucketedSpec(b, kept, |kept|);
    assert kept[..|kept|] == kept;
  }

  /** Filing keeps every list to its own type. */
  lemma BucketedFiled(b: Buckets, records: seq<Dict>)
    requires FiledByType(b) && Bucketed(b, records, |records|).Ok?
    ensures FiledByType(Bucketed(b, records, |records|).value)
  {
    BucketedSpec(b, records, |records|);
  }

  /** After any number of files the keys are those of the initial display, in its order,
      and every list holds only records of its type; in particular no armor or gear record,
      whose type is `items`, is ever filed. */
  lemma {:induction false} ScanFiled(fm: FieldMapping, configs: seq<SourceConfig>, selected: seq<string>,
                                     files: seq<Option<Element>>, n: nat)
    requires ValidMapping(fm) && n <= |files|
    ensures var r := ScanPrefix(fm, configs, selected, files, n);
      r.Ok? ==>
        r.value.order == XmlBucketTypes() && (forall t :: t in r.value.lists <==> t in XmlBucketTypes()) &&
        FiledByType(r.value)
  {
    hide ParsedFile, FileAdded, FiledByType, XmlBucketTypes, EmptyBuckets;
    if n > 0 {
      ScanFiled(fm, configs, selected, files, n - 1);
      var prev := ScanPrefix(fm, configs, selected, files, n - 1);
      if prev.Ok? {
        FileAddedFiled(configs, selected, prev.value, ParsedFile(fm, files[n - 1]));
      }
    } else {
      EmptyFiled();
    }
  }

  /** The scan starts from the ten empty lists. */
  lemma EmptyFiled()
    ensures var b := EmptyBuckets(XmlBucketTypes());
      b.order == XmlBucketTypes() && (forall t :: t in b.lists <==> t in XmlBucketTypes()) && FiledByType(b)
  {}

  /** One more file keeps the keys and files each record under its own type. */
  lemma FileAddedFiled(configs: seq<SourceConfig>, selected: seq<string>, b: Buckets, records: seq<Dict>)
    requires b.order == XmlBucketTypes() && (forall t :: t in b.lists <==> t in XmlBucketTypes()) && FiledByType(b)
    ensures var r := FileAdded(configs, selected, b, records);
      r.Ok? ==>
        r.value.order == XmlBucketTypes() && (forall t :: t in r.value.lists <==> t in XmlBucketTypes()) &&
        FiledByType(r.value)
  {
    var kept := FilteredBySources(configs, selected, records);
    if kept.Ok? {
      BucketedSpec(b, kept.value, |kept.value|);
      if Bucketed(b, kept.value, |kept.value|).Ok? {
        BucketedFiled(b, kept.value);
      }
    }
  }

  /** `scan_directory` keeps its ten keys in order, files each record under its own type
      only, and files nothing of type `items`. */
  lemma ScannedFiled(fm: FieldMapping, configs: seq<SourceConfig>, selected: seq<string>,
                     dir: Option<seq<Option<Element>>>)
    requires ValidMapping(fm)
    ensures var r := Scanned(fm, configs, selected, dir);
      r.Ok? ==>
        r.value.order == XmlBucketTypes() && (forall t :: t in r.value.lists <==> t in XmlBucketTypes()) &&
        FiledByType(r.value) &&
        forall t, x :: t in r.value.lists && x in r.value.lists[t] ==> RecordTypeOf(x) != VStr("items")
  {
    ItemsNotScanned();
    hide ScanPrefix, EmptyBuckets, XmlBucketTypes;
    if dir.Some? {
      ScanFiled(fm, configs, selected, dir.value, |dir.value|);
    } else {
      EmptyFiled();
    }
  }

  lemma ItemsNotScanned()
    ensures "items" !in XmlBucketTypes()
  {}

  /** A directory that does not exist gives the ten empty lists. */
  lemma MissingDirectory(fm: FieldMapping, configs: seq<SourceConfig>, selected: seq<string>)
    requires ValidMapping(fm)
    ensures var r := Scanned(fm, configs, selected, None);
      r.Ok? && r.value.order == XmlBucketTypes() && Total(r.value) == 0
  {
    hide EmptyBuckets, XmlBucketTypes, ScanPrefix, SumLengths;
    var b := EmptyBuckets(XmlBucketTypes());
    assert Scanned(fm, configs, selected, None) == Ok(b);
    EmptyTotal(b, |b.order|);
  }

  lemma {:induction false} EmptyTotal(b: Buckets, n: nat)
    requires n <= |b.order| && forall k :: k in b.lists ==> b.lists[k] == []
    ensures SumLengths(b, n) == 0
  {
    if n > 0 {
      EmptyTotal(b, n - 1);
      assert b.Get(b.order[n - 1]) == [];
    }
  }
}
