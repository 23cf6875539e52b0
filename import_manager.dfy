/** The `ImportManager`: it merges what the two scans found into one dict of record lists,
    narrows it to the selected record types and the import limit, and then uploads the
    records type by type, registering the ids of the ones others refer to by name. */
module Importing {
  import opened Wrappers
  import opened Text
  import opened Values
  import opened Records
  import opened Sources
  import opened Markup
  import opened DataMapping
  import XmlElements
  import XmlParsing
  import XmlScan
  import JsonParsing

  // ---------------------------------------------------------------------------------------
  // Merging, selecting and limiting the records (`parse_files` and `_import_process`)
  // ---------------------------------------------------------------------------------------

  /** The keys of `all_records`, in its order. */
  function ImportTypes(): seq<string> {
    ["npcs", "careers", "force_powers", "items", "signature_abilities", "skills", "specializations",
     "species", "talents"]
  }

  predicate Distinct(ks: seq<string>) {
    forall i, j :: 0 <= i < j < |ks| ==> ks[i] != ks[j]
  }

  /** A listed type does not occur before its position. */
  lemma NotInPrefix(ks: seq<string>, n: nat)
    requires Distinct(ks) && n < |ks|
    ensures ks[n] !in ks[..n]
  {
    assert forall i :: 0 <= i < n ==> ks[..n][i] == ks[i];
  }

  /** The loop over the first `n` record types the XML scan returned: a type `all_records`
      has gets the scanned records appended, any other type is dropped. */
  function MergedXml(base: Buckets, xml: Buckets, n: nat): Buckets
    requires n <= |xml.order|
  {
    if n == 0 then base
    else
      var prev := MergedXml(base, xml, n - 1);
      var t := xml.order[n - 1];
      if t in prev.lists then prev.Put(t, prev.lists[t] + xml.Get(t)) else prev
  }

  /** Merging keeps the keys and their order. */
  lemma {:induction false} MergedXmlShape(base: Buckets, xml: Buckets, n: nat)
    requires n <= |xml.order|
    ensures var r := MergedXml(base, xml, n);
      r.order == base.order && r.lists.Keys == base.lists.Keys
  {
    if n > 0 {
      MergedXmlShape(base, xml, n - 1);
    }
  }

  /** Each kept type holds what it held followed by what the scan found for it. */
  lemma {:induction false} MergedXmlAt(base: Buckets, xml: Buckets, n: nat, t: string)
    requires n <= |xml.order| && Distinct(xml.order) && t in base.lists
    ensures var r := MergedXml(base, xml, n);
      t in r.lists && r.lists[t] == base.lists[t] + (if t in xml.order[..n] then xml.Get(t) else [])
  {
    if n > 0 {
      var prev := MergedXml(base, xml, n - 1);
      var u := xml.order[n - 1];
      MergedXmlShape(base, xml, n - 1);
      MergedXmlAt(base, xml, n - 1, t);
      assert xml.order[..n] == xml.order[..n - 1] + [u];
      if u == t {
        NotInPrefix(xml.order, n - 1);
        assert prev.lists[t] == base.lists[t] + [];
        assert MergedXml(base, xml, n) == prev.Put(t, prev.lists[t] + xml.Get(t));
        assert base.lists[t] + [] + xml.Get(t) == base.lists[t] + xml.Get(t);
      } else {
        assert (t in xml.order[..n]) == (t in xml.order[..n - 1]);
        assert MergedXml(base, xml, n).lists[t] == prev.lists[t];
      }
    }
  }

  /** With record types selected, only the selected types that are present are kept. */
  function SelectedPrefix(all: Buckets, types: seq<string>, n: nat): Buckets
    requires n <= |types|
  {
    if n == 0 then Buckets([], map[])
    else
      var prev := SelectedPrefix(all, types, n - 1);
      var t := types[n - 1];
      if t in all.lists then prev.Put(t, all.lists[t]) else prev
  }

  /** No selection keeps every type. */
  function Selected(all: Buckets, types: seq<string>): Buckets {
    if types == [] then all else SelectedPrefix(all, types, |types|)
  }

  lemma {:induction false} SelectedPrefixSpec(all: Buckets, types: seq<string>, n: nat)
    requires n <= |types|
    ensures var r := SelectedPrefix(all, types, n);
      r.Valid() && (forall t :: t in r.lists <==> t in types[..n] && t in all.lists) &&
      forall t :: t in r.lists ==> r.lists[t] == all.lists[t]
  {
    if n > 0 {
      SelectedPrefixSpec(all, types, n - 1);
      assert types[..n] == types[..n - 1] + [types[n - 1]];
    }
  }

  /** With no selected record types every type is kept; otherwise exactly the selected types
      that exist are kept, each with all its records. */
  lemma SelectedSpec(all: Buckets, types: seq<string>)
    requires all.Valid()
    ensures var r := Selected(all, types);
      r.Valid() && (types == [] ==> r == all) &&
      (types != [] ==> forall t :: t in r.lists <==> t in types && t in all.lists) &&
      forall t :: t in r.lists ==> r.lists[t] == all.lists[t]
  {
    if types != [] {
      SelectedPrefixSpec(all, types, |types|);
      assert types[..|types|] == types;
    }
  }

  /** `records[:limit]` when there is a positive limit the list exceeds. */
  function Truncated(records: seq<Dict>, limit: int): seq<Dict> {
    if limit > 0 && |records| > limit then records[..limit] else records
  }

  /** A truncated list is a prefix of the list, as long as the limit allows; with no limit it
      is the list itself. */
  lemma TruncatedSpec(records: seq<Dict>, limit: int)
    ensures var r := Truncated(records, limit);
      r <= records && (limit <= 0 ==> r == records) &&
      (limit > 0 ==> |r| == if |records| < limit then |records| else limit)
  {
  }

  /** The loop that applies the limit to the first `n` types. */
  function LimitedPrefix(b: Buckets, limit: int, n: nat): Buckets
    requires n <= |b.order|
  {
    if n == 0 then Buckets([], map[])
    else LimitedPrefix(b, limit, n - 1).Put(b.order[n - 1], Truncated(b.Get(b.order[n - 1]), limit))
  }

  function Limited(b: Buckets, limit: int): Buckets {
    LimitedPrefix(b, limit, |b.order|)
  }

  lemma {:induction false} LimitedPrefixSpec(b: Buckets, limit: int, n: nat)
    requires n <= |b.order| && b.Valid()
    ensures var r := LimitedPrefix(b, limit, n);
      r.Valid() && r.order == b.order[..n] &&
      forall t :: t in r.lists ==> r.lists[t] == Truncated(b.lists[t], limit)
  {
    if n > 0 {
      LimitedPrefixSpec(b, limit, n - 1);
      var t := b.order[n - 1];
      assert b.order[..n] == b.order[..n - 1] + [t];
      NotInPrefix(b.order, n - 1);
    }
  }

  /** The limit keeps every type, in order, and truncates each list on its own. */
  lemma LimitedSpec(b: Buckets, limit: int)
    requires b.Valid()
    ensures var r := Limited(b, limit);
      r.Valid() && r.order == b.order && forall t :: t in r.lists ==> r.lists[t] == Truncated(b.lists[t], limit)
  {
    LimitedPrefixSpec(b, limit, |b.order|);
    assert b.order[..|b.order|] == b.order;
  }

  /** What the import is configured with (`set_campaign_id` ... `set_adversaries_directory`). */
  datatype ImportSettings = ImportSettings(campaignId: string, selectedSources: seq<string>,
                                           selectedRecordTypes: seq<string>, maxImportLimit: int,
                                           updateExisting: bool, oggdudeDirectory: string,
                                           adversariesDirectory: string)

  /** The settings of a new manager: no campaign, no selection, no limit, no directories. */
  const DefaultSettings: ImportSettings := ImportSettings("", [], [], 0, false, "", "")

  /** `all_records` after the merge, from the dict display `base`: the XML scan's records
      (when an OggDude directory is set) and the Adversaries records appended to the NPCs
      (when that directory is set). */
  function Gather(base: Buckets, s: ImportSettings, xml: Buckets, json: seq<Dict>): Buckets {
    var merged := if s.oggdudeDirectory != "" then MergedXml(base, xml, |xml.order|) else base;
    if s.adversariesDirectory != "" then merged.Put("npcs", merged.Get("npcs") + json) else merged
  }

  function Collected(s: ImportSettings, xml: Buckets, json: seq<Dict>): Buckets {
    Gather(EmptyBuckets(ImportTypes()), s, xml, json)
  }

  /** The records to import: what was collected (an XML scan that raised propagates), then
      the selection of record types, then the limit. */
  function Prepared(s: ImportSettings, xml: Result<Buckets>, json: seq<Dict>): Result<Buckets> {
    if s.oggdudeDirectory != "" && xml.Err? then Err(xml.error)
    else
      var scanned := if xml.Ok? then xml.value else Buckets([], map[]);
      Ok(Limited(Selected(Collected(s, scanned, json), s.selectedRecordTypes), s.maxImportLimit))
  }

  lemma TypesFacts()
    ensures Distinct(ImportTypes()) && "npcs" in ImportTypes()
  {
  }

  lemma SameTypes()
    ensures forall t :: t in ImportTypes() ==> t in ImportOrder()
  {
  }

  lemma XmlTypesFacts()
    ensures Distinct(XmlScan.XmlBucketTypes()) && "items" !in XmlScan.XmlBucketTypes()
  {
  }

  lemma {:induction false} GatherSpec(base: Buckets, s: ImportSettings, xml: Buckets, json: seq<Dict>)
    requires base.Valid() && "npcs" in base.lists && forall t :: t in base.lists ==> base.lists[t] == []
    requires s.oggdudeDirectory != "" ==> xml.Valid()
    ensures var r := Gather(base, s, xml, json);
      r.Valid() && r.order == base.order && r.lists.Keys == base.lists.Keys &&
      forall t :: t in r.lists ==>
        r.lists[t] == (if s.oggdudeDirectory != "" then xml.Get(t) else []) +
                      (if t == "npcs" && s.adversariesDirectory != "" then json else [])
  {
    var merged := if s.oggdudeDirectory != "" then MergedXml(base, xml, |xml.order|) else base;
    MergedXmlShape(base, xml, |xml.order|);
    forall t | t in merged.lists
      ensures merged.lists[t] == if s.oggdudeDirectory != "" then xml.Get(t) else []
    {
      if s.oggdudeDirectory != "" {
        MergedXmlAt(base, xml, |xml.order|, t);
        assert xml.order[..|xml.order|] == xml.order;
        assert base.lists[t] == [];
      }
    }
  }

  /** The collected dict has the nine keys of its display, in order; each holds the XML
      records of its type (when that directory is set), and the NPCs are followed by the
      Adversaries records (when that directory is set). */
  lemma CollectedSpec(s: ImportSettings, xml: Buckets, json: seq<Dict>)
    requires s.oggdudeDirectory != "" ==> xml.Valid()
    ensures var r := Collected(s, xml, json);
      r.Valid() && r.order == ImportTypes() &&
      forall t :: t in r.lists ==>
        r.lists[t] == (if s.oggdudeDirectory != "" then xml.Get(t) else []) +
                      (if t == "npcs" && s.adversariesDirectory != "" then json else [])
  {
    TypesFacts();
    GatherSpec(EmptyBuckets(ImportTypes()), s, xml, json);
  }

  /** An XML scan that succeeds gives a well-formed dict with no `items` key. */
  lemma XmlScanKeys(fm: XmlParsing.FieldMapping, configs: seq<SourceConfig>, selected: seq<string>,
                    dir: Option<seq<Option<XmlElements.Element>>>)
    requires XmlParsing.ValidMapping(fm)
    ensures var r := XmlScan.Scanned(fm, configs, selected, dir);
      r.Ok? ==> r.value.Valid() && "items" !in r.value.lists
  {
    XmlScan.ScannedFiled(fm, configs, selected, dir);
    XmlTypesFacts();
  }

  /** The preparation fails exactly when the XML scan it needs raised. Otherwise it keeps,
      of the collected types, every type when none is selected and else the selected ones;
      each kept type holds its collected records cut to the limit. */
  lemma PreparedSpec(s: ImportSettings, xml: Result<Buckets>, json: seq<Dict>)
    requires s.oggdudeDirectory != "" && xml.Ok? ==> xml.value.Valid()
    ensures var r := Prepared(s, xml, json);
      (r.Err? <==> s.oggdudeDirectory != "" && xml.Err?) &&
      (r.Ok? ==>
        var c := Collected(s, if xml.Ok? then xml.value else Buckets([], map[]), json);
        r.value.Valid() &&
        (s.selectedRecordTypes == [] ==> r.value.order == c.order) &&
        (forall t :: t in r.value.lists <==> t in c.lists && (s.selectedRecordTypes == [] || t in s.selectedRecordTypes)) &&
        forall t :: t in r.value.lists ==> r.value.lists[t] == Truncated(c.lists[t], s.maxImportLimit))
  {
    if !(s.oggdudeDirectory != "" && xml.Err?) {
      var scanned := if xml.Ok? then xml.value else Buckets([], map[]);
      CollectedSpec(s, scanned, json);
      var c := Collected(s, scanned, json);
      SelectedSpec(c, s.selectedRecordTypes);
      LimitedSpec(Selected(c, s.selectedRecordTypes), s.maxImportLimit);
    }
  }

  /** Every prepared type is one of the nine the import order lists. */
  lemma PreparedTypes(s: ImportSettings, xml: Result<Buckets>, json: seq<Dict>)
    requires s.oggdudeDirectory != "" && xml.Ok? ==> xml.value.Valid()
    requires Prepared(s, xml, json).Ok?
    ensures var p := Prepared(s, xml, json).value;
      p.Valid() && forall t :: t in p.lists ==> t in ImportOrder()
  {
    PreparedSpec(s, xml, json);
    var scanned := if xml.Ok? then xml.value else Buckets([], map[]);
    CollectedSpec(s, scanned, json);
    SameTypes();
  }

  /** With a scan that files nothing under `items`, and the Adversaries records going to the
      NPCs, no item is prepared. */
  lemma {:induction false} NoItemsPrepared(s: ImportSettings, xml: Result<Buckets>, json: seq<Dict>)
    requires xml.Ok? ==> xml.value.Valid() && "items" !in xml.value.lists
    ensures var r := Prepared(s, xml, json);
      r.Ok? ==> r.value.Get("items") == []
  {
    PreparedSpec(s, xml, json);
    if Prepared(s, xml, json).Ok? {
      var scanned := if xml.Ok? then xml.value else Buckets([], map[]);
      CollectedSpec(s, scanned, json);
      var c := Collected(s, scanned, json);
      assert "items" in c.lists ==> c.lists["items"] == [];
    }
  }

  /** In particular no item of an OggDude directory is ever prepared for import. */
  lemma NoXmlItemsPrepared(fm: XmlParsing.FieldMapping, configs: seq<SourceConfig>, s: ImportSettings,
                           dir: Option<seq<Option<XmlElements.Element>>>, json: seq<Dict>)
    requires XmlParsing.ValidMapping(fm)
    ensures var r := Prepared(s, XmlScan.Scanned(fm, configs, s.selectedSources, dir), json);
      r.Ok? ==> r.value.Get("items") == []
  {
    XmlScanKeys(fm, configs, s.selectedSources, dir);
    NoItemsPrepared(s, XmlScan.Scanned(fm, configs, s.selectedSources, dir), json);
  }

  // ---------------------------------------------------------------------------------------
  // The category of a record (`_get_category_for_record`)
  // ---------------------------------------------------------------------------------------

  /** The category a record falls back to. */
  function DefaultCategory(): string { "Star Wars RPG" }

  /** `record.get('source', '')` */
  function SourceOf(record: Dict): Value {
    record.Get("source", VStr(""))
  }

  /** The loop over the source configs from the `i`-th on: the first selected config that
      names the source gives its name; comparing a source that is not a string raises. */
  function CategoryFrom(configs: seq<SourceConfig>, selected: seq<string>, source: Value, i: nat): Result<string>
    decreases |configs| - i
  {
    if i >= |configs| then Ok(DefaultCategory())
    else if IsSelected(configs[i], selected) && configs[i].oggdudeSources != [] then
      if !source.VStr? then Err("AttributeError: object has no attribute 'lower'")
      else if NamesSource(configs[i], source.s) then Ok(configs[i].name)
      else CategoryFrom(configs, selected, source, i + 1)
    else CategoryFrom(configs, selected, source, i + 1)
  }

  function CategoryOf(configs: seq<SourceConfig>, selected: seq<string>, record: Dict): Result<string> {
    CategoryFrom(configs, selected, SourceOf(record), 0)
  }

  /** `k` is the first selected config from the `i`-th on that names `source`. */
  predicate FirstNaming(configs: seq<SourceConfig>, selected: seq<string>, source: string, i: nat, k: nat) {
    i <= k < |configs| && IsSelected(configs[k], selected) && NamesSource(configs[k], source) &&
    forall k' :: i <= k' < k ==> !(IsSelected(configs[k'], selected) && NamesSource(configs[k'], source))
  }

  /** Some selected config from the `i`-th on lists an OggDude source. */
  predicate ComparesFrom(configs: seq<SourceConfig>, selected: seq<string>, i: nat) {
    exists k :: i <= k < |configs| && IsSelected(configs[k], selected) && configs[k].oggdudeSources != []
  }

  /** Some selected config from the `i`-th on names `source`. */
  predicate NamedFrom(configs: seq<SourceConfig>, selected: seq<string>, source: string, i: nat) {
    exists k :: i <= k < |configs| && IsSelected(configs[k], selected) && NamesSource(configs[k], source)
  }

  lemma {:induction false} CategoryFromErr(configs: seq<SourceConfig>, selected: seq<string>, source: Value, i: nat)
    ensures CategoryFrom(configs, selected, source, i).Err? <==> !source.VStr? && ComparesFrom(configs, selected, i)
    decreases |configs| - i
  {
    if i < |configs| {
      CategoryFromErr(configs, selected, source, i + 1);
      if ComparesFrom(configs, selected, i) && !(IsSelected(configs[i], selected) && configs[i].oggdudeSources != []) {
        var k :| i <= k < |configs| && IsSelected(configs[k], selected) && configs[k].oggdudeSources != [];
        assert i + 1 <= k;
      }
    }
  }

  lemma {:induction false} CategoryFromFirst(configs: seq<SourceConfig>, selected: seq<string>, source: string, i: nat, k: nat)
    requires FirstNaming(configs, selected, source, i, k)
    ensures CategoryFrom(configs, selected, VStr(source), i) == Ok(configs[k].name)
    decreases |configs| - i
  {
    if i < k {
      assert !(IsSelected(configs[i], selected) && NamesSource(configs[i], source));
      assert FirstNaming(configs, selected, source, i + 1, k);
      CategoryFromFirst(configs, selected, source, i + 1, k);
    }
  }

  lemma {:induction false} CategoryFromDefault(configs: seq<SourceConfig>, selected: seq<string>, source: string, i: nat)
    requires !NamedFrom(configs, selected, source, i)
    ensures CategoryFrom(configs, selected, VStr(source), i) == Ok(DefaultCategory())
    decreases |configs| - i
  {
    if i < |configs| {
      assert !(IsSelected(configs[i], selected) && NamesSource(configs[i], source));
      CategoryFromDefault(configs, selected, source, i + 1);
    }
  }

  /** When some selected config names the source, a first one does. */
  lemma {:induction false} FirstNamingExists(configs: seq<SourceConfig>, selected: seq<string>, source: string, i: nat)
    requires NamedFrom(configs, selected, source, i)
    ensures exists k: nat :: FirstNaming(configs, selected, source, i, k)
    decreases |configs| - i
  {
    if IsSelected(configs[i], selected) && NamesSource(configs[i], source) {
      assert FirstNaming(configs, selected, source, i, i);
    } else {
      var k0 :| i <= k0 < |configs| && IsSelected(configs[k0], selected) && NamesSource(configs[k0], source);
      assert NamedFrom(configs, selected, source, i + 1) by {
        assert i + 1 <= k0;
      }
      FirstNamingExists(configs, selected, source, i + 1);
      var k: nat :| FirstNaming(configs, selected, source, i + 1, k);
      assert FirstNaming(configs, selected, source, i, k);
    }
  }

  /** The category raises exactly when the source is not a string and some selected config
      lists an OggDude source; a string source named by a selected config gets the name of
      the first such config, and any other string source gets the default category. */
  lemma CategoryOfSpec(configs: seq<SourceConfig>, selected: seq<string>, record: Dict)
    ensures var r := CategoryOf(configs, selected, record);
      var source := SourceOf(record);
      (r.Err? <==> !source.VStr? && ComparesSource(configs, selected)) &&
      (source.VStr? ==> forall k: nat :: FirstNaming(configs, selected, source.s, 0, k) ==> r == Ok(configs[k].name)) &&
      (source.VStr? && Named(configs, selected, source.s) ==>
         exists k: nat :: FirstNaming(configs, selected, source.s, 0, k) && r == Ok(configs[k].name)) &&
      (source.VStr? && !Named(configs, selected, source.s) ==> r == Ok(DefaultCategory()))
  {
    var source := SourceOf(record);
    CategoryFromErr(configs, selected, source, 0);
    assert ComparesFrom(configs, selected, 0) == ComparesSource(configs, selected);
    if source.VStr? {
      forall k: nat | FirstNaming(configs, selected, source.s, 0, k)
        ensures CategoryOf(configs, selected, record) == Ok(configs[k].name)
      {
        CategoryFromFirst(configs, selected, source.s, 0, k);
      }
      assert NamedFrom(configs, selected, source.s, 0) == Named(configs, selected, source.s);
      if Named(configs, selected, source.s) {
        FirstNamingExists(configs, selected, source.s, 0);
        var k: nat :| FirstNaming(configs, selected, source.s, 0, k);
        CategoryFromFirst(configs, selected, source.s, 0, k);
      } else {
        CategoryFromDefault(configs, selected, source.s, 0);
      }
    }
  }

  // ---------------------------------------------------------------------------------------
  // Uploading one record and registering its id
  // ---------------------------------------------------------------------------------------

  /** `create_npc`, `create_item` or `create_record`. */
  datatype Endpoint = NpcEndpoint | ItemEndpoint | RecordEndpoint

  function EndpointFor(t: string): Endpoint {
    if t == "npcs" then NpcEndpoint else if t == "items" then ItemEndpoint else RecordEndpoint
  }

  /** The Realm VTT server, as it answers the `j`-th upload attempt: `find` the `_id` of an
      existing record of a type by name (`None` when there is none), `patch` a record by
      `_id`, `create` a record at an endpoint. Each answer is the `_id` of the record the
      server returns (`None` when it has none), or the error the call raised. */
  datatype Api = Api(find: (nat, string, Value) -> Result<Option<string>>,
                     patch: (nat, string, string, Option<Dict>) -> Result<Option<string>>,
                     create: (nat, Endpoint, Option<Dict>) -> Result<Option<string>>)

  /** What the environment of an import supplies: the server, the regular-expression part
      of the description conversion, and `str()` of a value. */
  datatype Env = Env(api: Api, rw: Rewriter, show: Value -> string)

  /** The upload of the `j`-th record: with updating on and a truthy name, an existing
      record of the name is patched and a missing one created; otherwise it is created. */
  function Upload(api: Api, j: nat, update: bool, t: string, name: Value, realm: Option<Dict>): Result<Option<string>> {
    if update && Truthy(name) then
      match api.find(j, t, name)
      case Err(e) => Err(e)
      case Ok(Some(id)) => api.patch(j, t, id, realm)
      case Ok(None) => api.create(j, EndpointFor(t), realm)
    else api.create(j, EndpointFor(t), realm)
  }

  /** The registry a record type feeds; NPCs, skills and signature abilities feed none. */
  function RegistryFor(t: string): Option<Registry> {
    if t == "items" then Some(ItemNames)
    else if t == "talents" then Some(TalentNames)
    else if t == "species" then Some(SpeciesNames)
    else if t == "careers" then Some(CareerNames)
    else if t == "specializations" then Some(SpecNames)
    else if t == "force_powers" then Some(ForcePowerNames)
    else None
  }

  /** The registration after an upload: a truthy name of a registered type is mapped to the
      uploaded record's `_id`; a missing `_id` raises `KeyError`, a name that is a list or a
      dict raises `TypeError`. */
  function Registration(t: string, name: Value, answer: Option<string>): Result<Option<(Registry, string, string)>> {
    if !Truthy(name) || RegistryFor(t).None? then Ok(None)
    else if answer.None? then Err("KeyError: '_id'")
    else if !Hashable(name) then Err("TypeError: unhashable type")
    else if !name.VStr? then Ok(None)
    else Ok(Some((RegistryFor(t).value, name.s, answer.value)))
  }

  /** A registration goes to the registry of the record's type, under the record's name,
      with the id the server gave. */
  lemma RegistrationSpec(t: string, name: Value, answer: Option<string>)
    ensures var r := Registration(t, name, answer);
      (r.Err? <==> Truthy(name) && RegistryFor(t).Some? && (answer.None? || !Hashable(name))) &&
      (r.Ok? && r.value.Some? ==>
         RegistryFor(t) == Some(r.value.value.0) && name == VStr(r.value.value.1) && answer == Some(r.value.value.2)) &&
      (name.VStr? && name.s != "" && RegistryFor(t).Some? && answer.Some? ==> r.Ok? && r.value.Some?)
  {
  }

  /** How one record's import ended: the error that was caught, or the registration made. */
  datatype Outcome = Failed(error: string) | Imported(registered: Option<(Registry, string, string)>)

  /** One record's import: the converted record (or what the conversion raised), and how it ended. */
  datatype Attempt = Attempt(realm: Result<Option<Dict>>, outcome: Outcome)

  /** Everything after the conversion: a failed conversion is caught, then the upload, then
      the registration. */
  function AttemptOutcome(api: Api, j: nat, update: bool, t: string, record: Dict, realm: Result<Option<Dict>>): Outcome {
    if realm.Err? then Failed(realm.error)
    else
      var name := record.Get("name", VStr(""));
      match Upload(api, j, update, t, name, realm.value)
      case Err(e) => Failed(e)
      case Ok(answer) =>
        match Registration(t, name, answer)
        case Err(e) => Failed(e)
        case Ok(reg) => Imported(reg)
  }

  /** What `convert_oggdude_to_realm_vtt` may give a record, against an item registry, for a
      campaign and a category. */
  type ConversionCheck = (map<string, string>, Dict, string, string, Result<Option<Dict>>) -> bool

  function Conversions(rw: Rewriter): ConversionCheck {
    (itemMap: map<string, string>, record: Dict, campaignId: string, category: string, r: Result<Option<Dict>>) =>
      Converts(itemMap, record, campaignId, category, rw, r)
  }

  /** `conv` accepts exactly what the conversion with the regular-expression part `rw` may
      give. */
  ghost predicate ChecksConversions(conv: ConversionCheck, rw: Rewriter) {
    forall itemMap, record, campaignId, category, r {:trigger Converts(itemMap, record, campaignId, category, rw, r)} ::
      conv(itemMap, record, campaignId, category, r) <==> Converts(itemMap, record, campaignId, category, rw, r)
  }

  /** The conversions checked are those of the source. */
  lemma ConversionsChecked(rw: Rewriter)
    ensures ChecksConversions(Conversions(rw), rw)
  {
  }

  /** The `j`-th attempt imported the record `item.1` of type `item.0` as the source does,
      converting it against the item registry `itemMap`. */
  predicate EntryOk(s: ImportSettings, configs: seq<SourceConfig>, conv: ConversionCheck, api: Api, itemMap: map<string, string>,
                    j: nat, item: (string, Dict), e: Attempt) {
    (match CategoryOf(configs, s.selectedSources, item.1)
     case Err(x) => e.realm == Err(x)
     case Ok(category) => conv(itemMap, item.1, s.campaignId, category, e.realm)) &&
    e.outcome == AttemptOutcome(api, j, s.updateExisting, item.0, item.1, e.realm)
  }

  /** The registration an attempt made in the registry `kind`. */
  function RegOf(e: Attempt, kind: Registry): seq<(string, string)> {
    match e.outcome
    case Imported(Some(r)) => if r.0 == kind then [(r.1, r.2)] else []
    case _ => []
  }

  /** The registrations of a run of attempts in the registry `kind`, in order. */
  function Registrations(log: seq<Attempt>, kind: Registry): seq<(string, string)>
    decreases |log|
  {
    if log == [] then [] else Registrations(log[..|log| - 1], kind) + RegOf(log[|log| - 1], kind)
  }

  /** An attempt registers only in the registry of its own record type. */
  lemma OutcomeRegistry(api: Api, j: nat, update: bool, t: string, record: Dict, realm: Result<Option<Dict>>)
    ensures var o := AttemptOutcome(api, j, update, t, record, realm);
      o.Imported? && o.registered.Some? ==> RegistryFor(t) == Some(o.registered.value.0)
  {
    if realm.Ok? {
      var name := record.Get("name", VStr(""));
      var u := Upload(api, j, update, t, name, realm.value);
      if u.Ok? {
        RegistrationSpec(t, name, u.value);
      }
    }
  }

  /** An attempt on a record that is not an item registers no item. */
  lemma NoItemRegistration(api: Api, j: nat, update: bool, t: string, record: Dict, e: Attempt)
    requires e.outcome == AttemptOutcome(api, j, update, t, record, e.realm) && t != "items"
    ensures RegOf(e, ItemNames) == []
  {
    OutcomeRegistry(api, j, update, t, record, e.realm);
  }

  /** Registering a run of attempts after another is registering the two runs in order. */
  lemma {:induction false} RegisteredAppend(m: map<string, string>, a: seq<(string, string)>, b: seq<(string, string)>)
    ensures Registered(m, a + b) == Registered(Registered(m, a), b)
    decreases |b|
  {
    if b != [] {
      var init := b[..|b| - 1];
      RegisteredAppend(m, a, init);
      assert (a + b)[..|a + b| - 1] == a + init;
      assert (a + b)[|a + b| - 1] == b[|b| - 1];
    } else {
      assert a + b == a;
    }
  }

  lemma RegistrationsStep(log: seq<Attempt>, e: Attempt, kind: Registry)
    ensures Registrations(log + [e], kind) == Registrations(log, kind) + RegOf(e, kind)
  {
    assert (log + [e])[..|log|] == log;
  }

  // ---------------------------------------------------------------------------------------
  // The log of a run
  // ---------------------------------------------------------------------------------------

  /** The order the types are imported in: items first, so that NPCs can link to them. */
  function ImportOrder(): seq<string> {
    ["items", "species", "talents", "specializations", "careers", "force_powers", "skills",
     "signature_abilities", "npcs"]
  }

  lemma OrderFacts()
    ensures Distinct(ImportOrder()) && ImportOrder()[|ImportOrder()| - 1] == "npcs"
    ensures "npcs" !in ImportOrder()[..|ImportOrder()| - 1]
  {
  }

  /** The records of one type, each with its type. */
  function Pairs(t: string, records: seq<Dict>): (r: seq<(string, Dict)>)
    ensures |r| == |records| && forall i :: 0 <= i < |records| ==> r[i] == (t, records[i])
  {
    seq(|records|, i requires 0 <= i < |records| => (t, records[i]))
  }

  /** Every record of the types `ks`, type by type, in the order they are imported. */
  function Schedule(p: Buckets, ks: seq<string>): seq<(string, Dict)>
    decreases |ks|
  {
    if ks == [] then [] else Schedule(p, ks[..|ks| - 1]) + Pairs(ks[|ks| - 1], p.Get(ks[|ks| - 1]))
  }

  /** The attempts of a run: the `j`-th imported the `j`-th scheduled record, converting it
      against the item registry as the attempts before it had left it. */
  ghost predicate LogOk(s: ImportSettings, configs: seq<SourceConfig>, conv: ConversionCheck, api: Api, item0: map<string, string>,
                        sched: seq<(string, Dict)>, log: seq<Attempt>)
    decreases |log|
  {
    |log| <= |sched| &&
    (log != [] ==>
       var init := log[..|log| - 1];
       LogOk(s, configs, conv, api, item0, sched, init) &&
       EntryOk(s, configs, conv, api, Registered(item0, Registrations(init, ItemNames)), |init|, sched[|init|], log[|init|]))
  }

  lemma LogOkStep(s: ImportSettings, configs: seq<SourceConfig>, conv: ConversionCheck, api: Api, item0: map<string, string>,
                  sched: seq<(string, Dict)>, log: seq<Attempt>, e: Attempt)
    requires LogOk(s, configs, conv, api, item0, sched, log) && |log| < |sched|
    requires EntryOk(s, configs, conv, api, Registered(item0, Registrations(log, ItemNames)), |log|, sched[|log|], e)
    ensures LogOk(s, configs, conv, api, item0, sched, log + [e])
  {
    assert (log + [e])[..|log|] == log;
  }

  /** A check on the `j`-th attempt `e` at the scheduled item, against the item registry
      the attempts before it left. */
  type EntryCheck = (nat, (string, Dict), map<string, string>, Attempt) -> bool

  /** Every attempt of the run `log` passes the check `ok`. */
  ghost predicate Checked(ok: EntryCheck, item0: map<string, string>, sched: seq<(string, Dict)>, log: seq<Attempt>)
    decreases |log|
  {
    |log| <= |sched| &&
    (log != [] ==>
       var init := log[..|log| - 1];
       Checked(ok, item0, sched, init) &&
       ok(|init|, sched[|init|], Registered(item0, Registrations(init, ItemNames)), log[|init|]))
  }

  lemma CheckedStep(ok: EntryCheck, item0: map<string, string>, sched: seq<(string, Dict)>, log: seq<Attempt>, e: Attempt)
    requires Checked(ok, item0, sched, log) && |log| < |sched|
    requires ok(|log|, sched[|log|], Registered(item0, Registrations(log, ItemNames)), e)
    ensures Checked(ok, item0, sched, log + [e])
  {
    assert (log + [e])[..|log|] == log;
  }

  /** `ok` passes every attempt made as the source makes it. */
  ghost predicate Implied(ok: EntryCheck, s: ImportSettings, configs: seq<SourceConfig>, conv: ConversionCheck, api: Api) {
    forall j, item, itemMap, e {:trigger EntryOk(s, configs, conv, api, itemMap, j, item, e)} ::
      EntryOk(s, configs, conv, api, itemMap, j, item, e) ==> ok(j, item, itemMap, e)
  }

  /** The check that an attempt was made as the source makes it. */
  ghost function Entries(s: ImportSettings, configs: seq<SourceConfig>, conv: ConversionCheck, api: Api): EntryCheck {
    (j: nat, item: (string, Dict), itemMap: map<string, string>, e: Attempt) => EntryOk(s, configs, conv, api, itemMap, j, item, e)
  }

  lemma EntriesImplied(s: ImportSettings, configs: seq<SourceConfig>, conv: ConversionCheck, api: Api)
    ensures Implied(Entries(s, configs, conv, api), s, configs, conv, api)
  {
  }

  lemma {:induction false} CheckedLogOk(s: ImportSettings, configs: seq<SourceConfig>, conv: ConversionCheck, api: Api,
                                        item0: map<string, string>, sched: seq<(string, Dict)>, log: seq<Attempt>)
    requires Checked(Entries(s, configs, conv, api), item0, sched, log)
    ensures LogOk(s, configs, conv, api, item0, sched, log)
    decreases |log|
  {
    if log != [] {
      CheckedLogOk(s, configs, conv, api, item0, sched, log[..|log| - 1]);
    }
  }

  /** Each attempt of a run imported its scheduled record against the registry before it. */
  lemma {:induction false} LogEntry(s: ImportSettings, configs: seq<SourceConfig>, conv: ConversionCheck, api: Api, item0: map<string, string>,
                                    sched: seq<(string, Dict)>, log: seq<Attempt>, k: nat)
    requires LogOk(s, configs, conv, api, item0, sched, log) && k < |log|
    ensures k < |sched| &&
            EntryOk(s, configs, conv, api, Registered(item0, Registrations(log[..k], ItemNames)), k, sched[k], log[k])
    decreases |log|
  {
    var init := log[..|log| - 1];
    if k < |init| {
      LogEntry(s, configs, conv, api, item0, sched, init, k);
      assert init[..k] == log[..k];
    }
  }

  /** Each attempt of a run ended as its conversion, upload and registration decide. */
  lemma LogOutcome(s: ImportSettings, configs: seq<SourceConfig>, conv: ConversionCheck, api: Api, item0: map<string, string>,
                   sched: seq<(string, Dict)>, log: seq<Attempt>, k: nat)
    requires LogOk(s, configs, conv, api, item0, sched, log) && k < |log|
    ensures k < |sched| && log[k].outcome == AttemptOutcome(api, k, s.updateExisting, sched[k].0, sched[k].1, log[k].realm)
  {
    LogEntry(s, configs, conv, api, item0, sched, log, k);
  }

  /** Once a run has stopped, the stop callback was never consulted true before. */
  ghost predicate Ran(wasImporting: bool, stopped: nat -> bool, sched: seq<(string, Dict)>, log: seq<Attempt>) {
    |log| <= |sched| &&
    (wasImporting ==> (forall c :: 0 <= c < |log| ==> !stopped(c)) && (|log| == |sched| || stopped(|log|))) &&
    (!wasImporting ==> log == [])
  }

  /** The progress message of an attempt. */
  function Message(show: Value -> string, item: (string, Dict), outcome: Outcome): string {
    match outcome
    case Imported(_) => "Imported " + show(item.1.Get("name", VStr(""))) + " (" + item.0 + ")"
    case Failed(_) => "Failed to import " + show(item.1.Get("name", VStr("Unknown")))
  }

  /** The progress after a run: untouched when nothing was attempted, else the count of
      attempts out of the total, with the last attempt's message. */
  datatype Progress = Progress(current: nat, total: nat, operation: string)

  function Reported(prev: Progress, show: Value -> string, sched: seq<(string, Dict)>, log: seq<Attempt>, total: nat): Progress
    requires |log| <= |sched|
  {
    if log == [] then prev
    else Progress(|log|, total, Message(show, sched[|log| - 1], log[|log| - 1].outcome))
  }

  // ---------------------------------------------------------------------------------------
  // The schedule
  // ---------------------------------------------------------------------------------------

  lemma {:induction false} SchedulePrefix(p: Buckets, ks: seq<string>, n: nat)
    requires n <= |ks|
    ensures Schedule(p, ks[..n]) <= Schedule(p, ks)
    decreases |ks|
  {
    if n < |ks| {
      var init := ks[..|ks| - 1];
      assert init[..n] == ks[..n];
      SchedulePrefix(p, init, n);
    } else {
      assert ks[..n] == ks;
    }
  }

  /** The `ri`-th record of the `ti`-th type is scheduled right after every record of the
      types before it. */
  lemma ScheduleAt(p: Buckets, ks: seq<string>, ti: nat, ri: nat)
    requires ti < |ks| && ri < |p.Get(ks[ti])|
    ensures |Schedule(p, ks[..ti])| + ri < |Schedule(p, ks)| &&
            Schedule(p, ks)[|Schedule(p, ks[..ti])| + ri] == (ks[ti], p.Get(ks[ti])[ri])
  {
    SchedulePrefix(p, ks, ti + 1);
    var front := ks[..ti + 1];
    assert front[..|front| - 1] == ks[..ti] && front[|front| - 1] == ks[ti];
    var here := Pairs(ks[ti], p.Get(ks[ti]));
    assert Schedule(p, front) == Schedule(p, ks[..ti]) + here;
    assert here[ri] == (ks[ti], p.Get(ks[ti])[ri]);
  }

  /** Every scheduled record is a record of its type, the type one of `ks`. */
  lemma {:induction false} ScheduleTypes(p: Buckets, ks: seq<string>, j: nat)
    requires j < |Schedule(p, ks)|
    ensures Schedule(p, ks)[j].0 in ks && Schedule(p, ks)[j].1 in p.Get(Schedule(p, ks)[j].0)
    decreases |ks|
  {
    var init := ks[..|ks| - 1];
    assert ks == init + [ks[|ks| - 1]];
    if j < |Schedule(p, init)| {
      ScheduleTypes(p, init, j);
    }
  }

  /** When the last type is listed only last, its records come after every other record. */
  lemma LastTypeLast(p: Buckets, ks: seq<string>, i: nat, j: nat)
    requires ks != [] && ks[|ks| - 1] !in ks[..|ks| - 1]
    requires i < |Schedule(p, ks)| && j < |Schedule(p, ks)|
    requires Schedule(p, ks)[j].0 == ks[|ks| - 1] != Schedule(p, ks)[i].0
    ensures i < j
  {
    var init := ks[..|ks| - 1];
    if j < |Schedule(p, init)| {
      ScheduleTypes(p, init, j);
    }
  }

  /** The number of records of the types `ks`. */
  function SumOver(b: Buckets, ks: seq<string>): nat
    decreases |ks|
  {
    if ks == [] then 0 else |b.Get(ks[0])| + SumOver(b, ks[1..])
  }

  lemma {:induction false} SumOverAppend(b: Buckets, xs: seq<string>, y: string)
    ensures SumOver(b, xs + [y]) == SumOver(b, xs) + |b.Get(y)|
    decreases |xs|
  {
    if xs != [] {
      SumOverAppend(b, xs[1..], y);
      assert (xs + [y])[1..] == xs[1..] + [y];
    }
  }

  lemma {:induction false} SumLengthsOver(b: Buckets, n: nat)
    requires n <= |b.order|
    ensures SumLengths(b, n) == SumOver(b, b.order[..n])
  {
    if n > 0 {
      SumLengthsOver(b, n - 1);
      SumOverAppend(b, b.order[..n - 1], b.order[n - 1]);
      assert b.order[..n] == b.order[..n - 1] + [b.order[n - 1]];
    }
  }

  lemma {:induction false} ScheduleLength(p: Buckets, ks: seq<string>)
    ensures |Schedule(p, ks)| == SumOver(p, ks)
    decreases |ks|
  {
    if ks != [] {
      var init := ks[..|ks| - 1];
      ScheduleLength(p, init);
      SumOverAppend(p, init, ks[|ks| - 1]);
      assert ks == init + [ks[|ks| - 1]];
    }
  }

  lemma {:induction false} SumOverEmpty(b: Buckets, ks: seq<string>)
    requires forall k :: k in ks ==> b.Get(k) == []
    ensures SumOver(b, ks) == 0
    decreases |ks|
  {
    if ks != [] {
      assert ks[0] in ks;
      assert forall k :: k in ks[1..] ==> k in ks;
      SumOverEmpty(b, ks[1..]);
    }
  }

  lemma DistinctTail(ks: seq<string>)
    requires Distinct(ks) && ks != []
    ensures Distinct(ks[1..]) && ks[0] !in ks[1..]
  {
    forall i, j | 0 <= i < j < |ks[1..]|
      ensures ks[1..][i] != ks[1..][j]
    {
      assert ks[i + 1] != ks[j + 1];
    }
    assert forall i :: 0 <= i < |ks[1..]| ==> ks[1..][i] == ks[i + 1];
  }

  lemma {:induction false} WithoutDistinct(ks: seq<string>, x: string)
    requires Distinct(ks)
    ensures Distinct(Without(ks, x))
    decreases |ks|
  {
    if ks != [] {
      DistinctTail(ks);
      WithoutDistinct(ks[1..], x);
      if ks[0] != x {
        var w := Without(ks[1..], x);
        forall i, j | 0 <= i < j < |[ks[0]] + w|
          ensures ([ks[0]] + w)[i] != ([ks[0]] + w)[j]
        {
          if i == 0 {
            assert ([ks[0]] + w)[j] == w[j - 1];
          } else {
            assert ([ks[0]] + w)[i] == w[i - 1];
            assert ([ks[0]] + w)[j] == w[j - 1];
          }
        }
      }
    }
  }

  lemma {:induction false} SumWithout(b: Buckets, ks: seq<string>, x: string)
    requires Distinct(ks)
    ensures SumOver(b, ks) == SumOver(b, Without(ks, x)) + (if x in ks then |b.Get(x)| else 0)
    decreases |ks|
  {
    if ks != [] {
      DistinctTail(ks);
      SumWithout(b, ks[1..], x);
      assert ks == [ks[0]] + ks[1..];
      if ks[0] != x {
        var w := Without(ks[1..], x);
        assert Without(ks, x) == [ks[0]] + w;
        assert ([ks[0]] + w)[1..] == w;
      }
    }
  }

  /** Two lists of distinct types that agree on every type with records count the same records. */
  lemma {:induction false} SumAgree(b: Buckets, xs: seq<string>, ys: seq<string>)
    requires Distinct(xs) && Distinct(ys)
    requires forall k :: b.Get(k) != [] ==> (k in xs <==> k in ys)
    ensures SumOver(b, xs) == SumOver(b, ys)
    decreases |xs|
  {
    if xs == [] {
      SumOverEmpty(b, ys);
    } else {
      var x := xs[0];
      var rest := xs[1..];
      var ys' := Without(ys, x);
      DistinctTail(xs);
      WithoutDistinct(ys, x);
      SumWithout(b, ys, x);
      assert xs == [x] + rest;
      forall k | b.Get(k) != []
        ensures k in rest <==> k in ys'
      {
      }
      SumAgree(b, rest, ys');
    }
  }

  /** The schedule of distinct types that include every prepared type holds as many
      records as the prepared dict: the total the progress is measured against is reached
      exactly when every record was attempted. */
  lemma ScheduleCoversAll(p: Buckets, ks: seq<string>)
    requires Distinct(ks) && p.Valid() && forall t :: t in p.lists ==> t in ks
    ensures |Schedule(p, ks)| == Total(p)
  {
    ScheduleLength(p, ks);
    SumLengthsOver(p, |p.order|);
    assert p.order[..|p.order|] == p.order;
    SumAgree(p, p.order, ks);
  }

  /** Every NPC is converted against the item registry as the whole run leaves it: no item
      is registered after the first NPC. */
  lemma NpcsSeeAllItems(s: ImportSettings, configs: seq<SourceConfig>, conv: ConversionCheck, api: Api,
                        item0: map<string, string>, p: Buckets, log: seq<Attempt>, j: nat)
    requires LogOk(s, configs, conv, api, item0, Schedule(p, ImportOrder()), log)
    requires j < |log| && Schedule(p, ImportOrder())[j].0 == "npcs"
    ensures EntryOk(s, configs, conv, api, Registered(item0, Registrations(log, ItemNames)), j,
                    Schedule(p, ImportOrder())[j], log[j])
  {
    var sched := Schedule(p, ImportOrder());
    LogEntry(s, configs, conv, api, item0, sched, log, j);
    OrderFacts();
    forall k | j <= k < |log|
      ensures RegOf(log[k], ItemNames) == []
    {
      LogOutcome(s, configs, conv, api, item0, sched, log, k);
      if sched[k].0 == "items" {
        LastTypeLast(p, ImportOrder(), k, j);
      }
      NoItemRegistration(api, k, s.updateExisting, sched[k].0, sched[k].1, log[k]);
    }
    NoRegistrationsAfter(log, ItemNames, j, |log|);
    assert log[..|log|] == log;
  }

  /** Attempts that register nothing in `kind` leave its registrations as they were. */
  lemma {:induction false} NoRegistrationsAfter(log: seq<Attempt>, kind: Registry, j: nat, n: nat)
    requires j <= n <= |log|
    requires forall k :: j <= k < n ==> RegOf(log[k], kind) == []
    ensures Registrations(log[..n], kind) == Registrations(log[..j], kind)
    decreases n
  {
    if n > j {
      NoRegistrationsAfter(log, kind, j, n - 1);
      assert log[..n] == log[..n - 1] + [log[n - 1]];
      RegistrationsStep(log[..n - 1], log[n - 1], kind);
    }
  }

  /** `(current / total) * 100.0`, or `0.0` before there is a total. */
  function Percentage(current: nat, total: nat): real {
    if total > 0 then (current as real / total as real) * 100.0 else 0.0
  }

  /** The percentage lies between 0 and 100 and is 100 exactly when every record is done. */
  lemma PercentageBounds(current: nat, total: nat)
    requires current <= total
    ensures 0.0 <= Percentage(current, total) <= 100.0
    ensures Percentage(current, total) == 100.0 <==> total > 0 && current == total
  {
    if total > 0 {
      var q := current as real / total as real;
      assert q * total as real == current as real;
      assert q <= 1.0;
    }
  }

  /** The six registries of a mapper, as they are now. */
  function Snapshot(d: DataMapper): (r: Registry -> map<string, string>)
    reads d
    ensures forall kind :: r(kind) == d.MapOf(kind)
  {
    var items, talents, species, careers, specs, powers :=
      d.itemMap, d.talentMap, d.speciesMap, d.careerMap, d.specMap, d.forcePowerMap;
    (kind: Registry) =>
      match kind
      case ItemNames => items
      case TalentNames => talents
      case SpeciesNames => species
      case CareerNames => careers
      case SpecNames => specs
      case ForcePowerNames => powers
  }

  /** While the loops run: a stop was never seen before the attempts made, the import runs
      only if it ran when the loops began, and it stopped only on a stop request. */
  ghost predicate Running(was: bool, importing: bool, stopped: nat -> bool, log: seq<Attempt>) {
    (was ==> forall c :: 0 <= c < |log| ==> !stopped(c)) &&
    (importing ==> was) && (!was ==> log == []) &&
    (was && !importing ==> stopped(|log|))
  }

  /** A stop request seen before the next attempt ends the run with the log as it is. */
  lemma RunningStop(was: bool, importing: bool, stopped: nat -> bool, log: seq<Attempt>)
    requires Running(was, importing, stopped, log) && stopped(|log|)
    ensures Running(was, false, stopped, log)
  {}

  /** A run starts with no attempts. */
  lemma RunningStart(was: bool, stopped: nat -> bool)
    ensures Running(was, was, stopped, [])
  {}

  /** A run that ended at a stop or after the whole schedule ran as `Ran` describes. */
  lemma RanFrom(was: bool, importing: bool, stopped: nat -> bool, sched: seq<(string, Dict)>, log: seq<Attempt>)
    requires Running(was, importing, stopped, log) && |log| <= |sched| && (importing ==> |log| == |sched|)
    ensures Ran(was, stopped, sched, log)
  {}

  /** An attempt made as the source makes it passes every check that `Implied` covers. */
  lemma ImpliedUse(ok: EntryCheck, s: ImportSettings, configs: seq<SourceConfig>, conv: ConversionCheck, api: Api,
                   itemMap: map<string, string>, j: nat, item: (string, Dict), e: Attempt)
    requires Implied(ok, s, configs, conv, api) && EntryOk(s, configs, conv, api, itemMap, j, item, e)
    ensures ok(j, item, itemMap, e)
  {}

  /** The item registry of a data mapper. */
  lemma ItemsOf(d: DataMapper)
    ensures d.MapOf(ItemNames) == d.itemMap
  {}

  /** One more attempt, made while the import ran and no stop was requested, keeps the
      loops running. */
  lemma RunningStep(was: bool, stopped: nat -> bool, log0: seq<Attempt>, log: seq<Attempt>)
    requires Running(was, true, stopped, log0) && !stopped(|log0|) && |log| == |log0| + 1
    ensures Running(was, true, stopped, log)
  {
  }

  /** Reporting the step after a run of attempts. */
  lemma ReportedStep(prev: Progress, show: Value -> string, sched: seq<(string, Dict)>, log: seq<Attempt>,
                     e: Attempt, total: nat)
    requires |log| < |sched|
    ensures Reported(prev, show, sched, log + [e], total) ==
            Progress(|log| + 1, total, Message(show, sched[|log|], e.outcome))
  {
  }

  /** Once every attempt counts against a total that covers the schedule, the progress never
      passes its total. */
  lemma ReportedWithin(prev: Progress, show: Value -> string, sched: seq<(string, Dict)>, log: seq<Attempt>)
    requires |log| <= |sched| && prev.current <= prev.total
    ensures var r := Reported(prev, show, sched, log, |sched|);
      r.current <= r.total && (log != [] ==> r.current == |log| && r.total == |sched|)
  {
  }

  /** The registry after one more attempt is the registry of the longer run. */
  lemma RegisteredStep(m: map<string, string>, log: seq<Attempt>, e: Attempt, kind: Registry)
    ensures Registered(Registered(m, Registrations(log, kind)), RegOf(e, kind)) ==
            Registered(m, Registrations(log + [e], kind))
  {
    RegistrationsStep(log, e, kind);
    RegisteredAppend(m, Registrations(log, kind), RegOf(e, kind));
  }

  /** The records of the first `ti + 1` types are those of the first `ti` followed by those
      of the next. */
  lemma ScheduleStep(p: Buckets, ks: seq<string>, ti: nat)
    requires ti < |ks|
    ensures Schedule(p, ks[..ti + 1]) == Schedule(p, ks[..ti]) + Pairs(ks[ti], p.Get(ks[ti]))
  {
    assert ks[..ti + 1][..ti] == ks[..ti];
  }

  /** No types, no records. */
  lemma ScheduleNone(p: Buckets, ks: seq<string>)
    ensures Schedule(p, ks[..0]) == []
  {
    assert ks[..0] == [];
  }

  /** A type with no records adds nothing to the schedule. */
  lemma ScheduleSkip(p: Buckets, ks: seq<string>, ti: nat)
    requires ti < |ks| && (ks[ti] !in p.lists || p.lists[ks[ti]] == [])
    ensures Schedule(p, ks[..ti + 1]) == Schedule(p, ks[..ti])
  {
    ScheduleStep(p, ks, ti);
  }

  /** The whole run's schedule. */
  function Scheduled(p: Buckets): seq<(string, Dict)> {
    Schedule(p, ImportOrder())
  }

  /** A prepared dict of import types is scheduled record by record: every record once. */
  lemma ScheduledIs(p: Buckets)
    ensures Scheduled(p) == Schedule(p, ImportOrder())
  {}

  lemma ScheduledCovers(p: Buckets)
    requires p.Valid() && forall t :: t in p.lists ==> t in ImportOrder()
    ensures |Scheduled(p)| == Total(p)
  {
    OrderFacts();
    ScheduleCoversAll(p, ImportOrder());
  }

  // ---------------------------------------------------------------------------------------
  // The loops of `parse_files` and `_import_process`
  // ---------------------------------------------------------------------------------------

  /** The merge loop over the XML scan's dict. */
  method MergeXml(all: Buckets, xml: Buckets) returns (r: Buckets)
    ensures r == MergedXml(all, xml, |xml.order|)
  {
    r := all;
    for i := 0 to |xml.order|
      invariant r == MergedXml(all, xml, i)
    {
      var t := xml.order[i];
      if t in r.lists {
        r := r.Put(t, r.lists[t] + xml.Get(t));
      }
    }
  }

  /** The filter by selected record types. */
  method SelectTypes(all: Buckets, types: seq<string>) returns (r: Buckets)
    ensures r == Selected(all, types)
  {
    if types == [] {
      return all;
    }
    r := Buckets([], map[]);
    for i := 0 to |types|
      invariant r == SelectedPrefix(all, types, i)
    {
      var t := types[i];
      if t in all.lists {
        r := r.Put(t, all.lists[t]);
      }
    }
  }

  /** The loop that applies the maximum import limit. */
  method LimitRecords(b: Buckets, limit: int) returns (r: Buckets)
    ensures r == Limited(b, limit)
  {
    r := Buckets([], map[]);
    for i := 0 to |b.order|
      invariant r == LimitedPrefix(b, limit, i)
    {
      var t := b.order[i];
      var records := b.Get(t);
      if limit > 0 && |records| > limit {
        r := r.Put(t, records[..limit]);
      } else {
        r := r.Put(t, records);
      }
    }
  }

  /** `sum(len(records) for records in limited_records.values())` */
  method TotalRecords(b: Buckets) returns (n: nat)
    ensures n == Total(b)
  {
    n := 0;
    for i := 0 to |b.order|
      invariant n == SumLengths(b, i)
    {
      n := n + |b.Get(b.order[i])|;
    }
  }

  // ---------------------------------------------------------------------------------------
  // The manager
  // ---------------------------------------------------------------------------------------

  /** An `ImportManager`: the source books and field mapping the XML parser was configured
      with, its JSON parser and data mapper, its settings, whether an import is running,
      and the progress of the last one. */
  class ImportManager {
    const sources: seq<SourceConfig>
    const fieldMapping: XmlParsing.FieldMapping
    const jsonParser: JsonParsing.JsonParser
    const mapper: DataMapper
    var settings: ImportSettings
    var isImporting: bool
    var progress: Progress

    /** The parsers are configured as the scans need. */
    ghost predicate Configured() {
      XmlParsing.ValidMapping(fieldMapping) && JsonParsing.ExtractsShaped(jsonParser.extract)
    }

    /** A new manager: default settings, no import running, no progress, an empty JSON
        cache and empty registries. */
    constructor (sources: seq<SourceConfig>, fieldMapping: XmlParsing.FieldMapping, title: string -> string)
      requires XmlParsing.ValidMapping(fieldMapping)
      ensures Configured()
      ensures this.sources == sources && this.fieldMapping == fieldMapping
      ensures fresh(jsonParser) && fresh(mapper)
      ensures jsonParser.sources == sources && jsonParser.defsCache == map[]
      ensures forall kind :: mapper.MapOf(kind) == map[]
      ensures settings == DefaultSettings && !isImporting && progress == Progress(0, 0, "")
    {
      this.sources := sources;
      this.fieldMapping := fieldMapping;
      jsonParser := new JsonParsing.JsonParser(sources, title);
      mapper := new DataMapper();
      settings := DefaultSettings;
      isImporting := false;
      progress := Progress(0, 0, "");
    }

    /** `_update_progress` */
    method UpdateProgress(message: string, current: nat, total: nat)
      modifies this
      ensures progress == Progress(current, total, message)
      ensures settings == old(settings) && isImporting == old(isImporting)
    {
      progress := Progress(current, total, message);
    }

    /** `set_campaign_id` */
    method SetCampaignId(campaignId: string)
      modifies this
      ensures settings == old(settings).(campaignId := campaignId)
      ensures isImporting == old(isImporting) && progress == old(progress)
    {
      settings := settings.(campaignId := campaignId);
    }

    /** `set_selected_sources` */
    method SetSelectedSources(selected: seq<string>)
      modifies this
      ensures settings == old(settings).(selectedSources := selected)
      ensures isImporting == old(isImporting) && progress == old(progress)
    {
      settings := settings.(selectedSources := selected);
    }

    /** `set_selected_record_types` */
    method SetSelectedRecordTypes(types: seq<string>)
      modifies this
      ensures settings == old(settings).(selectedRecordTypes := types)
      ensures isImporting == old(isImporting) && progress == old(progress)
    {
      settings := settings.(selectedRecordTypes := types);
    }

    /** `set_max_import_limit` */
    method SetMaxImportLimit(limit: int)
      modifies this
      ensures settings == old(settings).(maxImportLimit := limit)
      ensures isImporting == old(isImporting) && progress == old(progress)
    {
      settings := settings.(maxImportLimit := limit);
    }

    /** `set_update_existing` */
    method SetUpdateExisting(update: bool)
      modifies this
      ensures settings == old(settings).(updateExisting := update)
      ensures isImporting == old(isImporting) && progress == old(progress)
    {
      settings := settings.(updateExisting := update);
    }

    /** `set_oggdude_directory` */
    method SetOggdudeDirectory(dir: string)
      modifies this
      ensures settings == old(settings).(oggdudeDirectory := dir)
      ensures isImporting == old(isImporting) && progress == old(progress)
    {
      settings := settings.(oggdudeDirectory := dir);
    }

    /** `set_adversaries_directory` */
    method SetAdversariesDirectory(dir: string)
      modifies this
      ensures settings == old(settings).(adversariesDirectory := dir)
      ensures isImporting == old(isImporting) && progress == old(progress)
    {
      settings := settings.(adversariesDirectory := dir);
    }

    /** What the current settings prepare from the OggDude directory's files `xmlDir` and
        the Adversaries directory's files `jsonDir` (each `None` when it does not exist). */
    ghost function Expected(xmlDir: Option<seq<Option<XmlElements.Element>>>, jsonDir: Option<seq<JsonParsing.JsonFile>>,
                            listing: string -> seq<JsonParsing.DefFile>, show: Value -> string): Result<Buckets>
      requires Configured()
      reads this`settings
    {
      var json := JsonParsing.Scanned(jsonParser.sources, settings.selectedSources, jsonDir, listing, jsonParser.extract, show);
      Prepared(settings, XmlScan.Scanned(fieldMapping, sources, settings.selectedSources, xmlDir),
               if json.Ok? then json.value else [])
    }

    /** Step 1 of `_import_process` (and of `parse_files`): scan, merge, select and limit.
        A raising XML scan is what the preparation gives; otherwise it gives a dict of the
        import types. While the definition files do not change, the JSON cache makes no
        difference to the answer. */
    method CollectRecords(xmlDir: Option<seq<Option<XmlElements.Element>>>, jsonDir: Option<seq<JsonParsing.JsonFile>>,
                          listing: string -> seq<JsonParsing.DefFile>, show: Value -> string)
      returns (r: Result<Buckets>)
      requires Configured()
      modifies jsonParser
      ensures r.Ok? ==> r.value.Valid() && forall t :: t in r.value.lists ==> t in ImportOrder()
      ensures old(jsonParser.Coherent(listing)) ==> jsonParser.Coherent(listing)
      ensures old(jsonParser.Coherent(listing)) ==> r == Expected(xmlDir, jsonDir, listing, show)
    {
      hide XmlScan.Scanned, JsonParsing.Scanned;
      var xml: Result<Buckets> := Ok(Buckets([], map[]));
      var all := EmptyBuckets(ImportTypes());
      if settings.oggdudeDirectory != "" {
        xml := XmlScan.ScanDirectory(fieldMapping, sources, settings.selectedSources, xmlDir);
        XmlScanKeys(fieldMapping, sources, settings.selectedSources, xmlDir);
        if xml.Err? {
          return Err(xml.error);
        }
        all := MergeXml(all, xml.value);
      }
      var json: seq<Dict> := [];
      if settings.adversariesDirectory != "" {
        json := jsonParser.ScanDirectory(jsonDir, settings.selectedSources, listing, show);
        all := all.Put("npcs", all.Get("npcs") + json);
      }
      assert all == Collected(settings, xml.value, json);
      var filtered := SelectTypes(all, settings.selectedRecordTypes);
      var limited := LimitRecords(filtered, settings.maxImportLimit);
      r := Ok(limited);
      assert r == Prepared(settings, xml, json);
      PreparedTypes(settings, xml, json);
    }

    /** `parse_files`: the number of records of each prepared type, in the prepared order. */
    method ParseFiles(xmlDir: Option<seq<Option<XmlElements.Element>>>, jsonDir: Option<seq<JsonParsing.JsonFile>>,
                      listing: string -> seq<JsonParsing.DefFile>, show: Value -> string)
      returns (r: Result<Dict>)
      requires Configured()
      modifies jsonParser
      ensures r.Ok? ==> forall k :: k in r.value.vals ==> k in ImportOrder()
      ensures old(jsonParser.Coherent(listing)) ==> jsonParser.Coherent(listing)
      ensures old(jsonParser.Coherent(listing)) ==>
        (match Expected(xmlDir, jsonDir, listing, show)
         case Err(e) => r == Err(e)
         case Ok(p) => r.Ok? && r.value.keys == p.order && r.value.vals == CountsOf(p, p.order))
    {
      var prepared := CollectRecords(xmlDir, jsonDir, listing, show);
      if prepared.Err? {
        return Err(prepared.error);
      }
      var counts := mapper.GetRecordCounts(prepared.value);
      r := Ok(counts);
    }

    /** `start_import`: it starts only when no import is running and a campaign is set, and
        then resets the progress. */
    method StartImport() returns (started: bool)
      modifies this
      ensures started <==> !old(isImporting) && settings.campaignId != ""
      ensures started ==> isImporting && progress == Progress(0, 0, "Starting import...")
      ensures !started ==> isImporting == old(isImporting) && progress == old(progress)
      ensures settings == old(settings)
    {
      if isImporting {
        return false;
      }
      if settings.campaignId == "" {
        return false;
      }
      progress := Progress(0, 0, "Starting import...");
      isImporting := true;
      started := true;
    }

    /** `stop_import` */
    method StopImport()
      modifies this
      ensures !isImporting && settings == old(settings) && progress == old(progress)
    {
      isImporting := false;
    }

    /** `is_import_running` */
    method IsImportRunning() returns (r: bool)
      ensures r == isImporting
    {
      r := isImporting;
    }

    /** `get_import_progress` */
    method GetImportProgress() returns (current: nat, total: nat)
      ensures current == progress.current && total == progress.total
    {
      current, total := progress.current, progress.total;
    }

    /** `get_current_operation` */
    method GetCurrentOperation() returns (r: string)
      ensures r == progress.operation
    {
      r := progress.operation;
    }

    /** `get_progress_percentage`: within 0 and 100 whenever the progress is within its total. */
    method GetProgressPercentage() returns (r: real)
      ensures r == Percentage(progress.current, progress.total)
      ensures progress.current <= progress.total ==> 0.0 <= r <= 100.0
    {
      if progress.total > 0 {
        r := (progress.current as real / progress.total as real) * 100.0;
      } else {
        r := 0.0;
      }
      if progress.current <= progress.total {
        PercentageBounds(progress.current, progress.total);
      }
    }

    /** `_get_category_for_record` */
    method GetCategoryForRecord(record: Dict) returns (r: Result<string>)
      ensures r == CategoryOf(sources, settings.selectedSources, record)
    {
      var source := SourceOf(record);
      var selected := settings.selectedSources;
      for i := 0 to |sources|
        invariant CategoryFrom(sources, selected, source, i) == CategoryOf(sources, selected, record)
      {
        var config := sources[i];
        if IsSelected(config, selected) {
          for k := 0 to |config.oggdudeSources|
            invariant k > 0 ==> source.VStr?
            invariant source.VStr? ==> forall j :: 0 <= j < k ==> !Contains(Lower(source.s), Lower(config.oggdudeSources[j]))
          {
            if !source.VStr? {
              return Err("AttributeError: object has no attribute 'lower'");
            }
            if Contains(Lower(source.s), Lower(config.oggdudeSources[k])) {
              assert NamesSource(config, source.s);
              return Ok(config.name);
            }
          }
        }
      }
      r := Ok(DefaultCategory());
    }

    /** The conversion of a record: its category (which may raise), then
        `convert_oggdude_to_realm_vtt` against the current item registry. */
    method ConvertForImport(record: Dict, rw: Rewriter) returns (realm: Result<Option<Dict>>)
      ensures match CategoryOf(sources, settings.selectedSources, record)
        case Err(x) => realm == Err(x)
        case Ok(category) => Converts(mapper.itemMap, record, settings.campaignId, category, rw, realm)
    {
      var category := GetCategoryForRecord(record);
      if category.Err? {
        return Err(category.error);
      }
      realm := mapper.ConvertRecord(record, settings.campaignId, category.value, rw);
    }

    /** The upload of a converted record: the server's answer. */
    method UploadRecord(api: Api, j: nat, t: string, name: Value, realm: Option<Dict>) returns (answer: Result<Option<string>>)
      ensures answer == Upload(api, j, settings.updateExisting, t, name, realm)
    {
      if settings.updateExisting && Truthy(name) {
        var existing := api.find(j, t, name);
        if existing.Err? {
          return Err(existing.error);
        }
        if existing.value.Some? {
          answer := api.patch(j, t, existing.value.value, realm);
        } else {
          answer := api.create(j, EndpointFor(t), realm);
        }
      } else {
        answer := api.create(j, EndpointFor(t), realm);
      }
    }

    /** Everything after the conversion: upload, then registration of the id. */
    method FinishRecord(j: nat, t: string, record: Dict, realm: Result<Option<Dict>>, api: Api) returns (outcome: Outcome)
      modifies mapper
      ensures outcome == AttemptOutcome(api, j, settings.updateExisting, t, record, realm)
      ensures forall kind :: mapper.MapOf(kind) == Registered(old(mapper.MapOf(kind)), RegOf(Attempt(realm, outcome), kind))
    {
      if realm.Err? {
        return Failed(realm.error);
      }
      var name := record.Get("name", VStr(""));
      var answer := UploadRecord(api, j, t, name, realm.value);
      if answer.Err? {
        return Failed(answer.error);
      }
      var reg := Registration(t, name, answer.value);
      if reg.Err? {
        return Failed(reg.error);
      }
      if reg.value.Some? {
        var (kind, n, id) := reg.value.value;
        mapper.AddMapping(kind, n, id);
      }
      outcome := Imported(reg.value);
    }

    /** The body of the record loop of `_import_process` for the `j`-th attempt: category,
        conversion, upload and registration, any raise caught. */
    method ImportRecord(j: nat, t: string, record: Dict, env: Env, ghost conv: ConversionCheck) returns (e: Attempt)
      requires ChecksConversions(conv, env.rw)
      modifies mapper
      ensures EntryOk(settings, sources, conv, env.api, old(mapper.itemMap), j, (t, record), e)
      ensures forall kind :: mapper.MapOf(kind) == Registered(old(mapper.MapOf(kind)), RegOf(e, kind))
    {
      var realm := ConvertForImport(record, env.rw);
      var outcome := FinishRecord(j, t, record, realm, env.api);
      e := Attempt(realm, outcome);
    }

    /** After the attempts `log` of a run that began with the settings `s0`, the
        registries `m0` and the progress `prog0`: the settings are as they were, the
        attempts are the schedule's first ones, the registries hold their registrations,
        and the progress reports the last of them. */
    ghost predicate Uploaded(order: seq<string>, p: Buckets, env: Env, ok: EntryCheck, s0: ImportSettings,
                             m0: Registry -> map<string, string>, prog0: Progress, total: nat, log: seq<Attempt>)
      reads this`settings, this`progress, mapper
    {
      settings == s0 &&
      Checked(ok, m0(ItemNames), Schedule(p, order), log) &&
      (forall kind :: mapper.MapOf(kind) == Registered(m0(kind), Registrations(log, kind))) &&
      progress == Reported(prog0, env.show, Schedule(p, order), log, total)
    }

    /** What `Uploaded` says, part by part. */
    lemma UploadedIff(order: seq<string>, p: Buckets, env: Env, ok: EntryCheck, s0: ImportSettings,
                      m0: Registry -> map<string, string>, prog0: Progress, total: nat, log: seq<Attempt>)
      ensures Uploaded(order, p, env, ok, s0, m0, prog0, total, log) <==>
        settings == s0 && Checked(ok, m0(ItemNames), Schedule(p, order), log) &&
        (forall kind :: mapper.MapOf(kind) == Registered(m0(kind), Registrations(log, kind))) &&
        progress == Reported(prog0, env.show, Schedule(p, order), log, total)
      ensures Uploaded(order, p, env, ok, s0, m0, prog0, total, log) ==>
        mapper.itemMap == Registered(m0(ItemNames), Registrations(log, ItemNames)) && |log| <= |Schedule(p, order)|
    {}

    /** Before any attempt the run is as it began. */
    lemma UploadedStart(order: seq<string>, p: Buckets, env: Env, ok: EntryCheck, total: nat)
      ensures Uploaded(order, p, env, ok, settings, Snapshot(mapper), progress, total, [])
    {}

    /** One pass of the record loop past its check: the attempt on the `ri`-th record of the
        `ti`-th type, which is the next one scheduled, and the progress it reports. */
    method AttemptNext(order: seq<string>, p: Buckets, ti: nat, ri: nat, env: Env, ghost conv: ConversionCheck, ghost ok: EntryCheck, ghost s0: ImportSettings,
                       ghost m0: Registry -> map<string, string>, ghost prog0: Progress, total: nat, log0: seq<Attempt>)
      returns (log: seq<Attempt>)
      requires ChecksConversions(conv, env.rw) && Implied(ok, s0, sources, conv, env.api)
      requires ti < |order| && ri < |p.Get(order[ti])| && |log0| == |Schedule(p, order[..ti])| + ri
      requires Uploaded(order, p, env, ok, s0, m0, prog0, total, log0)
      modifies this, mapper
      ensures Uploaded(order, p, env, ok, s0, m0, prog0, total, log)
      ensures |log| == |log0| + 1 && log[..|log0|] == log0 && isImporting == old(isImporting)
    {
      hide *;
      ghost var sched := Schedule(p, order);
      var t := order[ti];
      var record := p.Get(t)[ri];
      ScheduleAt(p, order, ti, ri);
      UploadedIff(order, p, env, ok, s0, m0, prog0, total, log0);
      var e := ImportRecord(|log0|, t, record, env, conv);
      ImpliedUse(ok, s0, sources, conv, env.api, old(mapper.itemMap), |log0|, (t, record), e);
      CheckedStep(ok, m0(ItemNames), sched, log0, e);
      forall kind
        ensures mapper.MapOf(kind) == Registered(m0(kind), Registrations(log0 + [e], kind))
      {
        RegisteredStep(m0(kind), log0, e, kind);
      }
      ReportedStep(prog0, env.show, sched, log0, e, total);
      log := log0 + [e];
      UpdateProgress(Message(env.show, (t, record), e.outcome), |log|, total);
      UploadedIff(order, p, env, ok, s0, m0, prog0, total, log);
      assert log[..|log0|] == log0;
    }

    /** The record loop over the `ti`-th type: before each record it checks that the import
        is still running; it ends after the type's last record or at a stop. */
    method UploadType(order: seq<string>, p: Buckets, ti: nat, stopped: nat -> bool, env: Env, ghost conv: ConversionCheck, ghost ok: EntryCheck,
                      ghost s0: ImportSettings, ghost m0: Registry -> map<string, string>, ghost prog0: Progress,
                      total: nat, ghost was: bool, log0: seq<Attempt>)
      returns (log: seq<Attempt>)
      requires ChecksConversions(conv, env.rw) && Implied(ok, s0, sources, conv, env.api)
      requires ti < |order| && |log0| == |Schedule(p, order[..ti])|
      requires isImporting && Running(was, isImporting, stopped, log0)
      requires Uploaded(order, p, env, ok, s0, m0, prog0, total, log0)
      modifies this, mapper
      ensures Uploaded(order, p, env, ok, s0, m0, prog0, total, log) && Running(was, isImporting, stopped, log)
      ensures |log| <= |Schedule(p, order[..ti + 1])|
      ensures isImporting ==> |log| == |Schedule(p, order[..ti + 1])|
    {
      hide *;
      ScheduleStep(p, order, ti);
      var records := p.Get(order[ti]);
      log := log0;
      var ri := 0;
      while ri < |records|
        invariant ri <= |records|
        invariant |log| == |Schedule(p, order[..ti])| + ri
        invariant Running(was, isImporting, stopped, log)
        invariant Uploaded(order, p, env, ok, s0, m0, prog0, total, log)
      {
        if stopped(|log|) {
          RunningStop(was, isImporting, stopped, log);
          isImporting := false;
        }
        if !isImporting {
          break;
        }
        ghost var log0 := log;
        log := AttemptNext(order, p, ti, ri, env, conv, ok, s0, m0, prog0, total, log);
        RunningStep(was, stopped, log0, log);
        ri := ri + 1;
      }
    }

    /** The two loops of `_import_process` over the prepared dict `p`: type by type in the
        import order, record by record, checking before each type and each record that the
        import is still running (a stop requested after `c` attempts, `stopped(c)`, turns it
        off). The attempts made are the schedule's first ones, each against the item
        registry the attempts before it left; the registries end with their registrations,
        and the progress counts the attempts out of the total. */
    method UploadRecords(order: seq<string>, p: Buckets, stopped: nat -> bool, env: Env, ghost conv: ConversionCheck, ghost ok: EntryCheck) returns (log: seq<Attempt>)
      requires Distinct(order) && p.Valid() && forall t :: t in p.lists ==> t in order
      requires ChecksConversions(conv, env.rw) && Implied(ok, settings, sources, conv, env.api)
      modifies this, mapper
      ensures Ran(old(isImporting), stopped, Schedule(p, order), log)
      ensures Uploaded(order, p, env, ok, old(settings), old(Snapshot(mapper)), old(progress), Total(p), log)
      ensures old(progress.current <= progress.total) ==> progress.current <= progress.total
    {
      hide *;
      ghost var m0 := Snapshot(mapper);
      ghost var was := isImporting;
      var total := TotalRecords(p);
      log := [];
      var ti := 0;
      UploadedStart(order, p, env, ok, total);
      RunningStart(was, stopped);
      ScheduleNone(p, order);
      while ti < |order|
        invariant ti <= |order|
        invariant |log| <= |Schedule(p, order[..ti])|
        invariant isImporting ==> |log| == |Schedule(p, order[..ti])|
        invariant Running(was, isImporting, stopped, log)
        invariant Uploaded(order, p, env, ok, old(settings), m0, old(progress), total, log)
      {
        if stopped(|log|) {
          RunningStop(was, isImporting, stopped, log);
          isImporting := false;
        }
        if !isImporting {
          break;
        }
        var t := order[ti];
        if t !in p.lists || p.lists[t] == [] {
          ScheduleSkip(p, order, ti);
          ti := ti + 1;
          continue;
        }
        log := UploadType(order, p, ti, stopped, env, conv, ok, old(settings), m0, old(progress), total, was, log);
        ti := ti + 1;
      }
      assert order[..|order|] == order;
      ScheduleCoversAll(p, order);
      UploadedIff(order, p, env, ok, old(settings), m0, old(progress), total, log);
      RanFrom(was, isImporting, stopped, Schedule(p, order), log);
      if old(progress.current <= progress.total) {
        ReportedWithin(old(progress), env.show, Schedule(p, order), log);
      }
    }

    /** `_import_process`: collect the records, then upload them; a raising preparation is
        caught and uploads nothing. Either way the import is no longer running after it. */
    method ImportProcess(xmlDir: Option<seq<Option<XmlElements.Element>>>, jsonDir: Option<seq<JsonParsing.JsonFile>>,
                         listing: string -> seq<JsonParsing.DefFile>, stopped: nat -> bool, env: Env,
                         ghost conv: ConversionCheck)
      returns (prepared: Result<Buckets>, log: seq<Attempt>)
      requires Configured() && ChecksConversions(conv, env.rw)
      modifies this, mapper, jsonParser
      ensures !isImporting && settings == old(settings)
      ensures old(jsonParser.Coherent(listing)) ==> jsonParser.Coherent(listing)
      ensures prepared.Err? ==>
        log == [] && progress == old(progress) && forall kind :: mapper.MapOf(kind) == old(mapper.MapOf(kind))
      ensures prepared.Ok? ==>
        Ran(old(isImporting), stopped, Scheduled(prepared.value), log) &&
        LogOk(settings, sources, conv, env.api, old(mapper.itemMap), Scheduled(prepared.value), log) &&
        (forall kind :: mapper.MapOf(kind) == Registered(old(mapper.MapOf(kind)), Registrations(log, kind))) &&
        progress == Reported(old(progress), env.show, Scheduled(prepared.value), log, Total(prepared.value))
      ensures old(progress.current <= progress.total) ==> progress.current <= progress.total
      ensures old(jsonParser.Coherent(listing)) ==> prepared == Expected(xmlDir, jsonDir, listing, env.show)
    {
      hide *;
      ItemsOf(mapper);
      prepared := CollectRecords(xmlDir, jsonDir, listing, env.show);
      if prepared.Err? {
        isImporting := false;
        return prepared, [];
      }
      ghost var ok := Entries(settings, sources, conv, env.api);
      EntriesImplied(settings, sources, conv, env.api);
      OrderFacts();
      log := UploadRecords(ImportOrder(), prepared.value, stopped, env, conv, ok);
      ScheduledIs(prepared.value);
      UploadedIff(ImportOrder(), prepared.value, env, ok, old(settings), old(Snapshot(mapper)), old(progress), Total(prepared.value), log);
      CheckedLogOk(settings, sources, conv, env.api, old(mapper.itemMap), Scheduled(prepared.value), log);
      isImporting := false;
    }
  }
}
