/** The XML half of the parser: field renaming, the per-type extractors, the source filter and
    the bucketing of `scan_directory`. */
module XmlParsing {
  import opened Wrappers
  import opened Text
  import opened Values
  import opened Records
  import opened Sources
  import opened XmlElements
  import opened Filtering

  // ---------------------------------------------------------------------------------------
  // Field renaming (`_apply_field_mapping`)
  // ---------------------------------------------------------------------------------------

  /** One record type's entry of `field_mapping.json`: the OggDude field names in the order
      they are listed, and the Realm VTT name each is renamed to. */
  datatype Renaming = Renaming(sources: seq<string>, target: map<string, string>)
  {
    /** A dict's keys: listed once each, and exactly the keys that have a target. */
    ghost predicate Valid() {
      (forall i, j :: 0 <= i < j < |sources| ==> sources[i] != sources[j]) &&
      (forall k :: k in target <==> k in sources)
    }

    /** The target of the `i`-th listed source. */
    function TargetAt(i: nat): string
      requires Valid() && i < |sources|
    {
      assert sources[i] in sources;
      target[sources[i]]
    }
  }

  /** The whole `field_mapping.json`: a renaming per record type. */
  type FieldMapping = map<string, Renaming>

  ghost predicate ValidMapping(fm: FieldMapping) {
    forall t :: t in fm ==> fm[t].Valid()
  }

  /** The first loop over the first `n` entries: each target field set from its source field,
      `None` when the data lacks it. */
  function RenamedPrefix(m: Renaming, data: Fields, n: nat): Fields
    requires m.Valid() && n <= |m.sources|
  {
    if n == 0 then map[]
    else
      RenamedPrefix(m, data, n - 1)[m.TargetAt(n - 1) := At(data, m.sources[n - 1], VNone)]
  }

  /** The fields the renaming does not mention, which the second loop copies across. */
  function PassedThrough(m: Renaming, data: Fields): Fields {
    map k | k in data && k !in m.target :: data[k]
  }

  /** What `_apply_field_mapping` yields for a record type that has a renaming. */
  function MappedFields(m: Renaming, data: Fields): (r: Fields)
    requires m.Valid()
    ensures forall k :: k in data && k !in m.target ==> k in r && r[k] == data[k]
  {
    RenamedPrefix(m, data, |m.sources|) + PassedThrough(m, data)
  }

  /** The second loop over the first `n` keys of the data. */
  function PassedPrefix(m: Renaming, data: Dict, n: nat): Fields
    requires n <= |data.keys|
  {
    if n == 0 then map[]
    else
      var k := data.keys[n - 1];
      var prev := PassedPrefix(m, data, n - 1);
      if k in data.vals && k !in m.target then prev[k := data.vals[k]] else prev
  }

  lemma {:induction false} PassedPrefixSpec(m: Renaming, data: Dict, n: nat)
    requires n <= |data.keys|
    ensures forall k :: k in PassedPrefix(m, data, n) <==> k in data.keys[..n] && k in data.vals && k !in m.target
    ensures forall k :: k in PassedPrefix(m, data, n) ==> PassedPrefix(m, data, n)[k] == data.vals[k]
  {
    if n > 0 {
      PassedPrefixSpec(m, data, n - 1);
      assert data.keys[..n] == data.keys[..n - 1] + [data.keys[n - 1]];
    }
  }

  lemma PassedPrefixAll(m: Renaming, data: Dict)
    requires data.Valid()
    ensures PassedPrefix(m, data, |data.keys|) == PassedThrough(m, data.vals)
  {
    PassedPrefixSpec(m, data, |data.keys|);
    assert data.keys[..|data.keys|] == data.keys;
  }

  /** The dict the first loop builds from the first `n` entries. */
  function RenamedDict(m: Renaming, data: Dict, n: nat): (r: Dict)
    requires m.Valid() && n <= |m.sources|
    ensures r.Valid() && r.vals == RenamedPrefix(m, data.vals, n)
  {
    if n == 0 then EmptyDict
    else RenamedDict(m, data, n - 1).Put(m.TargetAt(n - 1), data.Get(m.sources[n - 1], VNone))
  }

  /** The dict the second loop leaves after the first `n` keys of the data, from `base`. */
  function PassedDict(m: Renaming, data: Dict, base: Dict, n: nat): (r: Dict)
    requires n <= |data.keys|
    ensures base.Valid() ==> r.Valid()
    ensures r.vals == base.vals + PassedPrefix(m, data, n)
  {
    if n == 0 then base
    else
      var k := data.keys[n - 1];
      var prev := PassedDict(m, data, base, n - 1);
      if k in data.vals && k !in m.target then prev.Put(k, data.vals[k]) else prev
  }

  /** What `_apply_field_mapping` returns, keys in order. */
  function FieldMapped(fm: FieldMapping, recordType: string, data: Dict): (r: Dict)
    requires ValidMapping(fm)
  {
    if recordType !in fm then data
    else
      var m := fm[recordType];
      PassedDict(m, data, RenamedDict(m, data, |m.sources|), |data.keys|)
  }

  /** With a renaming, the result holds the renamed fields and then the unmentioned ones; a well
      formed dict stays well formed. */
  lemma FieldMappedFields(fm: FieldMapping, recordType: string, data: Dict)
    requires ValidMapping(fm) && data.Valid()
    ensures FieldMapped(fm, recordType, data).Valid()
    ensures recordType in fm ==> FieldMapped(fm, recordType, data).vals == MappedFields(fm[recordType], data.vals)
  {
    if recordType in fm {
      PassedPrefixAll(fm[recordType], data);
    }
  }

  /** `_apply_field_mapping`: a type without a renaming keeps its data as it is; otherwise every
      target field is set first, in the renaming's order, and then the unmentioned fields are
      copied across (so a copied field wins over a target of the same name). */
  method ApplyFieldMapping(fm: FieldMapping, recordType: string, data: Dict) returns (r: Dict)
    requires ValidMapping(fm)
    ensures r == FieldMapped(fm, recordType, data)
  {
    if recordType !in fm {
      return data;
    }
    var m := fm[recordType];
    r := EmptyDict;
    for i := 0 to |m.sources|
      invariant r == RenamedDict(m, data, i)
    {
      r := r.Put(m.TargetAt(i), data.Get(m.sources[i], VNone));
    }
    ghost var renamed := r;
    for i := 0 to |data.keys|
      invariant r == PassedDict(m, data, renamed, i)
    {
      var k := data.keys[i];
      if k in data.vals && k !in m.target {
        r := r.Put(k, data.vals[k]);
      }
    }
  }

  /** The renamed part holds exactly the targets of the first `n` sources. */
  lemma {:induction false} RenamedPrefixKeys(m: Renaming, data: Fields, n: nat)
    requires m.Valid() && n <= |m.sources|
    ensures forall k :: k in RenamedPrefix(m, data, n) <==> exists j :: 0 <= j < n && m.TargetAt(j) == k
  {
    if n > 0 {
      RenamedPrefixKeys(m, data, n - 1);
      forall k | k in RenamedPrefix(m, data, n)
        ensures exists j :: 0 <= j < n && m.TargetAt(j) == k
      {
        if k == m.TargetAt(n - 1) {
          assert m.TargetAt(n - 1) == k;
        } else {
          assert k in RenamedPrefix(m, data, n - 1);
          var j :| 0 <= j < n - 1 && m.TargetAt(j) == k;
          assert m.TargetAt(j) == k;
        }
      }
    }
  }

  /** A target named by one source only holds that source's value, or `None`. */
  lemma {:induction false} RenamedPrefixValue(m: Renaming, data: Fields, n: nat, j: nat)
    requires m.Valid() && j < n <= |m.sources|
    requires forall i :: 0 <= i < n && i != j ==> m.TargetAt(i) != m.TargetAt(j)
    ensures m.TargetAt(j) in RenamedPrefix(m, data, n)
    ensures RenamedPrefix(m, data, n)[m.TargetAt(j)] == At(data, m.sources[j], VNone)
  {
    if j < n - 1 {
      RenamedPrefixValue(m, data, n - 1, j);
    }
  }

  /** Every target field is present, and there is nothing but the targets and the unmentioned
      fields. */
  lemma MappedFieldsKeys(m: Renaming, data: Fields)
    requires m.Valid()
    ensures forall s :: s in m.target ==> m.target[s] in MappedFields(m, data)
    ensures forall k :: k in MappedFields(m, data) <==>
      (k in data && k !in m.target) || exists s :: s in m.target && m.target[s] == k
  {
    RenamedPrefixKeys(m, data, |m.sources|);
    forall s | s in m.target ensures m.target[s] in RenamedPrefix(m, data, |m.sources|) {
      var j :| 0 <= j < |m.sources| && m.sources[j] == s;
      assert m.TargetAt(j) == m.target[s];
    }
    forall k | k in RenamedPrefix(m, data, |m.sources|) ensures exists s :: s in m.target && m.target[s] == k {
      var j :| 0 <= j < |m.sources| && m.TargetAt(j) == k;
      assert m.sources[j] in m.target;
    }
  }

  /** A target named by one source only, and not also an unmentioned field, holds that source's
      value, and `None` when the data lacks the source. */
  lemma MappedFieldsRenamed(m: Renaming, data: Fields, s: string)
    requires m.Valid() && s in m.target
    requires forall s' :: s' in m.target && m.target[s'] == m.target[s] ==> s' == s
    requires !(m.target[s] in data && m.target[s] !in m.target)
    ensures m.target[s] in MappedFields(m, data)
    ensures MappedFields(m, data)[m.target[s]] == At(data, s, VNone)
  {
    var j :| 0 <= j < |m.sources| && m.sources[j] == s;
    forall i | 0 <= i < |m.sources| && i != j
      ensures m.TargetAt(i) != m.TargetAt(j)
    {
      assert m.sources[i] in m.target;
    }
    RenamedPrefixValue(m, data, |m.sources|, j);
  }

  // ---------------------------------------------------------------------------------------
  // Skill and range codes (`_map_skill_key`, `_map_range`)
  // ---------------------------------------------------------------------------------------

  /** The parser's own skill table; unlike the data mapper's, it sends `LIGHT` and `HEAVY` to
      `Light` and `Heavy`. */
  function XmlSkillMapping(): map<string, string> {
    map[
      "RANGLT" := "Ranged (Light)", "RANGHV" := "Ranged (Heavy)", "GUNN" := "Gunnery",
      "MELEE" := "Melee", "BRAWL" := "Brawl", "LIGHT" := "Light", "HEAVY" := "Heavy",
      "GUNNERY" := "Gunnery"]
  }

  function XmlRangeMapping(): map<string, string> {
    map[
      "wrEngaged" := "Engaged", "wrShort" := "Short", "wrMedium" := "Medium",
      "wrLong" := "Long", "wrExtreme" := "Extreme"]
  }

  /** `skill_mapping.get(v, v)` on whatever the mapped field holds. */
  function MapXmlSkill(v: Value): Result<Value> {
    LookupOrSelf(XmlSkillMapping(), v)
  }

  /** `range_mapping.get(v, v)` on whatever the mapped field holds. */
  function MapXmlRange(v: Value): Result<Value> {
    LookupOrSelf(XmlRangeMapping(), v)
  }

  /** No name either table produces is one of its codes, so looking a value up twice is looking
      it up once, and an unhashable value is the only one that fails. */
  lemma XmlLookupsIdempotent(v: Value)
    ensures MapXmlSkill(v).Err? <==> !Hashable(v)
    ensures MapXmlSkill(v).Ok? ==> MapXmlSkill(MapXmlSkill(v).value) == MapXmlSkill(v)
    ensures MapXmlRange(v).Ok? ==> MapXmlRange(MapXmlRange(v).value) == MapXmlRange(v)
  {
    assert forall k :: k in XmlSkillMapping() ==> XmlSkillMapping()[k] !in XmlSkillMapping();
    assert forall k :: k in XmlRangeMapping() ==> XmlRangeMapping()[k] !in XmlRangeMapping();
  }

  // ---------------------------------------------------------------------------------------
  // List extractors (`_extract_qualities`, `_extract_career_skills`, ...)
  // ---------------------------------------------------------------------------------------

  /** The children with tag `childTag` of the container `container`, or none when the container
      is missing or has no children (`if container:` tests an element for children). */
  function ContainerItems(e: Element, container: string, childTag: string): seq<Element> {
    match e.Find(container)
    case Some(c) => if c.Truthy() then c.FindAll(childTag) else []
    case None => []
  }

  /** What the loop gathers from the first `n` items: each item the reader accepts, in order. */
  function ListEntries(items: seq<Element>, read: Element -> Option<Value>, n: nat): seq<Value>
    requires n <= |items|
  {
    if n == 0 then []
    else
      var prev := ListEntries(items, read, n - 1);
      match read(items[n - 1])
      case Some(v) => prev + [v]
      case None => prev
  }

  function ExtractedList(e: Element, container: string, childTag: string, read: Element -> Option<Value>): seq<Value> {
    var items := ContainerItems(e, container, childTag);
    ListEntries(items, read, |items|)
  }

  /** The shape every list extractor of the parser shares: find the container, and append what
      each of its `childTag` children reads as. */
  method ExtractList(e: Element, container: string, childTag: string, read: Element -> Option<Value>)
    returns (r: seq<Value>)
    ensures r == ExtractedList(e, container, childTag, read)
  {
    r := [];
    var c := e.Find(container);
    if c.Some? && c.value.Truthy() {
      var items := c.value.FindAll(childTag);
      for i := 0 to |items|
        invariant r == ListEntries(items, read, i)
      {
        var v := read(items[i]);
        if v.Some? {
          r := r + [v.value];
        }
      }
    }
  }

  /** The positions among the first `n` items that the reader accepts, in increasing order. */
  function ReadPositions(items: seq<Element>, read: Element -> Option<Value>, n: nat): (r: seq<nat>)
    requires n <= |items|
    ensures forall k :: 0 <= k < |r| ==> r[k] < n
    ensures forall k, l :: 0 <= k < l < |r| ==> r[k] < r[l]
  {
    if n == 0 then []
    else
      var prev := ReadPositions(items, read, n - 1);
      if read(items[n - 1]).Some? then prev + [n - 1] else prev
  }

  /** The list holds, in order, what the reader makes of exactly the items it accepts. */
  lemma {:induction false} ListEntriesPositions(items: seq<Element>, read: Element -> Option<Value>, n: nat)
    requires n <= |items|
    ensures var r := ListEntries(items, read, n);
      var ps := ReadPositions(items, read, n);
      |r| == |ps| && forall k :: 0 <= k < |r| ==> read(items[ps[k]]) == Some(r[k])
    ensures forall i :: 0 <= i < n ==> (i in ReadPositions(items, read, n) <==> read(items[i]).Some?)
  {
    if n > 0 {
      ListEntriesPositions(items, read, n - 1);
    }
  }

  /** A reader that accepts every item gives one entry per item, in order. */
  lemma {:induction false} ListEntriesTotal(items: seq<Element>, read: Element -> Option<Value>, n: nat)
    requires n <= |items| && forall i :: 0 <= i < n ==> read(items[i]).Some?
    ensures |ListEntries(items, read, n)| == n
    ensures forall i :: 0 <= i < n ==> ListEntries(items, read, n)[i] == read(items[i]).value
  {
    if n > 0 {
      ListEntriesTotal(items, read, n - 1);
    }
  }

  /** A `Key` element read as a non-empty text. */
  function KeyText(k: Element): (r: Option<Value>)
    ensures r.Some? <==> k.text != ""
    ensures r.Some? ==> r.value == VStr(k.text)
  {
    if k.text != "" then Some(VStr(k.text)) else None
  }

  /** A `Quality` element read by the text of its `Key` child. */
  function QualityKey(q: Element): (r: Option<Value>)
    ensures r.Some? <==> q.Find("Key").Some? && q.Find("Key").value.text != ""
  {
    match q.Find("Key")
    case Some(k) => KeyText(k)
    case None => None
  }

  /** A `SkillModifier` element as `{skill, rankStart, rankLimit}`. */
  function SkillModifierOf(m: Element): Option<Value> {
    Some(VDict(Dict(["skill", "rankStart", "rankLimit"],
      map["skill" := VStr(GetText(m, "Key", "")), "rankStart" := VInt(GetInt(m, "RankStart", 0)),
          "rankLimit" := VInt(GetInt(m, "RankLimit", 0))])))
  }

  /** A `TalentModifier` element as `{talent, rankAdd}`. */
  function TalentModifierOf(m: Element): Option<Value> {
    Some(VDict(Dict(["talent", "rankAdd"],
      map["talent" := VStr(GetText(m, "Key", "")), "rankAdd" := VInt(GetInt(m, "RankAdd", 0))])))
  }

  /** An `Upgrade` element as `{name, description, activation}`. */
  function UpgradeOf(u: Element): Option<Value> {
    Some(VDict(Dict(["name", "description", "activation"],
      map["name" := VStr(GetText(u, "Name", "")), "description" := VStr(GetText(u, "Description", "")),
          "activation" := VStr(GetText(u, "Activation", ""))])))
  }

  /** A key list (`CareerSkills`, `Specializations`, `Skills`, `Talents` of `Key` children)
      holds the non-empty key texts in document order, each once per element; an absent or
      empty container gives none. */
  lemma KeyListTexts(e: Element, container: string)
    ensures var items := ContainerItems(e, container, "Key");
      var r := ExtractedList(e, container, "Key", KeyText);
      var ps := ReadPositions(items, KeyText, |items|);
      |r| == |ps| <= |items| &&
      (forall k :: 0 <= k < |r| ==> r[k] == VStr(items[ps[k]].text) && items[ps[k]].text != "") &&
      (forall i :: 0 <= i < |items| ==> (i in ps <==> items[i].text != ""))
    ensures e.Find(container).None? || !e.Find(container).value.Truthy() ==> ExtractedList(e, container, "Key", KeyText) == []
  {
    var items := ContainerItems(e, container, "Key");
    ListEntriesPositions(items, KeyText, |items|);
    ReadPositionsBound(items, KeyText, |items|);
  }

  lemma {:induction false} ReadPositionsBound(items: seq<Element>, read: Element -> Option<Value>, n: nat)
    requires n <= |items|
    ensures |ReadPositions(items, read, n)| <= n
  {
    if n > 0 {
      ReadPositionsBound(items, read, n - 1);
    }
  }

  /** The modifier and upgrade lists hold one dict per child element, in order. */
  lemma ModifierListsTotal(e: Element)
    ensures |ExtractedList(e, "SkillModifiers", "SkillModifier", SkillModifierOf)| == |ContainerItems(e, "SkillModifiers", "SkillModifier")|
    ensures |ExtractedList(e, "TalentModifiers", "TalentModifier", TalentModifierOf)| == |ContainerItems(e, "TalentModifiers", "TalentModifier")|
    ensures |ExtractedList(e, "Upgrades", "Upgrade", UpgradeOf)| == |ContainerItems(e, "Upgrades", "Upgrade")|
  {
    var a := ContainerItems(e, "SkillModifiers", "SkillModifier");
    ListEntriesTotal(a, SkillModifierOf, |a|);
    var b := ContainerItems(e, "TalentModifiers", "TalentModifier");
    ListEntriesTotal(b, TalentModifierOf, |b|);
    var c := ContainerItems(e, "Upgrades", "Upgrade");
    ListEntriesTotal(c, UpgradeOf, |c|);
  }

  // ---------------------------------------------------------------------------------------
  // Starting characteristics and attributes
  // ---------------------------------------------------------------------------------------

  function Characteristics(): seq<string> {
    ["Brawn", "Agility", "Intellect", "Cunning", "Willpower", "Presence"]
  }

  function CharacteristicKeys(): seq<string> {
    ["brawn", "agility", "intellect", "cunning", "willpower", "presence"]
  }

  lemma CharacteristicsCount()
    ensures |Characteristics()| == 6 && |CharacteristicKeys()| == 6
  {}

  lemma CharacteristicKeysDistinct()
    ensures forall i, j :: 0 <= i < j < |CharacteristicKeys()| ==> CharacteristicKeys()[i] != CharacteristicKeys()[j]
  {
    assert CharacteristicKeys()[0][0] == 'b' && CharacteristicKeys()[1][0] == 'a' && CharacteristicKeys()[2][0] == 'i';
    assert CharacteristicKeys()[3][0] == 'c' && CharacteristicKeys()[4][0] == 'w' && CharacteristicKeys()[5][0] == 'p';
  }

  lemma CharacteristicKeysLower()
    ensures forall i :: 0 <= i < 6 ==> Lower(Characteristics()[i]) == CharacteristicKeys()[i]
  {
    assert Lower("Brawn") == "brawn";
    assert Lower("Agility") == "agility";
    assert Lower("Intellect") == "intellect";
    assert Lower("Cunning") == "cunning";
    assert Lower("Willpower") == "willpower";
    assert Lower("Presence") == "presence";
  }

  /** Whether `elem.find(container)` is present and truthy. */
  predicate HasItems(e: Element, container: string) {
    e.Find(container).Some? && e.Find(container).value.Truthy()
  }

  /** The `i`-th characteristic read as an integer, 1 by default. */
  function CharValue(c: Element, i: nat): Value
    requires i < |Characteristics()|
  {
    VInt(GetInt(c, Characteristics()[i], 1))
  }

  /** The loop over the first `n` characteristics. */
  function CharsPrefix(c: Element, n: nat): (r: Dict)
    requires n <= |Characteristics()|
    ensures r.Valid()
  {
    if n == 0 then EmptyDict
    else CharsPrefix(c, n - 1).Put(CharacteristicKeys()[n - 1], CharValue(c, n - 1))
  }

  function StartingChars(e: Element): Dict {
    if HasItems(e, "StartingChars") then CharsPrefix(e.Find("StartingChars").value, |Characteristics()|)
    else EmptyDict
  }

  /** `_extract_starting_chars` */
  method ExtractStartingChars(e: Element) returns (r: Dict)
    ensures r == StartingChars(e)
  {
    r := EmptyDict;
    var c := e.Find("StartingChars");
    if c.Some? && c.value.Truthy() {
      CharacteristicKeysLower();
      for i := 0 to |Characteristics()|
        invariant r == CharsPrefix(c.value, i)
      {
        var name := Characteristics()[i];
        assert Lower(name) == CharacteristicKeys()[i];
        r := r.Put(Lower(name), VInt(GetInt(c.value, name, 1)));
      }
    }
  }

  lemma {:induction false} CharsPrefixKeys(c: Element, n: nat)
    requires n <= |Characteristics()|
    ensures |CharsPrefix(c, n).keys| == n && forall i :: 0 <= i < n ==> CharsPrefix(c, n).keys[i] == CharacteristicKeys()[i]
  {
    CharacteristicsCount();
    CharacteristicKeysDistinct();
    hide CharValue, CharacteristicKeys, Characteristics, Dict.Valid, Dict.Put;
    if n > 0 {
      CharsPrefixKeys(c, n - 1);
      var prev := CharsPrefix(c, n - 1);
      var k := CharacteristicKeys()[n - 1];
      forall j | 0 <= j < |prev.keys|
        ensures prev.keys[j] != k
      {
        assert prev.keys[j] == CharacteristicKeys()[j] && j < n - 1;
      }
      assert k !in prev.keys;
      assert CharsPrefix(c, n) == prev.Put(k, CharValue(c, n - 1));
      PutNewKey(prev, k, CharValue(c, n - 1));
      var r := CharsPrefix(c, n);
      forall i | 0 <= i < n
        ensures r.keys[i] == CharacteristicKeys()[i]
      {
        if i < n - 1 {
          assert r.keys[i] == prev.keys[i];
        }
      }
    } else {
      assert CharsPrefix(c, n).keys == [];
    }
  }

  lemma {:induction false} CharsPrefixValues(c: Element, n: nat)
    requires n <= |Characteristics()|
    ensures forall i :: 0 <= i < n ==>
      CharacteristicKeys()[i] in CharsPrefix(c, n).vals && CharsPrefix(c, n).vals[CharacteristicKeys()[i]] == CharValue(c, i)
  {
    if n > 0 {
      CharsPrefixValues(c, n - 1);
      CharacteristicKeysDistinct();
    }
  }

  /** With a non-empty `StartingChars` container the result has exactly the six lower-cased
      characteristic keys, in order, each read as an integer with 1 as its default; otherwise
      it is empty. */
  lemma StartingCharsSpec(e: Element)
    ensures !HasItems(e, "StartingChars") ==> StartingChars(e).keys == [] && StartingChars(e).vals == map[]
    ensures HasItems(e, "StartingChars") ==>
      var c := e.Find("StartingChars").value;
      var r := StartingChars(e);
      r.keys == CharacteristicKeys() && r.Valid() &&
      forall i :: 0 <= i < 6 ==> r.vals[CharacteristicKeys()[i]] == CharValue(c, i)
  {
    if HasItems(e, "StartingChars") {
      var c := e.Find("StartingChars").value;
      CharsPrefixKeys(c, 6);
      CharsPrefixValues(c, 6);
      assert CharsPrefix(c, 6).keys == CharacteristicKeys();
    }
  }

  /** `_extract_starting_attrs` */
  function StartingAttrs(e: Element): (r: Dict)
    ensures r.Valid()
  {
    if HasItems(e, "StartingAttrs") then
      var c := e.Find("StartingAttrs").value;
      Dict(["woundThreshold", "strainThreshold", "experience"],
        map["woundThreshold" := VInt(GetInt(c, "WoundThreshold", 10)),
            "strainThreshold" := VInt(GetInt(c, "StrainThreshold", 10)),
            "experience" := VInt(GetInt(c, "Experience", 0))])
    else EmptyDict
  }

  /** An attribute the container leaves out (or gives an unparseable text) defaults to 10 for
      the two thresholds and 0 for experience; without a non-empty container there are none. */
  lemma StartingAttrsDefaults(e: Element)
    ensures !HasItems(e, "StartingAttrs") ==> StartingAttrs(e).vals == map[]
    ensures HasItems(e, "StartingAttrs") ==>
      var c := e.Find("StartingAttrs").value;
      var r := StartingAttrs(e).vals;
      "woundThreshold" in r && "strainThreshold" in r && "experience" in r &&
      (c.Find("WoundThreshold").None? ==> r["woundThreshold"] == VInt(10)) &&
      (c.Find("StrainThreshold").None? ==> r["strainThreshold"] == VInt(10)) &&
      (c.Find("Experience").None? ==> r["experience"] == VInt(0))
  {
  }

  // ---------------------------------------------------------------------------------------
  // Records
  // ---------------------------------------------------------------------------------------

  /** A list of source strings as a record holds it. */
  function SourceList(ss: seq<string>): (r: Value)
    ensures r.VList? && |r.items| == |ss| && forall i :: 0 <= i < |ss| ==> r.items[i] == VStr(ss[i])
  {
    VList(seq(|ss|, i requires 0 <= i < |ss| => VStr(ss[i])))
  }

  /** The record dict of the non-item types: species, careers, specializations, talents, force
      powers, vehicles and the generically parsed ones. */
  function BasicRecord(recordType: string, unknown: string, data: Dict, sources: seq<string>): (r: Dict)
    ensures r.Valid()
    ensures "recordType" in r.vals && r.vals["recordType"] == VStr(recordType)
    ensures "sources" in r.vals && r.vals["sources"] == SourceList(sources)
  {
    Dict(["recordType", "name", "description", "sources", "data", "unidentifiedName", "locked"],
      map["recordType" := VStr(recordType), "name" := data.Get("name", VStr(unknown)),
          "description" := data.Get("description", VStr("")), "sources" := SourceList(sources),
          "data" := VDict(data), "unidentifiedName" := VStr(unknown), "locked" := VBool(true)])
  }

  /** The record dict of weapons, armor and gear. The name and description are read from
      `named`, the data as it stood when the record was built; `data` is what it ends as. */
  function ItemRecord(recordType: string, itemType: string, unknown: string, named: Dict, data: Dict,
                      sources: seq<string>, fields: Dict): (r: Dict)
    ensures r.Valid()
    ensures "recordType" in r.vals && r.vals["recordType"] == VStr(recordType)
    ensures "sources" in r.vals && r.vals["sources"] == SourceList(sources)
  {
    Dict(["recordType", "type", "name", "description", "sources", "data", "fields", "unidentifiedName", "locked"],
      map["recordType" := VStr(recordType), "type" := VStr(itemType),
          "name" := named.Get("name", VStr(unknown)), "description" := named.Get("description", VStr("")),
          "sources" := SourceList(sources), "data" := VDict(data), "fields" := VDict(fields),
          "unidentifiedName" := VStr("Unidentified Items"), "locked" := VBool(true)])
  }

  /** The fields of an item record, one by one. */
  lemma ItemRecordFields(recordType: string, itemType: string, unknown: string, named: Dict, data: Dict,
                         sources: seq<string>, fields: Dict)
    ensures var r := ItemRecord(recordType, itemType, unknown, named, data, sources, fields).vals;
      r["recordType"] == VStr(recordType) && r["type"] == VStr(itemType) &&
      r["name"] == named.Get("name", VStr(unknown)) && r["description"] == named.Get("description", VStr("")) &&
      r["sources"] == SourceList(sources) && r["data"] == VDict(data) && r["fields"] == VDict(fields) &&
      r["unidentifiedName"] == VStr("Unidentified Items") && r["locked"] == VBool(true)
  {
    ItemRecordHead(recordType, itemType, unknown, named, data, sources, fields);
    ItemRecordTail(recordType, itemType, unknown, named, data, sources, fields);
  }

  lemma ItemRecordHead(recordType: string, itemType: string, unknown: string, named: Dict, data: Dict,
                       sources: seq<string>, fields: Dict)
    ensures var r := ItemRecord(recordType, itemType, unknown, named, data, sources, fields).vals;
      r["recordType"] == VStr(recordType) && r["type"] == VStr(itemType) &&
      r["name"] == named.Get("name", VStr(unknown)) && r["description"] == named.Get("description", VStr(""))
  {
  }

  lemma ItemRecordTail(recordType: string, itemType: string, unknown: string, named: Dict, data: Dict,
                       sources: seq<string>, fields: Dict)
    ensures var r := ItemRecord(recordType, itemType, unknown, named, data, sources, fields).vals;
      r["sources"] == SourceList(sources) && r["data"] == VDict(data) && r["fields"] == VDict(fields) &&
      r["unidentifiedName"] == VStr("Unidentified Items") && r["locked"] == VBool(true)
  {
  }

  /** The fields of a non-item record, one by one. */
  lemma BasicRecordFields(recordType: string, unknown: string, data: Dict, sources: seq<string>)
    ensures var r := BasicRecord(recordType, unknown, data, sources).vals;
      r["recordType"] == VStr(recordType) && r["name"] == data.Get("name", VStr(unknown)) &&
      r["description"] == data.Get("description", VStr("")) && r["sources"] == SourceList(sources) &&
      r["data"] == VDict(data) && r["unidentifiedName"] == VStr(unknown) && r["locked"] == VBool(true)
  {
  }

  function Hidden(b: bool): Value {
    VDict(Dict(["hidden"], map["hidden" := VBool(b)]))
  }

  /** `_get_weapon_fields` */
  function WeaponFieldConfig(): Dict {
    Dict(
      ["animationProps", "armorAttachmentProperties", "armorProperties", "attackDividerBox", "autoFireBtn", "consumable", "consumableProperties", "generalWeaponProperties", "hardpoints", "hasUseBtn", "itemQualities", "packProperties", "stunBtn", "weaponAttached", "weaponAttachedLabel", "weaponAttachmentProperties", "weaponProperties", "weaponType", "weaponAttachmentsProperties", "attachmentsProperties"],
      map[
        "animationProps" := Hidden(false),
        "armorAttachmentProperties" := Hidden(true),
        "armorProperties" := Hidden(true),
        "attackDividerBox" := Hidden(false),
        "autoFireBtn" := Hidden(true),
        "consumable" := Hidden(true),
        "consumableProperties" := Hidden(true),
        "generalWeaponProperties" := Hidden(false),
        "hardpoints" := Hidden(false),
        "hasUseBtn" := Hidden(false),
        "itemQualities" := Hidden(false),
        "packProperties" := Hidden(true),
        "stunBtn" := Hidden(true),
        "weaponAttached" := Hidden(true),
        "weaponAttachedLabel" := Hidden(true),
        "weaponAttachmentProperties" := Hidden(false),
        "weaponProperties" := Hidden(false),
        "weaponType" := Hidden(true),
        "weaponAttachmentsProperties" := Hidden(false),
        "attachmentsProperties" := Hidden(false)])
  }

  /** `_get_armor_fields` */
  function ArmorFieldConfig(): Dict {
    Dict(
      ["animationProps", "armorAttachmentProperties", "armorProperties", "attackDividerBox", "autoFireBtn", "consumable", "consumableProperties", "generalWeaponProperties", "hardpoints", "hasUseBtn", "itemQualities", "packProperties", "stunBtn", "weaponAttached", "weaponAttachedLabel", "weaponAttachmentProperties", "weaponProperties", "weaponType"],
      map[
        "animationProps" := Hidden(true),
        "armorAttachmentProperties" := Hidden(false),
        "armorProperties" := Hidden(false),
        "attackDividerBox" := Hidden(true),
        "autoFireBtn" := Hidden(true),
        "consumable" := Hidden(true),
        "consumableProperties" := Hidden(true),
        "generalWeaponProperties" := Hidden(true),
        "hardpoints" := Hidden(false),
        "hasUseBtn" := Hidden(false),
        "itemQualities" := Hidden(false),
        "packProperties" := Hidden(true),
        "stunBtn" := Hidden(true),
        "weaponAttached" := Hidden(true),
        "weaponAttachedLabel" := Hidden(true),
        "weaponAttachmentProperties" := Hidden(true),
        "weaponProperties" := Hidden(true),
        "weaponType" := Hidden(true)])
  }

  /** `_get_gear_fields` */
  function GearFieldConfig(): Dict {
    Dict(
      ["animationProps", "armorAttachmentProperties", "armorProperties", "attackDividerBox", "autoFireBtn", "consumable", "consumableProperties", "generalWeaponProperties", "hardpoints", "hasUseBtn", "itemQualities", "packProperties", "stunBtn", "weaponAttached", "weaponAttachedLabel", "weaponAttachmentProperties", "weaponProperties", "weaponType"],
      map[
        "animationProps" := Hidden(true),
        "armorAttachmentProperties" := Hidden(true),
        "armorProperties" := Hidden(true),
        "attackDividerBox" := Hidden(true),
        "autoFireBtn" := Hidden(true),
        "consumable" := Hidden(false),
        "consumableProperties" := Hidden(false),
        "generalWeaponProperties" := Hidden(true),
        "hardpoints" := Hidden(true),
        "hasUseBtn" := Hidden(false),
        "itemQualities" := Hidden(false),
        "packProperties" := Hidden(false),
        "stunBtn" := Hidden(true),
        "weaponAttached" := Hidden(true),
        "weaponAttachedLabel" := Hidden(true),
        "weaponAttachmentProperties" := Hidden(true),
        "weaponProperties" := Hidden(true),
        "weaponType" := Hidden(true)])
  }

  /** A non-item record: the raw dict renamed, then the record dict around it. */
  function TypedRecord(fm: FieldMapping, recordType: string, unknown: string, raw: Dict, sources: seq<string>): Dict
    requires ValidMapping(fm)
  {
    BasicRecord(recordType, unknown, FieldMapped(fm, recordType, raw), sources)
  }

  /** The common tail of the non-item extractors: renaming, sources, record dict. */
  method BuildTypedRecord(fm: FieldMapping, e: Element, recordType: string, unknown: string, raw: Dict)
    returns (r: Dict)
    requires ValidMapping(fm)
    ensures r == TypedRecord(fm, recordType, unknown, raw, SourcesOf(e))
  {
    var data := ApplyFieldMapping(fm, recordType, raw);
    var sources := GetSources(e);
    r := BasicRecord(recordType, unknown, data, sources);
  }

  // --- weapons ---------------------------------------------------------------------------

  /** The raw weapon fields under their OggDude names. */
  function WeaponRaw(e: Element, qualities: seq<Value>): seq<(string, Value)> {
    [("Name", VStr(GetText(e, "Name", ""))), ("Description", VStr(GetText(e, "Description", ""))),
     ("Type", VStr(GetText(e, "Type", "ranged weapon"))), ("Encumbrance", VInt(GetInt(e, "Encumbrance", 0))),
     ("Price", VStr(GetText(e, "Price", "0"))), ("Rarity", VInt(GetInt(e, "Rarity", 0))),
     ("Restricted", VStr(GetText(e, "Restricted", "no"))), ("SkillKey", VStr(GetText(e, "SkillKey", ""))),
     ("Damage", VInt(GetInt(e, "Damage", 0))), ("Crit", VInt(GetInt(e, "Crit", 0))),
     ("RangeValue", VStr(GetText(e, "RangeValue", ""))), ("Qualities", VList(qualities)),
     ("HP", VInt(GetInt(e, "HP", 0)))]
  }

  /** The defaults written over the mapped weapon data. */
  function WeaponDefaults(): seq<(string, Value)> {
    [
      ("modifiers", VList([])), ("equipEffect", VNone), ("stun", VInt(0)), ("consumable", VBool(false)),
      ("hasUseBtn", VBool(false)), ("attachments", VList([])), ("slotsUsed", VInt(0))]
  }

  /** A truthy field looked up in a code table; a failed lookup raises. */
  function Remapped(d: Dict, k: string, lookup: Value -> Result<Value>): Result<Dict> {
    if k in d.vals && Truthy(d.vals[k]) then
      match lookup(d.vals[k])
      case Ok(v) => Ok(d.Put(k, v))
      case Err(x) => Err(x)
    else Ok(d)
  }

  /** The raw weapon dict read from the element. */
  function RawWeapon(e: Element): Dict {
    PutAll(EmptyDict, WeaponRaw(e, ExtractedList(e, "Qualities", "Quality", QualityKey)))
  }

  /** The weapon data up to the defaults: renamed, skill and range codes looked up. */
  function WeaponStaged(fm: FieldMapping, raw: Dict): Result<Dict>
    requires ValidMapping(fm)
  {
    match WeaponCodes(FieldMapped(fm, "weapons", raw))
    case Err(x) => Err(x)
    case Ok(d2) => Ok(PutAll(d2, WeaponDefaults()))
  }

  /** The skill code looked up, then the range code. */
  function WeaponCodes(d0: Dict): Result<Dict> {
    match Remapped(d0, "weaponSkill", MapXmlSkill)
    case Err(x) => Err(x)
    case Ok(d1) => Remapped(d1, "range", MapXmlRange)
  }

  /** The two `if ... in mapped_data and mapped_data[...]` lookups of `_extract_weapon_data`. */
  method LookUpWeaponCodes(d0: Dict) returns (r: Result<Dict>)
    ensures r == WeaponCodes(d0)
  {
    var data := d0;
    if "weaponSkill" in data.vals && Truthy(data.vals["weaponSkill"]) {
      var skill := MapXmlSkill(data.vals["weaponSkill"]);
      if skill.Err? {
        return Err(skill.error);
      }
      data := data.Put("weaponSkill", skill.value);
    }
    if "range" in data.vals && Truthy(data.vals["range"]) {
      var range := MapXmlRange(data.vals["range"]);
      if range.Err? {
        return Err(range.error);
      }
      data := data.Put("range", range.value);
    }
    r := Ok(data);
  }

  /** The animation step: `data['type'].lower()` raises when the key is missing or does not hold
      a string. */
  function Animated(d: Dict): Result<Dict> {
    if "type" !in d.vals then Err("KeyError: 'type'")
    else if !d.vals["type"].VStr? then Err("AttributeError: object has no attribute 'lower'")
    else
      var t := Lower(d.vals["type"].s);
      if Contains(t, "blaster") then Ok(d.Put("animation", VStr("blaster")))
      else if Contains(t, "lightsaber") || Contains(t, "saber") then Ok(d.Put("animation", VStr("lightsaber")))
      else Ok(d)
  }

  /** The extraction gets through both steps that can raise. */
  predicate WeaponExtracts(fm: FieldMapping, raw: Dict)
    requires ValidMapping(fm)
  {
    WeaponStaged(fm, raw).Ok? && Animated(WeaponStaged(fm, raw).value).Ok?
  }

  /** What `_extract_weapon_data` returns for a raw dict and the element's sources; `None`
      stands for an exception it caught. */
  function WeaponRecord(fm: FieldMapping, raw: Dict, sources: seq<string>): (r: Option<Dict>)
    requires ValidMapping(fm)
    ensures r.Some? <==> WeaponExtracts(fm, raw)
    ensures r.Some? ==> "recordType" in r.value.vals && r.value.vals["recordType"] == VStr("weapons")
    ensures r.Some? ==> "sources" in r.value.vals && r.value.vals["sources"] == SourceList(sources)
  {
    match WeaponStaged(fm, raw)
    case Err(_) => None
    case Ok(d3) =>
      match Animated(d3)
      case Err(_) => None
      case Ok(d4) => Some(ItemRecord("weapons", "weapon", "Unknown Weapon", d3, d4, sources, WeaponFieldConfig()))
  }

  /** `_extract_weapon_data` */
  method ExtractWeaponData(fm: FieldMapping, e: Element) returns (r: Option<Dict>)
    requires ValidMapping(fm)
    ensures r == WeaponRecord(fm, RawWeapon(e), SourcesOf(e))
  {
    var qualities := ExtractList(e, "Qualities", "Quality", QualityKey);
    var raw := PutAll(EmptyDict, WeaponRaw(e, qualities));
    var mapped := ApplyFieldMapping(fm, "weapons", raw);
    var coded := LookUpWeaponCodes(mapped);
    if coded.Err? {
      return None;
    }
    var data := PutAll(coded.value, WeaponDefaults());
    assert WeaponStaged(fm, raw) == Ok(data);
    var sources := GetSources(e);
    var animated := SetAnimation(data);
    if animated.Err? {
      return None;
    }
    r := Some(ItemRecord("weapons", "weapon", "Unknown Weapon", data, animated.value, sources, WeaponFieldConfig()));
  }

  /** The animation step of `_extract_weapon_data`. */
  method SetAnimation(d: Dict) returns (r: Result<Dict>)
    ensures r == Animated(d)
  {
    if "type" !in d.vals {
      return Err("KeyError: 'type'");
    }
    if !d.vals["type"].VStr? {
      return Err("AttributeError: object has no attribute 'lower'");
    }
    var data := d;
    var weaponType := Lower(d.vals["type"].s);
    if Contains(weaponType, "blaster") {
      data := data.Put("animation", VStr("blaster"));
    } else if Contains(weaponType, "lightsaber") || Contains(weaponType, "saber") {
      data := data.Put("animation", VStr("lightsaber"));
    }
    r := Ok(data);
  }

  lemma WeaponDefaultsDistinct()
    ensures forall i, j :: 0 <= i < j < |WeaponDefaults()| ==> WeaponDefaults()[i].0 != WeaponDefaults()[j].0
    ensures forall i :: 0 <= i < |WeaponDefaults()| ==> WeaponDefaults()[i].0 != "animation"
  {
    assert WeaponDefaults()[0].0[0] == 'm' && WeaponDefaults()[1].0[0] == 'e' && WeaponDefaults()[2].0[0] == 's';
    assert WeaponDefaults()[3].0[0] == 'c' && WeaponDefaults()[4].0[0] == 'h' && WeaponDefaults()[5].0[0] == 'a';
    assert WeaponDefaults()[6].0[0] == 's' && WeaponDefaults()[2].0[1] == 't' && WeaponDefaults()[6].0[1] == 'l';
    assert WeaponDefaults()[5].0[1] == 't';
  }

  /** The weapon data a successful extraction ends with. */
  function WeaponData(fm: FieldMapping, raw: Dict): Dict
    requires ValidMapping(fm) && WeaponExtracts(fm, raw)
  {
    Animated(WeaponStaged(fm, raw).value).value
  }

  /** A weapon record is filed as a weapon and holds the weapon data; its name and description
      come from the mapped data, with 'Unknown Weapon' and '' when it has none. */
  lemma WeaponRecordShape(fm: FieldMapping, raw: Dict, sources: seq<string>)
    requires ValidMapping(fm) && WeaponExtracts(fm, raw)
    ensures var r := WeaponRecord(fm, raw, sources).value.vals;
      var d := WeaponData(fm, raw);
      r["recordType"] == VStr("weapons") && r["type"] == VStr("weapon") && r["data"] == VDict(d) &&
      r["name"] == d.Get("name", VStr("Unknown Weapon")) && r["description"] == d.Get("description", VStr("")) &&
      r["sources"] == SourceList(sources) && r["locked"] == VBool(true)
  {
    var d3 := WeaponStaged(fm, raw).value;
    var d := WeaponData(fm, raw);
    ItemRecordFields("weapons", "weapon", "Unknown Weapon", d3, d, sources, WeaponFieldConfig());
    AnimatedKeeps(d3, "name");
    AnimatedKeeps(d3, "description");
  }

  /** The animation step touches no field but `animation`. */
  lemma AnimatedKeeps(d: Dict, k: string)
    requires Animated(d).Ok? && k != "animation"
    ensures Animated(d).value.Get(k, VNone) == d.Get(k, VNone)
    ensures forall v :: Animated(d).value.Get(k, v) == d.Get(k, v)
  {
  }

  /** Whatever the mapped data held, a weapon ends with every default of the table. */
  lemma WeaponDefaultsWin(fm: FieldMapping, raw: Dict)
    requires ValidMapping(fm) && WeaponExtracts(fm, raw)
    ensures forall i :: 0 <= i < |WeaponDefaults()| ==>
      WeaponDefaults()[i].0 in WeaponData(fm, raw).vals && WeaponData(fm, raw).vals[WeaponDefaults()[i].0] == WeaponDefaults()[i].1
  {
    var d2 := WeaponCodes(FieldMapped(fm, "weapons", raw)).value;
    var d3 := PutAll(d2, WeaponDefaults());
    assert WeaponStaged(fm, raw).value == d3;
    WeaponDefaultsDistinct();
    forall i | 0 <= i < |WeaponDefaults()|
      ensures WeaponDefaults()[i].0 in d3.vals && d3.vals[WeaponDefaults()[i].0] == WeaponDefaults()[i].1
    {
      PutAllAt(d2, WeaponDefaults(), i);
    }
  }

  /** The extraction fails at the animation step exactly when the data has no string `type`;
      then `blaster` in the lower-cased type gives the blaster animation, otherwise `saber` (and
      so `lightsaber`) gives the lightsaber one, and any other type leaves the data alone. */
  lemma AnimationRule(d: Dict)
    ensures Animated(d).Ok? <==> "type" in d.vals && d.vals["type"].VStr?
    ensures Animated(d).Ok? ==>
      var t := Lower(d.vals["type"].s);
      var a := Animated(d).value;
      (Contains(t, "blaster") ==> a.vals == d.vals["animation" := VStr("blaster")]) &&
      (!Contains(t, "blaster") && Contains(t, "saber") ==> a.vals == d.vals["animation" := VStr("lightsaber")]) &&
      (!Contains(t, "blaster") && !Contains(t, "saber") ==> a == d)
  {
    if "type" in d.vals && d.vals["type"].VStr? {
      var t := Lower(d.vals["type"].s);
      if Contains(t, "lightsaber") {
        LightsaberIsSaber(t);
      }
    }
  }

  /** Any string containing `lightsaber` contains `saber`. */
  lemma LightsaberIsSaber(t: string)
    requires Contains(t, "lightsaber")
    ensures Contains(t, "saber")
  {
    IndexOfSpec(t, "lightsaber");
    var i := IndexOf(t, "lightsaber").value;
    assert t[i + 5..i + 10] == t[i..i + 10][5..];
    ContainsAt(t, "saber", i + 5);
  }

  /** The raw weapon fields use OggDude's capitalised names: none is `type`, `weaponSkill` or
      `range`. */
  lemma RawWeaponKeys(e: Element)
    ensures "type" !in RawWeapon(e).vals && "weaponSkill" !in RawWeapon(e).vals && "range" !in RawWeapon(e).vals
  {
    var raw := WeaponRaw(e, ExtractedList(e, "Qualities", "Quality", QualityKey));
    assert forall j :: 0 <= j < |raw| ==> raw[j].0[0] != 't' && raw[j].0[0] != 'r' && raw[j].0[0] != 'w';
    PutAllOther(EmptyDict, raw, "type");
    PutAllOther(EmptyDict, raw, "weaponSkill");
    PutAllOther(EmptyDict, raw, "range");
  }

  /** Without a renaming for weapons, nothing gives the data a `type` field, and the weapon is
      dropped. */
  lemma WeaponNeedsMapping(fm: FieldMapping, e: Element)
    requires ValidMapping(fm) && "weapons" !in fm
    ensures WeaponRecord(fm, RawWeapon(e), SourcesOf(e)) == None
  {
    RawWeaponKeys(e);
    var d0 := RawWeapon(e);
    assert FieldMapped(fm, "weapons", d0) == d0;
    assert WeaponCodes(d0) == Ok(d0);
    WeaponDefaultsDistinct();
    assert forall j :: 0 <= j < |WeaponDefaults()| ==> WeaponDefaults()[j].0 != "type";
    PutAllOther(d0, WeaponDefaults(), "type");
  }

  // --- species, careers, specializations, talents, force powers, vehicles ---------------

  function SpeciesRaw(e: Element, chars: Dict, skillMods: seq<Value>, talentMods: seq<Value>): seq<(string, Value)> {
    [("Name", VStr(GetText(e, "Name", ""))), ("Description", VStr(GetText(e, "Description", ""))),
     ("StartingChars", VDict(chars)), ("StartingAttrs", VDict(StartingAttrs(e))),
     ("SkillModifiers", VList(skillMods)), ("TalentModifiers", VList(talentMods))]
  }

  function RawSpecies(e: Element): Dict {
    PutAll(EmptyDict, SpeciesRaw(e, StartingChars(e),
      ExtractedList(e, "SkillModifiers", "SkillModifier", SkillModifierOf),
      ExtractedList(e, "TalentModifiers", "TalentModifier", TalentModifierOf)))
  }

  function SpeciesRecord(fm: FieldMapping, e: Element): Dict
    requires ValidMapping(fm)
  {
    TypedRecord(fm, "species", "Unknown Species", RawSpecies(e), SourcesOf(e))
  }

  /** `_extract_species_data` */
  method ExtractSpeciesData(fm: FieldMapping, e: Element) returns (r: Dict)
    requires ValidMapping(fm)
    ensures r == SpeciesRecord(fm, e)
  {
    var chars := ExtractStartingChars(e);
    var skillMods := ExtractList(e, "SkillModifiers", "SkillModifier", SkillModifierOf);
    var talentMods := ExtractList(e, "TalentModifiers", "TalentModifier", TalentModifierOf);
    r := BuildTypedRecord(fm, e, "species", "Unknown Species", PutAll(EmptyDict, SpeciesRaw(e, chars, skillMods, talentMods)));
  }

  function CareerRaw(e: Element, skills: seq<Value>, specs: seq<Value>): seq<(string, Value)> {
    [("Name", VStr(GetText(e, "Name", ""))), ("Description", VStr(GetText(e, "Description", ""))),
     ("CareerSkills", VList(skills)), ("Specializations", VList(specs))]
  }

  function CareerRecord(fm: FieldMapping, e: Element): Dict
    requires ValidMapping(fm)
  {
    var raw := PutAll(EmptyDict, CareerRaw(e, ExtractedList(e, "CareerSkills", "Key", KeyText),
      ExtractedList(e, "Specializations", "Key", KeyText)));
    TypedRecord(fm, "careers", "Unknown Career", raw, SourcesOf(e))
  }

  /** `_extract_career_data` */
  method ExtractCareerData(fm: FieldMapping, e: Element) returns (r: Dict)
    requires ValidMapping(fm)
    ensures r == CareerRecord(fm, e)
  {
    var skills := ExtractList(e, "CareerSkills", "Key", KeyText);
    var specs := ExtractList(e, "Specializations", "Key", KeyText);
    r := BuildTypedRecord(fm, e, "careers", "Unknown Career", PutAll(EmptyDict, CareerRaw(e, skills, specs)));
  }

  function SpecializationRaw(e: Element, skills: seq<Value>, talents: seq<Value>): seq<(string, Value)> {
    [("Name", VStr(GetText(e, "Name", ""))), ("Description", VStr(GetText(e, "Description", ""))),
     ("CareerKey", VStr(GetText(e, "CareerKey", ""))), ("Skills", VList(skills)), ("Talents", VList(talents))]
  }

  function SpecializationRecord(fm: FieldMapping, e: Element): Dict
    requires ValidMapping(fm)
  {
    var raw := PutAll(EmptyDict, SpecializationRaw(e, ExtractedList(e, "Skills", "Key", KeyText),
      ExtractedList(e, "Talents", "Key", KeyText)));
    TypedRecord(fm, "specializations", "Unknown Specialization", raw, SourcesOf(e))
  }

  /** `_extract_specialization_data` */
  method ExtractSpecializationData(fm: FieldMapping, e: Element) returns (r: Dict)
    requires ValidMapping(fm)
    ensures r == SpecializationRecord(fm, e)
  {
    var skills := ExtractList(e, "Skills", "Key", KeyText);
    var talents := ExtractList(e, "Talents", "Key", KeyText);
    r := BuildTypedRecord(fm, e, "specializations", "Unknown Specialization",
      PutAll(EmptyDict, SpecializationRaw(e, skills, talents)));
  }

  function TalentRaw(e: Element): seq<(string, Value)> {
    [("Name", VStr(GetText(e, "Name", ""))), ("Description", VStr(GetText(e, "Description", ""))),
     ("Activation", VStr(GetText(e, "Activation", ""))), ("Ranked", VBool(GetBool(e, "Ranked", false))),
     ("Trees", VList([]))]
  }

  function TalentRecord(fm: FieldMapping, e: Element): Dict
    requires ValidMapping(fm)
  {
    TypedRecord(fm, "talents", "Unknown Talent", PutAll(EmptyDict, TalentRaw(e)), SourcesOf(e))
  }

  /** `_extract_talent_data` */
  method ExtractTalentData(fm: FieldMapping, e: Element) returns (r: Dict)
    requires ValidMapping(fm)
    ensures r == TalentRecord(fm, e)
  {
    r := BuildTypedRecord(fm, e, "talents", "Unknown Talent", PutAll(EmptyDict, TalentRaw(e)));
  }

  function ForcePowerRaw(e: Element, upgrades: seq<Value>): seq<(string, Value)> {
    [("Name", VStr(GetText(e, "Name", ""))), ("Description", VStr(GetText(e, "Description", ""))),
     ("Activation", VStr(GetText(e, "Activation", ""))), ("ForcePowerType", VStr(GetText(e, "ForcePowerType", ""))),
     ("Upgrades", VList(upgrades))]
  }

  function ForcePowerRecord(fm: FieldMapping, e: Element): Dict
    requires ValidMapping(fm)
  {
    var raw := PutAll(EmptyDict, ForcePowerRaw(e, ExtractedList(e, "Upgrades", "Upgrade", UpgradeOf)));
    TypedRecord(fm, "force_powers", "Unknown Force Power", raw, SourcesOf(e))
  }

  /** `_extract_force_power_data` */
  method ExtractForcePowerData(fm: FieldMapping, e: Element) returns (r: Dict)
    requires ValidMapping(fm)
    ensures r == ForcePowerRecord(fm, e)
  {
    var upgrades := ExtractList(e, "Upgrades", "Upgrade", UpgradeOf);
    r := BuildTypedRecord(fm, e, "force_powers", "Unknown Force Power", PutAll(EmptyDict, ForcePowerRaw(e, upgrades)));
  }

  function VehicleRaw(e: Element): seq<(string, Value)> {
    [("Name", VStr(GetText(e, "Name", ""))), ("Description", VStr(GetText(e, "Description", ""))),
     ("Type", VStr(GetText(e, "Type", ""))), ("Encumbrance", VInt(GetInt(e, "Encumbrance", 0))),
     ("Price", VStr(GetText(e, "Price", "0"))), ("Rarity", VInt(GetInt(e, "Rarity", 0))),
     ("Restricted", VStr(GetText(e, "Restricted", "no"))), ("Silhouette", VInt(GetInt(e, "Silhouette", 0))),
     ("Speed", VInt(GetInt(e, "Speed", 0))), ("Handling", VInt(GetInt(e, "Handling", 0))),
     ("Armor", VInt(GetInt(e, "Armor", 0))), ("HullTrauma", VInt(GetInt(e, "HullTrauma", 0))),
     ("SystemStrain", VInt(GetInt(e, "SystemStrain", 0))),
     ("PassengerCapacity", VInt(GetInt(e, "PassengerCapacity", 0))),
     ("EncumbranceCapacity", VInt(GetInt(e, "EncumbranceCapacity", 0))),
     ("Consumables", VStr(GetText(e, "Consumables", ""))), ("Hyperdrive", VStr(GetText(e, "Hyperdrive", "")))]
  }

  function VehicleRecord(fm: FieldMapping, e: Element): Dict
    requires ValidMapping(fm)
  {
    TypedRecord(fm, "vehicles", "Unknown Vehicle", PutAll(EmptyDict, VehicleRaw(e)), SourcesOf(e))
  }

  /** `_extract_vehicle_data` */
  method ExtractVehicleData(fm: FieldMapping, e: Element) returns (r: Dict)
    requires ValidMapping(fm)
    ensures r == VehicleRecord(fm, e)
  {
    r := BuildTypedRecord(fm, e, "vehicles", "Unknown Vehicle", PutAll(EmptyDict, VehicleRaw(e)));
  }

  // --- armor and gear --------------------------------------------------------------------

  function ArmorRaw(e: Element): seq<(string, Value)> {
    [("Name", VStr(GetText(e, "Name", ""))), ("Description", VStr(GetText(e, "Description", ""))),
     ("Type", VStr("armor")), ("Encumbrance", VInt(GetInt(e, "Encumbrance", 0))),
     ("Price", VStr(GetText(e, "Price", "0"))), ("Rarity", VInt(GetInt(e, "Rarity", 0))),
     ("Restricted", VStr(GetText(e, "Restricted", "no"))), ("Soak", VInt(GetInt(e, "Soak", 0))),
     ("Defense", VInt(GetInt(e, "Defense", 0))), ("HP", VInt(GetInt(e, "HP", 0)))]
  }

  function ArmorDefaults(): seq<(string, Value)> {
    [
      ("modifiers", VList([])), ("equipEffect", VNone), ("consumable", VBool(false)),
      ("hasUseBtn", VBool(false)), ("attachments", VList([])), ("slotsUsed", VInt(0))]
  }

  /** An armor or gear record: renamed, the defaults written over, the item record dict. */
  function ItemTypedRecord(fm: FieldMapping, recordType: string, itemType: string, unknown: string, raw: Dict,
                           defaults: seq<(string, Value)>, sources: seq<string>, config: Dict): Dict
    requires ValidMapping(fm)
  {
    var data := PutAll(FieldMapped(fm, recordType, raw), defaults);
    ItemRecord("items", itemType, unknown, data, data, sources, config)
  }

  function ArmorRecord(fm: FieldMapping, e: Element): Dict
    requires ValidMapping(fm)
  {
    ItemTypedRecord(fm, "armor", "armor", "Unknown Armor", PutAll(EmptyDict, ArmorRaw(e)), ArmorDefaults(),
      SourcesOf(e), ArmorFieldConfig())
  }

  /** `_extract_armor_data` */
  method ExtractArmorData(fm: FieldMapping, e: Element) returns (r: Dict)
    requires ValidMapping(fm)
    ensures r == ArmorRecord(fm, e)
  {
    var data := ApplyFieldMapping(fm, "armor", PutAll(EmptyDict, ArmorRaw(e)));
    data := PutAll(data, ArmorDefaults());
    var sources := GetSources(e);
    r := ItemRecord("items", "armor", "Unknown Armor", data, data, sources, ArmorFieldConfig());
  }

  function GearRaw(e: Element): seq<(string, Value)> {
    [("Name", VStr(GetText(e, "Name", ""))), ("Description", VStr(GetText(e, "Description", ""))),
     ("Type", VStr("gear")), ("Encumbrance", VInt(GetInt(e, "Encumbrance", 0))),
     ("Price", VStr(GetText(e, "Price", "0"))), ("Rarity", VInt(GetInt(e, "Rarity", 0))),
     ("Restricted", VStr(GetText(e, "Restricted", "no"))), ("Consumable", VBool(GetBool(e, "Consumable", false)))]
  }

  function GearDefaults(): seq<(string, Value)> {
    [
      ("modifiers", VList([])), ("equipEffect", VNone), ("hasUseBtn", VBool(false)),
      ("attachments", VList([])), ("slotsUsed", VInt(0))]
  }

  function GearRecord(fm: FieldMapping, e: Element): Dict
    requires ValidMapping(fm)
  {
    ItemTypedRecord(fm, "gear", "gear", "Unknown Gear", PutAll(EmptyDict, GearRaw(e)), GearDefaults(),
      SourcesOf(e), GearFieldConfig())
  }

  /** `_extract_gear_data` */
  method ExtractGearData(fm: FieldMapping, e: Element) returns (r: Dict)
    requires ValidMapping(fm)
    ensures r == GearRecord(fm, e)
  {
    var data := ApplyFieldMapping(fm, "gear", PutAll(EmptyDict, GearRaw(e)));
    data := PutAll(data, GearDefaults());
    var sources := GetSources(e);
    r := ItemRecord("items", "gear", "Unknown Gear", data, data, sources, GearFieldConfig());
  }

  // --- generic parsing ---------------------------------------------------------------------

  /** The tags `_extract_generic_data` leaves out of the raw dict's copied fields. */
  predicate FixedTag(t: string) {
    t == "Name" || t == "Description" || t == "Source"
  }

  /** The raw dict over the first `n` children: each child's value under its tag, a later
      child of the same tag overwriting an earlier one. */
  function GenericFields(cs: seq<Element>, n: nat): (r: Dict)
    requires n <= |cs|
    ensures r.Valid()
  {
    if n == 0 then EmptyDict
    else
      var prev := GenericFields(cs, n - 1);
      if FixedTag(cs[n - 1].tag) then prev else prev.Put(cs[n - 1].tag, ElementValue(cs[n - 1]))
  }

  function RawGeneric(e: Element): Dict {
    GenericFields(e.children, |e.children|).Put("Name", VStr(GetText(e, "Name", "")))
      .Put("Description", VStr(GetText(e, "Description", "")))
  }

  function GenericRecord(fm: FieldMapping, e: Element, recordType: string): Dict
    requires ValidMapping(fm)
  {
    TypedRecord(fm, Lower(recordType), "Unknown " + recordType, RawGeneric(e), SourcesOf(e))
  }

  /** `_extract_generic_data` */
  method ExtractGenericData(fm: FieldMapping, e: Element, recordType: string) returns (r: Dict)
    requires ValidMapping(fm)
    ensures r == GenericRecord(fm, e, recordType)
  {
    var raw := EmptyDict;
    for i := 0 to |e.children|
      invariant raw == GenericFields(e.children, i)
    {
      var child := e.children[i];
      if !FixedTag(child.tag) {
        raw := raw.Put(child.tag, ElementValue(child));
      }
    }
    raw := raw.Put("Name", VStr(GetText(e, "Name", ""))).Put("Description", VStr(GetText(e, "Description", "")));
    r := BuildTypedRecord(fm, e, Lower(recordType), "Unknown " + recordType, raw);
  }

  /** The copied fields are exactly the tags of the children other than the fixed ones. */
  lemma {:induction false} GenericFieldsKeys(cs: seq<Element>, n: nat)
    requires n <= |cs|
    ensures forall k :: k in GenericFields(cs, n).vals <==> !FixedTag(k) && exists i :: 0 <= i < n && cs[i].tag == k
  {
    if n > 0 {
      GenericFieldsKeys(cs, n - 1);
      var prev := GenericFields(cs, n - 1);
      var t := cs[n - 1].tag;
      forall k ensures k in GenericFields(cs, n).vals <==> !FixedTag(k) && exists i :: 0 <= i < n && cs[i].tag == k {
        if k == t {
          if !FixedTag(t) {
            assert k in GenericFields(cs, n).vals;
          }
        } else {
          assert k in GenericFields(cs, n).vals <==> k in prev.vals;
          if exists i :: 0 <= i < n && cs[i].tag == k {
            var i :| 0 <= i < n && cs[i].tag == k;
            assert i < n - 1;
          }
        }
      }
    }
  }

  /** Each copied field holds the value of the last child with that tag. */
  lemma {:induction false} GenericFieldsValues(cs: seq<Element>, n: nat)
    requires n <= |cs|
    ensures forall i :: 0 <= i < n && !FixedTag(cs[i].tag) && (forall j :: i < j < n ==> cs[j].tag != cs[i].tag) ==>
      cs[i].tag in GenericFields(cs, n).vals && GenericFields(cs, n).vals[cs[i].tag] == ElementValue(cs[i])
  {
    if n > 0 {
      GenericFieldsValues(cs, n - 1);
      forall i | 0 <= i < n - 1 && !FixedTag(cs[i].tag) && (forall j :: i < j < n ==> cs[j].tag != cs[i].tag)
        ensures cs[i].tag in GenericFields(cs, n).vals && GenericFields(cs, n).vals[cs[i].tag] == ElementValue(cs[i])
      {
        assert cs[n - 1].tag != cs[i].tag;
      }
    }
  }

  /** The generic raw dict: the name and description read as text, never a `Source` field,
      and every other child's tag present. */
  lemma GenericRawFields(e: Element)
    ensures var raw := RawGeneric(e);
      raw.Valid() && raw.vals["Name"] == VStr(GetText(e, "Name", "")) &&
      raw.vals["Description"] == VStr(GetText(e, "Description", "")) && "Source" !in raw.vals &&
      forall i :: 0 <= i < |e.children| && !FixedTag(e.children[i].tag) ==> e.children[i].tag in raw.vals
  {
    GenericFieldsKeys(e.children, |e.children|);
  }

  /** Without a renaming for its type the raw dict's `Name` is never read as the name: such a
      record, with no child tagged `name`, is called `Unknown <type>`. */
  lemma GenericUnmappedName(fm: FieldMapping, e: Element, recordType: string)
    requires ValidMapping(fm) && Lower(recordType) !in fm
    requires forall i :: 0 <= i < |e.children| ==> e.children[i].tag != "name"
    ensures GenericRecord(fm, e, recordType).vals["name"] == VStr("Unknown " + recordType)
  {
    GenericFieldsKeys(e.children, |e.children|);
    var raw := RawGeneric(e);
    assert "name" !in raw.vals by {
      assert "name" != "Name" && "name" != "Description";
    }
    BasicRecordFields(Lower(recordType), "Unknown " + recordType, raw, SourcesOf(e));
  }
}
