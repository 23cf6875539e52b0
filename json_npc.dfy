/** `JSONParser._extract_npc_data` and the extractors it calls: how one Adversaries NPC object,
    whatever spelling of its keys it uses, becomes an `npcs` record. */
module JsonNpc {
  import opened Wrappers
  import opened Text
  import opened Values

  // ---------------------------------------------------------------------------------------
  // Fallback lookups
  // ---------------------------------------------------------------------------------------

  /** `d.get(k)`: `None` when the key is missing. */
  function Field(d: Dict, k: string): Value {
    d.Get(k, VNone)
  }

  /** `d.get(k1) or d.get(k2) or ... or fallback` */
  function FirstTruthy(d: Dict, ks: seq<string>, fallback: Value): (r: Value)
    ensures (forall i :: 0 <= i < |ks| ==> !Truthy(Field(d, ks[i]))) ==> r == fallback
    ensures r != fallback ==>
      exists i :: 0 <= i < |ks| && r == Field(d, ks[i]) && Truthy(r) &&
        (forall j :: 0 <= j < i ==> !Truthy(Field(d, ks[j])))
    ensures (exists i :: 0 <= i < |ks| && Truthy(Field(d, ks[i]))) ==> Truthy(r)
    decreases |ks|
  {
    if ks == [] then fallback
    else if Truthy(Field(d, ks[0])) then Field(d, ks[0])
    else
      var r := FirstTruthy(d, ks[1..], fallback);
      assert forall i :: 0 < i < |ks| ==> ks[i] == ks[1..][i - 1];
      r
  }

  // ---------------------------------------------------------------------------------------
  // The source
  // ---------------------------------------------------------------------------------------

  /** A string tag naming where the NPC comes from. */
  predicate IsSourceTag(v: Value) {
    v.VStr? && (StartsWith(v.s, "source:") || StartsWith(v.s, "adventure:") || StartsWith(v.s, "book:"))
  }

  /** The position of the first source tag among the first `n` tags. */
  function FirstSourceTag(tags: seq<Value>, n: nat): (r: Option<nat>)
    requires n <= |tags|
    ensures r.None? <==> forall i :: 0 <= i < n ==> !IsSourceTag(tags[i])
    ensures r.Some? ==>
      r.value < n && IsSourceTag(tags[r.value]) && (forall j :: 0 <= j < r.value ==> !IsSourceTag(tags[j]))
  {
    if n == 0 then None
    else match FirstSourceTag(tags, n - 1)
      case Some(i) => Some(i)
      case None => if IsSourceTag(tags[n - 1]) then Some(n - 1) else None
  }

  /** The loop over the tags, which stops at the first source tag. */
  method FindSourceTag(tags: seq<Value>) returns (r: Option<nat>)
    ensures r == FirstSourceTag(tags, |tags|)
  {
    for i := 0 to |tags|
      invariant FirstSourceTag(tags, i).None?
    {
      if IsSourceTag(tags[i]) {
        return Some(i);
      }
    }
    return None;
  }

  /** The source: the first source tag when the tags are a list holding one, otherwise the
      `source` or `Source` field, otherwise the empty string. */
  function NpcSource(npc: Dict): Value {
    var tags := npc.Get("tags", VList([]));
    var t := if tags.VList? then FirstSourceTag(tags.items, |tags.items|) else None;
    if t.Some? then tags.items[t.value]
    else FirstTruthy(npc, ["source", "Source"], VStr(""))
  }

  /** A source tag wins over any source field; without one, the fields are tried in order. */
  lemma NpcSourceSpec(npc: Dict)
    ensures var tags := npc.Get("tags", VList([]));
      var src := NpcSource(npc);
      (tags.VList? && (exists i :: 0 <= i < |tags.items| && IsSourceTag(tags.items[i])) ==>
        IsSourceTag(src) &&
        exists i :: 0 <= i < |tags.items| && src == tags.items[i] &&
          (forall j :: 0 <= j < i ==> !IsSourceTag(tags.items[j]))) &&
      (!(tags.VList? && exists i :: 0 <= i < |tags.items| && IsSourceTag(tags.items[i])) ==>
        src == FirstTruthy(npc, ["source", "Source"], VStr("")))
  {
  }

  // ---------------------------------------------------------------------------------------
  // Characteristics
  // ---------------------------------------------------------------------------------------

  function CharacteristicKeys(): seq<string> {
    ["brawn", "agility", "intellect", "cunning", "willpower", "presence"]
  }

  /** `char.title()` of each characteristic key. */
  function CharacteristicTitles(): seq<string> {
    ["Brawn", "Agility", "Intellect", "Cunning", "Willpower", "Presence"]
  }

  /** `src.get(char, src.get(char.title(), 1))` for the characteristic at position `i`. */
  function CharacteristicValue(src: Dict, i: nat): Value
    requires i < 6
  {
    src.Get(CharacteristicKeys()[i], src.Get(CharacteristicTitles()[i], VInt(1)))
  }

  /** The first `n` characteristics read from `src`, in the fixed order. */
  function CharacteristicFields(src: Dict, n: nat): Dict
    requires n <= 6
  {
    if n == 0 then EmptyDict
    else CharacteristicFields(src, n - 1).Put(CharacteristicKeys()[n - 1], CharacteristicValue(src, n - 1))
  }

  /** Where the characteristics are read from: the first truthy `characteristics`,
      `Characteristics`, `chars` or `Chars` when that is a dict, otherwise the NPC itself. */
  function CharacteristicSource(npc: Dict): Dict {
    var data := FirstTruthy(npc, ["characteristics", "Characteristics", "chars", "Chars"], VDict(EmptyDict));
    if data.VDict? then data.d else npc
  }

  function Characteristics(npc: Dict): Dict {
    CharacteristicFields(CharacteristicSource(npc), 6)
  }

  /** The six keys are distinct: their first letters are. */
  lemma CharacteristicKeysDistinct()
    ensures |CharacteristicKeys()| == 6
    ensures forall i, j :: 0 <= i < j < 6 ==> CharacteristicKeys()[i] != CharacteristicKeys()[j]
  {
    assert forall i :: 0 <= i < 6 ==> CharacteristicKeys()[i][0] == "baicwp"[i];
  }

  /** After `n` passes the first `n` keys are listed, in order, each holding its value, and
      none of the others is present. */
  lemma {:induction false} CharacteristicFieldsSpec(src: Dict, n: nat)
    requires n <= 6
    ensures var r := CharacteristicFields(src, n);
      r.Valid() && |r.keys| == n && (forall i :: 0 <= i < n ==> r.keys[i] == CharacteristicKeys()[i]) &&
      (forall i :: 0 <= i < 6 ==> (CharacteristicKeys()[i] in r.vals <==> i < n)) &&
      (forall i :: 0 <= i < n ==> r.vals[CharacteristicKeys()[i]] == CharacteristicValue(src, i))
  {
    CharacteristicKeysDistinct();
    if n > 0 {
      hide CharacteristicValue, CharacteristicKeys, Dict.Valid, Dict.Put;
      CharacteristicFieldsSpec(src, n - 1);
      var prev := CharacteristicFields(src, n - 1);
      var k := CharacteristicKeys()[n - 1];
      forall j | 0 <= j < |prev.keys| ensures prev.keys[j] != k {
        assert prev.keys[j] == CharacteristicKeys()[j] && j < n - 1;
      }
      assert CharacteristicFields(src, n) == prev.Put(k, CharacteristicValue(src, n - 1));
      PutNewKey(prev, k, CharacteristicValue(src, n - 1));
      var r := CharacteristicFields(src, n);
      forall i | 0 <= i < n ensures r.keys[i] == CharacteristicKeys()[i] {
        if i < n - 1 {
          assert r.keys[i] == prev.keys[i];
        }
      }
      forall i | 0 <= i < 6 ensures CharacteristicKeys()[i] in r.vals <==> i < n {
        assert CharacteristicKeys()[i] in r.vals <==> CharacteristicKeys()[i] in prev.vals || i == n - 1;
      }
    }
  }

  /** Exactly the six lower-case keys, in order; each value is the lower-case key's, else the
      title-case key's, else 1. */
  lemma CharacteristicsSpec(npc: Dict)
    ensures var r := Characteristics(npc); var src := CharacteristicSource(npc);
      r.keys == CharacteristicKeys() && (forall k :: k in r.vals <==> k in CharacteristicKeys()) &&
      forall i :: 0 <= i < 6 ==>
        r.vals[CharacteristicKeys()[i]] ==
          if CharacteristicKeys()[i] in src.vals then src.vals[CharacteristicKeys()[i]]
          else if CharacteristicTitles()[i] in src.vals then src.vals[CharacteristicTitles()[i]]
          else VInt(1)
  {
    var r := Characteristics(npc);
    CharacteristicFieldsSpec(CharacteristicSource(npc), 6);
    assert r.keys == CharacteristicKeys();
  }

  /** `_extract_characteristics`: the loop over the six keys for a dict, the dict display
      over the NPC's own fields otherwise. */
  method ExtractCharacteristics(npc: Dict) returns (r: Dict)
    ensures r == Characteristics(npc)
  {
    var data := FirstTruthy(npc, ["characteristics", "Characteristics", "chars", "Chars"], VDict(EmptyDict));
    if !data.VDict? {
      return CharacteristicFields(npc, 6);
    }
    r := EmptyDict;
    for i := 0 to 6
      invariant r == CharacteristicFields(data.d, i)
    {
      r := r.Put(CharacteristicKeys()[i], CharacteristicValue(data.d, i));
    }
  }

  // ---------------------------------------------------------------------------------------
  // Skills
  // ---------------------------------------------------------------------------------------

  /** The rank a dict-form skill value gives: ints (and bools, which are ints in Python) are
      kept, strings are parsed and 0 when they are not numbers, anything else gives none. */
  function SkillRank(v: Value): Option<Value> {
    match v
    case VInt(_) => Some(v)
    case VBool(_) => Some(v)
    case VStr(s) => Some(VInt(ParseInt(s).GetOr(0)))
    case _ => None
  }

  /** The loop over the first `n` items of a dict of skills. */
  function SkillsFromDict(d: Dict, n: nat): (r: Dict)
    requires n <= |d.keys|
  {
    if n == 0 then EmptyDict
    else
      var prev := SkillsFromDict(d, n - 1);
      var k := d.keys[n - 1];
      match SkillRank(d.Get(k, VNone))
      case Some(rank) => prev.Put(k, rank)
      case None => prev
  }

  /** The loop over the first `n` items of a list of skill names. */
  function SkillsFromList(xs: seq<Value>, n: nat): (r: Dict)
    requires n <= |xs|
  {
    if n == 0 then EmptyDict
    else
      var prev := SkillsFromList(xs, n - 1);
      if xs[n - 1].VStr? then prev.Put(xs[n - 1].s, VInt(1)) else prev
  }

  /** The first truthy `skills` or `Skills`, or `{}`. */
  function SkillsData(npc: Dict): Value {
    FirstTruthy(npc, ["skills", "Skills"], VDict(EmptyDict))
  }

  function Skills(npc: Dict): Dict {
    match SkillsData(npc)
    case VDict(d) => SkillsFromDict(d, |d.keys|)
    case VList(xs) => SkillsFromList(xs, |xs|)
    case _ => EmptyDict
  }

  /** Dict form: a skill is present exactly when its value has a rank, and holds that rank. */
  lemma {:induction false} SkillsFromDictSpec(d: Dict, n: nat)
    requires n <= |d.keys|
    ensures var r := SkillsFromDict(d, n);
      (forall k :: k in r.vals <==> k in d.keys[..n] && SkillRank(d.Get(k, VNone)).Some?) &&
      forall k :: k in r.vals ==> r.vals[k] == SkillRank(d.Get(k, VNone)).value
  {
    if n > 0 {
      SkillsFromDictSpec(d, n - 1);
      assert d.keys[..n] == d.keys[..n - 1] + [d.keys[n - 1]];
    }
  }

  /** List form: the skills are exactly the strings of the list, each with rank 1. */
  lemma {:induction false} SkillsFromListSpec(xs: seq<Value>, n: nat)
    requires n <= |xs|
    ensures var r := SkillsFromList(xs, n);
      (forall k :: k in r.vals <==> VStr(k) in xs[..n]) && forall k :: k in r.vals ==> r.vals[k] == VInt(1)
  {
    if n > 0 {
      SkillsFromListSpec(xs, n - 1);
      assert xs[..n] == xs[..n - 1] + [xs[n - 1]];
    }
  }

  /** `_extract_skills` */
  method ExtractSkills(npc: Dict) returns (r: Dict)
    ensures r == Skills(npc)
  {
    var data := SkillsData(npc);
    r := EmptyDict;
    if data.VDict? {
      var d := data.d;
      for i := 0 to |d.keys|
        invariant r == SkillsFromDict(d, i)
      {
        var rank := SkillRank(d.Get(d.keys[i], VNone));
        if rank.Some? {
          r := r.Put(d.keys[i], rank.value);
        }
      }
    } else if data.VList? {
      var xs := data.items;
      for i := 0 to |xs|
        invariant r == SkillsFromList(xs, i)
      {
        if xs[i].VStr? {
          r := r.Put(xs[i].s, VInt(1));
        }
      }
    }
  }

  // ---------------------------------------------------------------------------------------
  // Talents, abilities, equipment, weapons and armor
  // ---------------------------------------------------------------------------------------

  /** What one entry of a list of talents, equipment, weapons or armor contributes: a string
      itself, a dict its first truthy `name`, `Name`, `key` or `Key`, anything else nothing. */
  function NameOf(item: Value): (r: Option<Value>)
    ensures r.Some? && !item.VStr? ==> Truthy(r.value)
  {
    match item
    case VStr(_) => Some(item)
    case VDict(d) =>
      var name := FirstTruthy(d, ["name", "Name", "key", "Key"], VNone);
      if Truthy(name) then Some(name) else None
    case _ => None
  }

  /** What one entry of a list of abilities contributes: a string itself, a dict with a truthy
      `name` or `Name` a new dict of that name and its description, anything else nothing. */
  function AbilityOf(item: Value): (r: Option<Value>)
    ensures r.Some? && !item.VStr? ==> r.value.VDict? && r.value.d.keys == ["name", "description"]
  {
    match item
    case VStr(_) => Some(item)
    case VDict(d) =>
      var name := FirstTruthy(d, ["name", "Name"], VNone);
      var description := FirstTruthy(d, ["description", "Description"], VStr(""));
      if Truthy(name) then Some(VDict(Dict(["name", "description"], map["name" := name, "description" := description])))
      else None
    case _ => None
  }

  /** Which entry contributes what. */
  datatype Picker = Names | Abilities

  function Pick(p: Picker, item: Value): Option<Value> {
    match p
    case Names => NameOf(item)
    case Abilities => AbilityOf(item)
  }

  /** The loop over the first `n` entries: each contribution appended in turn. */
  function Picked(p: Picker, xs: seq<Value>, n: nat): seq<Value>
    requires n <= |xs|
  {
    if n == 0 then []
    else
      var prev := Picked(p, xs, n - 1);
      match Pick(p, xs[n - 1])
      case Some(v) => prev + [v]
      case None => prev
  }

  /** The positions among the first `n` whose entry contributes, in increasing order. */
  function PickedPositions(p: Picker, xs: seq<Value>, n: nat): (r: seq<nat>)
    requires n <= |xs|
    ensures forall k :: 0 <= k < |r| ==> r[k] < n
    ensures forall k, l :: 0 <= k < l < |r| ==> r[k] < r[l]
  {
    if n == 0 then []
    else
      var prev := PickedPositions(p, xs, n - 1);
      if Pick(p, xs[n - 1]).Some? then prev + [n - 1] else prev
  }

  /** The output is the contributions of the contributing entries, in their order: never
      longer than the input, and every string entry is kept. */
  lemma {:induction false} PickedSpec(p: Picker, xs: seq<Value>, n: nat)
    requires n <= |xs|
    ensures var r := Picked(p, xs, n); var ps := PickedPositions(p, xs, n);
      |r| == |ps| && |r| <= n &&
      (forall k :: 0 <= k < |r| ==> Pick(p, xs[ps[k]]) == Some(r[k])) &&
      (forall i :: 0 <= i < n ==> (i in ps <==> Pick(p, xs[i]).Some?))
  {
    if n > 0 {
      PickedSpec(p, xs, n - 1);
    }
  }

  /** A string entry is kept as it is. */
  lemma StringsKept(p: Picker, xs: seq<Value>, i: nat)
    requires i < |xs| && xs[i].VStr?
    ensures xs[i] in Picked(p, xs, |xs|)
  {
    PickedSpec(p, xs, |xs|);
    var ps := PickedPositions(p, xs, |xs|);
    assert i in ps;
    var k :| 0 <= k < |ps| && ps[k] == i;
    assert Pick(p, xs[i]) == Some(xs[i]);
  }

  /** One extractor: the first truthy of the candidate keys (or `[]`); a list is looped over,
      a string becomes a one-entry list, anything else gives nothing. */
  function Extracted(npc: Dict, keys: seq<string>, p: Picker): seq<Value> {
    match FirstTruthy(npc, keys, VList([]))
    case VList(xs) => Picked(p, xs, |xs|)
    case VStr(s) => [VStr(s)]
    case _ => []
  }

  /** The loop every extractor runs. */
  method ExtractEntries(npc: Dict, keys: seq<string>, p: Picker) returns (r: seq<Value>)
    ensures r == Extracted(npc, keys, p)
  {
    var data := FirstTruthy(npc, keys, VList([]));
    r := [];
    if data.VStr? {
      r := [data];
    } else if data.VList? {
      var xs := data.items;
      for i := 0 to |xs|
        invariant r == Picked(p, xs, i)
      {
        var v := Pick(p, xs[i]);
        if v.Some? {
          r := r + [v.value];
        }
      }
    }
  }

  function TalentKeys(): seq<string> { ["talents", "Talents", "talent", "Talent"] }
  function AbilityKeys(): seq<string> { ["abilities", "Abilities"] }
  function EquipmentKeys(): seq<string> { ["equipment", "Equipment", "gear", "Gear"] }
  function WeaponKeys(): seq<string> { ["weapons", "Weapons", "weapon", "Weapon"] }
  function ArmorKeys(): seq<string> { ["armor", "Armor"] }

  // ---------------------------------------------------------------------------------------
  // The NPC record
  // ---------------------------------------------------------------------------------------

  /** The subtype: the file name with dashes as spaces, title-cased, or `''` without one.
      `title` stands for Python's `str.title()`. A truthy file name that is not a string has
      no `replace`, and that raises. */
  function Subtype(npc: Dict, title: string -> string): Result<Value> {
    var filename := npc.Get("_filename", VStr(""));
    if !Truthy(filename) then Ok(VStr(""))
    else if filename.VStr? then Ok(VStr(title(ReplaceAll(filename.s, "-", " "))))
    else Err("AttributeError: object has no attribute 'replace'")
  }

  /** `npc.get(k1, npc.get(k2, fallback))`: a present key wins even when its value is falsy. */
  function Either(npc: Dict, k1: string, k2: string, fallback: Value): Value {
    npc.Get(k1, npc.Get(k2, fallback))
  }

  /** The parts of an NPC record the extractors compute. */
  datatype NpcParts = NpcParts(
    subtype: Value, source: Value, characteristics: Dict, skills: Dict, talents: seq<Value>,
    abilities: seq<Value>, equipment: seq<Value>, weapons: seq<Value>, armor: seq<Value>)

  /** The `data` display of `_extract_npc_data`, around the parts computed for it and the
      NPC's `derived` dict. */
  function NpcData(npc: Dict, derived: Dict, parts: NpcParts): Dict {
    Dict(
      ["type", "subtype", "characteristics", "derived", "skills", "talents", "abilities",
       "equipment", "weapons", "armor", "gear", "tags", "definitions", "woundThreshold",
       "strainThreshold", "soak", "defense", "species", "career", "specialization"],
      map[
        "type" := npc.Get("type", VStr("Rival")),
        "subtype" := parts.subtype,
        "characteristics" := VDict(parts.characteristics),
        "derived" := VDict(derived),
        "skills" := VDict(parts.skills),
        "talents" := VList(parts.talents),
        "abilities" := VList(parts.abilities),
        "equipment" := VList(parts.equipment),
        "weapons" := VList(parts.weapons),
        "armor" := VList(parts.armor),
        "gear" := npc.Get("gear", VList([])),
        "tags" := npc.Get("tags", VList([])),
        "definitions" := npc.Get("definitions", VNone),
        "woundThreshold" := Either(npc, "woundThreshold", "WoundThreshold", derived.Get("wounds", VInt(10))),
        "strainThreshold" := Either(npc, "strainThreshold", "StrainThreshold", derived.Get("strain", VInt(10))),
        "soak" := Either(npc, "soak", "Soak", derived.Get("soak", VInt(0))),
        "defense" := Either(npc, "defense", "Defense", derived.Get("defence", VInt(0))),
        "species" := Either(npc, "species", "Species", VStr("")),
        "career" := Either(npc, "career", "Career", VStr("")),
        "specialization" := Either(npc, "specialization", "Specialization", VStr(""))])
  }

  /** The record display of `_extract_npc_data`. */
  function NpcDisplay(npc: Dict, derived: Dict, parts: NpcParts): Dict {
    Dict(
      ["recordType", "name", "description", "notes", "source", "data", "unidentifiedName", "locked"],
      map[
        "recordType" := VStr("npcs"),
        "name" := FirstTruthy(npc, ["name", "Name"], VStr("Unknown NPC")),
        "description" := FirstTruthy(npc, ["description", "Description"], VStr("")),
        "notes" := npc.Get("notes", VStr("")),
        "source" := parts.source,
        "data" := VDict(NpcData(npc, derived, parts)),
        "unidentifiedName" := VStr("Unknown NPC"),
        "locked" := VBool(true)])
  }

  /** What the extractors give for an NPC whose subtype is `subtype`. */
  function Parts(npc: Dict, subtype: Value): NpcParts {
    NpcParts(subtype, NpcSource(npc), Characteristics(npc), Skills(npc),
             Extracted(npc, TalentKeys(), Names), Extracted(npc, AbilityKeys(), Abilities),
             Extracted(npc, EquipmentKeys(), Names), Extracted(npc, WeaponKeys(), Names),
             Extracted(npc, ArmorKeys(), Names))
  }

  /** `_extract_npc_data`: `None` when the value is not a dict (it has no `get`), when its
      file name cannot be title-cased, or when its `derived` is not a dict; every exception
      is caught there. */
  function NpcRecord(v: Value, title: string -> string): Option<Dict> {
    if !v.VDict? then None
    else
      var npc := v.d;
      var derived := npc.Get("derived", VDict(EmptyDict));
      match Subtype(npc, title)
      case Err(_) => None
      case Ok(subtype) =>
        if !derived.VDict? then None
        else Some(NpcDisplay(npc, derived.d, Parts(npc, subtype)))
  }

  /** A record is an `npcs` record whose name is never empty: the name, else `Name`, else
      "Unknown NPC". */
  lemma NpcDisplaySpec(npc: Dict, derived: Dict, parts: NpcParts)
    ensures var r := NpcDisplay(npc, derived, parts);
      r.vals["recordType"] == VStr("npcs") && Truthy(r.vals["name"]) &&
      (Truthy(Field(npc, "name")) ==> r.vals["name"] == Field(npc, "name")) &&
      (!Truthy(Field(npc, "name")) && Truthy(Field(npc, "Name")) ==> r.vals["name"] == Field(npc, "Name")) &&
      (!Truthy(Field(npc, "name")) && !Truthy(Field(npc, "Name")) ==> r.vals["name"] == VStr("Unknown NPC")) &&
      r.vals["source"] == parts.source && r.vals["data"] == VDict(NpcData(npc, derived, parts))
  {
  }

  /** The thresholds fall back to the NPC's `derived` values and then to 10, 10, 0 and 0 (the
      defense to `derived`'s `defence`). */
  lemma NpcThresholds(npc: Dict, derived: Dict, parts: NpcParts)
    ensures var data := NpcData(npc, derived, parts);
      ("woundThreshold" !in npc.vals && "WoundThreshold" !in npc.vals ==>
        data.vals["woundThreshold"] == derived.Get("wounds", VInt(10))) &&
      ("strainThreshold" !in npc.vals && "StrainThreshold" !in npc.vals ==>
        data.vals["strainThreshold"] == derived.Get("strain", VInt(10))) &&
      ("soak" !in npc.vals && "Soak" !in npc.vals ==> data.vals["soak"] == derived.Get("soak", VInt(0))) &&
      ("defense" !in npc.vals && "Defense" !in npc.vals ==> data.vals["defense"] == derived.Get("defence", VInt(0)))
  {
  }

  /** Exactly the three faults fail an extraction. */
  lemma NpcRecordNone(v: Value, title: string -> string)
    ensures NpcRecord(v, title).None? <==>
      !v.VDict? || Subtype(v.d, title).Err? || !v.d.Get("derived", VDict(EmptyDict)).VDict?
  {
  }

  /** `_extract_npc_data`, with the loops of its extractors. */
  method ExtractNpcData(v: Value, title: string -> string) returns (r: Option<Dict>)
    ensures r == NpcRecord(v, title)
  {
    if !v.VDict? {
      return None;
    }
    var npc := v.d;
    var subtype := Subtype(npc, title);
    if subtype.Err? {
      return None;
    }
    var parts := ExtractParts(npc, subtype.value);
    var derived := npc.Get("derived", VDict(EmptyDict));
    if !derived.VDict? {
      return None;
    }
    r := Some(NpcDisplay(npc, derived.d, parts));
  }

  /** The source and the extractors' loops, in the order `_extract_npc_data` runs them. */
  method ExtractParts(npc: Dict, subtype: Value) returns (parts: NpcParts)
    ensures parts == Parts(npc, subtype)
  {
    var source := ExtractSource(npc);
    var characteristics := ExtractCharacteristics(npc);
    var skills := ExtractSkills(npc);
    var talents := ExtractEntries(npc, TalentKeys(), Names);
    var abilities := ExtractEntries(npc, AbilityKeys(), Abilities);
    var equipment := ExtractEntries(npc, EquipmentKeys(), Names);
    var weapons := ExtractEntries(npc, WeaponKeys(), Names);
    var armor := ExtractEntries(npc, ArmorKeys(), Names);
    parts := NpcParts(subtype, source, characteristics, skills, talents, abilities, equipment, weapons, armor);
  }

  /** The search of the tags, then the source fields. */
  method ExtractSource(npc: Dict) returns (source: Value)
    ensures source == NpcSource(npc)
  {
    var tags := npc.Get("tags", VList([]));
    source := VStr("");
    if tags.VList? {
      var t := FindSourceTag(tags.items);
      if t.Some? {
        source := tags.items[t.value];
      }
    }
    if !Truthy(source) {
      source := FirstTruthy(npc, ["source", "Source"], VStr(""));
    }
  }
}
