/** The item-specific conversions of the data mapper (src/data_mapper.py): weapons, armour,
    gear and attachments. Each one takes the item's `data` dict and rewrites it for
    Realm VTT, or raises.

    Each conversion is a method that updates the dict step by step, as the source does,
    and is specified by a function on the dict's contents (`...Spec`) whose stages follow
    the source's statements. The lemmas after each spec say, key by key, what the
    converted item holds. */
module ItemConversion {
  import opened Wrappers
  import opened Text
  import opened Values
  import opened MapperTables
  import opened Qualities

  /** `m.get(k)`, as an option. */
  function Lookup(m: Fields, k: string): Option<Value> {
    if k in m then Some(m[k]) else None
  }

  /** Every field name a count can be written to. */
  function CountFieldNames(): set<string> {
    {
      "accurate", "auto-fire", "breach", "burn", "blast", "concussive", "cortosis",
      "cumbersome", "defensive", "deflection", "disorient", "ensnare", "guided",
      "knockdown", "inaccurate", "inferior", "ion", "limitedAmmo", "linked", "pierce",
      "prepare", "slowFiring", "stun", "stun-damage", "stun-damage-droid",
      "stun-setting", "sunder", "superior", "tractor", "vicious", "unarmed"}
  }

  lemma CountFieldNamed(key: string)
    ensures CountField(key).Some? ==> CountField(key).value in CountFieldNames()
  {
  }

  /** The counts only ever set count fields. */
  lemma {:induction false} CountsNamed(es: seq<QualityEntry>)
    ensures forall f :: f in Counts(es).vals ==> f in CountFieldNames()
    decreases |es|
  {
    if es != [] {
      CountsNamed(es[..|es| - 1]);
      CountFieldNamed(es[|es| - 1].key);
    }
  }

  // ---------------------------------------------------------------------------
  // The stages shared by several item kinds

  /** The list the qualities conversion reads: `qualities`, else `special`, else `[]`. */
  function QualitySource(m: Fields): Value {
    At(m, "qualities", At(m, "special", VList([])))
  }

  /** The qualities of an item, mapped: `None` when the source is falsy (the block is
      skipped); otherwise the names and count fields of the entries that iterating the
      source yields. */
  function MappedQualitiesOf(qs: Value): Result<Option<MappedQualities>> {
    if !Truthy(qs) then Ok(None)
    else
      match Iterate(qs)
      case Err(e) => Err(e)
      case Ok(items) =>
        match Entries(items)
        case Err(e) => Err(e)
        case Ok(es) => Ok(Some(MappedQualities(Names(es), Counts(es))))
  }

  /** Quality names as a list value. */
  function NameList(names: seq<string>): (r: Value)
    ensures r.VList? && |r.items| == |names|
    ensures forall i :: 0 <= i < |names| ==> r.items[i] == VStr(names[i])
  {
    VList(seq(|names|, i requires 0 <= i < |names| => VStr(names[i])))
  }

  /** What the qualities block writes: `special` becomes the mapped names, the count fields
      are set, and `qualities` is dropped; with no qualities `special` becomes `[]` and a
      falsy `qualities` entry stays. */
  function ApplyQualities(m: Fields, q: Option<MappedQualities>): Fields {
    match q
    case None => m["special" := VList([])]
    case Some(mq) => (m["special" := NameList(mq.names)] + mq.counts.vals) - {"qualities"}
  }

  /** Mapped qualities whose count fields are all count field names. */
  predicate CountsAreFields(q: Option<MappedQualities>) {
    q.Some? ==> forall f | f in q.value.counts.vals :: f in CountFieldNames()
  }

  lemma MappedCountsAreFields(qs: Value)
    ensures MappedQualitiesOf(qs).Ok? ==> CountsAreFields(MappedQualitiesOf(qs).value)
  {
    if MappedQualitiesOf(qs).Ok? && Truthy(qs) {
      CountsNamed(Entries(Iterate(qs).value).value);
    }
  }

  /** Key by key, what the qualities block leaves: `qualities` is gone when a truthy list
      was read, `special` holds the mapped names (or `[]`), a count field holds its count,
      and every other key keeps its value. */
  lemma ApplyQualitiesAt(m: Fields, q: Option<MappedQualities>, k: string)
    requires CountsAreFields(q)
    ensures Lookup(ApplyQualities(m, q), k) ==
      if k == "qualities" then (if q.Some? then None else Lookup(m, k))
      else if k == "special" then Some(if q.Some? then NameList(q.value.names) else VList([]))
      else if q.Some? && k in q.value.counts.vals then Some(q.value.counts.vals[k])
      else Lookup(m, k)
  {
    QualityKeysNotCounted();
  }

  /** `restricted`, when present, becomes "yes" or "no". */
  function RestrictedStage(m: Fields): Fields {
    if "restricted" in m then m["restricted" := VStr(ConvertRestrictedValue(m["restricted"]))] else m
  }

  lemma RestrictedStageAt(m: Fields, k: string)
    ensures Lookup(RestrictedStage(m), k) ==
      if k == "restricted" && k in m then Some(VStr(ConvertRestrictedValue(m[k]))) else Lookup(m, k)
  {
  }

  /** The `for key, value in defaults.items(): if key not in data: data[key] = value` loop:
      missing keys get their default, present keys keep their value. */
  lemma DefaultsFill(defaults: Dict, m: Fields, k: string)
    ensures Lookup(defaults.vals + m, k) == if k in m then Some(m[k]) else Lookup(defaults.vals, k)
  {
  }

  /** The qualities block on a dict, as the source runs it. */
  method ConvertQualities(data: Dict) returns (r: Result<Dict>)
    ensures r.Ok? <==> MappedQualitiesOf(QualitySource(data.vals)).Ok?
    ensures r.Ok? ==> r.value.vals == ApplyQualities(data.vals, MappedQualitiesOf(QualitySource(data.vals)).value)
  {
    var qs := data.Get("qualities", data.Get("special", VList([])));
    if !Truthy(qs) {
      return Ok(data.Put("special", VList([])));
    }
    var items := Iterate(qs);
    if items.Err? {
      return Err(items.error);
    }
    var mapped := MapQualitiesWithCounts(items.value);
    if mapped.Err? {
      return Err(mapped.error);
    }
    CountsValid(Entries(items.value).value);
    var d := data.Put("special", NameList(mapped.value.names));
    d := UpdateWith(d, mapped.value.counts);
    r := Ok(d.Remove("qualities"));
  }

  /** `restricted`, when present, becomes "yes" or "no". */
  function ConvertRestricted(data: Dict): (r: Dict)
    ensures r.vals == RestrictedStage(data.vals)
    ensures "restricted" in data.vals ==> r.vals["restricted"] in {VStr("yes"), VStr("no")}
  {
    if data.Has("restricted")
    then data.Put("restricted", VStr(ConvertRestrictedValue(data.vals["restricted"])))
    else data
  }

  /** The restricted and defaults statements that end every conversion, as seen from one
      key: `v` is the field before them. */
  function Finish(v: Option<Value>, k: string, defaults: Dict): Option<Value> {
    if k == "restricted" && v.Some? then Some(VStr(ConvertRestrictedValue(v.value)))
    else if v.Some? then v
    else Lookup(defaults.vals, k)
  }

  /** The qualities block followed by `Finish`, as seen from one key. */
  function QualitiesFinish(v: Option<Value>, q: Option<MappedQualities>, k: string, defaults: Dict): Option<Value> {
    var applied :=
      if k == "qualities" then (if q.Some? then None else v)
      else if k == "special" then Some(if q.Some? then NameList(q.value.names) else VList([]))
      else if q.Some? && k in q.value.counts.vals then Some(q.value.counts.vals[k])
      else v;
    Finish(applied, k, defaults)
  }

  lemma RestrictedTailAt(m: Fields, k: string, defaults: Dict)
    ensures Lookup(defaults.vals + RestrictedStage(m), k) == Finish(Lookup(m, k), k, defaults)
  {
    RestrictedStageAt(m, k);
    DefaultsFill(defaults, RestrictedStage(m), k);
  }

  lemma QualitiesTailAt(m: Fields, q: Option<MappedQualities>, k: string, defaults: Dict)
    requires CountsAreFields(q)
    ensures Lookup(defaults.vals + RestrictedStage(ApplyQualities(m, q)), k) ==
      QualitiesFinish(Lookup(m, k), q, k, defaults)
  {
    RestrictedTailAt(ApplyQualities(m, q), k, defaults);
    ApplyQualitiesAt(m, q, k);
  }

  // ---------------------------------------------------------------------------
  // Defaults

  function WeaponDefaults(): Dict {
    Dict(
      ["modifiers", "equipEffect", "stun", "consumable", "hasUseBtn", "attachments", "slotsUsed", "hardpoints"],
      map["modifiers" := VList([]), "equipEffect" := VNone, "stun" := VInt(0),
          "consumable" := VBool(false), "hasUseBtn" := VBool(false), "attachments" := VList([]),
          "slotsUsed" := VInt(0),
          // `data.get('hardpoints', 0)` only matters when the key is missing, so it is 0
          "hardpoints" := VInt(0)])
  }

  function ArmorDefaults(): Dict {
    Dict(
      ["modifiers", "consumable", "hasUseBtn", "attachments", "slotsUsed"],
      map["modifiers" := VList([]), "consumable" := VBool(false), "hasUseBtn" := VBool(false),
          "attachments" := VList([]), "slotsUsed" := VInt(0)])
  }

  function GearDefaults(): Dict {
    Dict(
      ["modifiers", "hasUseBtn", "attachments", "slotsUsed"],
      map["modifiers" := VList([]), "hasUseBtn" := VBool(false), "attachments" := VList([]),
          "slotsUsed" := VInt(0)])
  }

  function AttachmentDefaults(): Dict {
    Dict(
      ["modifiers", "equipEffect", "consumable", "hasUseBtn", "attachments", "slots"],
      map["modifiers" := VList([]), "equipEffect" := VNone, "consumable" := VBool(false),
          "hasUseBtn" := VBool(false), "attachments" := VList([]), "slots" := VInt(0)])
  }

  // ---------------------------------------------------------------------------
  // Weapons

  /** OggDude skill keys that make a weapon a melee weapon. */
  predicate IsMeleeSkillKey(v: Value) {
    v in [VStr("MELEE"), VStr("BRAWL"), VStr("LIGHTSABER"), VStr("LTSABER")]
  }

  /** Realm VTT skill names that make a weapon a melee weapon. */
  predicate IsMeleeSkillName(v: Value) {
    v in [VStr("Melee"), VStr("Brawl"), VStr("Lightsaber")]
  }

  /** A weapon skill that still needs mapping: a truthy string that is not already a
      Realm VTT name. */
  predicate NeedsSkillMapping(skill: Value) {
    skill.VStr? && skill.s != "" && !StartsWith(skill.s, "Ranged") &&
    skill.s !in ["Melee", "Brawl", "Lightsaber", "Gunnery"]
  }

  /** `data.get('weaponSkill', '')` */
  function SkillOf(m: Fields): Value {
    At(m, "weaponSkill", VStr(""))
  }

  /** `data.get('originalType', data.get('type', ''))` */
  function OriginalTypeOf(m: Fields): Value {
    At(m, "originalType", At(m, "type", VStr("")))
  }

  /** A weapon is melee when its original OggDude skill key or its current skill says so. */
  predicate IsMelee(m: Fields) {
    IsMeleeSkillKey(At(m, "originalSkillKey", SkillOf(m))) || IsMeleeSkillName(SkillOf(m))
  }

  /** The weapon's `range`, when it is present and truthy. */
  predicate HasTruthyRange(m: Fields) {
    "range" in m && Truthy(m["range"])
  }

  /** The type and subtype a weapon is given. */
  function WeaponTypeStage(m: Fields): Fields {
    if OriginalTypeOf(m) == VStr("Vehicle")
    then m["type" := VStr("ranged weapon")]["subtype" := VStr("Vehicle Weapon")]
    else m["type" := VStr(if IsMelee(m) then "melee weapon" else "ranged weapon")]["subtype" := OriginalTypeOf(m)]
  }

  /** The weapon skill statement: a skill that still needs mapping is looked up in the
      skill table; `skill_key.startswith(...)` raises on a truthy skill that is not a string. */
  function SkillStage(m: Fields, skill: Value): Result<Fields> {
    if Truthy(skill) && !skill.VStr? then Err("AttributeError: weapon skill has no startswith()")
    else if NeedsSkillMapping(skill) then Ok(m["weaponSkill" := VStr(MapSkillKey(skill.s))])
    else Ok(m)
  }

  /** A truthy range is looked up in the range table; an unhashable one raises. */
  function RangeStage(m: Fields): Result<Fields> {
    if HasTruthyRange(m) then
      match LookupOrSelf(RangeMapping(), m["range"])
      case Err(e) => Err(e)
      case Ok(v) => Ok(m["range" := v])
    else Ok(m)
  }

  /** Type, subtype and skill set, original skill key and type removed. */
  function WeaponStripped(m: Fields): Result<Fields> {
    match SkillStage(WeaponTypeStage(m), SkillOf(m))
    case Err(e) => Err(e)
    case Ok(skilled) => Ok(skilled - {"originalSkillKey"} - {"originalType"})
  }

  /** The statements of `_convert_weapon_data` before the qualities block: type and
      subtype, skill, removal of the original skill key and type, range. */
  function WeaponPrepared(m: Fields): Result<Fields> {
    match WeaponStripped(m)
    case Err(e) => Err(e)
    case Ok(stripped) => RangeStage(stripped)
  }

  /** `_convert_weapon_data`, given the outcome of mapping the weapon's qualities. */
  function WeaponPipeline(m: Fields, quals: Result<Option<MappedQualities>>): Result<Fields> {
    match WeaponPrepared(m)
    case Err(e) => Err(e)
    case Ok(prepared) =>
      match quals
      case Err(e) => Err(e)
      case Ok(q) => Ok(WeaponDefaults().vals + RestrictedStage(ApplyQualities(prepared, q)))
  }

  /** `_convert_weapon_data` on the dict's contents. */
  function WeaponSpec(m: Fields): Result<Fields> {
    WeaponPipeline(m, MappedQualitiesOf(QualitySource(m)))
  }

  /** The type and subtype statements of `_convert_weapon_data`. */
  method SetWeaponType(data: Dict) returns (d: Dict)
    ensures d.vals == WeaponTypeStage(data.vals)
  {
    var weaponType := data.Get("type", VStr(""));
    var skill := data.Get("weaponSkill", VStr(""));
    var originalSkill := data.Get("originalSkillKey", skill);
    var originalType := data.Get("originalType", weaponType);
    if originalType == VStr("Vehicle") {
      d := data.Put("type", VStr("ranged weapon")).Put("subtype", VStr("Vehicle Weapon"));
    } else {
      if IsMeleeSkillKey(originalSkill) || IsMeleeSkillName(skill) {
        d := data.Put("type", VStr("melee weapon"));
      } else {
        d := data.Put("type", VStr("ranged weapon"));
      }
      d := d.Put("subtype", originalType);
    }
  }

  /** The statements of `_convert_weapon_data` before the qualities block. */
  method PrepareWeapon(data: Dict) returns (r: Result<Dict>)
    ensures r.Ok? <==> WeaponPrepared(data.vals).Ok?
    ensures r.Ok? ==> r.value.vals == WeaponPrepared(data.vals).value
  {
    var skill := data.Get("weaponSkill", VStr(""));
    var d := SetWeaponType(data);
    if Truthy(skill) && !skill.VStr? {
      return Err("AttributeError: weapon skill has no startswith()");
    }
    if NeedsSkillMapping(skill) {
      d := d.Put("weaponSkill", VStr(MapSkillKey(skill.s)));
    }
    d := d.Remove("originalSkillKey").Remove("originalType");
    if d.Has("range") && Truthy(d.vals["range"]) {
      var range := LookupOrSelf(RangeMapping(), d.vals["range"]);
      if range.Err? {
        return Err(range.error);
      }
      d := d.Put("range", range.value);
    }
    r := Ok(d);
  }

  /** `_convert_weapon_data`, updating the dict in place as the source does. */
  method ConvertWeaponData(data: Dict) returns (r: Result<Dict>)
    ensures r.Ok? <==> WeaponSpec(data.vals).Ok?
    ensures r.Ok? ==> r.value.vals == WeaponSpec(data.vals).value
  {
    var prepared := PrepareWeapon(data);
    if prepared.Err? {
      return Err(prepared.error);
    }
    PreparedKeepsQualitySource(data.vals);
    var withQualities := ConvertQualities(prepared.value);
    if withQualities.Err? {
      return Err(withQualities.error);
    }
    var d := ConvertRestricted(withQualities.value);
    WeaponDefaultsValid();
    d := FillMissing(d, WeaponDefaults());
    r := Ok(d);
  }

  lemma WeaponDefaultsValid()
    ensures WeaponDefaults().Valid()
  {
  }

  lemma TypeStageAt(m: Fields, k: string)
    ensures Lookup(WeaponTypeStage(m), k) ==
      if k == "subtype" then
        Some(if OriginalTypeOf(m) == VStr("Vehicle") then VStr("Vehicle Weapon") else OriginalTypeOf(m))
      else if k == "type" then
        Some(VStr(if OriginalTypeOf(m) != VStr("Vehicle") && IsMelee(m) then "melee weapon" else "ranged weapon"))
      else Lookup(m, k)
  {
  }

  lemma SkillStageAt(m: Fields, skill: Value, k: string)
    requires SkillStage(m, skill).Ok?
    ensures Lookup(SkillStage(m, skill).value, k) ==
      if k == "weaponSkill" && NeedsSkillMapping(skill) then Some(VStr(MapSkillKey(skill.s)))
      else Lookup(m, k)
  {
  }

  lemma RangeStageAt(m: Fields, k: string)
    requires RangeStage(m).Ok?
    ensures HasTruthyRange(m) ==> LookupOrSelf(RangeMapping(), m["range"]).Ok?
    ensures Lookup(RangeStage(m).value, k) ==
      if k == "range" && HasTruthyRange(m) then Some(LookupOrSelf(RangeMapping(), m[k]).value)
      else Lookup(m, k)
  {
  }

  /** Before the qualities block, the weapon's field `k` in terms of the original item. */
  function PreparedField(m: Fields, k: string): Option<Value>
    requires HasTruthyRange(m) ==> LookupOrSelf(RangeMapping(), m["range"]).Ok?
  {
    if k == "type" then
      Some(VStr(if OriginalTypeOf(m) != VStr("Vehicle") && IsMelee(m) then "melee weapon" else "ranged weapon"))
    else if k == "subtype" then
      Some(if OriginalTypeOf(m) == VStr("Vehicle") then VStr("Vehicle Weapon") else OriginalTypeOf(m))
    else if k == "weaponSkill" && NeedsSkillMapping(SkillOf(m)) then Some(VStr(MapSkillKey(SkillOf(m).s)))
    else if k == "originalSkillKey" || k == "originalType" then None
    else if k == "range" && HasTruthyRange(m) then Some(LookupOrSelf(RangeMapping(), m[k]).value)
    else Lookup(m, k)
  }

  lemma WeaponStrippedAt(m: Fields, k: string)
    requires WeaponStripped(m).Ok?
    ensures Lookup(WeaponStripped(m).value, k) ==
      if k == "originalSkillKey" || k == "originalType" then None
      else if k == "type" then
        Some(VStr(if OriginalTypeOf(m) != VStr("Vehicle") && IsMelee(m) then "melee weapon" else "ranged weapon"))
      else if k == "subtype" then
        Some(if OriginalTypeOf(m) == VStr("Vehicle") then VStr("Vehicle Weapon") else OriginalTypeOf(m))
      else if k == "weaponSkill" && NeedsSkillMapping(SkillOf(m)) then Some(VStr(MapSkillKey(SkillOf(m).s)))
      else Lookup(m, k)
  {
    var typed := WeaponTypeStage(m);
    TypeStageAt(m, k);
    SkillStageAt(typed, SkillOf(m), k);
  }

  /** The stages before the range leave `range` as it was. */
  lemma WeaponStrippedRange(m: Fields)
    requires WeaponStripped(m).Ok?
    ensures Lookup(WeaponStripped(m).value, "range") == Lookup(m, "range")
  {
    WeaponStrippedAt(m, "range");
  }

  lemma WeaponPreparedAt(m: Fields, k: string)
    requires WeaponPrepared(m).Ok?
    ensures HasTruthyRange(m) ==> LookupOrSelf(RangeMapping(), m["range"]).Ok?
    ensures Lookup(WeaponPrepared(m).value, k) == PreparedField(m, k)
  {
    WeaponStrippedRange(m);
    WeaponStrippedAt(m, k);
    RangeStageAt(WeaponStripped(m).value, k);
  }

  /** The qualities block reads the same list the item came with. */
  lemma PreparedKeepsQualitySource(m: Fields)
    requires WeaponPrepared(m).Ok?
    ensures QualitySource(WeaponPrepared(m).value) == QualitySource(m)
  {
    WeaponPreparedAt(m, "qualities");
    WeaponPreparedAt(m, "special");
  }

  /** The keys the weapon conversion writes itself are not count fields. */
  lemma TypeKeysNotCounted()
    ensures "type" !in CountFieldNames() && "subtype" !in CountFieldNames() && "weaponSkill" !in CountFieldNames()
  {
  }

  lemma QualityKeysNotCounted()
    ensures "special" !in CountFieldNames() && "qualities" !in CountFieldNames() && "restricted" !in CountFieldNames()
  {
  }

  lemma OriginalKeysNotCounted()
    ensures "originalSkillKey" !in CountFieldNames() && "originalType" !in CountFieldNames()
    ensures "range" !in CountFieldNames() && "restricted" !in CountFieldNames()
  {
  }

  /** The converted weapon, key by key, in terms of the stages. */
  lemma WeaponPipelineAt(m: Fields, q: Option<MappedQualities>, k: string)
    requires WeaponPrepared(m).Ok? && CountsAreFields(q)
    ensures HasTruthyRange(m) ==> LookupOrSelf(RangeMapping(), m["range"]).Ok?
    ensures WeaponPipeline(m, Ok(q)).Ok?
    ensures Lookup(WeaponPipeline(m, Ok(q)).value, k) == QualitiesFinish(PreparedField(m, k), q, k, WeaponDefaults())
  {
    WeaponPreparedAt(m, k);
    QualitiesTailAt(WeaponPrepared(m).value, q, k, WeaponDefaults());
  }

  /** The qualities `_convert_weapon_data` maps, when it gets that far. */
  function WeaponQualities(m: Fields): Option<MappedQualities>
    requires MappedQualitiesOf(QualitySource(m)).Ok?
  {
    MappedQualitiesOf(QualitySource(m)).value
  }

  /** The stages before the qualities block fail exactly on a truthy weapon skill that is
      not a string and on an unhashable truthy range. */
  lemma WeaponPreparedOk(m: Fields)
    ensures WeaponPrepared(m).Ok? <==>
      !(Truthy(SkillOf(m)) && !SkillOf(m).VStr?) && (HasTruthyRange(m) ==> Hashable(m["range"]))
  {
    if WeaponStripped(m).Ok? {
      WeaponStrippedRange(m);
    }
  }

  /** The conversion fails exactly when the source raises: on a truthy weapon skill that
      is not a string, on an unhashable truthy range, or while mapping the qualities. */
  lemma WeaponSpecOk(m: Fields)
    ensures WeaponSpec(m).Ok? <==>
      !(Truthy(SkillOf(m)) && !SkillOf(m).VStr?) &&
      (HasTruthyRange(m) ==> Hashable(m["range"])) &&
      MappedQualitiesOf(QualitySource(m)).Ok?
  {
    WeaponPreparedOk(m);
    if WeaponPrepared(m).Ok? {
      PreparedKeepsQualitySource(m);
    }
  }

  /** What the converted weapon holds at key `k`, read off the original item and its
      mapped qualities. */
  function WeaponField(m: Fields, q: Option<MappedQualities>, k: string): Option<Value>
    requires HasTruthyRange(m) ==> LookupOrSelf(RangeMapping(), m["range"]).Ok?
  {
    QualitiesFinish(PreparedField(m, k), q, k, WeaponDefaults())
  }

  /** The converted weapon, key by key, in terms of the original item. */
  lemma WeaponSpecAt(m: Fields, k: string)
    requires WeaponSpec(m).Ok?
    ensures MappedQualitiesOf(QualitySource(m)).Ok?
    ensures HasTruthyRange(m) ==> LookupOrSelf(RangeMapping(), m["range"]).Ok?
    ensures CountsAreFields(WeaponQualities(m))
    ensures Lookup(WeaponSpec(m).value, k) == WeaponField(m, WeaponQualities(m), k)
  {
    MappedCountsAreFields(QualitySource(m));
    WeaponPipelineAt(m, WeaponQualities(m), k);
  }

  /** A weapon is a melee weapon when its skill says so, except vehicle weapons, which
      are ranged; the subtype is the original OggDude type. */
  lemma WeaponFieldType(m: Fields, q: Option<MappedQualities>)
    requires HasTruthyRange(m) ==> LookupOrSelf(RangeMapping(), m["range"]).Ok?
    requires CountsAreFields(q)
    ensures WeaponField(m, q, "type") ==
      Some(VStr(if OriginalTypeOf(m) != VStr("Vehicle") && IsMelee(m) then "melee weapon" else "ranged weapon"))
    ensures WeaponField(m, q, "subtype") ==
      Some(if OriginalTypeOf(m) == VStr("Vehicle") then VStr("Vehicle Weapon") else OriginalTypeOf(m))
  {
    TypeKeysNotCounted();
  }

  /** An OggDude skill key is mapped to its Realm VTT name; a skill already in Realm VTT
      form, or an empty one, is kept. */
  lemma WeaponFieldSkill(m: Fields, q: Option<MappedQualities>)
    requires HasTruthyRange(m) ==> LookupOrSelf(RangeMapping(), m["range"]).Ok?
    requires CountsAreFields(q)
    ensures WeaponField(m, q, "weaponSkill") ==
      if NeedsSkillMapping(SkillOf(m)) then Some(VStr(MapSkillKey(SkillOf(m).s)))
      else Lookup(m, "weaponSkill")
  {
    TypeKeysNotCounted();
  }

  /** The original skill key and type do not survive the conversion. */
  lemma WeaponFieldOriginalsRemoved(m: Fields, q: Option<MappedQualities>)
    requires HasTruthyRange(m) ==> LookupOrSelf(RangeMapping(), m["range"]).Ok?
    requires CountsAreFields(q)
    ensures WeaponField(m, q, "originalSkillKey") == None
    ensures WeaponField(m, q, "originalType") == None
  {
    OriginalKeysNotCounted();
  }

  /** A truthy range goes through the range table; any other range is kept. */
  lemma WeaponFieldRange(m: Fields, q: Option<MappedQualities>)
    requires HasTruthyRange(m) ==> LookupOrSelf(RangeMapping(), m["range"]).Ok?
    requires CountsAreFields(q)
    ensures WeaponField(m, q, "range") ==
      if HasTruthyRange(m) then Some(LookupOrSelf(RangeMapping(), m["range"]).value)
      else Lookup(m, "range")
  {
    OriginalKeysNotCounted();
  }

  /** `special` holds the mapped quality names (`[]` when there are none) and `qualities`
      is gone whenever a truthy list was mapped. */
  lemma WeaponFieldQualities(m: Fields, q: Option<MappedQualities>)
    requires HasTruthyRange(m) ==> LookupOrSelf(RangeMapping(), m["range"]).Ok?
    requires CountsAreFields(q)
    ensures WeaponField(m, q, "special") ==
      Some(if q.Some? then NameList(q.value.names) else VList([]))
    ensures WeaponField(m, q, "qualities") ==
      if q.Some? then None else Lookup(m, "qualities")
  {
  }

  /** `restricted`, when the item has one, is "yes" or "no". */
  lemma WeaponFieldRestricted(m: Fields, q: Option<MappedQualities>)
    requires HasTruthyRange(m) ==> LookupOrSelf(RangeMapping(), m["range"]).Ok?
    requires CountsAreFields(q)
    ensures WeaponField(m, q, "restricted") ==
      if "restricted" in m then Some(VStr(ConvertRestrictedValue(m["restricted"]))) else None
  {
    OriginalKeysNotCounted();
  }

  /** Each count field the qualities produce holds its count. */
  lemma WeaponFieldCount(m: Fields, q: Option<MappedQualities>, k: string)
    requires HasTruthyRange(m) ==> LookupOrSelf(RangeMapping(), m["range"]).Ok?
    requires CountsAreFields(q)
    requires q.Some?
    requires k in q.value.counts.vals
    ensures WeaponField(m, q, k) == Some(q.value.counts.vals[k])
  {
    QualityKeysNotCounted();
  }

  /** Every other field of the item is kept, and a default is added only where the item
      has no value. */
  lemma WeaponFieldKeeps(m: Fields, q: Option<MappedQualities>, k: string)
    requires HasTruthyRange(m) ==> LookupOrSelf(RangeMapping(), m["range"]).Ok?
    requires CountsAreFields(q)
    requires k !in ["type", "subtype", "weaponSkill", "originalSkillKey", "originalType", "range", "special", "qualities", "restricted"]
    requires k !in CountFieldNames()
    ensures WeaponField(m, q, k) == if k in m then Some(m[k]) else Lookup(WeaponDefaults().vals, k)
  {
  }
  // ---------------------------------------------------------------------------
  // Armour

  /** `_convert_armor_data` on the dict's contents: type "armor", the qualities block,
      `restricted`, defaults. */
  function ArmorSpec(m: Fields): Result<Fields> {
    var typed := m["type" := VStr("armor")];
    match MappedQualitiesOf(QualitySource(typed))
    case Err(e) => Err(e)
    case Ok(q) => Ok(ArmorDefaults().vals + RestrictedStage(ApplyQualities(typed, q)))
  }

  method ConvertArmorData(data: Dict) returns (r: Result<Dict>)
    ensures r.Ok? <==> ArmorSpec(data.vals).Ok?
    ensures r.Ok? ==> r.value.vals == ArmorSpec(data.vals).value
  {
    var d := data.Put("type", VStr("armor"));
    var withQualities := ConvertQualities(d);
    if withQualities.Err? {
      return Err(withQualities.error);
    }
    d := ConvertRestricted(withQualities.value);
    ArmorDefaultsValid();
    d := FillMissing(d, ArmorDefaults());
    r := Ok(d);
  }

  lemma ArmorDefaultsValid()
    ensures ArmorDefaults().Valid()
  {
  }

  /** Setting the type does not change which list the qualities block reads. */
  lemma ArmorQualitySource(m: Fields)
    ensures QualitySource(m["type" := VStr("armor")]) == QualitySource(m)
  {
  }

  /** Armour conversion fails exactly where mapping its qualities raises. */
  lemma ArmorSpecOk(m: Fields)
    ensures ArmorSpec(m).Ok? <==> MappedQualitiesOf(QualitySource(m)).Ok?
  {
    ArmorQualitySource(m);
  }

  /** The converted armour, key by key: type "armor", then the qualities block,
      `restricted` and the armour defaults over the item's own fields. */
  lemma ArmorSpecAt(m: Fields, k: string)
    requires ArmorSpec(m).Ok?
    ensures MappedQualitiesOf(QualitySource(m)).Ok?
    ensures CountsAreFields(MappedQualitiesOf(QualitySource(m)).value)
    ensures Lookup(ArmorSpec(m).value, k) ==
      QualitiesFinish(if k == "type" then Some(VStr("armor")) else Lookup(m, k),
                      MappedQualitiesOf(QualitySource(m)).value, k, ArmorDefaults())
  {
    ArmorQualitySource(m);
    MappedCountsAreFields(QualitySource(m));
    QualitiesTailAt(m["type" := VStr("armor")], MappedQualitiesOf(QualitySource(m)).value, k, ArmorDefaults());
  }

  /** Converted armour always has type "armor". */
  lemma ArmorSpecType(m: Fields)
    requires ArmorSpec(m).Ok?
    ensures Lookup(ArmorSpec(m).value, "type") == Some(VStr("armor"))
  {
    ArmorSpecAt(m, "type");
    TypeKeysNotCounted();
  }

  // ---------------------------------------------------------------------------
  // Gear

  /** `item.get('data', {}).get('type', 'Gear')`: calling `get` on a `data` entry that is
      not a dict raises. */
  function GearOriginalType(item: Fields): Result<Value> {
    if "data" !in item then Ok(VStr("Gear"))
    else match item["data"]
      case VDict(d) => Ok(d.Get("type", VStr("Gear")))
      case _ => Err("AttributeError: item data has no get()")
  }

  /** `_convert_gear_data` on the dict's contents: type "general", subtype the original
      type, `restricted`, defaults. */
  function GearSpec(m: Fields, item: Fields): Result<Fields> {
    match GearOriginalType(item)
    case Err(e) => Err(e)
    case Ok(t) => Ok(GearDefaults().vals + RestrictedStage(m["type" := VStr("general")]["subtype" := t]))
  }

  method ConvertGearData(data: Dict, item: Dict) returns (r: Result<Dict>)
    ensures r.Ok? <==> GearSpec(data.vals, item.vals).Ok?
    ensures r.Ok? ==> r.value.vals == GearSpec(data.vals, item.vals).value
  {
    var originalType: Value;
    if item.Has("data") {
      var itemData := item.vals["data"];
      if !itemData.VDict? {
        return Err("AttributeError: item data has no get()");
      }
      originalType := itemData.d.Get("type", VStr("Gear"));
    } else {
      originalType := VStr("Gear");
    }
    var d := data.Put("type", VStr("general")).Put("subtype", originalType);
    d := ConvertRestricted(d);
    GearDefaultsValid();
    d := FillMissing(d, GearDefaults());
    r := Ok(d);
  }

  lemma GearDefaultsValid()
    ensures GearDefaults().Valid()
  {
  }

  /** Gear conversion fails exactly on an item whose `data` is present but not a dict. */
  lemma GearSpecOk(m: Fields, item: Fields)
    ensures GearSpec(m, item).Ok? <==> ("data" in item ==> item["data"].VDict?)
  {
  }

  /** The converted gear, key by key: type "general", subtype the original type (or
      "Gear"), `restricted` as "yes"/"no", and the gear defaults under the item's own
      fields. */
  lemma GearSpecAt(m: Fields, item: Fields, k: string)
    requires GearSpec(m, item).Ok?
    ensures Lookup(GearSpec(m, item).value, k) ==
      if k == "type" then Some(VStr("general"))
      else if k == "subtype" then Some(GearOriginalType(item).value)
      else Finish(Lookup(m, k), k, GearDefaults())
  {
    RestrictedTailAt(m["type" := VStr("general")]["subtype" := GearOriginalType(item).value], k, GearDefaults());
  }

  // ---------------------------------------------------------------------------
  // Attachments

  /** `_convert_attachment_data` on the dict's contents: a missing type is taken from the
      item (or "weapon attachment"), then `restricted` and defaults. It never raises. */
  function AttachmentSpec(m: Fields, item: Fields): Fields {
    var typed := if "type" in m then m else m["type" := At(item, "type", VStr("weapon attachment"))];
    AttachmentDefaults().vals + RestrictedStage(typed)
  }

  method ConvertAttachmentData(data: Dict, item: Dict) returns (d: Dict)
    ensures d.vals == AttachmentSpec(data.vals, item.vals)
  {
    d := data;
    if !d.Has("type") {
      d := d.Put("type", item.Get("type", VStr("weapon attachment")));
    }
    d := ConvertRestricted(d);
    AttachmentDefaultsValid();
    d := FillMissing(d, AttachmentDefaults());
  }

  lemma AttachmentDefaultsValid()
    ensures AttachmentDefaults().Valid()
  {
  }

  /** The converted attachment, key by key: an existing type is kept, a missing one comes
      from the item; `restricted` becomes "yes"/"no"; defaults fill the rest. */
  lemma AttachmentSpecAt(m: Fields, item: Fields, k: string)
    ensures Lookup(AttachmentSpec(m, item), k) ==
      if k == "type" then Some(if "type" in m then m["type"] else At(item, "type", VStr("weapon attachment")))
      else Finish(Lookup(m, k), k, AttachmentDefaults())
  {
    var typed := if "type" in m then m else m["type" := At(item, "type", VStr("weapon attachment"))];
    RestrictedTailAt(typed, k, AttachmentDefaults());
  }
}
