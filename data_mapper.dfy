/** The DataMapper of src/data_mapper.py: its registry from record names to Realm VTT ids,
    the conversion of each parsed record into a Realm VTT record (dispatched on its
    `recordType`), the linking of an NPC's gear against the registered items, the record
    counts and the talent-tree index. */
module DataMapping {
  import opened Wrappers
  import opened Text
  import opened Values
  import opened MapperTables
  import opened ItemConversion
  import opened Markup
  import opened Records

  /** The six registries, one per kind of record others refer to by name. */
  datatype Registry = ItemNames | TalentNames | SpeciesNames | CareerNames | SpecNames | ForcePowerNames

  /** A registry after the registrations `adds`, made in order (`d[name] = realm_id`). */
  function Registered(m: map<string, string>, adds: seq<(string, string)>): map<string, string>
    decreases |adds|
  {
    if adds == [] then m
    else Registered(m, adds[..|adds| - 1])[adds[|adds| - 1].0 := adds[|adds| - 1].1]
  }

  /** The id of the last registration of `name` in `adds`. */
  function LastId(adds: seq<(string, string)>, name: string): Option<string>
    decreases |adds|
  {
    if adds == [] then None
    else if adds[|adds| - 1].0 == name then Some(adds[|adds| - 1].1)
    else LastId(adds[..|adds| - 1], name)
  }

  /** After a run of registrations, a name maps to the id it was registered with last, and a
      name never registered keeps what it had. */
  lemma {:induction false} LastRegistrationWins(m: map<string, string>, adds: seq<(string, string)>, name: string)
    ensures LastId(adds, name).Some? ==> name in Registered(m, adds) && Registered(m, adds)[name] == LastId(adds, name).value
    ensures LastId(adds, name).None? ==> (name in Registered(m, adds) <==> name in m)
    ensures LastId(adds, name).None? && name in m ==> Registered(m, adds)[name] == m[name]
    decreases |adds|
  {
    if adds != [] {
      LastRegistrationWins(m, adds[..|adds| - 1], name);
    }
  }

  // ---------------------------------------------------------------------------
  // The steps every conversion shares

  /** `record.get('data', {})`, with anything but a dict replaced by `{}`. */
  function DataOf(record: Dict): Dict {
    match record.Get("data", VDict(EmptyDict))
    case VDict(d) => d
    case _ => EmptyDict
  }

  /** The record's data with its description, when the record has one, converted. */
  function DescribedData(record: Dict, rw: Rewriter): Result<Dict> {
    var data := DataOf(record);
    if !record.Has("description") then Ok(data)
    else match DescriptionSpec(record.vals["description"], rw)
      case Ok(html) => Ok(data.Put("description", VStr(html)))
      case Err(e) => Err(e)
  }

  /** The opening statements of the item, species, career, specialization, talent, vehicle
      and NPC conversions. */
  method PrepareData(record: Dict, rw: Rewriter) returns (r: Result<Dict>)
    ensures r == DescribedData(record, rw)
  {
    var data := record.Get("data", VDict(EmptyDict));
    var d := if data.VDict? then data.d else EmptyDict;
    if record.Has("description") {
      var html := ConvertDescription(record.vals["description"], rw);
      if html.Err? {
        return Err(html.error);
      }
      d := d.Put("description", VStr(html.value));
    }
    r := Ok(d);
  }

  /** The prepared data, key by key: the converted description, and the record's own data
      (or nothing, when it is not a dict) for every other key. Only a description that
      cannot be converted makes the step fail. */
  lemma DescribedDataAt(record: Dict, rw: Rewriter, k: string)
    ensures DescribedData(record, rw).Ok? <==>
      !record.Has("description") || DescriptionSpec(record.vals["description"], rw).Ok?
    ensures DescribedData(record, rw).Ok? ==>
      Lookup(DescribedData(record, rw).value.vals, k) ==
        if k == "description" && record.Has("description")
        then Some(VStr(DescriptionSpec(record.vals["description"], rw).value))
        else if record.Has("data") && record.vals["data"].VDict? then Lookup(record.vals["data"].d.vals, k)
        else None
  {
  }

  /** The record most conversions return: name (or a fallback), record type, campaign,
      category, the unidentified name, the flags and the data. */
  function BasicRecord(record: Dict, campaignId: string, category: string, recordType: string,
                       unknown: string, identified: bool, data: Dict): Dict {
    Dict(["name", "recordType", "campaignId", "category", "unidentifiedName", "identified",
          "shared", "locked", "data"],
         map["name" := record.Get("name", VStr(unknown)), "recordType" := VStr(recordType),
             "campaignId" := VStr(campaignId), "category" := VStr(category),
             "unidentifiedName" := VStr(unknown), "identified" := VBool(identified),
             "shared" := VBool(false), "locked" := VBool(true), "data" := VDict(data)])
  }

  /** The `data` dict of a converted record. */
  function DataField(record: Dict): Dict {
    match record.Get("data", VNone)
    case VDict(d) => d
    case _ => EmptyDict
  }

  // ---------------------------------------------------------------------------
  // Items

  /** `item.get('type', data.get('type', 'gear'))` */
  function ItemTypeOf(item: Dict): Value {
    item.Get("type", DataOf(item).Get("type", VStr("gear")))
  }

  predicate IsWeaponType(t: Value) {
    t == VStr("weapon") || t == VStr("ranged weapon") || t == VStr("melee weapon")
  }

  predicate IsAttachmentType(t: Value) {
    t == VStr("weapon attachment") || t == VStr("armor attachment") || t == VStr("vehicle attachment")
  }

  /** What the item's type does to its prepared data: the conversion the type selects, or
      nothing for a type that selects none. */
  function ItemStage(t: Value, data: Dict, item: Dict): Result<Fields> {
    if IsWeaponType(t) then WeaponSpec(data.vals)
    else if t == VStr("gear") then GearSpec(data.vals, item.vals)
    else if t == VStr("armor") then ArmorSpec(data.vals)
    else if IsAttachmentType(t) then Ok(AttachmentSpec(data.vals, item.vals))
    else Ok(data.vals)
  }

  /** The data of a converted item. */
  function ItemDataSpec(item: Dict, rw: Rewriter): Result<Fields> {
    match DescribedData(item, rw)
    case Err(e) => Err(e)
    case Ok(data) => ItemStage(ItemTypeOf(item), data, item)
  }

  /** The item record around the converted data. */
  function ItemRecord(item: Dict, campaignId: string, category: string, data: Dict): Dict {
    Dict(["name", "recordType", "campaignId", "category", "unidentifiedName", "identified",
          "shared", "locked", "data", "fields"],
         map["name" := item.Get("name", VStr("Unknown Item")), "recordType" := VStr("items"),
             "campaignId" := VStr(campaignId), "category" := VStr(category),
             "unidentifiedName" := VStr("Unidentified Item"), "identified" := VBool(true),
             "shared" := VBool(false), "locked" := VBool(true), "data" := VDict(data),
             "fields" := item.Get("fields", VDict(EmptyDict))])
  }

  /** An item record is an identified, locked, unshared "items" record named by the item (or
      "Unknown Item"), with the item's `fields` (or `{}`) and the data it was given. */
  lemma ItemRecordAt(item: Dict, campaignId: string, category: string, data: Dict)
    ensures var r := ItemRecord(item, campaignId, category, data);
      r.vals["recordType"] == VStr("items") && r.vals["name"] == At(item.vals, "name", VStr("Unknown Item")) &&
      r.vals["campaignId"] == VStr(campaignId) && r.vals["category"] == VStr(category) &&
      r.vals["identified"] == VBool(true) && r.vals["shared"] == VBool(false) && r.vals["locked"] == VBool(true) &&
      r.vals["fields"] == At(item.vals, "fields", VDict(EmptyDict)) &&
      DataField(r) == data
  {
  }

  /** The type-specific branch of `_convert_item`. */
  method ConvertItemData(t: Value, data: Dict, item: Dict) returns (r: Result<Dict>)
    ensures r.Ok? <==> ItemStage(t, data, item).Ok?
    ensures r.Ok? ==> r.value.vals == ItemStage(t, data, item).value
  {
    hide WeaponSpec, GearSpec, ArmorSpec, AttachmentSpec, IsAttachmentType;
    if t == VStr("weapon") || t == VStr("ranged weapon") || t == VStr("melee weapon") {
      r := ConvertWeaponData(data);
    } else if t == VStr("gear") {
      r := ConvertGearData(data, item);
    } else if t == VStr("armor") {
      r := ConvertArmorData(data);
    } else if IsAttachmentType(t) {
      var d := ConvertAttachmentData(data, item);
      r := Ok(d);
    } else {
      r := Ok(data);
    }
  }

  /** `r` is what converting the item may give: it fails exactly when its data conversion
      does, and otherwise is the item record around data holding the converted fields. */
  predicate ConvertsItem(item: Dict, campaignId: string, category: string, rw: Rewriter, r: Result<Dict>) {
    (r.Ok? <==> ItemDataSpec(item, rw).Ok?) &&
    (r.Ok? ==> r.value == ItemRecord(item, campaignId, category, DataField(r.value)) &&
               DataField(r.value).vals == ItemDataSpec(item, rw).value)
  }

  /** `_convert_item` */
  method ConvertItem(item: Dict, campaignId: string, category: string, rw: Rewriter) returns (r: Result<Dict>)
    ensures ConvertsItem(item, campaignId, category, rw, r)
  {
    var itemType := item.Get("type", DataOf(item).Get("type", VStr("gear")));
    var prepared := PrepareData(item, rw);
    if prepared.Err? {
      return Err(prepared.error);
    }
    var data := ConvertItemData(itemType, prepared.value, item);
    if data.Err? {
      return Err(data.error);
    }
    ItemRecordAt(item, campaignId, category, data.value);
    r := Ok(ItemRecord(item, campaignId, category, data.value));
  }

  /** What the item's type makes of its data's `type`: a weapon type gives a ranged or
      melee weapon, "gear" gives "general" and "armor" stays "armor". */
  lemma ConvertedItemType(t: Value, data: Dict, item: Dict)
    requires ItemStage(t, data, item).Ok?
    ensures IsWeaponType(t) ==>
      Lookup(ItemStage(t, data, item).value, "type") in {Some(VStr("ranged weapon")), Some(VStr("melee weapon"))}
    ensures t == VStr("gear") ==> Lookup(ItemStage(t, data, item).value, "type") == Some(VStr("general"))
    ensures t == VStr("armor") ==> Lookup(ItemStage(t, data, item).value, "type") == Some(VStr("armor"))
  {
    if IsWeaponType(t) {
      WeaponItemType(data.vals);
    } else if t == VStr("gear") {
      GearSpecAt(data.vals, item.vals, "type");
    } else if t == VStr("armor") {
      ArmorSpecType(data.vals);
    }
  }

  /** An attachment keeps the type its data has, or takes the item's; any type that
      selects no conversion leaves the prepared data as it is. */
  lemma ConvertedOtherItem(t: Value, data: Dict, item: Dict)
    requires !IsWeaponType(t) && t != VStr("gear") && t != VStr("armor")
    ensures IsAttachmentType(t) ==>
      Lookup(ItemStage(t, data, item).value, "type") == Some(At(data.vals, "type", At(item.vals, "type", VStr("weapon attachment"))))
    ensures !IsAttachmentType(t) ==> ItemStage(t, data, item) == Ok(data.vals)
  {
    if IsAttachmentType(t) {
      AttachmentSpecAt(data.vals, item.vals, "type");
    }
  }

  /** A converted weapon is a ranged or a melee weapon. */
  lemma WeaponItemType(m: Fields)
    requires WeaponSpec(m).Ok?
    ensures Lookup(WeaponSpec(m).value, "type") == Some(VStr("ranged weapon")) ||
            Lookup(WeaponSpec(m).value, "type") == Some(VStr("melee weapon"))
  {
    WeaponSpecAt(m, "type");
    WeaponFieldType(m, WeaponQualities(m));
  }

  // ---------------------------------------------------------------------------
  // Species, careers, specializations, talents and vehicles

  /** The conversions that only prepare the data and wrap it. */
  function BasicSpec(record: Dict, campaignId: string, category: string, rw: Rewriter,
                     recordType: string, unknown: string): Result<Dict> {
    match DescribedData(record, rw)
    case Err(e) => Err(e)
    case Ok(data) => Ok(BasicRecord(record, campaignId, category, recordType, unknown, true, data))
  }

  /** `_convert_species`, `_convert_career`, `_convert_specialization` and `_convert_talent`,
      which differ only in the record type and the fallback name. */
  method ConvertBasic(record: Dict, campaignId: string, category: string, rw: Rewriter,
                      recordType: string, unknown: string) returns (r: Result<Dict>)
    ensures r == BasicSpec(record, campaignId, category, rw, recordType, unknown)
  {
    var data := PrepareData(record, rw);
    if data.Err? {
      return Err(data.error);
    }
    r := Ok(BasicRecord(record, campaignId, category, recordType, unknown, true, data.value));
  }

  /** `_convert_vehicle`: a basic record whose `restricted` becomes "yes" or "no". */
  function VehicleSpec(record: Dict, campaignId: string, category: string, rw: Rewriter): Result<Dict> {
    match DescribedData(record, rw)
    case Err(e) => Err(e)
    case Ok(data) => Ok(BasicRecord(record, campaignId, category, "vehicles", "Unknown Vehicle", true, ConvertRestricted(data)))
  }

  method ConvertVehicle(record: Dict, campaignId: string, category: string, rw: Rewriter) returns (r: Result<Dict>)
    ensures r == VehicleSpec(record, campaignId, category, rw)
  {
    var data := PrepareData(record, rw);
    if data.Err? {
      return Err(data.error);
    }
    var d := ConvertRestricted(data.value);
    r := Ok(BasicRecord(record, campaignId, category, "vehicles", "Unknown Vehicle", true, d));
  }

  /** A basic record carries the record type it was converted as, the campaign, the
      category, the record's name or the fallback, the flags, and the data it was given. */
  lemma BasicRecordAt(record: Dict, campaignId: string, category: string, recordType: string,
                      unknown: string, identified: bool, data: Dict)
    ensures var r := BasicRecord(record, campaignId, category, recordType, unknown, identified, data);
      "recordType" in r.vals && r.vals["recordType"] == VStr(recordType) && r.vals["campaignId"] == VStr(campaignId) &&
      r.vals["category"] == VStr(category) && r.vals["name"] == At(record.vals, "name", VStr(unknown)) &&
      r.vals["identified"] == VBool(identified) && r.vals["locked"] == VBool(true) &&
      DataField(r) == data
  {
  }

  // ---------------------------------------------------------------------------
  // Force powers and skills

  /** `category or fallback` */
  function CategoryOr(category: string, fallback: string): string {
    if category == "" then fallback else category
  }

  /** The force power record around its converted description and its data. */
  function ForcePowerRecord(name: Value, html: string, data: Dict, campaignId: string, category: string): Dict {
    Dict(["name", "category", "campaignId", "recordType", "data", "unidentifiedName", "locked"],
         map["name" := name,
             "category" := VStr(CategoryOr(category, "Force and Destiny Core Rulebook")),
             "campaignId" := VStr(campaignId), "recordType" := VStr("force_powers"),
             "data" := VDict(Dict(["name", "description", "activation", "forcePowerType", "upgrades"],
                                  map["name" := name, "description" := VStr(html),
                                      "activation" := data.Get("activation", VStr("")),
                                      "forcePowerType" := data.Get("forcePowerType", VStr("")),
                                      "upgrades" := data.Get("upgrades", VList([]))])),
             "unidentifiedName" := VStr("Unknown Force Power"), "locked" := VBool(true)])
  }

  /** `_convert_force_power`. Its `data` is not checked to be a dict, so calling `get` on
      one that is not raises; the description is converted first. */
  function ForcePowerSpec(power: Dict, campaignId: string, category: string, rw: Rewriter): Result<Dict> {
    var name := power.Get("name", VStr("Unknown Force Power"));
    match DescriptionSpec(power.Get("description", VStr("")), rw)
    case Err(e) => Err(e)
    case Ok(html) =>
      match power.Get("data", VDict(EmptyDict))
      case VDict(data) => Ok(ForcePowerRecord(name, html, data, campaignId, category))
      case _ => Err("AttributeError: data has no get()")
  }

  method ConvertForcePower(power: Dict, campaignId: string, category: string, rw: Rewriter) returns (r: Result<Dict>)
    ensures r == ForcePowerSpec(power, campaignId, category, rw)
  {
    var name := power.Get("name", VStr("Unknown Force Power"));
    var html := ConvertDescription(power.Get("description", VStr("")), rw);
    if html.Err? {
      return Err(html.error);
    }
    var data := power.Get("data", VDict(EmptyDict));
    if !data.VDict? {
      return Err("AttributeError: data has no get()");
    }
    r := Ok(ForcePowerRecord(name, html.value, data.d, campaignId, category));
  }

  /** A force power record is filed under "force_powers", in the given category or else the
      Force and Destiny core rulebook, and its data takes the activation, type and upgrades
      from the power's data, with their fallbacks. */
  lemma ForcePowerRecordAt(name: Value, html: string, data: Dict, campaignId: string, category: string)
    ensures var r := ForcePowerRecord(name, html, data, campaignId, category);
      r.vals["recordType"] == VStr("force_powers") && r.vals["name"] == name &&
      r.vals["category"] == VStr(if category == "" then "Force and Destiny Core Rulebook" else category) &&
      DataField(r).vals["description"] == VStr(html) &&
      DataField(r).vals["activation"] == At(data.vals, "activation", VStr("")) &&
      DataField(r).vals["upgrades"] == At(data.vals, "upgrades", VList([]))
  {
  }

  /** `_convert_skill_name(name)` on any value: `' - ' in name` raises on a value without
      membership; a list or dict that holds `' - '` then has no `split`. */
  function SkillNameOf(name: Value): (r: Result<Value>)
    ensures name.VStr? ==> r == Ok(VStr(ConvertSkillName(name.s)))
    ensures r.Ok? && !name.VStr? ==> r == Ok(name)
  {
    match name
    case VStr(s) => Ok(VStr(ConvertSkillName(s)))
    case VList(xs) => if VStr(" - ") in xs then Err("AttributeError: list has no split()") else Ok(name)
    case VDict(d) => if d.Has(" - ") then Err("AttributeError: dict has no split()") else Ok(name)
    case _ => Err("TypeError: argument is not iterable")
  }

  /** The skill record around its converted name and description and its data. */
  function SkillRecord(name: Value, html: string, data: Dict, campaignId: string, category: string): Dict {
    Dict(["name", "category", "campaignId", "recordType", "data", "unidentifiedName", "locked"],
         map["name" := name,
             "category" := VStr(CategoryOr(category, "Edge of the Empire Core Rulebook")),
             "campaignId" := VStr(campaignId), "recordType" := VStr("skills"),
             "data" := VDict(Dict(["name", "description", "stat", "group"],
                                  map["name" := name, "description" := VStr(html),
                                      "stat" := data.Get("stat", VStr("agility")),
                                      "group" := data.Get("group", VStr("General"))])),
             "unidentifiedName" := VStr("Unknown Skill"), "locked" := VBool(true)])
  }

  /** `_convert_skill`: the name is converted first, then the description, then the
      `data` lookups, which raise on a `data` that is not a dict. */
  function SkillSpec(skill: Dict, campaignId: string, category: string, rw: Rewriter): Result<Dict> {
    match SkillNameOf(skill.Get("name", VStr("Unknown Skill")))
    case Err(e) => Err(e)
    case Ok(name) =>
      match DescriptionSpec(skill.Get("description", VStr("")), rw)
      case Err(e) => Err(e)
      case Ok(html) =>
        match skill.Get("data", VDict(EmptyDict))
        case VDict(data) => Ok(SkillRecord(name, html, data, campaignId, category))
        case _ => Err("AttributeError: data has no get()")
  }

  method ConvertSkill(skill: Dict, campaignId: string, category: string, rw: Rewriter) returns (r: Result<Dict>)
    ensures r == SkillSpec(skill, campaignId, category, rw)
  {
    var name := SkillNameOf(skill.Get("name", VStr("Unknown Skill")));
    if name.Err? {
      return Err(name.error);
    }
    var html := ConvertDescription(skill.Get("description", VStr("")), rw);
    if html.Err? {
      return Err(html.error);
    }
    var data := skill.Get("data", VDict(EmptyDict));
    if !data.VDict? {
      return Err("AttributeError: data has no get()");
    }
    r := Ok(SkillRecord(name.value, html.value, data.d, campaignId, category));
  }

  /** A skill record is named by its converted name, at the top and inside its data (so
      "A - B" is stored as "A (B)"); it is filed under "skills", in the given category or
      else the core rulebook, with the stat and group of its data or their fallbacks. */
  lemma SkillRecordAt(name: Value, html: string, data: Dict, campaignId: string, category: string)
    ensures var r := SkillRecord(name, html, data, campaignId, category);
      r.vals["name"] == name && DataField(r).vals["name"] == name &&
      r.vals["recordType"] == VStr("skills") &&
      r.vals["category"] == VStr(if category == "" then "Edge of the Empire Core Rulebook" else category) &&
      DataField(r).vals["stat"] == At(data.vals, "stat", VStr("agility")) &&
      DataField(r).vals["group"] == At(data.vals, "group", VStr("General"))
  {
  }

  // ---------------------------------------------------------------------------
  // NPCs and the linking of their gear

  /** The data of the item placeholders an NPC gets for gear, weapons and armour that are
      not registered. */
  function GearPlaceholder(): Dict {
    Dict(["type", "price", "encumbrance", "rarity", "restricted"],
         map["type" := VStr("gear"), "price" := VStr("0"), "encumbrance" := VInt(0), "rarity" := VInt(0),
             "restricted" := VStr("no")])
  }

  function WeaponPlaceholder(): Dict {
    Dict(["type", "price", "encumbrance", "rarity", "weaponSkill", "damage", "crit", "range",
          "hardpoints", "restricted", "special"],
         map["type" := VStr("ranged weapon"), "price" := VStr("0"), "encumbrance" := VInt(0),
             "rarity" := VInt(0), "weaponSkill" := VStr("Ranged (Light)"), "damage" := VInt(0),
             "crit" := VInt(0), "range" := VStr("Short"), "hardpoints" := VInt(0),
             "restricted" := VStr("no"), "special" := VList([])])
  }

  function ArmorPlaceholder(): Dict {
    Dict(["type", "price", "encumbrance", "rarity", "restricted", "soak", "defense", "hardpoints"],
         map["type" := VStr("armor"), "price" := VStr("0"), "encumbrance" := VInt(0), "rarity" := VInt(0),
             "restricted" := VStr("no"), "soak" := VInt(0), "defense" := VInt(0), "hardpoints" := VInt(0)])
  }

  /** `item_map.get(name)` taken as a truth value: a registered, non-empty id. */
  predicate Registers(itemMap: map<string, string>, name: Value) {
    name.VStr? && name.s in itemMap && itemMap[name.s] != ""
  }

  /** The entry one name of the NPC's list becomes: a reference to the registered item, or
      a placeholder item; a name that cannot be looked up raises. */
  function LinkEntry(itemMap: map<string, string>, name: Value, campaignId: string, category: string,
                     placeholder: Dict): Result<Value> {
    if !Hashable(name) then Err("TypeError: unhashable type")
    else if Registers(itemMap, name) then
      Ok(VDict(Dict(["_id", "name", "campaignId", "recordType", "identified", "category", "unidentifiedName"],
                    map["_id" := VStr(itemMap[name.s]), "name" := name, "campaignId" := VStr(campaignId),
                        "recordType" := VStr("items"), "identified" := VBool(true),
                        "category" := VStr(category), "unidentifiedName" := VStr("Unidentified Items")])))
    else
      Ok(VDict(Dict(["name", "campaignId", "recordType", "identified", "category", "unidentifiedName", "data"],
                    map["name" := name, "campaignId" := VStr(campaignId), "recordType" := VStr("items"),
                        "identified" := VBool(false), "category" := VStr(category),
                        "unidentifiedName" := VStr("Unidentified Items"), "data" := VDict(placeholder)])))
  }

  /** A linked entry names what it was made from and says whether it was found; a found one
      carries the registered id and no data, a placeholder no id and the placeholder data. */
  lemma LinkEntryShape(itemMap: map<string, string>, name: Value, campaignId: string, category: string, placeholder: Dict)
    requires Hashable(name)
    ensures LinkEntry(itemMap, name, campaignId, category, placeholder).Ok?
    ensures var e := LinkEntry(itemMap, name, campaignId, category, placeholder).value;
      e.VDict? && e.d.vals["name"] == name && e.d.vals["recordType"] == VStr("items") &&
      e.d.vals["identified"] == VBool(Registers(itemMap, name)) &&
      (Registers(itemMap, name) ==> e.d.vals["_id"] == VStr(itemMap[name.s]) && "data" !in e.d.vals) &&
      (!Registers(itemMap, name) ==> "_id" !in e.d.vals && e.d.vals["data"] == VDict(placeholder))
  {
  }

  /** Linking one name raises exactly when the name cannot be looked up. */
  lemma LinkEntryOk(itemMap: map<string, string>, name: Value, campaignId: string, category: string, placeholder: Dict)
    ensures LinkEntry(itemMap, name, campaignId, category, placeholder).Ok? <==> Hashable(name)
  {
  }

  /** The linking loop over a list of names, as a function of the names. */
  function Linked(itemMap: map<string, string>, names: seq<Value>, campaignId: string, category: string,
                  placeholder: Dict): Result<seq<Value>>
    decreases |names|
  {
    if names == [] then Ok([])
    else match Linked(itemMap, names[..|names| - 1], campaignId, category, placeholder)
      case Err(e) => Err(e)
      case Ok(entries) =>
        match LinkEntry(itemMap, names[|names| - 1], campaignId, category, placeholder)
        case Err(e) => Err(e)
        case Ok(entry) => Ok(entries + [entry])
  }

  /** Linking is one-to-one and in order: it fails exactly when some name cannot be looked
      up, and otherwise entry `i` is the link of name `i`. */
  lemma {:induction false} LinkedOneToOne(itemMap: map<string, string>, names: seq<Value>, campaignId: string,
                                         category: string, placeholder: Dict)
    ensures Linked(itemMap, names, campaignId, category, placeholder).Ok? <==>
      forall i :: 0 <= i < |names| ==> Hashable(names[i])
    ensures Linked(itemMap, names, campaignId, category, placeholder).Ok? ==>
      var entries := Linked(itemMap, names, campaignId, category, placeholder).value;
      |entries| == |names| &&
      forall i :: 0 <= i < |names| ==> entries[i] == LinkEntry(itemMap, names[i], campaignId, category, placeholder).value
    decreases |names|
  {
    hide LinkEntry, Hashable;
    if names != [] {
      var init := names[..|names| - 1];
      LinkedOneToOne(itemMap, init, campaignId, category, placeholder);
      LinkEntryOk(itemMap, names[|names| - 1], campaignId, category, placeholder);
      assert forall i :: 0 <= i < |init| ==> init[i] == names[i];
      if !Hashable(names[|names| - 1]) {
        assert !(forall i :: 0 <= i < |names| ==> Hashable(names[i]));
      }
    }
  }

  /** `for name in data.get(key, []): ...` followed by `data[key] = linked`. */
  function LinkedField(itemMap: map<string, string>, data: Dict, key: string, campaignId: string,
                       category: string, placeholder: Dict): Result<Dict> {
    match Iterate(data.Get(key, VList([])))
    case Err(e) => Err(e)
    case Ok(names) =>
      match Linked(itemMap, names, campaignId, category, placeholder)
      case Err(e) => Err(e)
      case Ok(entries) => Ok(data.Put(key, VList(entries)))
  }

  /** `_convert_npc`: a basic record, not identified, whose equipment, weapons and armour
      lists are linked in that order. */
  function NpcSpec(itemMap: map<string, string>, npc: Dict, campaignId: string, category: string,
                   rw: Rewriter): Result<Dict> {
    match DescribedData(npc, rw)
    case Err(e) => Err(e)
    case Ok(d0) =>
      match LinkedField(itemMap, d0, "equipment", campaignId, category, GearPlaceholder())
      case Err(e) => Err(e)
      case Ok(d1) =>
        match LinkedField(itemMap, d1, "weapons", campaignId, category, WeaponPlaceholder())
        case Err(e) => Err(e)
        case Ok(d2) =>
          match LinkedField(itemMap, d2, "armor", campaignId, category, ArmorPlaceholder())
          case Err(e) => Err(e)
          case Ok(d3) => Ok(BasicRecord(npc, campaignId, category, "npcs", "Unknown NPC", false, d3))
  }

  /** Linking one list leaves the other keys of the data alone. */
  lemma LinkedFieldAt(itemMap: map<string, string>, data: Dict, key: string, campaignId: string,
                      category: string, placeholder: Dict, k: string)
    requires LinkedField(itemMap, data, key, campaignId, category, placeholder).Ok?
    ensures Iterate(data.Get(key, VList([]))).Ok?
    ensures var names := Iterate(data.Get(key, VList([]))).value;
      Linked(itemMap, names, campaignId, category, placeholder).Ok? &&
      Lookup(LinkedField(itemMap, data, key, campaignId, category, placeholder).value.vals, k) ==
        if k == key then Some(VList(Linked(itemMap, names, campaignId, category, placeholder).value))
        else Lookup(data.vals, k)
  {
  }

  /** The linked list an NPC gets for `key`, from its prepared data. */
  function LinksFor(itemMap: map<string, string>, d0: Dict, key: string, campaignId: string, category: string,
                    placeholder: Dict): Value
    requires Iterate(d0.Get(key, VList([]))).Ok?
    requires Linked(itemMap, Iterate(d0.Get(key, VList([]))).value, campaignId, category, placeholder).Ok?
  {
    VList(Linked(itemMap, Iterate(d0.Get(key, VList([]))).value, campaignId, category, placeholder).value)
  }

  /** A converted NPC is an unidentified "npcs" record whose equipment, weapons and armour
      are the linked forms of the lists in its data, each linked on its own; every other
      key of its data is as prepared. */
  lemma NpcLinks(itemMap: map<string, string>, npc: Dict, campaignId: string, category: string, rw: Rewriter, k: string)
    requires NpcSpec(itemMap, npc, campaignId, category, rw).Ok?
    ensures DescribedData(npc, rw).Ok?
    ensures var d0 := DescribedData(npc, rw).value;
      var r := NpcSpec(itemMap, npc, campaignId, category, rw).value;
      r.vals["identified"] == VBool(false) && "recordType" in r.vals && r.vals["recordType"] == VStr("npcs") &&
      Iterate(d0.Get("equipment", VList([]))).Ok? &&
      Linked(itemMap, Iterate(d0.Get("equipment", VList([]))).value, campaignId, category, GearPlaceholder()).Ok? &&
      Iterate(d0.Get("weapons", VList([]))).Ok? &&
      Linked(itemMap, Iterate(d0.Get("weapons", VList([]))).value, campaignId, category, WeaponPlaceholder()).Ok? &&
      Iterate(d0.Get("armor", VList([]))).Ok? &&
      Linked(itemMap, Iterate(d0.Get("armor", VList([]))).value, campaignId, category, ArmorPlaceholder()).Ok? &&
      Lookup(DataField(r).vals, k) ==
        if k == "equipment" then Some(LinksFor(itemMap, d0, "equipment", campaignId, category, GearPlaceholder()))
        else if k == "weapons" then Some(LinksFor(itemMap, d0, "weapons", campaignId, category, WeaponPlaceholder()))
        else if k == "armor" then Some(LinksFor(itemMap, d0, "armor", campaignId, category, ArmorPlaceholder()))
        else Lookup(d0.vals, k)
  {
    hide DescribedData, Linked, Iterate, GearPlaceholder, WeaponPlaceholder, ArmorPlaceholder, BasicRecord, Dict.Put;
    var d0 := DescribedData(npc, rw).value;
    var d1 := LinkedField(itemMap, d0, "equipment", campaignId, category, GearPlaceholder()).value;
    var d2 := LinkedField(itemMap, d1, "weapons", campaignId, category, WeaponPlaceholder()).value;
    var d3 := LinkedField(itemMap, d2, "armor", campaignId, category, ArmorPlaceholder()).value;
    LinkedFieldAt(itemMap, d0, "equipment", campaignId, category, GearPlaceholder(), k);
    LinkedFieldAt(itemMap, d0, "equipment", campaignId, category, GearPlaceholder(), "weapons");
    LinkedFieldAt(itemMap, d0, "equipment", campaignId, category, GearPlaceholder(), "armor");
    LinkedFieldAt(itemMap, d1, "weapons", campaignId, category, WeaponPlaceholder(), k);
    LinkedFieldAt(itemMap, d1, "weapons", campaignId, category, WeaponPlaceholder(), "armor");
    LinkedFieldAt(itemMap, d2, "armor", campaignId, category, ArmorPlaceholder(), k);
    BasicRecordAt(npc, campaignId, category, "npcs", "Unknown NPC", false, d3);
  }

  // ---------------------------------------------------------------------------
  // The dispatch on the record type

  /** `oggdude_record.get('recordType', 'unknown')` */
  function RecordTypeOf(record: Dict): Value {
    record.Get("recordType", VStr("unknown"))
  }

  /** The record types the dispatch converts; any other gives `None`. */
  predicate KnownRecordType(t: Value) {
    t in {VStr("items"), VStr("species"), VStr("careers"), VStr("specializations"), VStr("talents"),
          VStr("force_powers"), VStr("skills"), VStr("vehicles"), VStr("npcs")}
  }

  function Found(r: Result<Dict>): Result<Option<Dict>> {
    match r
    case Ok(d) => Ok(Some(d))
    case Err(e) => Err(e)
  }

  /** The conversion a record type selects. */
  datatype Conversion =
    | ToItem
    | ToBasic(recordType: string, unknown: string)
    | ToForcePower
    | ToSkill
    | ToVehicle
    | ToNpc
    | Skipped
  {
    /** The record type the conversion files its record under. */
    function FiledAs(): string {
      match this
      case ToItem => "items"
      case ToBasic(recordType, _) => recordType
      case ToForcePower => "force_powers"
      case ToSkill => "skills"
      case ToVehicle => "vehicles"
      case ToNpc => "npcs"
      case Skipped => "unknown"
    }
  }

  /** The `if`/`elif` chain of `convert_oggdude_to_realm_vtt`. */
  function ConversionFor(t: Value): Conversion {
    if t == VStr("items") then ToItem
    else if t == VStr("species") then ToBasic("species", "Unknown Species")
    else if t == VStr("careers") then ToBasic("careers", "Unknown Career")
    else if t == VStr("specializations") then ToBasic("specializations", "Unknown Specialization")
    else if t == VStr("talents") then ToBasic("talents", "Unknown Talent")
    else if t == VStr("force_powers") then ToForcePower
    else if t == VStr("skills") then ToSkill
    else if t == VStr("vehicles") then ToVehicle
    else if t == VStr("npcs") then ToNpc
    else Skipped
  }

  /** Exactly the nine known record types select a conversion, and each selects one that
      files its record under that same type. */
  lemma ConversionForType(t: Value)
    ensures ConversionFor(t) == Skipped <==> !KnownRecordType(t)
    ensures ConversionFor(t) != Skipped ==> t == VStr(ConversionFor(t).FiledAs())
  {
  }

  /** The outcome of every conversion but the item one, which is determined exactly. */
  function ConversionResult(c: Conversion, itemMap: map<string, string>, record: Dict, campaignId: string,
                            category: string, rw: Rewriter): Result<Option<Dict>> {
    match c
    case ToBasic(recordType, unknown) => Found(BasicSpec(record, campaignId, category, rw, recordType, unknown))
    case ToForcePower => Found(ForcePowerSpec(record, campaignId, category, rw))
    case ToSkill => Found(SkillSpec(record, campaignId, category, rw))
    case ToVehicle => Found(VehicleSpec(record, campaignId, category, rw))
    case ToNpc => Found(NpcSpec(itemMap, record, campaignId, category, rw))
    case _ => Ok(None)
  }

  /** `r` is what `convert_oggdude_to_realm_vtt` may give the record. */
  predicate Converts(itemMap: map<string, string>, record: Dict, campaignId: string, category: string,
                     rw: Rewriter, r: Result<Option<Dict>>) {
    var c := ConversionFor(RecordTypeOf(record));
    if c == ToItem then
      match r
      case Ok(None) => false
      case Ok(Some(d)) => ConvertsItem(record, campaignId, category, rw, Ok(d))
      case Err(e) => ConvertsItem(record, campaignId, category, rw, Err(e))
    else r == ConversionResult(c, itemMap, record, campaignId, category, rw)
  }

  /** A basic conversion files its record under its own type. */
  lemma BasicFiled(record: Dict, campaignId: string, category: string, rw: Rewriter, recordType: string, unknown: string)
    requires BasicSpec(record, campaignId, category, rw, recordType, unknown).Ok?
    ensures "recordType" in BasicSpec(record, campaignId, category, rw, recordType, unknown).value.vals &&
      BasicSpec(record, campaignId, category, rw, recordType, unknown).value.vals["recordType"] == VStr(recordType)
  {
    BasicRecordAt(record, campaignId, category, recordType, unknown, true, DescribedData(record, rw).value);
  }

  lemma VehicleFiled(record: Dict, campaignId: string, category: string, rw: Rewriter)
    requires VehicleSpec(record, campaignId, category, rw).Ok?
    ensures "recordType" in VehicleSpec(record, campaignId, category, rw).value.vals &&
      VehicleSpec(record, campaignId, category, rw).value.vals["recordType"] == VStr("vehicles")
  {
    BasicRecordAt(record, campaignId, category, "vehicles", "Unknown Vehicle", true,
                  ConvertRestricted(DescribedData(record, rw).value));
  }

  lemma ForcePowerFiled(record: Dict, campaignId: string, category: string, rw: Rewriter)
    requires ForcePowerSpec(record, campaignId, category, rw).Ok?
    ensures "recordType" in ForcePowerSpec(record, campaignId, category, rw).value.vals &&
      ForcePowerSpec(record, campaignId, category, rw).value.vals["recordType"] == VStr("force_powers")
  {
    ForcePowerRecordAt(record.Get("name", VStr("Unknown Force Power")),
                       DescriptionSpec(record.Get("description", VStr("")), rw).value,
                       record.Get("data", VDict(EmptyDict)).d, campaignId, category);
  }

  lemma SkillFiled(record: Dict, campaignId: string, category: string, rw: Rewriter)
    requires SkillSpec(record, campaignId, category, rw).Ok?
    ensures "recordType" in SkillSpec(record, campaignId, category, rw).value.vals &&
      SkillSpec(record, campaignId, category, rw).value.vals["recordType"] == VStr("skills")
  {
    SkillRecordAt(SkillNameOf(record.Get("name", VStr("Unknown Skill"))).value,
                  DescriptionSpec(record.Get("description", VStr("")), rw).value,
                  record.Get("data", VDict(EmptyDict)).d, campaignId, category);
  }

  /** A conversion gives a record exactly when it has a type, and files it under that type. */
  predicate Filed(c: Conversion, itemMap: map<string, string>, record: Dict, campaignId: string,
                  category: string, rw: Rewriter)
    requires c != ToItem
  {
    var r := ConversionResult(c, itemMap, record, campaignId, category, rw);
    (r == Ok(None) <==> c == Skipped) &&
    (r.Ok? && r.value.Some? ==> "recordType" in r.value.value.vals && r.value.value.vals["recordType"] == VStr(c.FiledAs()))
  }

  lemma BasicConversionFiled(c: Conversion, itemMap: map<string, string>, record: Dict, campaignId: string,
                             category: string, rw: Rewriter)
    requires c.ToBasic?
    ensures Filed(c, itemMap, record, campaignId, category, rw)
  {
    hide BasicSpec, ForcePowerSpec, SkillSpec, VehicleSpec, NpcSpec;
    if BasicSpec(record, campaignId, category, rw, c.recordType, c.unknown).Ok? {
      BasicFiled(record, campaignId, category, rw, c.recordType, c.unknown);
    }
  }

  lemma ForcePowerConversionFiled(itemMap: map<string, string>, record: Dict, campaignId: string,
                                  category: string, rw: Rewriter)
    ensures Filed(ToForcePower, itemMap, record, campaignId, category, rw)
  {
    hide BasicSpec, ForcePowerSpec, SkillSpec, VehicleSpec, NpcSpec;
    if ForcePowerSpec(record, campaignId, category, rw).Ok? {
      ForcePowerFiled(record, campaignId, category, rw);
    }
  }

  lemma SkillConversionFiled(itemMap: map<string, string>, record: Dict, campaignId: string,
                             category: string, rw: Rewriter)
    ensures Filed(ToSkill, itemMap, record, campaignId, category, rw)
  {
    hide BasicSpec, ForcePowerSpec, SkillSpec, VehicleSpec, NpcSpec;
    if SkillSpec(record, campaignId, category, rw).Ok? {
      SkillFiled(record, campaignId, category, rw);
    }
  }

  lemma VehicleConversionFiled(itemMap: map<string, string>, record: Dict, campaignId: string,
                               category: string, rw: Rewriter)
    ensures Filed(ToVehicle, itemMap, record, campaignId, category, rw)
  {
    hide BasicSpec, ForcePowerSpec, SkillSpec, VehicleSpec, NpcSpec;
    if VehicleSpec(record, campaignId, category, rw).Ok? {
      VehicleFiled(record, campaignId, category, rw);
    }
  }

  lemma NpcConversionFiled(itemMap: map<string, string>, record: Dict, campaignId: string,
                           category: string, rw: Rewriter)
    ensures Filed(ToNpc, itemMap, record, campaignId, category, rw)
  {
    hide BasicSpec, ForcePowerSpec, SkillSpec, VehicleSpec, NpcSpec;
    if NpcSpec(itemMap, record, campaignId, category, rw).Ok? {
      NpcLinks(itemMap, record, campaignId, category, rw, "type");
    }
  }

  /** Every conversion but the item one gives a record exactly when the record type is
      known, and files it under that type. */
  lemma ConversionFiled(c: Conversion, itemMap: map<string, string>, record: Dict, campaignId: string,
                        category: string, rw: Rewriter)
    requires c != ToItem
    ensures Filed(c, itemMap, record, campaignId, category, rw)
  {
    match c
    case ToBasic(_, _) => BasicConversionFiled(c, itemMap, record, campaignId, category, rw);
    case ToForcePower => ForcePowerConversionFiled(itemMap, record, campaignId, category, rw);
    case ToSkill => SkillConversionFiled(itemMap, record, campaignId, category, rw);
    case ToVehicle => VehicleConversionFiled(itemMap, record, campaignId, category, rw);
    case ToNpc => NpcConversionFiled(itemMap, record, campaignId, category, rw);
    case Skipped => assert ConversionResult(c, itemMap, record, campaignId, category, rw) == Ok(None);
  }

  // ---------------------------------------------------------------------------
  // Record counts and talent trees

  /** What `get_record_counts` gives: each record type mapped to the number of its records. */
  function CountsOf(b: Buckets, types: seq<string>): map<string, Value> {
    map k | k in types :: VInt(|b.Get(k)|)
  }

  lemma CountsOfNone(b: Buckets)
    ensures CountsOf(b, []) == map[]
  {
  }

  /** One more type adds its count. */
  lemma CountsOfAppend(b: Buckets, types: seq<string>, k: string)
    ensures CountsOf(b, types + [k]) == CountsOf(b, types)[k := VInt(|b.Get(k)|)]
  {
  }

  /** The talent trees map: each talent, in order of first appearance, with the names of the
      specializations it appears in. */
  datatype Trees = Trees(order: seq<Value>, lists: map<Value, seq<Value>>)
  {
    ghost predicate Valid() {
      (forall i, j :: 0 <= i < j < |order| ==> order[i] != order[j]) &&
      (forall k :: k in lists <==> k in order)
    }

    /** `talent_trees.get(k, [])` */
    function Get(k: Value): seq<Value> {
      if k in lists then lists[k] else []
    }

    /** `talent_trees.setdefault(k, []).append(v)` */
    function Append(k: Value, v: Value): (r: Trees)
      ensures r.Get(k) == Get(k) + [v]
      ensures forall x :: x != k ==> r.Get(x) == Get(x)
      ensures forall x :: x in r.lists <==> x in lists || x == k
      ensures Valid() ==> r.Valid()
    {
      if k in lists then Trees(order, lists[k := lists[k] + [v]])
      else Trees(order + [k], lists[k := [v]])
    }
  }

  /** `spec.get('data', {}).get('talents', [])`, iterated. */
  function TalentsOf(spec: Dict): Result<seq<Value>> {
    var data := spec.Get("data", VDict(EmptyDict));
    if !data.VDict? then Err("AttributeError: object has no attribute 'get'")
    else Iterate(data.d.Get("talents", VList([])))
  }

  /** The inner loop: `name` appended to the tree list of each talent in turn. */
  function AddTalents(t: Trees, talents: seq<Value>, name: Value): Result<Trees>
    decreases |talents|
  {
    if |talents| == 0 then Ok(t)
    else match AddTalents(t, talents[..|talents| - 1], name)
      case Err(e) => Err(e)
      case Ok(t') =>
        var talent := talents[|talents| - 1];
        if !Hashable(talent) then Err("TypeError: unhashable type")
        else Ok(t'.Append(talent, name))
  }

  /** The outer loop of `build_talent_trees_map`, over the first `n` specializations. */
  function TalentTrees(specs: seq<Dict>): Result<Trees>
    decreases |specs|
  {
    if |specs| == 0 then Ok(Trees([], map[]))
    else match TalentTrees(specs[..|specs| - 1])
      case Err(e) => Err(e)
      case Ok(t) =>
        var spec := specs[|specs| - 1];
        match TalentsOf(spec)
        case Err(e) => Err(e)
        case Ok(talents) => AddTalents(t, talents, spec.Get("name", VStr("")))
  }

  /** How often `x` occurs in `xs`. */
  function Count(xs: seq<Value>, x: Value): nat
    decreases |xs|
  {
    if |xs| == 0 then 0 else Count(xs[..|xs| - 1], x) + (if xs[|xs| - 1] == x then 1 else 0)
  }

  /** `[v] * n` */
  function Copies(v: Value, n: nat): (r: seq<Value>)
    ensures |r| == n && forall i :: 0 <= i < n ==> r[i] == v
  {
    if n == 0 then [] else Copies(v, n - 1) + [v]
  }

  /** The reference reading of the map: for a talent, each specialization's name once for every
      time the talent appears in that specialization's list, specializations in order. */
  function TreesOf(specs: seq<Dict>, talent: Value): seq<Value>
    decreases |specs|
  {
    if |specs| == 0 then []
    else
      var spec := specs[|specs| - 1];
      var here := match TalentsOf(spec) case Ok(ts) => Count(ts, talent) case Err(_) => 0;
      TreesOf(specs[..|specs| - 1], talent) + Copies(spec.Get("name", VStr("")), here)
  }

  /** Every specialization's talents can be read, and every talent is hashable. */
  predicate AllTalentsHashable(specs: seq<Dict>) {
    forall i :: 0 <= i < |specs| ==>
      TalentsOf(specs[i]).Ok? && forall j :: 0 <= j < |TalentsOf(specs[i]).value| ==> Hashable(TalentsOf(specs[i]).value[j])
  }

  /** The inner loop succeeds exactly on hashable talents. */
  lemma {:induction false} AddTalentsOk(t: Trees, talents: seq<Value>, name: Value)
    ensures AddTalents(t, talents, name).Ok? <==> forall j :: 0 <= j < |talents| ==> Hashable(talents[j])
    decreases |talents|
  {
    hide Trees.Append, Hashable;
    if |talents| > 0 {
      var init := talents[..|talents| - 1];
      AddTalentsOk(t, init, name);
      assert forall j :: 0 <= j < |init| ==> init[j] == talents[j];
    }
  }

  /** The inner loop keeps the map well formed and adds exactly the talents it is given. */
  lemma {:induction false} AddTalentsKeys(t: Trees, talents: seq<Value>, name: Value)
    requires AddTalents(t, talents, name).Ok?
    ensures t.Valid() ==> AddTalents(t, talents, name).value.Valid()
    ensures forall k :: k in AddTalents(t, talents, name).value.lists <==> k in t.lists || k in talents
    decreases |talents|
  {
    if |talents| > 0 {
      var init := talents[..|talents| - 1];
      AddTalentsKeys(t, init, name);
      var last := talents[|talents| - 1];
      var r0 := AddTalents(t, init, name).value;
      assert AddTalents(t, talents, name) == Ok(r0.Append(last, name));
      forall k ensures k in talents <==> k in init || k == last {
        if k in talents {
          var j :| 0 <= j < |talents| && talents[j] == k;
          if j < |init| {
            assert init[j] == k;
          }
        }
      }
    }
  }

  /** The inner loop adds `name` to a talent's list once per occurrence of the talent. */
  lemma {:induction false} AddTalentsLists(t: Trees, talents: seq<Value>, name: Value, k: Value)
    requires AddTalents(t, talents, name).Ok?
    ensures AddTalents(t, talents, name).value.Get(k) == t.Get(k) + Copies(name, Count(talents, k))
    decreases |talents|
  {
    hide Trees.Append, Hashable, Trees.Valid;
    if |talents| > 0 {
      var init := talents[..|talents| - 1];
      AddTalentsLists(t, init, name, k);
      var last := talents[|talents| - 1];
      var pre := AddTalents(t, init, name).value;
      var r := AddTalents(t, talents, name).value;
      assert r == pre.Append(last, name);
      var before := Copies(name, Count(init, k));
      if last == k {
        assert Count(talents, k) == Count(init, k) + 1;
        assert Copies(name, Count(talents, k)) == before + [name];
        assert r.Get(k) == (t.Get(k) + before) + [name];
      } else {
        assert Count(talents, k) == Count(init, k);
        assert r.Get(k) == pre.Get(k);
      }
    } else {
      assert Count(talents, k) == 0;
    }
  }

  /** `build_talent_trees_map` succeeds exactly when every talent list can be read and holds
      only hashable talents. */
  lemma {:induction false} TalentTreesOk(specs: seq<Dict>)
    ensures TalentTrees(specs).Ok? <==> AllTalentsHashable(specs)
    decreases |specs|
  {
    if |specs| > 0 {
      var init := specs[..|specs| - 1];
      var spec := specs[|specs| - 1];
      TalentTreesOk(init);
      assert forall i :: 0 <= i < |init| ==> init[i] == specs[i];
      if TalentTrees(init).Ok? && TalentsOf(spec).Ok? {
        AddTalentsOk(TalentTrees(init).value, TalentsOf(spec).value, spec.Get("name", VStr("")));
      }
    }
  }

  /** `k` is in the talent list of one of the specializations. */
  predicate Listed(specs: seq<Dict>, k: Value) {
    exists i :: 0 <= i < |specs| && TalentsOf(specs[i]).Ok? && k in TalentsOf(specs[i]).value
  }

  lemma ListedLast(specs: seq<Dict>, k: Value)
    requires |specs| > 0
    ensures Listed(specs, k) <==>
            Listed(specs[..|specs| - 1], k) ||
            (TalentsOf(specs[|specs| - 1]).Ok? && k in TalentsOf(specs[|specs| - 1]).value)
  {
    var init := specs[..|specs| - 1];
    hide TalentsOf, Iterate;
    var n := |specs| - 1;
    var last := TalentsOf(specs[n]).Ok? && k in TalentsOf(specs[n]).value;
    if Listed(specs, k) {
      var i :| 0 <= i < |specs| && TalentsOf(specs[i]).Ok? && k in TalentsOf(specs[i]).value;
      if i < n {
        assert init[i] == specs[i];
        assert 0 <= i < |init| && TalentsOf(init[i]).Ok? && k in TalentsOf(init[i]).value;
      } else {
        assert last;
      }
    }
    if Listed(init, k) {
      var i :| 0 <= i < |init| && TalentsOf(init[i]).Ok? && k in TalentsOf(init[i]).value;
      assert init[i] == specs[i];
      assert 0 <= i < |specs| && TalentsOf(specs[i]).Ok? && k in TalentsOf(specs[i]).value;
    }
    if last {
      assert 0 <= n < |specs| && TalentsOf(specs[n]).Ok? && k in TalentsOf(specs[n]).value;
    }
  }

  /** The talents in the map are exactly those of the specializations, each listed once, in
      order of first appearance. */
  lemma {:induction false} TalentTreesKeys(specs: seq<Dict>)
    requires TalentTrees(specs).Ok?
    ensures TalentTrees(specs).value.Valid()
    ensures forall k :: k in TalentTrees(specs).value.lists <==> Listed(specs, k)
    decreases |specs|
  {
    if |specs| > 0 {
      var init := specs[..|specs| - 1];
      var spec := specs[|specs| - 1];
      TalentTreesKeys(init);
      var talents := TalentsOf(spec).value;
      AddTalentsKeys(TalentTrees(init).value, talents, spec.Get("name", VStr("")));
      forall k ensures k in TalentTrees(specs).value.lists <==> Listed(specs, k) {
        ListedLast(specs, k);
      }
    }
  }

  /** Each talent maps to the reference list of tree names. */
  lemma {:induction false} TalentTreesLists(specs: seq<Dict>, k: Value)
    requires TalentTrees(specs).Ok?
    ensures TalentTrees(specs).value.Get(k) == TreesOf(specs, k)
    decreases |specs|
  {
    if |specs| > 0 {
      var init := specs[..|specs| - 1];
      var spec := specs[|specs| - 1];
      TalentTreesLists(init, k);
      AddTalentsLists(TalentTrees(init).value, TalentsOf(spec).value, spec.Get("name", VStr("")), k);
    }
  }

  // ---------------------------------------------------------------------------
  // The mapper's state and the conversions that read it

  class DataMapper {
    var itemMap: map<string, string>
    var talentMap: map<string, string>
    var speciesMap: map<string, string>
    var careerMap: map<string, string>
    var specMap: map<string, string>
    var forcePowerMap: map<string, string>

    constructor()
      ensures forall kind :: MapOf(kind) == map[]
    {
      itemMap := map[];
      talentMap := map[];
      speciesMap := map[];
      careerMap := map[];
      specMap := map[];
      forcePowerMap := map[];
    }

    function MapOf(kind: Registry): map<string, string>
      reads this
    {
      match kind
      case ItemNames => itemMap
      case TalentNames => talentMap
      case SpeciesNames => speciesMap
      case CareerNames => careerMap
      case SpecNames => specMap
      case ForcePowerNames => forcePowerMap
    }

    /** `get_item_id`, `get_talent_id`, ...: `d.get(name)` on the matching registry. */
    function GetId(kind: Registry, name: string): Option<string>
      reads this
    {
      if name in MapOf(kind) then Some(MapOf(kind)[name]) else None
    }

    /** `add_item_mapping`, `add_talent_mapping`, ...: the name now maps to the id, and
        every other name and every other registry are as they were. */
    method AddMapping(kind: Registry, name: string, realmId: string)
      modifies this
      ensures MapOf(kind) == old(MapOf(kind))[name := realmId]
      ensures GetId(kind, name) == Some(realmId)
      ensures forall n :: n != name ==> GetId(kind, n) == old(GetId(kind, n))
      ensures forall other :: other != kind ==> MapOf(other) == old(MapOf(other))
    {
      match kind
      case ItemNames => itemMap := itemMap[name := realmId];
      case TalentNames => talentMap := talentMap[name := realmId];
      case SpeciesNames => speciesMap := speciesMap[name := realmId];
      case CareerNames => careerMap := careerMap[name := realmId];
      case SpecNames => specMap := specMap[name := realmId];
      case ForcePowerNames => forcePowerMap := forcePowerMap[name := realmId];
    }

    /** One linking loop of `_convert_npc`. */
    method LinkNames(names: seq<Value>, campaignId: string, category: string, placeholder: Dict)
      returns (r: Result<seq<Value>>)
      ensures r == Linked(itemMap, names, campaignId, category, placeholder)
    {
      var entries: seq<Value> := [];
      var i := 0;
      while i < |names|
        invariant 0 <= i <= |names|
        invariant Linked(itemMap, names[..i], campaignId, category, placeholder) == Ok(entries)
      {
        assert names[..i + 1][..i] == names[..i];
        var entry := LinkEntry(itemMap, names[i], campaignId, category, placeholder);
        if entry.Err? {
          LinkedErrPersists(itemMap, names, i + 1, campaignId, category, placeholder);
          return Err(entry.error);
        }
        entries := entries + [entry.value];
        i := i + 1;
      }
      assert names[..i] == names;
      r := Ok(entries);
    }

    /** One list of the NPC: read it, link it, store the links. */
    method LinkField(data: Dict, key: string, campaignId: string, category: string, placeholder: Dict)
      returns (r: Result<Dict>)
      ensures r == LinkedField(itemMap, data, key, campaignId, category, placeholder)
    {
      var names := Iterate(data.Get(key, VList([])));
      if names.Err? {
        return Err(names.error);
      }
      var linked := LinkNames(names.value, campaignId, category, placeholder);
      if linked.Err? {
        return Err(linked.error);
      }
      r := Ok(data.Put(key, VList(linked.value)));
    }

    /** `_convert_npc` */
    method ConvertNpc(npc: Dict, campaignId: string, category: string, rw: Rewriter) returns (r: Result<Dict>)
      ensures r == NpcSpec(itemMap, npc, campaignId, category, rw)
    {
      var data := PrepareData(npc, rw);
      if data.Err? {
        return Err(data.error);
      }
      var d := LinkField(data.value, "equipment", campaignId, category, GearPlaceholder());
      if d.Err? {
        return Err(d.error);
      }
      d := LinkField(d.value, "weapons", campaignId, category, WeaponPlaceholder());
      if d.Err? {
        return Err(d.error);
      }
      d := LinkField(d.value, "armor", campaignId, category, ArmorPlaceholder());
      if d.Err? {
        return Err(d.error);
      }
      r := Ok(BasicRecord(npc, campaignId, category, "npcs", "Unknown NPC", false, d.value));
    }

    /** `convert_oggdude_to_realm_vtt`: the conversion the record's `recordType` selects, or
        `None` for a type it does not know. */
    method ConvertRecord(record: Dict, campaignId: string, category: string, rw: Rewriter)
      returns (r: Result<Option<Dict>>)
      ensures Converts(itemMap, record, campaignId, category, rw, r)
    {
      var conversion := ConversionFor(record.Get("recordType", VStr("unknown")));
      if conversion == ToItem {
        var c := ConvertItem(record, campaignId, category, rw);
        r := Found(c);
      } else {
        r := ConvertOther(conversion, record, campaignId, category, rw);
      }
    }

    /** The branches of `convert_oggdude_to_realm_vtt` past the item one. */
    method ConvertOther(conversion: Conversion, record: Dict, campaignId: string, category: string, rw: Rewriter)
      returns (r: Result<Option<Dict>>)
      requires conversion != ToItem
      ensures r == ConversionResult(conversion, itemMap, record, campaignId, category, rw)
    {
      var c: Result<Dict>;
      match conversion {
        case ToBasic(recordType, unknown) =>
          c := ConvertBasic(record, campaignId, category, rw, recordType, unknown);
        case ToForcePower =>
          c := ConvertForcePower(record, campaignId, category, rw);
        case ToSkill =>
          c := ConvertSkill(record, campaignId, category, rw);
        case ToVehicle =>
          c := ConvertVehicle(record, campaignId, category, rw);
        case ToNpc =>
          c := ConvertNpc(record, campaignId, category, rw);
        case Skipped =>
          return Ok(None);
      }
      r := Found(c);
    }

    /** `get_record_counts`: each record type, in the dict's order, with its number of records. */
    method GetRecordCounts(all: Buckets) returns (r: Dict)
      ensures r.vals == CountsOf(all, all.order)
      ensures all.Valid() ==> r.keys == all.order
    {
      r := EmptyDict;
      CountsOfNone(all);
      for i := 0 to |all.order|
        invariant r.vals == CountsOf(all, all.order[..i])
        invariant all.Valid() ==> r.keys == all.order[..i]
      {
        hide CountsOf, Buckets.Get;
        var k := all.order[i];
        assert all.order[..i + 1] == all.order[..i] + [k];
        assert all.Valid() ==> k !in all.order[..i];
        CountsOfAppend(all, all.order[..i], k);
        r := r.Put(k, VInt(|all.Get(k)|));
      }
      assert all.order[..|all.order|] == all.order;
    }

    /** `build_talent_trees_map` */
    method BuildTalentTrees(specs: seq<Dict>) returns (r: Result<Trees>)
      ensures r == TalentTrees(specs)
    {
      var trees := Trees([], map[]);
      for i := 0 to |specs|
        invariant TalentTrees(specs[..i]) == Ok(trees)
      {
        var spec := specs[i];
        assert specs[..i + 1][..i] == specs[..i];
        var name := spec.Get("name", VStr(""));
        var talents := TalentsOf(spec);
        if talents.Err? {
          TalentTreesErrPersists(specs, i + 1);
          return Err(talents.error);
        }
        var ts := talents.value;
        for j := 0 to |ts|
          invariant AddTalents(TalentTrees(specs[..i]).value, ts[..j], name) == Ok(trees)
        {
          assert ts[..j + 1][..j] == ts[..j];
          if !Hashable(ts[j]) {
            AddTalentsErrPersists(TalentTrees(specs[..i]).value, ts, j + 1, name);
            TalentTreesErrPersists(specs, i + 1);
            return Err("TypeError: unhashable type");
          }
          trees := trees.Append(ts[j], name);
        }
        assert ts[..|ts|] == ts;
      }
      assert specs[..|specs|] == specs;
      r := Ok(trees);
    }
  }

  /** Once a prefix of the names fails to link, the whole list fails the same way. */
  lemma {:induction false} LinkedErrPersists(itemMap: map<string, string>, names: seq<Value>, n: nat,
                                            campaignId: string, category: string, placeholder: Dict)
    requires n <= |names| && Linked(itemMap, names[..n], campaignId, category, placeholder).Err?
    ensures Linked(itemMap, names, campaignId, category, placeholder) ==
            Linked(itemMap, names[..n], campaignId, category, placeholder)
    decreases |names| - n
  {
    if n < |names| {
      assert names[..n + 1][..n] == names[..n];
      LinkedErrPersists(itemMap, names, n + 1, campaignId, category, placeholder);
    } else {
      assert names[..n] == names;
    }
  }

  lemma {:induction false} AddTalentsErrPersists(t: Trees, talents: seq<Value>, n: nat, name: Value)
    requires n <= |talents| && AddTalents(t, talents[..n], name).Err?
    ensures AddTalents(t, talents, name) == AddTalents(t, talents[..n], name)
    decreases |talents| - n
  {
    if n < |talents| {
      assert talents[..n + 1][..n] == talents[..n];
      AddTalentsErrPersists(t, talents, n + 1, name);
    } else {
      assert talents[..n] == talents;
    }
  }

  lemma {:induction false} TalentTreesErrPersists(specs: seq<Dict>, n: nat)
    requires n <= |specs| && TalentTrees(specs[..n]).Err?
    ensures TalentTrees(specs) == TalentTrees(specs[..n])
    decreases |specs| - n
  {
    if n < |specs| {
      assert specs[..n + 1][..n] == specs[..n];
      TalentTreesErrPersists(specs, n + 1);
    } else {
      assert specs[..n] == specs;
    }
  }
}
