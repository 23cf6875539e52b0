/** The file-level half of `XMLParser.parse_xml_file`: which extractor a file's root element
    is handed to, and how many records each branch gives. */
module XmlFiles {
  import opened Wrappers
  import opened Text
  import opened Values
  import opened Records
  import opened Sources
  import opened XmlElements
  import opened Filtering
  import opened XmlParsing

  // ---------------------------------------------------------------------------------------
  // What a parsed record carries
  // ---------------------------------------------------------------------------------------

  /** `record.get('recordType', 'unknown')` */
  function RecordTypeOf(x: Dict): Value {
    x.Get("recordType", VStr("unknown"))
  }

  /** A record as the extractors build it: its type is a string and its sources are a list of
      strings. */
  predicate WellFormedRecord(x: Dict) {
    RecordTypeOf(x).VStr? && "sources" in x.vals && x.vals["sources"].VList? &&
    forall i :: 0 <= i < |x.vals["sources"].items| ==> x.vals["sources"].items[i].VStr?
  }

  /** A well-formed record, of type `t` when `t` is given. */
  predicate OfType(x: Dict, t: Option<string>) {
    WellFormedRecord(x) && (t.Some? ==> RecordTypeOf(x) == VStr(t.value))
  }

  predicate AllOfType(records: seq<Dict>, t: Option<string>) {
    forall i :: 0 <= i < |records| ==> OfType(records[i], t)
  }

  // ---------------------------------------------------------------------------------------
  // Dispatch on the root element (`parse_xml_file` and the `_parse_*` helpers)
  // ---------------------------------------------------------------------------------------

  /** The branch of `parse_xml_file` a root tag selects. */
  datatype RootKind =
    | WeaponsRoot | SpeciesRoot | CareerRoot | SpecializationRoot | TalentRoot
    | ForcePowerRoot | VehicleRoot | ArmorRoot | GearRoot | GenericRoot

  function KindOf(tag: string): RootKind {
    if tag == "Weapons" then WeaponsRoot
    else if tag == "Species" then SpeciesRoot
    else if tag == "Career" then CareerRoot
    else if tag == "Specialization" then SpecializationRoot
    else if tag == "Talent" then TalentRoot
    else if tag == "ForcePower" then ForcePowerRoot
    else if tag == "Vehicle" then VehicleRoot
    else if tag == "Armor" then ArmorRoot
    else if tag == "Gear" then GearRoot
    else GenericRoot
  }

  /** The record type every record of a root of the given kind has, when the kind fixes one:
      armor and gear are both `items`. */
  function KindRecordType(k: RootKind): Option<string> {
    match k
    case WeaponsRoot => Some("weapons")
    case SpeciesRoot => Some("species")
    case CareerRoot => Some("careers")
    case SpecializationRoot => Some("specializations")
    case TalentRoot => Some("talents")
    case ForcePowerRoot => Some("force_powers")
    case VehicleRoot => Some("vehicles")
    case ArmorRoot => Some("items")
    case GearRoot => Some("items")
    case GenericRoot => None
  }

  /** The kinds whose branch extracts one record per element it loops over. */
  predicate OnePerElement(k: RootKind) {
    k != WeaponsRoot && k != GenericRoot
  }

  /** The records a loop over `es` gathers when element `e` contributes `f(e)`, over the first
      `n` elements. Every branch of `parse_xml_file` is such a loop: over the `Weapon` or
      `Species` children, over the root's children, or over the root alone. */
  function Collect(es: seq<Element>, f: Element -> seq<Dict>, n: nat): seq<Dict>
    requires n <= |es|
  {
    if n == 0 then [] else Collect(es, f, n - 1) + f(es[n - 1])
  }

  function CollectAll(es: seq<Element>, f: Element -> seq<Dict>): seq<Dict> {
    Collect(es, f, |es|)
  }

  /** A weapon that fails to extract is skipped. */
  function WeaponEntry(fm: FieldMapping): Element -> seq<Dict>
    requires ValidMapping(fm)
  {
    (w: Element) => match WeaponRecord(fm, RawWeapon(w), SourcesOf(w)) case None => [] case Some(x) => [x]
  }

  /** The extractors that give one record per element. */
  function SpeciesEntry(fm: FieldMapping): Element -> seq<Dict>
    requires ValidMapping(fm)
  {
    (e: Element) => [SpeciesRecord(fm, e)]
  }

  function CareerEntry(fm: FieldMapping): Element -> seq<Dict>
    requires ValidMapping(fm)
  {
    (e: Element) => [CareerRecord(fm, e)]
  }

  function SpecializationEntry(fm: FieldMapping): Element -> seq<Dict>
    requires ValidMapping(fm)
  {
    (e: Element) => [SpecializationRecord(fm, e)]
  }

  function TalentEntry(fm: FieldMapping): Element -> seq<Dict>
    requires ValidMapping(fm)
  {
    (e: Element) => [TalentRecord(fm, e)]
  }

  function ForcePowerEntry(fm: FieldMapping): Element -> seq<Dict>
    requires ValidMapping(fm)
  {
    (e: Element) => [ForcePowerRecord(fm, e)]
  }

  function VehicleEntry(fm: FieldMapping): Element -> seq<Dict>
    requires ValidMapping(fm)
  {
    (e: Element) => [VehicleRecord(fm, e)]
  }

  function ArmorEntry(fm: FieldMapping): Element -> seq<Dict>
    requires ValidMapping(fm)
  {
    (e: Element) => [ArmorRecord(fm, e)]
  }

  function GearEntry(fm: FieldMapping): Element -> seq<Dict>
    requires ValidMapping(fm)
  {
    (e: Element) => [GearRecord(fm, e)]
  }

  /** The singular tag of a plural container: the tag without its final `s`. */
  function Singular(tag: string): string
    requires EndsWith(tag, "s")
  {
    tag[..|tag| - 1]
  }

  /** An element handed to `_extract_generic_data` with the given record type. */
  function GenericEntry(fm: FieldMapping, recordType: string): Element -> seq<Dict>
    requires ValidMapping(fm)
  {
    (e: Element) => [GenericRecord(fm, e, recordType)]
  }

  /** The items a child of the root stands for in `_parse_generic`: a child whose tag ends
      in `s` is a container of items, any other child is an item itself. */
  function ChildItems(c: Element): seq<Element> {
    if EndsWith(c.tag, "s") then c.children else [c]
  }

  /** The record type of those items: the container's singular tag, or the child's own tag. */
  function ChildType(c: Element): string {
    if EndsWith(c.tag, "s") then Singular(c.tag) else c.tag
  }

  /** What one child of the root contributes to `_parse_generic`. */
  function ChildRecords(fm: FieldMapping, c: Element): seq<Dict>
    requires ValidMapping(fm)
  {
    CollectAll(ChildItems(c), GenericEntry(fm, ChildType(c)))
  }

  function GenericChild(fm: FieldMapping): Element -> seq<Dict>
    requires ValidMapping(fm)
  {
    (c: Element) => ChildRecords(fm, c)
  }

  /** The elements the branch for a root loops over. */
  function KindElements(k: RootKind, root: Element): seq<Element> {
    match k
    case WeaponsRoot => root.FindAll("Weapon")
    case SpeciesRoot => root.FindAll("Species")
    case GenericRoot => root.children
    case _ => [root]
  }

  /** What each of those elements contributes. */
  function KindEntry(fm: FieldMapping, k: RootKind): Element -> seq<Dict>
    requires ValidMapping(fm)
  {
    match k
    case WeaponsRoot => WeaponEntry(fm)
    case SpeciesRoot => SpeciesEntry(fm)
    case CareerRoot => CareerEntry(fm)
    case SpecializationRoot => SpecializationEntry(fm)
    case TalentRoot => TalentEntry(fm)
    case ForcePowerRoot => ForcePowerEntry(fm)
    case VehicleRoot => VehicleEntry(fm)
    case ArmorRoot => ArmorEntry(fm)
    case GearRoot => GearEntry(fm)
    case GenericRoot => GenericChild(fm)
  }

  function ParsedRecords(fm: FieldMapping, root: Element): seq<Dict>
    requires ValidMapping(fm)
  {
    var k := KindOf(root.tag);
    CollectAll(KindElements(k, root), KindEntry(fm, k))
  }

  /** A file is its root element, or `None` when it is not well-formed XML: the parse error is
      caught and the file gives no records. */
  function ParsedFile(fm: FieldMapping, file: Option<Element>): seq<Dict>
    requires ValidMapping(fm)
  {
    match file
    case None => []
    case Some(root) => ParsedRecords(fm, root)
  }

  // ---------------------------------------------------------------------------------------
  // The parsing loops
  // ---------------------------------------------------------------------------------------

  /** `_parse_weapons` */
  method ParseWeapons(fm: FieldMapping, root: Element) returns (r: seq<Dict>)
    requires ValidMapping(fm)
    ensures r == CollectAll(root.FindAll("Weapon"), WeaponEntry(fm))
  {
    var ws := root.FindAll("Weapon");
    r := [];
    for i := 0 to |ws|
      invariant r == Collect(ws, WeaponEntry(fm), i)
    {
      r := ParseWeapon(fm, ws, i, r);
    }
  }

  /** One pass of the loop of `_parse_weapons`: a weapon that extracts is appended. */
  method ParseWeapon(fm: FieldMapping, ws: seq<Element>, i: nat, acc: seq<Dict>) returns (r: seq<Dict>)
    requires ValidMapping(fm) && i < |ws| && acc == Collect(ws, WeaponEntry(fm), i)
    ensures r == Collect(ws, WeaponEntry(fm), i + 1)
  {
    hide WeaponRecord, RawWeapon, SourcesOf;
    var x := ExtractWeaponData(fm, ws[i]);
    r := if x.Some? then acc + [x.value] else acc;
  }

  /** `_parse_species` */
  method ParseSpecies(fm: FieldMapping, root: Element) returns (r: seq<Dict>)
    requires ValidMapping(fm)
    ensures r == CollectAll(root.FindAll("Species"), SpeciesEntry(fm))
  {
    var ss := root.FindAll("Species");
    r := [];
    for i := 0 to |ss|
      invariant r == Collect(ss, SpeciesEntry(fm), i)
    {
      r := ParseOneSpecies(fm, ss, i, r);
    }
  }

  /** One pass of the loop of `_parse_species`. */
  method ParseOneSpecies(fm: FieldMapping, ss: seq<Element>, i: nat, acc: seq<Dict>) returns (r: seq<Dict>)
    requires ValidMapping(fm) && i < |ss| && acc == Collect(ss, SpeciesEntry(fm), i)
    ensures r == Collect(ss, SpeciesEntry(fm), i + 1)
  {
    var s := ExtractSpeciesData(fm, ss[i]);
    r := acc + [s];
  }

  /** The inner loop of `_parse_generic`, over the items of one container. */
  method ParseGenericItems(fm: FieldMapping, items: seq<Element>, recordType: string) returns (r: seq<Dict>)
    requires ValidMapping(fm)
    ensures r == CollectAll(items, GenericEntry(fm, recordType))
  {
    r := [];
    for i := 0 to |items|
      invariant r == Collect(items, GenericEntry(fm, recordType), i)
    {
      r := ParseGenericItem(fm, items, recordType, i, r);
    }
  }

  /** One pass of the inner loop of `_parse_generic`. */
  method ParseGenericItem(fm: FieldMapping, items: seq<Element>, recordType: string, i: nat, acc: seq<Dict>)
    returns (r: seq<Dict>)
    requires ValidMapping(fm) && i < |items| && acc == Collect(items, GenericEntry(fm, recordType), i)
    ensures r == Collect(items, GenericEntry(fm, recordType), i + 1)
  {
    var record := ExtractGenericData(fm, items[i], recordType);
    r := acc + [record];
  }

  /** `_parse_generic` */
  method ParseGeneric(fm: FieldMapping, root: Element) returns (r: seq<Dict>)
    requires ValidMapping(fm)
    ensures r == CollectAll(root.children, GenericChild(fm))
  {
    var cs := root.children;
    r := [];
    for i := 0 to |cs|
      invariant r == Collect(cs, GenericChild(fm), i)
    {
      r := ParseGenericChild(fm, cs, i, r);
    }
  }

  /** One pass of the outer loop of `_parse_generic`. */
  method ParseGenericChild(fm: FieldMapping, cs: seq<Element>, i: nat, acc: seq<Dict>) returns (r: seq<Dict>)
    requires ValidMapping(fm) && i < |cs| && acc == Collect(cs, GenericChild(fm), i)
    ensures r == Collect(cs, GenericChild(fm), i + 1)
  {
    var records: seq<Dict>;
    if EndsWith(cs[i].tag, "s") {
      records := ParseContainer(fm, cs[i]);
    } else {
      records := ParseGenericLeaf(fm, cs[i]);
    }
    r := acc + records;
  }

  /** A child of the root whose tag ends in `s`. */
  method ParseContainer(fm: FieldMapping, c: Element) returns (records: seq<Dict>)
    requires ValidMapping(fm) && EndsWith(c.tag, "s")
    ensures records == GenericChild(fm)(c)
  {
    records := ParseGenericItems(fm, c.children, Singular(c.tag));
  }

  /** Any other child of the root. */
  method ParseGenericLeaf(fm: FieldMapping, c: Element) returns (records: seq<Dict>)
    requires ValidMapping(fm) && !EndsWith(c.tag, "s")
    ensures records == GenericChild(fm)(c)
  {
    var record := ExtractGenericData(fm, c, c.tag);
    records := [record];
    SingleCollect(c, GenericEntry(fm, c.tag));
  }

  /** The `_parse_*` helpers that extract the root itself, for the character-building
      roots. */
  method ParseCharacterRoot(fm: FieldMapping, root: Element, k: RootKind) returns (r: Dict)
    requires ValidMapping(fm) && k in {CareerRoot, SpecializationRoot, TalentRoot, ForcePowerRoot}
    ensures [r] == KindEntry(fm, k)(root)
  {
    hide SpeciesRecord, CareerRecord, SpecializationRecord, TalentRecord, ForcePowerRecord, VehicleRecord,
      ArmorRecord, GearRecord;
    match k {
      case CareerRoot => r := ExtractCareerData(fm, root);
      case SpecializationRoot => r := ExtractSpecializationData(fm, root);
      case TalentRoot => r := ExtractTalentData(fm, root);
      case ForcePowerRoot => r := ExtractForcePowerData(fm, root);
    }
  }

  /** The same for the equipment roots. */
  method ParseEquipmentRoot(fm: FieldMapping, root: Element, k: RootKind) returns (r: Dict)
    requires ValidMapping(fm) && k in {VehicleRoot, ArmorRoot, GearRoot}
    ensures [r] == KindEntry(fm, k)(root)
  {
    hide SpeciesRecord, CareerRecord, SpecializationRecord, TalentRecord, ForcePowerRecord, VehicleRecord,
      ArmorRecord, GearRecord;
    match k {
      case VehicleRoot => r := ExtractVehicleData(fm, root);
      case ArmorRoot => r := ExtractArmorData(fm, root);
      case GearRoot => r := ExtractGearData(fm, root);
    }
  }

  /** The dispatch of `parse_xml_file` on a parsed root. */
  method ParseXmlRoot(fm: FieldMapping, root: Element) returns (r: seq<Dict>)
    requires ValidMapping(fm)
    ensures r == ParsedRecords(fm, root)
  {
    var k := KindOf(root.tag);
    if k == WeaponsRoot {
      r := ParseWeapons(fm, root);
    } else if k == SpeciesRoot {
      r := ParseSpecies(fm, root);
    } else if k == GenericRoot {
      r := ParseGeneric(fm, root);
    } else {
      var x;
      if k in {CareerRoot, SpecializationRoot, TalentRoot, ForcePowerRoot} {
        x := ParseCharacterRoot(fm, root, k);
      } else {
        x := ParseEquipmentRoot(fm, root, k);
      }
      r := [x];
      SingleCollect(root, KindEntry(fm, k));
    }
  }

  lemma SingleCollect(root: Element, f: Element -> seq<Dict>)
    ensures CollectAll([root], f) == f(root)
  {
    assert Collect([root], f, 0) == [];
  }

  /** `parse_xml_file` */
  method ParseXmlFile(fm: FieldMapping, file: Option<Element>) returns (r: seq<Dict>)
    requires ValidMapping(fm)
    ensures r == ParsedFile(fm, file)
  {
    if file.None? {
      return [];
    }
    r := ParseXmlRoot(fm, file.value);
  }

  // ---------------------------------------------------------------------------------------
  // How many records a file gives
  // ---------------------------------------------------------------------------------------

  /** A loop whose every element contributes exactly one record gathers one per element. */
  lemma {:induction false} CollectOneEach(es: seq<Element>, f: Element -> seq<Dict>, n: nat)
    requires n <= |es| && forall e :: |f(e)| == 1
    ensures |Collect(es, f, n)| == n
  {
    if n > 0 {
      CollectOneEach(es, f, n - 1);
    }
  }

  /** A loop whose every element contributes at most one record gathers at most one per
      element. */
  lemma {:induction false} CollectAtMostOneEach(es: seq<Element>, f: Element -> seq<Dict>, n: nat)
    requires n <= |es| && forall e :: |f(e)| <= 1
    ensures |Collect(es, f, n)| <= n
  {
    if n > 0 {
      CollectAtMostOneEach(es, f, n - 1);
    }
  }

  /** One record per element wherever the branch extracts one per element. */
  lemma KindEntryOne(fm: FieldMapping, k: RootKind)
    requires ValidMapping(fm) && OnePerElement(k)
    ensures forall e :: |KindEntry(fm, k)(e)| == 1
  {
    hide SpeciesRecord, CareerRecord, SpecializationRecord, TalentRecord, ForcePowerRecord, VehicleRecord,
      ArmorRecord, GearRecord;
  }

  /** At most one record per `Weapon` element. */
  lemma WeaponEntryAtMostOne(fm: FieldMapping)
    requires ValidMapping(fm)
    ensures forall e :: |WeaponEntry(fm)(e)| <= 1
  {
  }

  /** How many records a file gives: one per `Species` child, at most one per `Weapon` child,
      and exactly one for the roots extracted whole. */
  lemma ParsedRecordsCount(fm: FieldMapping, root: Element)
    requires ValidMapping(fm)
    ensures var k := KindOf(root.tag); var n := |ParsedRecords(fm, root)|;
      (k == WeaponsRoot ==> n <= |root.FindAll("Weapon")|) &&
      (k == SpeciesRoot ==> n == |root.FindAll("Species")|) &&
      (OnePerElement(k) && k != SpeciesRoot ==> n == 1)
  {
    var k := KindOf(root.tag);
    var es := KindElements(k, root);
    if k == WeaponsRoot {
      WeaponEntryAtMostOne(fm);
      CollectAtMostOneEach(es, KindEntry(fm, k), |es|);
    } else if OnePerElement(k) {
      KindEntryOne(fm, k);
      CollectOneEach(es, KindEntry(fm, k), |es|);
    }
  }
}
