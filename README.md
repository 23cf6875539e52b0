# ogg-to-realm, modelled in Dafny

ogg-to-realm imports Star Wars RPG game data into a Realm VTT campaign. It reads two kinds of
data:

- the XML data files of the OggDude character generator;
- the JSON files of the Adversaries compendium of NPCs.

It normalises each record, converts it to a Realm VTT record and uploads the records type by
type. Records that others refer to by name are registered as they are uploaded: items,
talents, species, careers, specializations and force powers. An NPC's equipment, weapons and
armor are then linked against the registered items.

This project models that pipeline and proves properties of the model. It covers four source
files:

- `src/data_mapper.py`;
- `src/xml_parser.py`;
- `src/json_parser.py`;
- `src/import_manager.py`.

| file | module | models |
|---|---|---|
| `wrappers.dfy` | `Wrappers` | `Option` and `Result`: a Python value that may be `None`, and an operation that may raise |
| `values.dfy` | `Values` | loosely-typed values (none, bool, int, str, list, dict); Python's dict operations, truthiness and iteration |
| `text.dfy` | `Text` | the `str` methods the importer uses (`lower`, `upper`, `strip`, `split`/`join`, `replace`, `find`, `int()`) on `seq<char>` |
| `records.dfy` | `Records` | dicts from record type to record list, with their key order |
| `sources.dfy` | `Sources` | the source-book configuration and the OggDude source match |
| `filtering.dfy` | `Filtering` | the single pass both `filter_by_sources` share, with its order, membership and idempotence lemmas |
| `mapper_tables.dfy` | `MapperTables` | the data mapper's skill, range, restricted-value and skill-name tables |
| `qualities.dfy` | `Qualities` | `_map_qualities_with_counts` |
| `item_conversion.dfy` | `ItemConversion` | `_convert_weapon_data`, `_convert_armor_data`, `_convert_gear_data`, `_convert_attachment_data` and `_convert_item`, as in-place updates of the item's dict |
| `markup.dfy` | `Markup` | `_convert_description`: its thirteen entity replacements, the `<strong>` balancer and the HTML structure fixer in full, the other stages as parameters |
| `data_mapper.dfy` | `DataMapping` | the `DataMapper` class: its six name→id registries, the conversion dispatch, NPC linking, record counts and talent trees |
| `xml_elements.dfy` | `XmlElements` | parsed XML elements and the typed accessors `_get_text`, `_get_int`, `_get_bool`, `_get_sources` and `_get_element_value` |
| `xml_parser.dfy` | `XmlParsing` | field renaming and the per-type `_extract_*_data` extractors with their helpers |
| `xml_files.dfy` | `XmlFiles` | `parse_xml_file`'s dispatch on the root element |
| `xml_scan.dfy` | `XmlScan` | the XML `filter_by_sources` and `scan_directory` |
| `json_npc.dfy` | `JsonNpc` | `_extract_npc_data` and the extractors it calls |
| `json_parser.dfy` | `JsonParsing` | the `JSONParser` class: file shapes, the definitions index and its per-directory cache, the adversary filter and the directory scan |
| `import_manager.dfy` | `Importing` | the `ImportManager` class: its settings, the preparation of records, category lookup, the upload loops with their stop checks, registration and progress |

Where the source changes state, the model does too. The `DataMapper`, `JSONParser` and
`ImportManager` objects are classes whose methods modify their fields. The in-place
conversions and the loops are methods with loop invariants. Each of them is proved against a
specification function, and the properties are stated as lemmas about those functions.

Three kinds of thing become parameters of the model:

- the world outside the program: parsed XML trees, decoded JSON files, directory listings,
  the Realm VTT server and the stop requests;
- the configuration: `sources.json` and `field_mapping.json`;
- parts of Python the model does not implement: `str()`, `str.title()` and the regular
  expressions of the description conversion.

## Model

| member | source | states |
|---|---|---|
| Text.Lower | src/data_mapper.py:733-734 | `str.lower()`: same length, each character lower-cased where it is an ASCII capital |
| Text.Upper | src/data_mapper.py:381 | `str.upper()`: same length, each character upper-cased where it is an ASCII small letter |
| Text.IndexOfSpec | src/data_mapper.py:556-558 | the search for `' - '` finds a position exactly when the separator occurs, and that position is the first occurrence |
| Text.Strip | src/xml_parser.py:591 | `str.strip()` is the slice of the input left once the whitespace at both ends is removed; what is removed is whitespace, and the result neither starts nor ends with whitespace |
| Text.SplitOn | src/data_mapper.py:920 | `str.split('\n')` yields at least one piece and no piece contains the separator |
| Text.JoinSplit | src/data_mapper.py:920-965 | joining the pieces of a split with the same separator gives back the string |
| Text.SplitJoin | src/data_mapper.py:920-965 | splitting a join of separator-free pieces gives back the pieces |
| Text.ReplaceAbsent | src/data_mapper.py:797-809 | `str.replace` of a pattern that does not occur changes nothing |
| Text.Repeat | src/data_mapper.py:1007-1009 | `text * n` has `n` times the length of `text` |
| Text.ParseInt | src/xml_parser.py:565-569 | `int(text)` succeeds only on text that holds something besides whitespace |
| Text.ParseIntToString | src/xml_parser.py:565-569 | an integer printed in decimal parses back to itself |
| Values.Dict.Put | src/data_mapper.py:263-264 | `d[k] = v`: `k` now holds `v`, every other key keeps its value, and a well-formed dict stays well formed |
| Values.Dict.Remove | src/data_mapper.py:249-250 | `d.pop(k, None)`: `k` is gone and every other key keeps its value |
| Values.Or | src/json_parser.py:97-98 | `a or b or ...` yields one of its operands; it is truthy exactly when some operand is, and then it is the first truthy one |
| Values.Iterate | src/data_mapper.py:379 | iterating a list gives its items; iteration raises exactly on a value that is not a list, string or dict |
| Values.LookupOrSelf | src/data_mapper.py:303 | `table.get(x, x)`: a string found in the table gives its entry, any other hashable value comes back unchanged, an unhashable one raises |
| Values.FillMissing | src/data_mapper.py:187-189 | the defaults loop: the keys are those of both dicts, a present key keeps its value, and a missing key gets its default |
| Values.UpdateWith | src/xml_parser.py:146-154 | `d.update(extra)`: the keys of `extra` take its values and every other key keeps its value |
| Records.Buckets.Put | src/xml_parser.py:886-887 | storing a record list under a type replaces that type's list only and keeps the buckets well formed |
| Records.EmptyBuckets | src/xml_parser.py:853-864 | the ten record types of the scanner, each with an empty list, in the order of the display |
| Sources.OggdudeMatch | src/xml_parser.py:826-835 | a record source matches exactly when it is a string and some selected configuration lists an OggDude source contained in it, ignoring case; a non-string source raises exactly when a selected configuration lists some OggDude source |
| MapperTables.MapSkillKey | src/data_mapper.py:136-152 | a known OggDude skill key becomes a Realm VTT skill name; any other key is kept |
| MapperTables.MapSkillKeyIdempotent | src/data_mapper.py:136-152 | mapping a skill key twice is mapping it once |
| MapperTables.MapRangeValue | src/data_mapper.py:293-303 | a known range band becomes a Realm VTT range; `wrClose` and `wrEngaged` both become Engaged; anything else is kept |
| MapperTables.MapRangeValueIdempotent | src/data_mapper.py:293-303 | mapping a range twice is mapping it once |
| MapperTables.ConvertRestrictedValue | src/data_mapper.py:731-739 | the result is "yes" or "no", and "yes" exactly for `True`, `1`, or a string equal to "true" or "yes" ignoring case |
| MapperTables.RestrictedFalseValues | src/data_mapper.py:731-739 | `False`, `0`, `""`, `None` and "no" read as not restricted; "TRUE" reads as restricted |
| MapperTables.ConvertSkillName | src/data_mapper.py:554-561 | a name without `' - '` is returned unchanged |
| MapperTables.SkillNameSplitsAtFirstDash | src/data_mapper.py:554-561 | "A - B" with no earlier separator becomes "A (B)", whatever `B` contains |
| MapperTables.QualityName | src/data_mapper.py:381 | a quality key missing from the table maps to its lower-case form |
| MapperTables.CountField | src/data_mapper.py:384 | a key has a count field exactly when its upper-case form is in the count-field table |
| Qualities.EntryOf | src/data_mapper.py:379-398 | a string contributes itself with count 1; a dict with a truthy string `Key` contributes it with its `Count` (default 1); a truthy non-string key raises; any other element contributes nothing |
| Qualities.Names | src/data_mapper.py:381-382 | one mapped name per contributing entry, in order |
| Qualities.MapQualitiesWithCounts | src/data_mapper.py:305-400 | the loop succeeds exactly when no element raises, and then returns the mapped names and count fields of the contributing entries |
| Qualities.ProperPrefixErr | src/data_mapper.py:379-398 | once a prefix of the list raises, the whole list raises with the same error |
| Qualities.EntriesOkIff | src/data_mapper.py:379-398 | the mapping raises exactly when some element raises on its own |
| Qualities.EntriesOfStrings | src/data_mapper.py:379-386 | a list of strings maps element by element, in order, each with count 1 |
| Qualities.StringEntries | src/data_mapper.py:379-386 | each string of a list becomes an entry with count 1, in order |
| Qualities.CountsValid | src/data_mapper.py:376-398 | the counts form a well-formed dict, so they can be merged into the item |
| Qualities.CountsLastWins | src/data_mapper.py:384-398 | a count field holds the count of the last entry that sets it |
| Qualities.CountsOnlySetFields | src/data_mapper.py:384-398 | a count field that no entry sets is absent from the counts |
| ItemConversion.CountFieldNamed | src/data_mapper.py:384 | every count field is one of the names in the count-field table |
| ItemConversion.CountsNamed | src/data_mapper.py:384-398 | the counts only ever set count-field names |
| ItemConversion.NameList | src/data_mapper.py:260 | the list value stored in `special` holds the mapped names in order |
| ItemConversion.MappedCountsAreFields | src/data_mapper.py:259-264 | the counts merged into an item only name count fields |
| ItemConversion.ApplyQualitiesAt | src/data_mapper.py:257-269 | key by key: `qualities` is gone when a truthy list was mapped, `special` holds the mapped names or `[]`, a count field holds its count, and every other key keeps its value |
| ItemConversion.RestrictedStageAt | src/data_mapper.py:272-273 | a present `restricted` becomes "yes" or "no" by the restricted-value rule; every other key is unchanged |
| ItemConversion.DefaultsFill | src/data_mapper.py:287-289 | a missing key gets its default, a present key keeps its value |
| ItemConversion.ConvertQualities | src/data_mapper.py:257-269 | the qualities block, run in place, fails exactly when mapping the list raises and otherwise leaves the state `ApplyQualitiesAt` describes |
| ItemConversion.ConvertRestricted | src/data_mapper.py:272-273 | a present `restricted` becomes "yes" or "no"; no key is added or removed |
| ItemConversion.SetWeaponType | src/data_mapper.py:225-242 | a vehicle weapon becomes a ranged "Vehicle Weapon"; otherwise a melee skill makes a melee weapon and any other a ranged one, with the original type as subtype |
| ItemConversion.PrepareWeapon | src/data_mapper.py:225-254 | the steps before the qualities block fail exactly where the source raises, and otherwise give the prepared weapon `WeaponPreparedAt` describes |
| ItemConversion.ConvertWeaponData | src/data_mapper.py:222-291 | the converted weapon, in place, fails exactly when the source raises, and equals the key-by-key specification `WeaponSpecAt` states |
| ItemConversion.WeaponDefaultsValid | src/data_mapper.py:276-285 | the weapon defaults form a well-formed dict |
| ItemConversion.TypeStageAt | src/data_mapper.py:225-242 | key by key, the type step sets `type` and `subtype` and leaves every other key alone |
| ItemConversion.SkillStageAt | src/data_mapper.py:245-246 | a skill not yet in Realm VTT form is mapped; every other key is unchanged |
| ItemConversion.RangeStageAt | src/data_mapper.py:253-254 | a truthy range goes through the range table; every other key is unchanged |
| ItemConversion.WeaponStrippedAt | src/data_mapper.py:225-250 | after the type, skill and removal steps, the original keys are gone and type, subtype and skill are as those steps set them |
| ItemConversion.WeaponStrippedRange | src/data_mapper.py:225-250 | the steps before the range step leave `range` as it was |
| ItemConversion.WeaponPreparedAt | src/data_mapper.py:225-254 | key by key, the prepared weapon in terms of the original item |
| ItemConversion.PreparedKeepsQualitySource | src/data_mapper.py:257 | the qualities block reads the same `qualities` or `special` list the item came with |
| ItemConversion.TypeKeysNotCounted | src/data_mapper.py:230-242 | `type`, `subtype` and `weaponSkill` are not count fields, so quality counts never overwrite them |
| ItemConversion.QualityKeysNotCounted | src/data_mapper.py:257-273 | `special`, `qualities` and `restricted` are not count fields |
| ItemConversion.OriginalKeysNotCounted | src/data_mapper.py:249-254 | `originalSkillKey`, `originalType` and `range` are not count fields |
| ItemConversion.WeaponPipelineAt | src/data_mapper.py:222-291 | the converted weapon, key by key, in terms of the conversion steps |
| ItemConversion.WeaponPreparedOk | src/data_mapper.py:245-254 | the steps before the qualities block fail exactly on a truthy non-string weapon skill and on an unhashable truthy range |
| ItemConversion.WeaponSpecOk | src/data_mapper.py:222-291 | the conversion fails exactly on a truthy non-string weapon skill, on an unhashable truthy range, or while mapping the qualities |
| ItemConversion.WeaponSpecAt | src/data_mapper.py:222-291 | the converted weapon, key by key, in terms of the original item |
| ItemConversion.WeaponFieldType | src/data_mapper.py:230-242 | a weapon is melee when its skill says so, except a vehicle weapon, which is ranged; the subtype is the original type or "Vehicle Weapon" |
| ItemConversion.WeaponFieldSkill | src/data_mapper.py:244-246 | an OggDude skill key is mapped to its Realm VTT name; a skill already in Realm VTT form, or an empty one, is kept |
| ItemConversion.WeaponFieldOriginalsRemoved | src/data_mapper.py:248-250 | `originalSkillKey` and `originalType` do not survive the conversion |
| ItemConversion.WeaponFieldRange | src/data_mapper.py:252-254 | a truthy range is mapped by the range table; any other range is kept |
| ItemConversion.WeaponFieldQualities | src/data_mapper.py:256-269 | `special` holds the mapped names (or `[]` when the list is falsy) and `qualities` is gone whenever a truthy list was mapped |
| ItemConversion.WeaponFieldRestricted | src/data_mapper.py:271-273 | `restricted`, when the item has one, is "yes" or "no" |
| ItemConversion.WeaponFieldCount | src/data_mapper.py:262-264 | every count field the qualities produce holds its count |
| ItemConversion.WeaponFieldKeeps | src/data_mapper.py:275-289 | every other field is kept, and a default appears only where the item has no value |
| ItemConversion.ConvertArmorData | src/data_mapper.py:154-191 | the armour conversion, in place, fails exactly when the specification does and otherwise yields it |
| ItemConversion.ArmorDefaultsValid | src/data_mapper.py:179-185 | the armour defaults form a well-formed dict |
| ItemConversion.ArmorQualitySource | src/data_mapper.py:157-160 | setting the type does not change which list the qualities block reads |
| ItemConversion.ArmorSpecOk | src/data_mapper.py:159-172 | the armour conversion fails exactly when mapping its qualities raises |
| ItemConversion.ArmorSpecAt | src/data_mapper.py:154-191 | key by key: type "armor", then the qualities block, `restricted` and the armour defaults over the item's own fields |
| ItemConversion.ArmorSpecType | src/data_mapper.py:157 | converted armour always has type "armor" |
| ItemConversion.ConvertGearData | src/data_mapper.py:193-220 | the gear conversion, in place, fails exactly when the specification does and otherwise yields it |
| ItemConversion.GearDefaultsValid | src/data_mapper.py:209-214 | the gear defaults form a well-formed dict |
| ItemConversion.GearSpecOk | src/data_mapper.py:196 | the gear conversion fails exactly on an item whose `data` is present but not a dict |
| ItemConversion.GearSpecAt | src/data_mapper.py:193-220 | key by key: type "general", subtype the original type (or "Gear"), `restricted` as "yes"/"no", and the gear defaults under the item's own fields |
| ItemConversion.ConvertAttachmentData | src/data_mapper.py:741-766 | the attachment conversion, in place, yields its specification |
| ItemConversion.AttachmentDefaultsValid | src/data_mapper.py:753-760 | the attachment defaults form a well-formed dict |
| ItemConversion.AttachmentSpecAt | src/data_mapper.py:741-766 | key by key: an existing type is kept and a missing one comes from the item; `restricted` becomes "yes"/"no"; the defaults fill the rest |
| Markup.BoldTag.Text | src/data_mapper.py:976 | each of the four tags the pattern matches (`<strong>`, `</strong>`, `<b>`, `</b>`) is three to nine characters long |
| Markup.TagAtFront | src/data_mapper.py:976 | a tag found at the front of a text is a prefix of it |
| Markup.TagAt | src/data_mapper.py:976-981 | a tag found at position `i` is exactly the text at `i` |
| Markup.ScanOnce | src/data_mapper.py:980-1004 | one step of the scan consumes a whole tag and updates the stack, or else one plain character |
| Markup.ScanEnd | src/data_mapper.py:980 | at the end of the line the scan leaves the stack as it is |
| Markup.HandleTag | src/data_mapper.py:982-1001 | every matched tag is copied to the output, and the stack changes by the push or pop rule |
| Markup.FixBoldTags | src/data_mapper.py:967-1011 | `_fix_bold_tags` returns the line unchanged, followed by one `</strong>` per opening tag that is still unclosed at its end |
| Markup.CloseOpen | src/data_mapper.py:1007-1009 | the final loop appends exactly one `</strong>` per stack entry |
| Markup.StartsAtContains | src/data_mapper.py:937 | text found at a position is a substring, so the `in` test sees it |
| Markup.ScanStrong | src/data_mapper.py:986-1000 | in a line without `<b>`, everything pushed on the stack is `<strong>` |
| Markup.ScanShift | src/data_mapper.py:980-1004 | scanning `a + s` from inside `s` is scanning `s` |
| Markup.TagWithin | src/data_mapper.py:976 | no tag runs across into a text that starts with `<` |
| Markup.ScanAppend | src/data_mapper.py:980-1004 | scanning `a + s` is scanning `a` and then `s`, when `s` starts with `<` |
| Markup.CloserStep | src/data_mapper.py:994-997 | a leading `</strong>` pops an open `<strong>` |
| Markup.ScanClosers | src/data_mapper.py:1007-1009 | each appended `</strong>` closes one open `<strong>` |
| Markup.BoldFixedIdempotent | src/data_mapper.py:967-1011 | on a line without `<b>`, balancing twice is balancing once |
| Markup.ScanNoTags | src/data_mapper.py:1002-1004 | a line without `<` leaves the stack as it is, so nothing is appended |
| Markup.FixTailStep | src/data_mapper.py:937-961 | the bold, paragraph and list-item steps of the loop body, as statements, give the specification of those steps |
| Markup.FixLineStep | src/data_mapper.py:926-961 | one loop body, with the `found_list` flag, gives the specified line and flag |
| Markup.FixHtmlStructure | src/data_mapper.py:914-965 | the whole loop gives the line-by-line specification of `_fix_html_structure` |
| Markup.ReplaceKeepsOut | src/data_mapper.py:931 | replacing with text free of a character does not introduce that character |
| Markup.RepeatKeepsOut | src/data_mapper.py:1009 | repeated text free of a character stays free of it |
| Markup.FixTailOneLine | src/data_mapper.py:937-961 | fixing a line never introduces a line break |
| Markup.FixLinesOneLine | src/data_mapper.py:924-963 | the fixer keeps the number of lines and no fixed line gains a line break |
| Markup.FixHtmlLines | src/data_mapper.py:914-965 | splitting the fixed text gives the fixed input lines, one for one |
| Markup.StrayListClose | src/data_mapper.py:926-934 | before any list is open a stray `</ul>` becomes `<ul>` and opens a list; with a list open, `</ul>` stays and closes it |
| Markup.PlainLineNeedsParagraph | src/data_mapper.py:945-956 | a non-blank line with no `<` or `>` meets every condition for wrapping in a paragraph |
| Markup.WrappedHasNoListItem | src/data_mapper.py:957-961 | wrapping a line without `<` in a paragraph adds no list item |
| Markup.WrapsPlainLine | src/data_mapper.py:945-957 | a non-blank line without markup comes out as `<p>line</p>` |
| Markup.ClosesParagraph | src/data_mapper.py:941-942 | an opened paragraph that is not closed gets `</p>` appended |
| Markup.ClosesListItem | src/data_mapper.py:960-961 | an opened list item that is not closed gets `</li>` appended |
| Markup.EntityAbsent | src/data_mapper.py:797-809 | replacing an entity that starts with `&` changes no text without `&` |
| Markup.DecodeWithoutAmpersand | src/data_mapper.py:797-809 | text without `&` has no entity to decode |
| Markup.ConvertDescription | src/data_mapper.py:768-912 | a falsy description gives `""`; the conversion fails exactly on a truthy description that is not a string; otherwise it follows the description specification |
| DataMapping.LastRegistrationWins | src/data_mapper.py:13-59 | after a run of registrations, a name maps to the id it was registered with last, and a name never registered keeps what it had |
| DataMapping.PrepareData | src/data_mapper.py:99-109 | the opening statements of each conversion give the described data |
| DataMapping.DescribedDataAt | src/data_mapper.py:408-416 | the step fails exactly on a description that cannot be converted; otherwise `description` is the converted text and every other key comes from the record's `data`, or nothing when it is not a dict |
| DataMapping.ItemRecordAt | src/data_mapper.py:121-132 | an item record is an identified, locked, unshared "items" record named by the item (or "Unknown Item"), with the item's `fields` (or `{}`) and the given data |
| DataMapping.ConvertItemData | src/data_mapper.py:111-119 | the type-specific branch fails exactly when its conversion does, and otherwise yields that conversion |
| DataMapping.ConvertItem | src/data_mapper.py:97-134 | `_convert_item` fails exactly when preparing or converting the data fails, and otherwise yields the item record over the converted data |
| DataMapping.ConvertedItemType | src/data_mapper.py:111-117 | a weapon type gives a ranged or melee weapon, "gear" gives "general" and "armor" stays "armor" |
| DataMapping.ConvertedOtherItem | src/data_mapper.py:118-119 | an attachment keeps the type its data has or takes the item's; a type that selects no conversion leaves the data as prepared |
| DataMapping.WeaponItemType | src/data_mapper.py:230-242 | a converted weapon is a ranged or a melee weapon |
| DataMapping.ConvertBasic | src/data_mapper.py:407-505 | species, careers, specializations and talents convert to the basic record of their type over the described data |
| DataMapping.ConvertVehicle | src/data_mapper.py:563-590 | the vehicle conversion yields its specification, failing exactly where it does |
| DataMapping.BasicRecordAt | src/data_mapper.py:418-430 | a basic record carries its record type, the campaign, the category, the record's name or the fallback, the flags and the given data |
| DataMapping.ConvertForcePower | src/data_mapper.py:507-527 | the force-power conversion yields its specification, failing exactly where it does |
| DataMapping.ForcePowerRecordAt | src/data_mapper.py:507-527 | a force power is filed under "force_powers", in the given category or else the Force and Destiny core rulebook, with activation and upgrades from its data or their fallbacks |
| DataMapping.SkillNameOf | src/data_mapper.py:535 | a string name is converted by the skill-name rule; a non-string name that does not raise comes back unchanged |
| DataMapping.ConvertSkill | src/data_mapper.py:529-552 | the skill conversion yields its specification, failing exactly where it does |
| DataMapping.SkillRecordAt | src/data_mapper.py:529-552 | a skill is named by its converted name at the top and inside its data, filed under "skills", in the given category or else the core rulebook, with its data's stat and group or their fallbacks |
| DataMapping.LinkEntryShape | src/data_mapper.py:618-646 | a linked entry names what it was made from and says whether it was found; a found one carries the registered id and no data, a placeholder no id and the placeholder data |
| DataMapping.LinkEntryOk | src/data_mapper.py:619 | linking one name raises exactly when the name cannot be looked up |
| DataMapping.LinkedOneToOne | src/data_mapper.py:616-648 | linking fails exactly when some name cannot be looked up, and otherwise entry `i` is the link of name `i` |
| DataMapping.LinkedFieldAt | src/data_mapper.py:616-648 | linking one list replaces that key with the links and leaves every other key of the data alone |
| DataMapping.NpcLinks | src/data_mapper.py:592-729 | a converted NPC is an unidentified "npcs" record whose equipment, weapons and armour are the linked forms of its lists, each with its own placeholder, and whose other data keys are as prepared |
| DataMapping.ConversionForType | src/data_mapper.py:73-95 | exactly the nine known record types select a conversion, and each selects one that files its record under that same type |
| DataMapping.BasicFiled | src/data_mapper.py:418-421 | a basic conversion files its record under its own type |
| DataMapping.VehicleFiled | src/data_mapper.py:563-590 | a converted vehicle is filed under "vehicles" |
| DataMapping.ForcePowerFiled | src/data_mapper.py:507-527 | a converted force power is filed under "force_powers" |
| DataMapping.SkillFiled | src/data_mapper.py:529-552 | a converted skill is filed under "skills" |
| DataMapping.BasicConversionFiled | src/data_mapper.py:77-84 | a basic conversion gives a record filed under the type that selected it |
| DataMapping.ForcePowerConversionFiled | src/data_mapper.py:85-86 | the force-power conversion gives a record filed under "force_powers" |
| DataMapping.SkillConversionFiled | src/data_mapper.py:87-88 | the skill conversion gives a record filed under "skills" |
| DataMapping.VehicleConversionFiled | src/data_mapper.py:89-90 | the vehicle conversion gives a record filed under "vehicles" |
| DataMapping.NpcConversionFiled | src/data_mapper.py:91-92 | the NPC conversion gives a record filed under "npcs" |
| DataMapping.ConversionFiled | src/data_mapper.py:61-95 | every conversion but the item one files its record under the type that selected it |
| DataMapping.CountsOfNone | src/data_mapper.py:1015 | no record types give no counts |
| DataMapping.CountsOfAppend | src/data_mapper.py:1016-1017 | one more record type adds its own count and changes no other |
| DataMapping.Trees.Append | src/data_mapper.py:1029-1031 | appending to a talent's list adds the name at the end of that list only, and keeps the map well formed |
| DataMapping.Copies | src/data_mapper.py:1031 | `n` appends of the same name give `n` copies of it |
| DataMapping.AddTalentsOk | src/data_mapper.py:1028-1031 | the inner loop succeeds exactly on hashable talents |
| DataMapping.AddTalentsKeys | src/data_mapper.py:1028-1031 | the inner loop keeps the map well formed and adds exactly the talents it is given |
| DataMapping.AddTalentsLists | src/data_mapper.py:1028-1031 | the inner loop adds the tree name to a talent's list once per occurrence of that talent |
| DataMapping.TalentTreesOk | src/data_mapper.py:1020-1031 | building the map succeeds exactly when every talent list can be read and holds only hashable talents |
| DataMapping.ListedLast | src/data_mapper.py:1024-1031 | a talent is listed by the specializations exactly when it is listed by all but the last, or by the last one |
| DataMapping.TalentTreesKeys | src/data_mapper.py:1020-1031 | the talents in the map are exactly those of the specializations |
| DataMapping.TalentTreesLists | src/data_mapper.py:1020-1031 | each talent maps to the names of its trees, in specialization order, once per listing |
| DataMapping.LinkedErrPersists | src/data_mapper.py:618-619 | once a prefix of the names fails to link, the whole list fails the same way |
| DataMapping.AddTalentsErrPersists | src/data_mapper.py:1028-1029 | once a prefix of the talents fails, the whole inner loop fails the same way |
| DataMapping.TalentTreesErrPersists | src/data_mapper.py:1024-1026 | once a prefix of the specializations fails, the whole build fails the same way |
| DataMapping.DataMapper.constructor | src/data_mapper.py:5-11 | all six registries start empty |
| DataMapping.DataMapper.AddMapping | src/data_mapper.py:13-35 | the name now maps to the id, and every other name and every other registry are as they were |
| DataMapping.DataMapper.LinkNames | src/data_mapper.py:616-648 | one linking loop of the NPC conversion gives the linked list |
| DataMapping.DataMapper.LinkField | src/data_mapper.py:616-648 | one list of the NPC is read, linked and stored back |
| DataMapping.DataMapper.ConvertNpc | src/data_mapper.py:592-729 | `_convert_npc` against the registered items gives the NPC specification |
| DataMapping.DataMapper.ConvertRecord | src/data_mapper.py:61-95 | the conversion the record's `recordType` selects, or `None` for a type it does not know |
| DataMapping.DataMapper.ConvertOther | src/data_mapper.py:77-92 | the branches past the item one give the result of the selected conversion |
| DataMapping.DataMapper.GetRecordCounts | src/data_mapper.py:1013-1018 | each record type maps to its number of records, in the dict's order |
| DataMapping.DataMapper.BuildTalentTrees | src/data_mapper.py:1020-1031 | the loop gives the talent-tree map its reference definition describes |
| XmlElements.Element.Find | src/xml_parser.py:560 | `elem.find(tag)` gives a direct child with that tag, and nothing exactly when no child has it |
| XmlElements.FirstWithTag | src/xml_parser.py:560 | the element found carries the tag and is one of the children; nothing is found exactly when no child has the tag |
| XmlElements.WithTag | src/xml_parser.py:589 | `elem.findall(tag)` gives only children with that tag |
| XmlElements.FindIsFirstOfFindAll | src/xml_parser.py:589-596 | `find` gives the first element `findall` gives, and nothing when `findall` gives none |
| XmlElements.GetText | src/xml_parser.py:558-561 | the child's text when the child exists and its text is non-empty; the default otherwise |
| XmlElements.GetIntReadsPrinted | src/xml_parser.py:563-569 | a child whose text is a printed integer reads back as that integer, whatever the default |
| XmlElements.GetIntDefault | src/xml_parser.py:563-569 | a missing child, or one whose text does not parse, gives the default |
| XmlElements.GetBoolIgnoresDefault | src/xml_parser.py:571-574 | a present, non-empty text decides the result whatever the default: true exactly for `true` in any letter case |
| XmlElements.SourceTexts | src/xml_parser.py:589-591 | at most one source string per element read |
| XmlElements.GetSources | src/xml_parser.py:584-600 | the loop gives the stripped texts of the direct `Source` children, then of the ones inside `Sources` |
| XmlElements.SourceTextsStripped | src/xml_parser.py:589-591 | every source text is stripped |
| XmlElements.SourceTextsCount | src/xml_parser.py:589-591 | exactly the elements with a text contribute, one string each |
| XmlElements.SourcesStripped | src/xml_parser.py:584-600 | `_get_sources` gives only stripped strings |
| XmlElements.SourcesCount | src/xml_parser.py:584-600 | one string per `Source` element with a text, direct ones first, then those inside `Sources` |
| XmlElements.ElementValue | src/xml_parser.py:602-609 | the element's text when it has one, else its children's values one for one and in order, else its attributes, else `''` |
| XmlElements.ElementValueLeaves | src/xml_parser.py:602-609 | flattening the value keeps every topmost text, in document order, and no other string |
| XmlElements.ElementValuesLeaves | src/xml_parser.py:606-607 | the children's values flatten to the children's topmost texts, in order |
| Filtering.KeptPositions | src/xml_parser.py:821-838 | the kept positions are in range and strictly increasing |
| Filtering.FilterPrefixOk | src/xml_parser.py:821-838 | the filter loop fails exactly when the source test raises on some record |
| Filtering.FilterPrefixPositions | src/xml_parser.py:821-838 | a successful pass gives exactly the accepted records, in order, each once: the subsequence at the accepted positions |
| Filtering.FilterKeepsAccepted | src/xml_parser.py:815-840 | a record is in the output exactly when it is in the input and the test accepts it |
| Filtering.FilterIdempotent | src/xml_parser.py:815-840 | filtering what a filter let through changes nothing |
| Filtering.AllAcceptedPass | src/xml_parser.py:821-838 | when the test accepts every record, the pass keeps them all, in order |
| Filtering.FilterErrPersists | src/xml_parser.py:821-838 | once the pass over a prefix fails, the whole pass fails the same way |
| Filtering.FilterRecords | src/xml_parser.py:820-840 | the loop gives the filter specification for the given source test |
| XmlParsing.MappedFields | src/xml_parser.py:44-56 | a field the renaming does not mention is copied across with its value |
| XmlParsing.PassedPrefixSpec | src/xml_parser.py:52-54 | after the first `n` keys, the second loop has copied exactly the unmentioned ones, with their values |
| XmlParsing.PassedPrefixAll | src/xml_parser.py:52-54 | the whole second loop copies every unmentioned field |
| XmlParsing.RenamedDict | src/xml_parser.py:48-49 | the dict the first loop builds is well formed and holds the renamed prefix |
| XmlParsing.PassedDict | src/xml_parser.py:52-54 | the dict the second loop leaves is the renamed part overlaid with the copied fields, and stays well formed |
| XmlParsing.FieldMappedFields | src/xml_parser.py:30-56 | the result is well formed and, for a type with a renaming, holds the renamed fields and then the unmentioned ones |
| XmlParsing.ApplyFieldMapping | src/xml_parser.py:30-56 | the two loops give the field-mapping specification: a type without a renaming keeps its data, otherwise targets come first and unmentioned fields after |
| XmlParsing.RenamedPrefixKeys | src/xml_parser.py:48-49 | the renamed part holds exactly the targets of the first `n` sources |
| XmlParsing.RenamedPrefixValue | src/xml_parser.py:48-49 | a target named by one source only holds that source's value, or `None` when the data lacks it |
| XmlParsing.MappedFieldsKeys | src/xml_parser.py:44-56 | every target is present, and there is nothing but the targets and the unmentioned fields |
| XmlParsing.MappedFieldsRenamed | src/xml_parser.py:44-56 | a target named by one source only, and not also an unmentioned field, holds that source's value, or `None` |
| XmlParsing.XmlLookupsIdempotent | src/xml_parser.py:611-634 | looking a skill or range up twice is looking it up once, and only an unhashable value fails |
| XmlParsing.ExtractList | src/xml_parser.py:666-742 | the shared loop of the list extractors gives the list its specification describes |
| XmlParsing.ReadPositions | src/xml_parser.py:641-644 | the accepted positions are in range and strictly increasing |
| XmlParsing.ListEntriesPositions | src/xml_parser.py:641-644 | the list holds, in order, what the reader makes of exactly the items it accepts |
| XmlParsing.ListEntriesTotal | src/xml_parser.py:671-677 | a reader that accepts every item gives one entry per item, in order |
| XmlParsing.KeyText | src/xml_parser.py:696-698 | a `Key` element is read exactly when its text is non-empty, as that text |
| XmlParsing.QualityKey | src/xml_parser.py:636-645 | a `Quality` element is read exactly when it has a `Key` child with a non-empty text |
| XmlParsing.KeyListTexts | src/xml_parser.py:691-729 | a key list holds the non-empty key texts in document order, one per element; an absent or empty container gives none |
| XmlParsing.ReadPositionsBound | src/xml_parser.py:641-644 | at most one entry per item read |
| XmlParsing.ModifierListsTotal | src/xml_parser.py:666-689 | the skill-modifier, talent-modifier and upgrade lists hold one dict per child element |
| XmlParsing.CharacteristicsCount | src/xml_parser.py:652 | there are six characteristics and six keys |
| XmlParsing.CharacteristicKeysDistinct | src/xml_parser.py:652-653 | the six characteristic keys are distinct |
| XmlParsing.CharacteristicKeysLower | src/xml_parser.py:653 | each key is the lower-cased characteristic name |
| XmlParsing.CharsPrefix | src/xml_parser.py:652-653 | the dict after the first `n` characteristics is well formed |
| XmlParsing.ExtractStartingChars | src/xml_parser.py:647-654 | the loop gives the starting-characteristics specification |
| XmlParsing.CharsPrefixKeys | src/xml_parser.py:652-653 | after `n` steps the keys are the first `n` characteristic keys, in order |
| XmlParsing.CharsPrefixValues | src/xml_parser.py:652-653 | each of those keys holds the characteristic read as an integer |
| XmlParsing.StartingCharsSpec | src/xml_parser.py:647-654 | with a non-empty container the result has exactly the six lower-cased keys, in order, each read as an integer with default 1; otherwise it is empty |
| XmlParsing.StartingAttrs | src/xml_parser.py:656-664 | the starting attributes form a well-formed dict |
| XmlParsing.StartingAttrsDefaults | src/xml_parser.py:656-664 | a missing attribute defaults to 10 for the two thresholds and 0 for experience; without a non-empty container there are none |
| XmlParsing.SourceList | src/xml_parser.py:161 | the list stored under `sources` holds the source strings, in order |
| XmlParsing.BasicRecord | src/xml_parser.py:206-214 | a non-item record is well formed, filed under its type, and carries its sources |
| XmlParsing.ItemRecord | src/xml_parser.py:442-452 | an item record is well formed, filed under its type, and carries its sources |
| XmlParsing.ItemRecordFields | src/xml_parser.py:442-452 | an item record's name, description, type, sources, data, fields and flags, each in terms of its inputs |
| XmlParsing.ItemRecordHead | src/xml_parser.py:443-446 | an item record's type, name (or fallback) and description (or `''`) |
| XmlParsing.ItemRecordTail | src/xml_parser.py:447-451 | an item record's sources, data, fields and flags |
| XmlParsing.BasicRecordFields | src/xml_parser.py:206-214 | a non-item record's type, name, description, sources, data and flags, each in terms of its inputs |
| XmlParsing.BuildTypedRecord | src/xml_parser.py:203-214 | the common tail of the non-item extractors: renaming, sources and record dict |
| XmlParsing.LookUpWeaponCodes | src/xml_parser.py:139-143 | the two lookups of the weapon extractor give their specification |
| XmlParsing.WeaponRecord | src/xml_parser.py:115-179 | a weapon is extracted exactly when no step raises, and is then filed under "weapons" with its sources |
| XmlParsing.ExtractWeaponData | src/xml_parser.py:115-179 | `_extract_weapon_data` gives the weapon record of the raw fields and the element's sources, or `None` where it catches an exception |
| XmlParsing.SetAnimation | src/xml_parser.py:168-173 | the animation step gives its specification |
| XmlParsing.WeaponDefaultsDistinct | src/xml_parser.py:146-154 | the weapon defaults name distinct keys, none of them `animation` |
| XmlParsing.WeaponRecordShape | src/xml_parser.py:156-166 | a weapon record is filed as a weapon and holds the weapon data; its name and description come from the data, with 'Unknown Weapon' and '' as fallbacks |
| XmlParsing.AnimatedKeeps | src/xml_parser.py:168-173 | the animation step touches no field but `animation` |
| XmlParsing.WeaponDefaultsWin | src/xml_parser.py:146-154 | whatever the mapped data held, a weapon ends with every default of the table |
| XmlParsing.AnimationRule | src/xml_parser.py:168-173 | the step fails exactly when the data has no string `type`; `blaster` gives the blaster animation, otherwise `saber` gives the lightsaber one, and any other type leaves the data alone |
| XmlParsing.LightsaberIsSaber | src/xml_parser.py:172 | a type containing `lightsaber` contains `saber`, so the first test of the branch adds nothing |
| XmlParsing.RawWeaponKeys | src/xml_parser.py:119-133 | the raw weapon fields use OggDude's capitalised names: none is `type`, `weaponSkill` or `range` |
| XmlParsing.WeaponNeedsMapping | src/xml_parser.py:119-173 | without a renaming for weapons the data has no `type`, and the weapon is dropped |
| XmlParsing.ExtractSpeciesData | src/xml_parser.py:190-219 | `_extract_species_data` gives the species record of its specification |
| XmlParsing.ExtractCareerData | src/xml_parser.py:226-253 | `_extract_career_data` gives the career record of its specification |
| XmlParsing.ExtractSpecializationData | src/xml_parser.py:260-288 | `_extract_specialization_data` gives the specialization record of its specification |
| XmlParsing.ExtractTalentData | src/xml_parser.py:295-323 | `_extract_talent_data` gives the talent record of its specification |
| XmlParsing.ExtractForcePowerData | src/xml_parser.py:330-358 | `_extract_force_power_data` gives the force-power record of its specification |
| XmlParsing.ExtractVehicleData | src/xml_parser.py:365-405 | `_extract_vehicle_data` gives the vehicle record of its specification |
| XmlParsing.ExtractArmorData | src/xml_parser.py:412-457 | `_extract_armor_data` gives the armour record of its specification |
| XmlParsing.ExtractGearData | src/xml_parser.py:464-506 | `_extract_gear_data` gives the gear record of its specification |
| XmlParsing.GenericFields | src/xml_parser.py:527-530 | the raw dict over the first `n` children is well formed |
| XmlParsing.ExtractGenericData | src/xml_parser.py:523-556 | `_extract_generic_data` gives the generic record of its specification |
| XmlParsing.GenericFieldsKeys | src/xml_parser.py:528-530 | the copied fields are exactly the tags of the children other than `Name`, `Description` and `Source` |
| XmlParsing.GenericFieldsValues | src/xml_parser.py:528-530 | each copied field holds the value of the last child with that tag |
| XmlParsing.GenericRawFields | src/xml_parser.py:527-534 | the raw dict is well formed, its name and description are read as text, it has no `Source` field, and every other child's tag is present |
| XmlParsing.GenericUnmappedName | src/xml_parser.py:537-544 | without a renaming for its type, a record with no child tagged `name` is called `Unknown <type>` |
| XmlFiles.ParseWeapons | src/xml_parser.py:106-113 | the loop gathers, in order, the records of the `Weapon` children that extract |
| XmlFiles.ParseWeapon | src/xml_parser.py:109-112 | one pass appends the next weapon when it extracts |
| XmlFiles.ParseSpecies | src/xml_parser.py:181-188 | the loop gathers, in order, one record per `Species` child |
| XmlFiles.ParseOneSpecies | src/xml_parser.py:184-187 | one pass appends the next species |
| XmlFiles.ParseGenericItems | src/xml_parser.py:513-516 | the inner loop gathers the generic records of a container's items, in order |
| XmlFiles.ParseGenericItem | src/xml_parser.py:513-516 | one pass of the inner loop appends the next item's record |
| XmlFiles.ParseGeneric | src/xml_parser.py:508-521 | the outer loop gathers, in order, what each child of the root contributes |
| XmlFiles.ParseGenericChild | src/xml_parser.py:511-520 | one pass of the outer loop appends the next child's records |
| XmlFiles.ParseContainer | src/xml_parser.py:512-516 | a child whose tag ends in `s` contributes its items, typed by the tag without the `s` |
| XmlFiles.ParseGenericLeaf | src/xml_parser.py:517-520 | any other child contributes its own record, typed by its tag |
| XmlFiles.ParseCharacterRoot | src/xml_parser.py:221-224 | a career, specialization, talent or force-power root gives exactly the one record extracted from the root |
| XmlFiles.ParseEquipmentRoot | src/xml_parser.py:360-363 | a vehicle, armour or gear root gives exactly the one record extracted from the root |
| XmlFiles.ParseXmlRoot | src/xml_parser.py:74-95 | the dispatch on the root tag gives the records of the matching parser, or of the generic one |
| XmlFiles.ParseXmlFile | src/xml_parser.py:58-104 | a file that parses gives the records of its root; one that does not gives none |
| XmlFiles.CollectOneEach | src/xml_parser.py:184-187 | a loop whose elements each give one record gathers one per element |
| XmlFiles.CollectAtMostOneEach | src/xml_parser.py:109-112 | a loop whose elements each give at most one record gathers at most one per element |
| XmlFiles.KindEntryOne | src/xml_parser.py:181-462 | every parser but the weapon and generic ones gives exactly one record per element |
| XmlFiles.WeaponEntryAtMostOne | src/xml_parser.py:109-112 | at most one record per `Weapon` element |
| XmlFiles.ParsedRecordsCount | src/xml_parser.py:74-95 | a file gives one record per `Species` child, at most one per `Weapon` child, and exactly one for the roots extracted whole |
| XmlScan.SourcesMatch | src/xml_parser.py:823-838 | a record matches exactly when some source, preceded only by string sources, is named by a selected configuration; all-string sources never raise |
| XmlScan.SourcesMatchErr | src/xml_parser.py:826-838 | the loop raises exactly when a comparison is reached and a non-string source comes before any source that matches |
| XmlScan.KeptWellFormed | src/xml_parser.py:821-838 | on a record with string sources the test cannot raise, and keeps the record exactly when a selected configuration names one of its sources |
| XmlScan.FilterBySources | src/xml_parser.py:815-840 | `filter_by_sources` gives its specification |
| XmlScan.FilterBySourcesKeeps | src/xml_parser.py:815-840 | on well-formed records the filter cannot raise, and keeps a record exactly when the selection is empty or a selected configuration names one of its sources |
| XmlScan.FilterBySourcesOrder | src/xml_parser.py:820-840 | the kept records come in their original order, each once |
| XmlScan.FilterBySourcesErr | src/xml_parser.py:815-840 | the filter raises exactly when the selection is non-empty and the test raises on some record |
| XmlScan.FilterBySourcesIdempotent | src/xml_parser.py:815-840 | filtering the filtered records again changes nothing |
| XmlScan.OfTypeNamed | src/xml_parser.py:884-887 | the records of a given type among the first `n`, and only those |
| XmlScan.BucketedSpec | src/xml_parser.py:884-889 | the loop raises exactly on an unhashable record type; otherwise the keys stay as they were and each list gains, in order, the records of its type |
| XmlScan.BucketedErrPersists | src/xml_parser.py:884-889 | once the loop has raised it stays raised |
| XmlScan.BucketRecords | src/xml_parser.py:884-889 | the categorisation loop for one file's records gives its specification |
| XmlScan.AddFile | src/xml_parser.py:879-889 | one file's records, filtered when sources are selected, are filed by type |
| XmlScan.ScanFile | src/xml_parser.py:875-889 | one pass parses, filters and files the next file |
| XmlScan.ScanErrPersists | src/xml_parser.py:875-889 | once the scan has raised on a file it stays raised |
| XmlScan.ScanDirectory | src/xml_parser.py:842-890 | `scan_directory` over the listed files gives its specification |
| XmlScan.FileAddedSpec | src/xml_parser.py:879-889 | for well-formed records one file cannot raise, keeps the keys, and adds to a list exactly the records of its type that the filter keeps |
| XmlScan.BucketedFiled | src/xml_parser.py:884-887 | filing keeps every list to its own type |
| XmlScan.ScanFiled | src/xml_parser.py:875-889 | after any number of files the keys are the ten of the initial display, in order, and every list holds only records of its type |
| XmlScan.EmptyFiled | src/xml_parser.py:853-864 | the scan starts from the ten empty lists |
| XmlScan.FileAddedFiled | src/xml_parser.py:875-889 | one more file keeps the keys and files each record under its own type |
| XmlScan.ScannedFiled | src/xml_parser.py:842-890 | the result keeps its ten keys in order, files each record under its own type, and files nothing of type `items` (armor and gear are dropped) |
| XmlScan.ItemsNotScanned | src/xml_parser.py:853-864 | `items` is not one of the scanned record types |
| XmlScan.MissingDirectory | src/xml_parser.py:866-869 | a directory that does not exist gives the ten empty lists |
| XmlScan.EmptyTotal | src/xml_parser.py:853-864 | the ten empty lists hold no records |
| JsonNpc.FirstTruthy | src/json_parser.py:97-98 | `d.get(k1) or d.get(k2) or ... or fallback` gives the fallback when no key holds a truthy value, and otherwise the first truthy one |
| JsonNpc.FirstSourceTag | src/json_parser.py:111-114 | the position found is the first source tag, and nothing is found exactly when no tag is one |
| JsonNpc.FindSourceTag | src/json_parser.py:107-114 | the loop over the tags stops at the first source tag |
| JsonNpc.NpcSourceSpec | src/json_parser.py:106-118 | a source tag wins over any source field, and it is the first such tag; without one, `source` then `Source` are tried, else `''` |
| JsonNpc.CharacteristicKeysDistinct | src/json_parser.py:199 | the six characteristic keys are distinct |
| JsonNpc.CharacteristicFieldsSpec | src/json_parser.py:199-200 | after `n` passes the first `n` keys are listed, in order, each holding its value, and no other key is present |
| JsonNpc.CharacteristicsSpec | src/json_parser.py:185-212 | exactly the six lower-case keys, in order; each value is the lower-case key's, else the title-case key's, else 1 |
| JsonNpc.ExtractCharacteristics | src/json_parser.py:185-212 | `_extract_characteristics` gives its specification, for the dict case by the loop and otherwise by the display over the NPC's own fields |
| JsonNpc.SkillsFromDictSpec | src/json_parser.py:225-233 | dict form: a skill is present exactly when its value is an int or a string, and holds its rank |
| JsonNpc.SkillsFromListSpec | src/json_parser.py:234-238 | list form: the skills are exactly the strings of the list, each with rank 1 |
| JsonNpc.ExtractSkills | src/json_parser.py:214-240 | `_extract_skills` gives its specification |
| JsonNpc.NameOf | src/json_parser.py:256-262 | a dict entry contributes only a truthy name |
| JsonNpc.AbilityOf | src/json_parser.py:278-285 | a dict ability contributes a new dict of exactly `name` and `description` |
| JsonNpc.PickedPositions | src/json_parser.py:255-262 | the contributing positions are in range and strictly increasing |
| JsonNpc.PickedSpec | src/json_parser.py:242-367 | the output is the contributions of exactly the contributing entries, in their order, and never longer than the input |
| JsonNpc.StringsKept | src/json_parser.py:257-258 | a string entry is kept as it is |
| JsonNpc.ExtractEntries | src/json_parser.py:242-367 | the loop every list extractor runs gives its specification |
| JsonNpc.NpcDisplaySpec | src/json_parser.py:97-153 | a record is filed under "npcs" and its name is never empty: `name`, else `Name`, else "Unknown NPC"; it carries the source and the NPC data |
| JsonNpc.NpcThresholds | src/json_parser.py:167-170 | the thresholds fall back to the NPC's `derived` values and then to 10, 10, 0 and 0, the defense to `derived`'s `defence` |
| JsonNpc.NpcRecordNone | src/json_parser.py:93-183 | the extraction gives `None` exactly for a value that is not a dict, a `_filename` that cannot be title-cased, or a `derived` that is not a dict |
| JsonNpc.ExtractNpcData | src/json_parser.py:93-183 | `_extract_npc_data` with the loops of its extractors gives its specification |
| JsonNpc.ExtractParts | src/json_parser.py:106-139 | the source and the extractors' loops, in the order the extraction runs them |
| JsonNpc.ExtractSource | src/json_parser.py:106-118 | the search of the tags, then of the source fields, gives the NPC's source |
| JsonParsing.NpcRecordShaped | src/json_parser.py:147-183 | every record the NPC extraction gives is filed under "npcs" and holds a `data` dict |
| JsonParsing.ExtractorShaped | src/json_parser.py:93-183 | the extractor the parser uses gives only `npcs` records |
| JsonParsing.EmittedShaped | src/json_parser.py:64-66 | appending one extraction adds at most one record, an `npcs` one |
| JsonParsing.ListNpcsShaped | src/json_parser.py:56-66 | a list of NPCs gives at most one record per entry, each an `npcs` record |
| JsonParsing.ListNpcsStep | src/json_parser.py:59-61 | a step of the list loop raises exactly when an earlier one did or its entry is not a dict (tagging it raises) |
| JsonParsing.ListNpcsValue | src/json_parser.py:59-66 | a step that does not raise appends exactly what the entry, tagged with `_filename` and `definitions`, extracts to |
| JsonParsing.ListNpcsNonDict | src/json_parser.py:59-91 | one entry that is not a dict makes the whole file give nothing |
| JsonParsing.ListNpcsAllDicts | src/json_parser.py:59-66 | a list of dicts never raises |
| JsonParsing.ListNpcsDead | src/json_parser.py:59-91 | once an entry has raised, no later entry brings anything back |
| JsonParsing.ParseList | src/json_parser.py:56-66 | the loop over a top-level list gives the parse of the list |
| JsonParsing.NpcEntriesShaped | src/json_parser.py:69-75 | the entries of `npcs` give at most one record each, each an `npcs` record |
| JsonParsing.ParseNpcEntries | src/json_parser.py:69-75 | the loop over `npcs` gives its specification: dict entries get `definitions`, and every successful extraction is kept in order |
| JsonParsing.ParsedJsonShaped | src/json_parser.py:22-91 | whatever a file holds, and whether or not it decodes, it gives only `npcs` records |
| JsonParsing.ParseContent | src/json_parser.py:56-84 | the dispatch on a list, a dict with `npcs`, a single NPC dict or anything else gives the parse of the content |
| JsonParsing.ListEntrySpec | src/json_parser.py:480-484 | an entry is indexed exactly when it is a dict whose truthy `name`, or else its `Name`, is a string, an empty one included; it goes under that string stripped and lower-cased, with its description |
| JsonParsing.IndexedListStep | src/json_parser.py:479-484 | one entry of a list-form file overwrites its key's value when it indexes one, and changes nothing otherwise |
| JsonParsing.IndexedListLastWins | src/json_parser.py:479-484 | a key holds what the last entry indexing it gives |
| JsonParsing.IndexedListUntouched | src/json_parser.py:479-484 | a key no entry indexes keeps what it held, and stays absent when it was |
| JsonParsing.IndexedDictStops | src/json_parser.py:485-497 | an item that raises (a name without `strip`) keeps everything indexed before it and nothing after |
| JsonParsing.IndexListEntries | src/json_parser.py:478-484 | the loop over a list-form file gives its specification: each entry whose `name or Name` is a string, even an empty one, indexed in order, later entries overwriting earlier ones |
| JsonParsing.IndexDictItems | src/json_parser.py:485-497 | the loop over a dict-form file gives its specification, the exception caught |
| JsonParsing.IndexInto | src/json_parser.py:476-497 | `index_list` dispatches on a list, a dict, or anything else, which indexes nothing |
| JsonParsing.OtherFilesIgnored | src/json_parser.py:500-512 | files of other names, and files that cannot be read, leave all three maps empty |
| JsonParsing.BuildDefinitions | src/json_parser.py:499-520 | the loop over a directory's files gives its `talents`, `abilities` and `force_powers` maps |
| JsonParsing.MatchesSelected | src/json_parser.py:384-400 | the nested loops find a match exactly when some selected config has an adversaries source among the tags or within the source, ignoring case |
| JsonParsing.AdversariesFilterKeeps | src/json_parser.py:369-402 | on `npcs` records the filter never raises; a record is kept exactly when the selection is empty or the record matches a selected config |
| JsonParsing.AdversariesFilterShaped | src/json_parser.py:369-402 | filtering `npcs` records keeps only `npcs` records |
| JsonParsing.AdversariesFilterOrder | src/json_parser.py:374-402 | the kept records are the input's at strictly increasing positions, so in order and each once |
| JsonParsing.AdversariesFilterIdempotent | src/json_parser.py:369-402 | filtering what the filter kept keeps all of it |
| JsonParsing.FilterAdversaries | src/json_parser.py:369-402 | the loop of `filter_by_sources` gives its specification |
| JsonParsing.ScanPrefixShaped | src/json_parser.py:428-436 | the scan never raises and gives only `npcs` records |
| JsonParsing.DefinitionFilesSkipped | src/json_parser.py:423-425 | the definition files are skipped: a directory of only those gives no records |
| JsonParsing.ScannedShaped | src/json_parser.py:404-438 | a missing directory gives nothing; the whole scan never raises and gives only `npcs` records |
| JsonParsing.JsonParser.constructor | src/json_parser.py:7-11 | the parser starts with the configured sources and an empty definitions cache |
| JsonParsing.JsonParser.LoadAdversaryDefinitions | src/json_parser.py:463-522 | a cached directory is answered from the cache and nothing changes; any other is loaded and cached; while the directories do not change, the cache keeps agreeing with them and the answer is what loading gives |
| JsonParsing.JsonParser.ParseJsonFile | src/json_parser.py:22-91 | a file that cannot be decoded, or holds only `null`, gives nothing and caches nothing; every file gives only `npcs` records, and, with a coherent cache, exactly the parse of its content with its directory's definitions |
| JsonParsing.JsonParser.FilterBySources | src/json_parser.py:369-402 | the filter uses the parser's own source configs |
| JsonParsing.JsonParser.ScanDirectory | src/json_parser.py:404-438 | the scan gives only `npcs` records and, with a coherent cache, exactly the scan's specification, so the filter's exception path is never taken |
| Importing.NotInPrefix | src/import_manager.py:236-246 | in a list of distinct types, a type does not occur before its own position |
| Importing.MergedXmlShape | src/import_manager.py:204-206 | merging the XML scan adds no key and keeps the order of the collected dict |
| Importing.MergedXmlAt | src/import_manager.py:204-206 | each collected type holds what it held, then the scan's records of that type |
| Importing.SelectedPrefixSpec | src/import_manager.py:215-218 | after the first `n` selected types, exactly those that were collected are kept, each with all its records |
| Importing.SelectedSpec | src/import_manager.py:213-221 | no selection keeps the collected dict as it is; otherwise exactly the selected types that were collected are kept, each with all its records |
| Importing.TruncatedSpec | src/import_manager.py:226-229 | a list is cut to a prefix: `limit` records when it is longer than a positive limit, and otherwise left whole |
| Importing.LimitedPrefixSpec | src/import_manager.py:224-229 | after `n` types of the loop, those `n` types are present, in order, each truncated on its own |
| Importing.LimitedSpec | src/import_manager.py:223-229 | the limit keeps every type, in order, and truncates each list on its own |
| Importing.TypesFacts | src/import_manager.py:189-199 | the nine collected types are distinct and include `npcs` |
| Importing.SameTypes | src/import_manager.py:189-246 | every collected type is one the import order lists |
| Importing.XmlTypesFacts | src/xml_parser.py:853-864 | the XML scan's keys are distinct and do not include `items` |
| Importing.GatherSpec | src/import_manager.py:201-211 | with every type empty to begin with, the order and keys are kept and each type holds the XML records of its type (when the OggDude directory is set), the NPCs followed by the Adversaries records (when that directory is set) |
| Importing.CollectedSpec | src/import_manager.py:189-211 | the collected dict has the nine keys in their order; each holds the XML records of its type, and `npcs` is followed by the Adversaries records, each part only when its directory is set |
| Importing.XmlScanKeys | src/import_manager.py:203-206 | an XML scan that succeeds gives a well-formed dict with no `items` key |
| Importing.PreparedSpec | src/import_manager.py:189-229 | the preparation fails exactly when the OggDude directory is set and its scan raised; otherwise it keeps every collected type when none is selected and else the selected ones, each cut to the limit |
| Importing.PreparedTypes | src/import_manager.py:189-246 | every prepared type is one the import order lists, so every prepared record is reached by the upload loops |
| Importing.NoItemsPrepared | src/import_manager.py:203-211 | with a scan that files nothing under `items`, no item is ever prepared |
| Importing.NoXmlItemsPrepared | src/import_manager.py:203-211 | no item of an OggDude directory is ever prepared for import |
| Importing.CategoryFromErr | src/import_manager.py:350-354 | the search raises exactly when the source is not a string and a selected config is left to compare against it |
| Importing.CategoryFromFirst | src/import_manager.py:350-354 | the first selected config with an OggDude source inside the source, ignoring case, gives its name |
| Importing.CategoryFromDefault | src/import_manager.py:350-357 | when no selected config names the source, the category is "Star Wars RPG" |
| Importing.FirstNamingExists | src/import_manager.py:350-354 | when some selected config names the source, a first one does |
| Importing.CategoryOfSpec | src/import_manager.py:345-357 | the category raises exactly when the source is not a string and some selected config lists an OggDude source; a named string source gets the name of its first naming config; any other string source gets the default |
| Importing.RegistrationSpec | src/import_manager.py:299-312 | a registration fails exactly for a truthy name of a registered type with no `_id` or a name that is not hashable; when made, it goes to the type's registry under the record's name with the server's id; a non-empty string name with an id is always registered |
| Importing.ConversionsChecked | src/import_manager.py:265-267 | the conversion check used is exactly `convert_oggdude_to_realm_vtt` as modelled |
| Importing.OutcomeRegistry | src/import_manager.py:299-312 | an attempt registers only in the registry of its own record type |
| Importing.NoItemRegistration | src/import_manager.py:301-302 | an attempt on a record that is not an item registers no item |
| Importing.RegisteredAppend | src/import_manager.py:299-312 | registering two runs of attempts one after another is registering them together, in order |
| Importing.RegistrationsStep | src/import_manager.py:299-312 | one more attempt adds exactly its own registration |
| Importing.OrderFacts | src/import_manager.py:236-246 | the import order lists each type once and `npcs` last and only last |
| Importing.Pairs | src/import_manager.py:256-259 | one type's records, each paired with its type, in order |
| Importing.LogOkStep | src/import_manager.py:259-331 | a run of attempts stays as the source makes it when the next attempt imports the next scheduled record against the item registry the run left |
| Importing.CheckedStep | src/import_manager.py:259-331 | the same, for any check of the attempts |
| Importing.EntriesImplied | src/import_manager.py:263-331 | the per-attempt check the loops carry implies the source's |
| Importing.CheckedLogOk | src/import_manager.py:259-331 | a run checked attempt by attempt is a run as the source makes it |
| Importing.LogEntry | src/import_manager.py:263-331 | in such a run, each attempt imported its scheduled record against the item registry the attempts before it left |
| Importing.LogOutcome | src/import_manager.py:263-331 | in such a run, each attempt ended as its conversion, upload and registration decide |
| Importing.SchedulePrefix | src/import_manager.py:248-261 | the records of the first types come first in the schedule |
| Importing.ScheduleAt | src/import_manager.py:248-261 | the `ri`-th record of the `ti`-th type comes right after every record of the types before it |
| Importing.ScheduleTypes | src/import_manager.py:248-261 | every scheduled record is a record of its type, the type one of those listed |
| Importing.LastTypeLast | src/import_manager.py:235-246 | when the last type is listed only last, its records come after every other record |
| Importing.SumOverAppend | src/import_manager.py:232 | one more type adds its record count to the sum |
| Importing.SumLengthsOver | src/import_manager.py:232 | the sum over the dict's values is the sum over its keys in order |
| Importing.ScheduleLength | src/import_manager.py:232-261 | the schedule has as many records as the types listed hold |
| Importing.SumOverEmpty | src/import_manager.py:232 | types without records count nothing |
| Importing.DistinctTail | src/import_manager.py:236-246 | the tail of a list of distinct types is distinct and does not hold its head |
| Importing.WithoutDistinct | src/import_manager.py:236-246 | removing a type keeps the list distinct |
| Importing.SumWithout | src/import_manager.py:232 | removing a type subtracts exactly its records from the sum |
| Importing.SumAgree | src/import_manager.py:232 | two lists of distinct types that agree on every type with records count the same records |
| Importing.ScheduleCoversAll | src/import_manager.py:232-261 | the schedule over distinct types that include every prepared type holds exactly the total the progress counts against |
| Importing.NpcsSeeAllItems | src/import_manager.py:235-267 | every NPC is converted against the item registry as the whole run leaves it: no item is registered after the first NPC |
| Importing.NoRegistrationsAfter | src/import_manager.py:299-312 | attempts that register nothing in a registry leave its registrations as they were |
| Importing.PercentageBounds | src/import_manager.py:373-377 | the percentage lies between 0 and 100 and is 100 exactly when a total exists and every record is done |
| Importing.Snapshot | src/data_mapper.py:6-11 | the six name registries of a mapper, as they are now |
| Importing.RunningStop | src/import_manager.py:249-261 | a stop seen before the next attempt ends the run with the attempts made so far |
| Importing.RunningStart | src/import_manager.py:248 | a run starts with no attempts |
| Importing.RanFrom | src/import_manager.py:248-261 | a run that ended at a stop or after the whole schedule made exactly the schedule's first attempts, a stop never seen before them |
| Importing.ImpliedUse | src/import_manager.py:263-331 | an attempt made as the source makes it passes every check the loops carry |
| Importing.ItemsOf | src/data_mapper.py:6 | the item registry is the mapper's item map |
| Importing.RunningStep | src/import_manager.py:259-261 | one more attempt, made while the import ran and no stop was seen, keeps the loops running |
| Importing.ReportedStep | src/import_manager.py:314-331 | after one more attempt the progress is the count of attempts out of the total, with that attempt's message |
| Importing.ReportedWithin | src/import_manager.py:314-331 | against a total that covers the schedule, the progress never passes its total and counts the attempts made |
| Importing.RegisteredStep | src/import_manager.py:299-312 | the registry after one more attempt is the registry of the longer run |
| Importing.ScheduleStep | src/import_manager.py:248-259 | the records of the first `ti + 1` types are those of the first `ti` followed by those of the next |
| Importing.ScheduleNone | src/import_manager.py:248 | no types, no records |
| Importing.ScheduleSkip | src/import_manager.py:253-254 | a type with no records adds nothing to the schedule |
| Importing.ScheduledIs | src/import_manager.py:235-261 | the records are scheduled type by type in the import order |
| Importing.ScheduledCovers | src/import_manager.py:232-261 | a prepared dict of import types is scheduled record by record: as many scheduled as the total counts |
| Importing.MergeXml | src/import_manager.py:204-206 | the merge loop gives the merge's specification |
| Importing.SelectTypes | src/import_manager.py:213-221 | the selection gives its specification |
| Importing.LimitRecords | src/import_manager.py:223-229 | the limit loop gives its specification |
| Importing.TotalRecords | src/import_manager.py:232 | the loop counts every record of the prepared dict |
| Importing.ImportManager.constructor | src/import_manager.py:10-31 | a new manager has the default settings, no import running, no progress, an empty JSON cache and empty registries |
| Importing.ImportManager.UpdateProgress | src/import_manager.py:47-52 | the progress is set to the count, the total and the message; nothing else changes |
| Importing.ImportManager.SetCampaignId | src/import_manager.py:57-59 | only the campaign id changes |
| Importing.ImportManager.SetSelectedSources | src/import_manager.py:63-65 | only the selected sources change |
| Importing.ImportManager.SetSelectedRecordTypes | src/import_manager.py:67-69 | only the selected record types change |
| Importing.ImportManager.SetMaxImportLimit | src/import_manager.py:71-73 | only the limit changes |
| Importing.ImportManager.SetUpdateExisting | src/import_manager.py:75-77 | only the update flag changes |
| Importing.ImportManager.SetOggdudeDirectory | src/import_manager.py:79-81 | only the OggDude directory changes |
| Importing.ImportManager.SetAdversariesDirectory | src/import_manager.py:83-85 | only the Adversaries directory changes |
| Importing.ImportManager.CollectRecords | src/import_manager.py:189-229 | a successful preparation is a well-formed dict of import types; with a coherent cache it is exactly what the settings prepare from the two directories, and the cache stays coherent |
| Importing.ImportManager.ParseFiles | src/import_manager.py:87-155 | only import types are counted; with a coherent cache, the counts are the prepared types in order, each with its number of records, or the scan's error |
| Importing.ImportManager.StartImport | src/import_manager.py:157-176 | the import starts exactly when none is running and a campaign is set, and the progress is then reset; otherwise nothing changes |
| Importing.ImportManager.StopImport | src/import_manager.py:178-181 | the import is no longer running; nothing else changes |
| Importing.ImportManager.IsImportRunning | src/import_manager.py:359-361 | whether an import is running |
| Importing.ImportManager.GetImportProgress | src/import_manager.py:363-366 | the count and the total of the progress |
| Importing.ImportManager.GetCurrentOperation | src/import_manager.py:368-371 | the message of the progress |
| Importing.ImportManager.GetProgressPercentage | src/import_manager.py:373-377 | the percentage of the progress, between 0 and 100 while the count is within the total |
| Importing.ImportManager.GetCategoryForRecord | src/import_manager.py:345-357 | the category under the configured sources and the selected ones |
| Importing.ImportManager.ConvertForImport | src/import_manager.py:265-267 | a category that raises is the attempt's error; otherwise the result is what the conversion may give against the current item registry |
| Importing.ImportManager.UploadRecord | src/import_manager.py:269-297 | with updating on and a truthy name, an existing record of that name is patched and a missing one created at its type's endpoint; otherwise the record is created |
| Importing.ImportManager.FinishRecord | src/import_manager.py:269-312 | the outcome is the upload's and then the registration's; each registry gains exactly that registration |
| Importing.ImportManager.ImportRecord | src/import_manager.py:263-331 | the attempt imports the record as the source does against the current item registry, any raise caught; each registry gains exactly the attempt's registration |
| Importing.ImportManager.UploadedIff | src/import_manager.py:248-331 | the loops' state, part by part: settings unchanged, each attempt as the source makes it, the registries with the run's registrations, the progress as reported |
| Importing.ImportManager.UploadedStart | src/import_manager.py:248 | before any attempt the run is as it began |
| Importing.ImportManager.AttemptNext | src/import_manager.py:259-331 | one pass of the record loop attempts the next scheduled record and keeps the loops' state |
| Importing.ImportManager.UploadType | src/import_manager.py:259-331 | the record loop over one type, checking for a stop before each record, keeps the loops' state |
| Importing.ImportManager.UploadRecords | src/import_manager.py:248-333 | the attempts are the schedule's first ones, up to a stop; each is made against the item registry the attempts before it left; the registries end with their registrations; the progress counts the attempts out of the total and stays within it |
| Importing.ImportManager.ImportProcess | src/import_manager.py:183-343 | the import is never running after it, and the settings do not change; a raising preparation uploads nothing and changes no registry or progress; otherwise the run is what `UploadRecords` states over the import order, and the preparation is the expected one when the cache was coherent |

## Left out

- File and configuration I/O is not modelled. That covers `open`, `json.load`, `ET.parse`,
  `Path.rglob`, `Path.exists`, `_load_field_mapping` and both `_load_sources_config`. The model
  receives instead: the parsed root element of each file (`None` for a file that does not
  parse); each JSON file's decoded content (`None` when no encoding decodes it); the
  definition files under a directory, as a listing function; the configurations as values.
- The encoding retry loop of `parse_json_file`: only its result is modelled, a decoded value
  or none.
- `print`, `_log_status`, `set_progress_callback`, `set_status_callback` and the callbacks
  themselves are not modelled; they have no effect on the records.
- Threads are not modelled: `threading.Thread`, `progress_lock`, the daemon thread and
  `time.sleep`. `start_import` sets the flag and resets the progress, and the import body is a
  separate call, `ImportProcess`. A `stop_import` from another thread is a parameter,
  `stopped(c)`, consulted at each check of the flag, where `c` is the number of attempts
  made so far.
- `src/api_client.py` is not part of this model. The server is the `Api` parameter. Its
  `find`, `patch` and `create` answer the `j`-th attempt with a record `_id`, no `_id`, or an
  error. The call to `api_client.set_campaign_id` in `set_campaign_id` is left out, and a
  campaign id of `None` is modelled as `""`.
- `ImportRecord` takes the conversion as a ghost relation checked against
  `convert_oggdude_to_realm_vtt`'s model (`ChecksConversions`), not as a call whose answer is
  fixed.
- Most stages of `_convert_description` are the `Rewriter` parameter: `typos` stands for the
  regular-expression fixes of src/data_mapper.py:786-794, `tags` for everything from
  src/data_mapper.py:811 to 904, and `leftovers` for src/data_mapper.py:910. `tags` therefore
  also covers the three literal replacements of `[P]`, `[/P]` and `[BR]`
  (src/data_mapper.py:830-832). What is modelled in full is the thirteen entity replacements
  of src/data_mapper.py:797-809, `_fix_html_structure` and `_fix_bold_tags`.
- `str.title()` (src/json_parser.py:104) and Python's `str()` of a non-string value are
  parameters. `lower`, `upper` and `strip` are modelled for ASCII letters and Latin-1
  whitespace; other Unicode casing is not.
- The progress percentage is a `real`, not a floating-point number; rounding is not
  modelled.
- `get_items_loader` and `get_item_by_key` (src/json_parser.py:440-461) are not modelled.
  They depend on `src/items_loader.py`, which is not part of this model.
- `_get_source` (src/xml_parser.py:576-582) is not modelled because no code in the four
  files calls it. The extractors use `_get_sources`.
- `_map_qualities` (src/data_mapper.py:402-405) has no member of its own. It is the list of
  names that `MapQualitiesWithCounts` returns.
- `ItemConversion.WeaponFieldQualities`: `qualities` is removed only when a truthy list was
  mapped. A falsy `qualities` key stays in the converted weapon, as it does in the source.
- A dict's keys are modelled as strings, so the `isinstance(k, str)` test of `index_list`
  (src/json_parser.py:487) always passes.
- `Value` has no floating-point numbers. A JSON number with a fraction cannot be written, so
  the model cannot show `_extract_skills` dropping a float rank (src/json_parser.py:227-233).
- `Values.Dict` does not require its key list to be free of repeats. Every dict the model
  builds through `Put` lists each key once, but that is not part of `Valid()`.
- AddTalentsKeys: talents compare as model values, not with Python's hash and `==`. Python
  treats `True` and `1` (and `False` and `0`) as the same dict key; the model keeps them apart.
  Names and talents read from OggDude XML are always strings, so this shows only on data
  built by hand.
- AddTalentsLists: counts a talent's occurrences with the same value equality, so `[True, 1]`
  gives two keys with one name each where Python gives `True` two names.
- TalentTreesKeys: its keys are distinct as model values, so `True` and `1` can both be keys.
- TalentTreesLists: the lists follow the same value equality as `AddTalentsLists`.
- BuildTalentTrees: inherits the value-equality keys of `TalentTrees`.
- RegistrationSpec: the registries map strings to ids. A truthy, hashable name that is not a
  string, such as `5` or `True`, is not registered in the model. Python's `add_*_mapping`
  (src/data_mapper.py:13-35) would store it under that key.
