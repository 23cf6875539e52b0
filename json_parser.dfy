/** The rest of `JSONParser`: the shapes a parsed Adversaries file may take, the adversary
    definition files indexed per directory and cached, the source filter, and the scan of a
    directory. */
module JsonParsing {
  import opened Wrappers
  import opened Text
  import opened Values
  import opened Sources
  import opened Filtering
  import opened JsonNpc

  // ---------------------------------------------------------------------------------------
  // What an extracted record looks like from outside
  // ---------------------------------------------------------------------------------------

  /** An `npcs` record with a `data` dict. */
  predicate NpcShaped(x: Dict) {
    "recordType" in x.vals && x.vals["recordType"] == VStr("npcs") && "data" in x.vals && x.vals["data"].VDict?
  }

  lemma NpcRecordShaped(v: Value, title: string -> string)
    requires NpcRecord(v, title).Some?
    ensures NpcShaped(NpcRecord(v, title).value)
  {
    var npc := v.d;
    var subtype := Subtype(npc, title).value;
    var derived := npc.Get("derived", VDict(EmptyDict)).d;
    NpcDisplaySpec(npc, derived, Parts(npc, subtype));
  }

  // ---------------------------------------------------------------------------------------
  // parse_json_file
  // ---------------------------------------------------------------------------------------

  /** A JSON file found by the scan: its name, its name without the extension, the directory
      it is in, and its content, `None` when no encoding decodes it as JSON. */
  datatype JsonFile = JsonFile(name: string, stem: string, baseDir: string, content: Option<Value>)

  /** `extract_npc_data` under the given title-casing, as a function value: the parse is
      stated for any extractor and instantiated with this one. */
  function Extractor(title: string -> string): Value -> Option<Dict> {
    (v: Value) => NpcRecord(v, title)
  }

  /** An extractor that gives only `npcs` records. */
  ghost predicate ExtractsShaped(extract: Value -> Option<Dict>) {
    forall v :: extract(v).Some? ==> NpcShaped(extract(v).value)
  }

  lemma ExtractorShaped(title: string -> string)
    ensures ExtractsShaped(Extractor(title))
  {
    forall v | Extractor(title)(v).Some?
      ensures NpcShaped(Extractor(title)(v).value)
    {
      NpcRecordShaped(v, title);
    }
  }

  /** What appending an extraction that may have failed adds. */
  function Emitted(record: Option<Dict>): seq<Dict> {
    match record
    case Some(x) => [x]
    case None => []
  }

  lemma EmittedShaped(extract: Value -> Option<Dict>, v: Value)
    requires ExtractsShaped(extract)
    ensures var e := Emitted(extract(v)); |e| <= 1 && forall i :: 0 <= i < |e| ==> NpcShaped(e[i])
  {
  }

  /** A list entry tagged as the loop tags it: `_filename` and then `definitions` set. */
  function TaggedEntry(item: Dict, stem: string, defs: Value): Value {
    VDict(item.Put("_filename", VStr(stem)).Put("definitions", defs))
  }

  /** The loop over a top-level list: each of the first `n` entries is tagged and extracted.
      Tagging an entry that is not a dict raises `TypeError`, which the function catches:
      `None` then, and the file gives nothing. */
  function ListNpcs(items: seq<Value>, stem: string, defs: Value, extract: Value -> Option<Dict>, n: nat)
    : Option<seq<Dict>>
    requires n <= |items|
  {
    if n == 0 then Some([])
    else match ListNpcs(items, stem, defs, extract, n - 1)
      case None => None
      case Some(prev) =>
        if !items[n - 1].VDict? then None
        else Some(prev + Emitted(extract(TaggedEntry(items[n - 1].d, stem, defs))))
  }

  /** An entry of `npcs` gets `definitions` when it is a dict. */
  function WithDefinitions(v: Value, defs: Value): Value {
    if v.VDict? then VDict(v.d.Put("definitions", defs)) else v
  }

  /** The loop over the entries of `npcs`. */
  function NpcEntries(npcs: seq<Value>, defs: Value, extract: Value -> Option<Dict>, n: nat): seq<Dict>
    requires n <= |npcs|
  {
    if n == 0 then []
    else
      NpcEntries(npcs, defs, extract, n - 1) + Emitted(extract(WithDefinitions(npcs[n - 1], defs)))
  }

  /** The three shapes: a list of NPCs, a dict holding `npcs`, or a single NPC dict; any other
      JSON value gives nothing. Iterating an `npcs` value that is not iterable raises, and
      that too gives nothing. */
  function ParsedContent(content: Value, stem: string, defs: Value, extract: Value -> Option<Dict>): seq<Dict> {
    match content
    case VList(items) =>
      (match ListNpcs(items, stem, defs, extract, |items|) case Some(r) => r case None => [])
    case VDict(d) =>
      if d.Has("npcs") then
        (match Iterate(d.vals["npcs"])
         case Ok(npcs) => NpcEntries(npcs, defs, extract, |npcs|)
         case Err(_) => [])
      else
        Emitted(extract(VDict(d.Put("definitions", defs))))
    case _ => []
  }

  /** `parse_json_file` for a file whose directory's definitions are `defs`. */
  function ParsedJson(file: JsonFile, defs: Value, extract: Value -> Option<Dict>): seq<Dict> {
    match file.content
    case None => []
    case Some(c) => ParsedContent(c, file.stem, defs, extract)
  }

  /** A list of NPCs gives at most one record per entry, each one the extractor gave. */
  lemma {:induction false} ListNpcsShaped(items: seq<Value>, stem: string, defs: Value,
                                          extract: Value -> Option<Dict>, n: nat)
    requires n <= |items| && ListNpcs(items, stem, defs, extract, n).Some? && ExtractsShaped(extract)
    ensures var r := ListNpcs(items, stem, defs, extract, n).value;
      |r| <= n && forall i :: 0 <= i < |r| ==> NpcShaped(r[i])
  {
    hide NpcShaped, TaggedEntry, Emitted, ExtractsShaped;
    if n > 0 {
      ListNpcsValue(items, stem, defs, extract, n);
      ListNpcsShaped(items, stem, defs, extract, n - 1);
      EmittedShaped(extract, TaggedEntry(items[n - 1].d, stem, defs));
    }
  }

  /** One step of the list loop raises exactly when the entry is not a dict. */
  lemma ListNpcsStep(items: seq<Value>, stem: string, defs: Value, extract: Value -> Option<Dict>, n: nat)
    requires 0 < n <= |items|
    ensures ListNpcs(items, stem, defs, extract, n).None? <==>
      (ListNpcs(items, stem, defs, extract, n - 1).None? || !items[n - 1].VDict?)
  {
  }

  /** One step of the list loop that does not raise appends what the entry extracts to. */
  lemma ListNpcsValue(items: seq<Value>, stem: string, defs: Value, extract: Value -> Option<Dict>, n: nat)
    requires 0 < n <= |items| && ListNpcs(items, stem, defs, extract, n).Some?
    ensures ListNpcs(items, stem, defs, extract, n - 1).Some? && items[n - 1].VDict?
    ensures ListNpcs(items, stem, defs, extract, n).value ==
      ListNpcs(items, stem, defs, extract, n - 1).value + Emitted(extract(TaggedEntry(items[n - 1].d, stem, defs)))
  {
  }

  /** One entry that is not a dict makes the whole list give nothing. */
  lemma ListNpcsNonDict(items: seq<Value>, stem: string, defs: Value, extract: Value -> Option<Dict>, i: nat)
    requires i < |items| && !items[i].VDict?
    ensures ListNpcs(items, stem, defs, extract, |items|).None?
  {
    ListNpcsStep(items, stem, defs, extract, i + 1);
    ListNpcsDead(items, stem, defs, extract, i + 1, |items|);
  }

  /** A list of dicts never raises. */
  lemma {:induction false} ListNpcsAllDicts(items: seq<Value>, stem: string, defs: Value,
                                            extract: Value -> Option<Dict>, n: nat)
    requires n <= |items| && forall i :: 0 <= i < n ==> items[i].VDict?
    ensures ListNpcs(items, stem, defs, extract, n).Some?
  {
    if n > 0 {
      ListNpcsAllDicts(items, stem, defs, extract, n - 1);
      ListNpcsStep(items, stem, defs, extract, n);
    }
  }

  lemma {:induction false} NpcEntriesShaped(npcs: seq<Value>, defs: Value, extract: Value -> Option<Dict>, n: nat)
    requires n <= |npcs| && ExtractsShaped(extract)
    ensures var r := NpcEntries(npcs, defs, extract, n);
      |r| <= n && forall i :: 0 <= i < |r| ==> NpcShaped(r[i])
  {
    if n > 0 {
      NpcEntriesShaped(npcs, defs, extract, n - 1);
      EmittedShaped(extract, WithDefinitions(npcs[n - 1], defs));
    }
  }

  /** Whatever the file holds, it gives only `npcs` records. */
  lemma ParsedJsonShaped(file: JsonFile, defs: Value, extract: Value -> Option<Dict>)
    requires ExtractsShaped(extract)
    ensures var r := ParsedJson(file, defs, extract);
      forall i :: 0 <= i < |r| ==> NpcShaped(r[i])
  {
    if file.content.Some? {
      match file.content.value
      case VList(items) =>
        if ListNpcs(items, file.stem, defs, extract, |items|).Some? {
          ListNpcsShaped(items, file.stem, defs, extract, |items|);
        }
      case VDict(d) =>
        if d.Has("npcs") {
          var it := Iterate(d.vals["npcs"]);
          if it.Ok? {
            NpcEntriesShaped(it.value, defs, extract, |it.value|);
          }
        }
      case _ =>
    }
  }

  /** Once an entry has raised, the whole list gives nothing. */
  lemma {:induction false} ListNpcsDead(items: seq<Value>, stem: string, defs: Value,
                                        extract: Value -> Option<Dict>, n: nat, m: nat)
    requires n <= m <= |items| && ListNpcs(items, stem, defs, extract, n).None?
    ensures ListNpcs(items, stem, defs, extract, m).None?
    decreases m - n
  {
    hide ListNpcs, TaggedEntry, Emitted;
    if n < m {
      ListNpcsDead(items, stem, defs, extract, n, m - 1);
      ListNpcsStep(items, stem, defs, extract, m);
    }
  }

  /** The loop over a top-level list. */
  method ParseList(items: seq<Value>, stem: string, defs: Value, extract: Value -> Option<Dict>)
    returns (r: seq<Dict>)
    ensures r == ParsedContent(VList(items), stem, defs, extract)
  {
    hide TaggedEntry, Emitted;
    r := [];
    for i := 0 to |items|
      invariant ListNpcs(items, stem, defs, extract, i) == Some(r)
    {
      ListNpcsStep(items, stem, defs, extract, i + 1);
      if !items[i].VDict? {
        ListNpcsDead(items, stem, defs, extract, i + 1, |items|);
        return [];
      }
      var record := extract(TaggedEntry(items[i].d, stem, defs));
      ListNpcsValue(items, stem, defs, extract, i + 1);
      r := r + Emitted(record);
    }
  }

  /** The loop over the entries of `npcs`. */
  method ParseNpcEntries(npcs: seq<Value>, defs: Value, extract: Value -> Option<Dict>) returns (r: seq<Dict>)
    ensures r == NpcEntries(npcs, defs, extract, |npcs|)
  {
    r := [];
    for i := 0 to |npcs|
      invariant r == NpcEntries(npcs, defs, extract, i)
    {
      var record := extract(WithDefinitions(npcs[i], defs));
      r := r + Emitted(record);
    }
  }

  /** The dispatch on the shape of a decoded file. */
  method ParseContent(content: Value, stem: string, defs: Value, extract: Value -> Option<Dict>)
    returns (r: seq<Dict>)
    ensures r == ParsedContent(content, stem, defs, extract)
  {
    if content.VList? {
      r := ParseList(content.items, stem, defs, extract);
    } else if content.VDict? {
      var d := content.d;
      if d.Has("npcs") {
        var npcs := Iterate(d.vals["npcs"]);
        if npcs.Err? {
          return [];
        }
        r := ParseNpcEntries(npcs.value, defs, extract);
      } else {
        var record := extract(VDict(d.Put("definitions", defs)));
        r := Emitted(record);
      }
    } else {
      r := [];
    }
  }

  // ---------------------------------------------------------------------------------------
  // The adversary definitions (`_load_adversary_definitions` and `index_list`)
  // ---------------------------------------------------------------------------------------

  /** A JSON file under a base directory: its name and its content, `None` when it cannot be
      read as JSON (it is then skipped). */
  datatype DefFile = DefFile(name: string, content: Option<Value>)

  /** `{'name': name, 'description': description}` */
  function DefEntry(name: string, description: Value): Value {
    VDict(Dict(["name", "description"], map["name" := VStr(name), "description" := description]))
  }

  /** `entry.get('name') or entry.get('Name')`: a falsy `name` gives whatever `Name` holds,
      itself possibly falsy. */
  function EntryName(d: Dict): Value {
    if Truthy(Field(d, "name")) then Field(d, "name") else Field(d, "Name")
  }

  /** What one entry of a list-form definition file indexes: a dict whose name is a string
      goes under that name stripped and lower-cased. */
  function ListEntry(e: Value): Option<(string, Value)> {
    if !e.VDict? then None
    else
      var name := EntryName(e.d);
      var description := FirstTruthy(e.d, ["description", "Description"], VStr(""));
      if name.VStr? then Some((Lower(Strip(name.s)), DefEntry(Strip(name.s), description))) else None
  }

  /** An entry is indexed exactly when it is a dict and its truthy `name`, or else its `Name`,
      is a string, even an empty one; it goes under that string stripped and lower-cased. */
  lemma ListEntrySpec(e: Value)
    ensures ListEntry(e).Some? <==>
      e.VDict? && (if Truthy(Field(e.d, "name")) then Field(e.d, "name").VStr? else Field(e.d, "Name").VStr?)
    ensures e.VDict? && !Truthy(Field(e.d, "name")) && Field(e.d, "Name").VStr? ==>
      var s := Field(e.d, "Name").s;
      ListEntry(e) == Some((Lower(Strip(s)),
                            DefEntry(Strip(s), FirstTruthy(e.d, ["description", "Description"], VStr("")))))
  {
  }

  /** The loop over the first `n` entries of a list, indexing each with `entry` (which
      `index_list` does with `ListEntry`): each indexed entry overwrites what its key held. */
  function IndexedList(target: Dict, xs: seq<Value>, entry: Value -> Option<(string, Value)>, n: nat): Dict
    requires n <= |xs|
  {
    if n == 0 then target
    else
      var prev := IndexedList(target, xs, entry, n - 1);
      match entry(xs[n - 1])
      case Some(kv) => prev.Put(kv.0, kv.1)
      case None => prev
  }

  /** What one item of a dict-form definition file indexes: a string value is the description
      of the stripped key; a dict value gives its `name` (or the key) and its `description`.
      A name that is not a string has no `strip`, and that raises. */
  function DictEntry(k: string, v: Value): Result<Option<(string, Value)>> {
    var key := Lower(Strip(k));
    match v
    case VStr(_) => Ok(Some((key, DefEntry(Strip(k), v))))
    case VDict(vd) =>
      var name := if Truthy(Field(vd, "name")) then Field(vd, "name") else VStr(k);
      if !name.VStr? then Err("AttributeError: object has no attribute 'strip'")
      else Ok(Some((key, DefEntry(Strip(name.s), FirstTruthy(vd, ["description"], VStr(""))))))
    case _ => Ok(None)
  }

  /** The loop over the first `n` items of a dict, and whether it has raised: the exception
      is swallowed, so what was indexed before it stays. */
  datatype Indexing = Indexing(target: Dict, raised: bool)

  function IndexedDict(target: Dict, d: Dict, n: nat): Indexing
    requires n <= |d.keys|
  {
    if n == 0 then Indexing(target, false)
    else
      var prev := IndexedDict(target, d, n - 1);
      if prev.raised then prev
      else match DictEntry(d.keys[n - 1], d.Get(d.keys[n - 1], VNone))
        case Err(_) => Indexing(prev.target, true)
        case Ok(None) => prev
        case Ok(Some(kv)) => Indexing(prev.target.Put(kv.0, kv.1), false)
  }

  /** `index_list(obj, target_map)`: anything but a list or a dict indexes nothing. */
  function IndexList(target: Dict, obj: Value): Dict {
    match obj
    case VList(xs) => IndexedList(target, xs, ListEntry, |xs|)
    case VDict(d) => IndexedDict(target, d, |d.keys|).target
    case _ => target
  }

  /** The `i`-th entry of a list indexes the key `k`. */
  predicate IndexesKey(xs: seq<Value>, entry: Value -> Option<(string, Value)>, i: nat, k: string)
    requires i < |xs|
  {
    entry(xs[i]).Some? && entry(xs[i]).value.0 == k
  }

  /** One step of the list loop. */
  lemma IndexedListStep(target: Dict, xs: seq<Value>, entry: Value -> Option<(string, Value)>, n: nat)
    requires 0 < n <= |xs|
    ensures var prev := IndexedList(target, xs, entry, n - 1);
      var e := entry(xs[n - 1]);
      IndexedList(target, xs, entry, n) == if e.Some? then prev.Put(e.value.0, e.value.1) else prev
  {
  }

  /** In a list, later entries overwrite earlier ones: a key holds what the last entry with
      that key gives. */
  lemma {:induction false} IndexedListLastWins(target: Dict, xs: seq<Value>, entry: Value -> Option<(string, Value)>,
                                               n: nat, i: nat)
    requires i < n <= |xs| && entry(xs[i]).Some?
    requires forall j :: i < j < n ==> !IndexesKey(xs, entry, j, entry(xs[i]).value.0)
    ensures var kv := entry(xs[i]).value;
      kv.0 in IndexedList(target, xs, entry, n).vals && IndexedList(target, xs, entry, n).vals[kv.0] == kv.1
  {
    IndexedListStep(target, xs, entry, n);
    if i < n - 1 {
      IndexedListLastWins(target, xs, entry, n - 1, i);
      assert !IndexesKey(xs, entry, n - 1, entry(xs[i]).value.0);
    }
  }

  /** A key no entry indexes keeps what it held. */
  lemma {:induction false} IndexedListUntouched(target: Dict, xs: seq<Value>, entry: Value -> Option<(string, Value)>,
                                                n: nat, k: string)
    requires n <= |xs| && forall i :: 0 <= i < n ==> !IndexesKey(xs, entry, i, k)
    ensures var r := IndexedList(target, xs, entry, n);
      (k in r.vals <==> k in target.vals) && (k in target.vals ==> r.vals[k] == target.vals[k])
  {
    if n > 0 {
      IndexedListUntouched(target, xs, entry, n - 1, k);
      IndexedListStep(target, xs, entry, n);
      assert !IndexesKey(xs, entry, n - 1, k);
    }
  }

  /** A dict that raises keeps everything indexed before the faulty item and nothing after. */
  lemma {:induction false} IndexedDictStops(target: Dict, d: Dict, n: nat, m: nat)
    requires n <= m <= |d.keys| && IndexedDict(target, d, n).raised
    ensures IndexedDict(target, d, m) == IndexedDict(target, d, n)
    decreases m - n
  {
    if n < m {
      IndexedDictStops(target, d, n, m - 1);
    }
  }

  /** `index_list` on a list. */
  method IndexListEntries(target: Dict, xs: seq<Value>) returns (r: Dict)
    ensures r == IndexedList(target, xs, ListEntry, |xs|)
  {
    r := target;
    for i := 0 to |xs|
      invariant r == IndexedList(target, xs, ListEntry, i)
    {
      var kv := ListEntry(xs[i]);
      if kv.Some? {
        r := r.Put(kv.value.0, kv.value.1);
      }
    }
  }

  /** `index_list` on a dict. */
  method IndexDictItems(target: Dict, d: Dict) returns (r: Dict)
    ensures r == IndexedDict(target, d, |d.keys|).target
  {
    r := target;
    for i := 0 to |d.keys|
      invariant IndexedDict(target, d, i) == Indexing(r, false)
    {
      var kv := DictEntry(d.keys[i], d.Get(d.keys[i], VNone));
      if kv.Err? {
        IndexedDictStops(target, d, i + 1, |d.keys|);
        return;
      }
      if kv.value.Some? {
        r := r.Put(kv.value.value.0, kv.value.value.1);
      }
    }
  }

  method IndexInto(target: Dict, obj: Value) returns (r: Dict)
    ensures r == IndexList(target, obj)
  {
    if obj.VList? {
      r := IndexListEntries(target, obj.items);
    } else if obj.VDict? {
      r := IndexDictItems(target, obj.d);
    } else {
      r := target;
    }
  }

  /** The three maps the definitions are indexed into. */
  datatype DefMaps = DefMaps(talents: Dict, abilities: Dict, forcePowers: Dict)

  /** The loop over the first `n` JSON files under the base directory: each readable file
      named (case-insensitively) `talents.json`, `abilities.json` or `force-powers.json` is
      indexed into its map; every other file is ignored. */
  function DefinitionMaps(files: seq<DefFile>, n: nat): DefMaps
    requires n <= |files|
  {
    if n == 0 then DefMaps(EmptyDict, EmptyDict, EmptyDict)
    else
      var m := DefinitionMaps(files, n - 1);
      var f := files[n - 1];
      var name := Lower(f.name);
      if f.content.None? then m
      else if name == "talents.json" then m.(talents := IndexList(m.talents, f.content.value))
      else if name == "abilities.json" then m.(abilities := IndexList(m.abilities, f.content.value))
      else if name == "force-powers.json" then m.(forcePowers := IndexList(m.forcePowers, f.content.value))
      else m
  }

  /** The `defs` dict attached to every NPC of the directory. */
  function DefinitionsValue(files: seq<DefFile>): Value {
    var m := DefinitionMaps(files, |files|);
    VDict(Dict(["talents", "abilities", "force_powers"],
               map["talents" := VDict(m.talents), "abilities" := VDict(m.abilities),
                   "force_powers" := VDict(m.forcePowers)]))
  }

  /** A file of another name, or one that cannot be read, changes no map. */
  lemma {:induction false} OtherFilesIgnored(files: seq<DefFile>, n: nat)
    requires n <= |files|
    requires forall i :: 0 <= i < n ==>
      files[i].content.None? || Lower(files[i].name) !in {"talents.json", "abilities.json", "force-powers.json"}
    ensures DefinitionMaps(files, n) == DefMaps(EmptyDict, EmptyDict, EmptyDict)
  {
    if n > 0 {
      OtherFilesIgnored(files, n - 1);
    }
  }

  /** The loop over the files found under the base directory. */
  method BuildDefinitions(files: seq<DefFile>) returns (defs: Value)
    ensures defs == DefinitionsValue(files)
  {
    var m := DefMaps(EmptyDict, EmptyDict, EmptyDict);
    for i := 0 to |files|
      invariant m == DefinitionMaps(files, i)
    {
      var f := files[i];
      var name := Lower(f.name);
      if f.content.Some? {
        if name == "talents.json" {
          var t := IndexInto(m.talents, f.content.value);
          m := m.(talents := t);
        } else if name == "abilities.json" {
          var a := IndexInto(m.abilities, f.content.value);
          m := m.(abilities := a);
        } else if name == "force-powers.json" {
          var p := IndexInto(m.forcePowers, f.content.value);
          m := m.(forcePowers := p);
        }
      }
    }
    defs := VDict(Dict(["talents", "abilities", "force_powers"],
                       map["talents" := VDict(m.talents), "abilities" := VDict(m.abilities),
                           "force_powers" := VDict(m.forcePowers)]));
  }

  // ---------------------------------------------------------------------------------------
  // filter_by_sources
  // ---------------------------------------------------------------------------------------

  /** `record.get('data', {}).get('tags', [])`: a `data` that is not a dict has no `get`. */
  function RecordTags(x: Dict): Result<Value> {
    var data := x.Get("data", VDict(EmptyDict));
    if data.VDict? then Ok(data.d.Get("tags", VList([])))
    else Err("AttributeError: object has no attribute 'get'")
  }

  /** The record's source as a string: `show` stands for Python's `str()` of a value that is
      not a string, and a falsy one is `''`. */
  function RecordSourceText(x: Dict, show: Value -> string): string {
    var v := x.Get("source", VStr(""));
    if v.VStr? then v.s else if Truthy(v) then show(v) else ""
  }

  /** One adversaries source matches: it is one of the tags (when the tags are a list), or it
      occurs in the source, ignoring case. */
  predicate AdversaryMatch(a: string, tags: Value, source: string) {
    (tags.VList? && VStr(a) in tags.items) || Contains(Lower(source), Lower(a))
  }

  /** A selected config with a matching adversaries source. */
  predicate ConfigMatch(c: SourceConfig, selected: seq<string>, tags: Value, source: string) {
    IsSelected(c, selected) &&
    exists j :: 0 <= j < |c.adversariesSources| && AdversaryMatch(c.adversariesSources[j], tags, source)
  }

  predicate SelectedMatch(configs: seq<SourceConfig>, selected: seq<string>, tags: Value, source: string) {
    exists i :: 0 <= i < |configs| && ConfigMatch(configs[i], selected, tags, source)
  }

  /** The test `filter_by_sources` applies to one record. */
  function AdversaryKept(configs: seq<SourceConfig>, selected: seq<string>, show: Value -> string, x: Dict): Result<bool> {
    match RecordTags(x)
    case Err(e) => Err(e)
    case Ok(tags) => Ok(SelectedMatch(configs, selected, tags, RecordSourceText(x, show)))
  }

  function AdversaryTest(configs: seq<SourceConfig>, selected: seq<string>, show: Value -> string): Dict -> Result<bool> {
    (x: Dict) => AdversaryKept(configs, selected, show, x)
  }

  /** `filter_by_sources`: an empty selection keeps everything. */
  function AdversariesFiltered(configs: seq<SourceConfig>, selected: seq<string>, show: Value -> string,
                               records: seq<Dict>): Result<seq<Dict>> {
    if selected == [] then Ok(records) else Filter(records, AdversaryTest(configs, selected, show))
  }

  /** The loops over the configs and their adversaries sources, which stop at the first
      match. */
  method MatchesSelected(configs: seq<SourceConfig>, selected: seq<string>, tags: Value, source: string)
    returns (matched: bool)
    ensures matched == SelectedMatch(configs, selected, tags, source)
  {
    for i := 0 to |configs|
      invariant forall i' :: 0 <= i' < i ==> !ConfigMatch(configs[i'], selected, tags, source)
    {
      var c := configs[i];
      if IsSelected(c, selected) {
        for j := 0 to |c.adversariesSources|
          invariant forall j' :: 0 <= j' < j ==> !AdversaryMatch(c.adversariesSources[j'], tags, source)
        {
          if AdversaryMatch(c.adversariesSources[j], tags, source) {
            return true;
          }
        }
      }
    }
    return false;
  }

  /** A record with a `data` dict never makes the test raise; it is kept exactly when some
      selected config has an adversaries source among its tags or within its source. */
  lemma AdversariesFilterKeeps(configs: seq<SourceConfig>, selected: seq<string>, show: Value -> string,
                               records: seq<Dict>)
    requires forall i :: 0 <= i < |records| ==> NpcShaped(records[i])
    ensures var r := AdversariesFiltered(configs, selected, show, records);
      r.Ok? &&
      (forall x :: x in records ==> AdversaryKept(configs, selected, show, x).Ok?) &&
      forall x :: x in r.value <==>
        (x in records && (selected == [] || AdversaryKept(configs, selected, show, x) == Ok(true)))
  {
    if selected != [] {
      var keep := AdversaryTest(configs, selected, show);
      FilterPrefixOk(records, keep, |records|);
      FilterKeepsAccepted(records, keep);
    }
  }

  /** Filtering `npcs` records never raises and keeps only `npcs` records. */
  lemma AdversariesFilterShaped(configs: seq<SourceConfig>, selected: seq<string>, show: Value -> string,
                                records: seq<Dict>)
    requires forall i :: 0 <= i < |records| ==> NpcShaped(records[i])
    ensures var r := AdversariesFiltered(configs, selected, show, records);
      r.Ok? && forall i :: 0 <= i < |r.value| ==> NpcShaped(r.value[i])
  {
    AdversariesFilterKeeps(configs, selected, show, records);
    var kept := AdversariesFiltered(configs, selected, show, records).value;
    forall i | 0 <= i < |kept|
      ensures NpcShaped(kept[i])
    {
      assert kept[i] in kept;
    }
  }

  /** The kept records keep their order and appear once each. */
  lemma AdversariesFilterOrder(configs: seq<SourceConfig>, selected: seq<string>, show: Value -> string,
                               records: seq<Dict>)
    requires selected != [] && AdversariesFiltered(configs, selected, show, records).Ok?
    ensures var r := AdversariesFiltered(configs, selected, show, records).value;
      var ps := KeptPositions(records, AdversaryTest(configs, selected, show), |records|);
      |r| == |ps| && (forall k :: 0 <= k < |r| ==> r[k] == records[ps[k]]) &&
      forall k, l :: 0 <= k < l < |ps| ==> ps[k] < ps[l]
  {
    FilterPrefixPositions(records, AdversaryTest(configs, selected, show), |records|);
  }

  /** Filtering again changes nothing. */
  lemma AdversariesFilterIdempotent(configs: seq<SourceConfig>, selected: seq<string>, show: Value -> string,
                                    records: seq<Dict>)
    requires AdversariesFiltered(configs, selected, show, records).Ok?
    ensures var r := AdversariesFiltered(configs, selected, show, records).value;
      AdversariesFiltered(configs, selected, show, r) == Ok(r)
  {
    if selected != [] {
      FilterIdempotent(records, AdversaryTest(configs, selected, show));
    }
  }

  /** The loop of `filter_by_sources`. */
  method FilterAdversaries(configs: seq<SourceConfig>, selected: seq<string>, show: Value -> string,
                           records: seq<Dict>) returns (r: Result<seq<Dict>>)
    ensures r == AdversariesFiltered(configs, selected, show, records)
  {
    if selected == [] {
      return Ok(records);
    }
    ghost var keep := AdversaryTest(configs, selected, show);
    var kept: seq<Dict> := [];
    for i := 0 to |records|
      invariant FilterPrefix(records, keep, i) == Ok(kept)
    {
      var tags := RecordTags(records[i]);
      if tags.Err? {
        FilterErrPersists(records, keep, i + 1, |records|);
        return Err(tags.error);
      }
      var matched := MatchesSelected(configs, selected, tags.value, RecordSourceText(records[i], show));
      if matched {
        kept := kept + [records[i]];
      }
    }
    r := Ok(kept);
  }

  // ---------------------------------------------------------------------------------------
  // scan_directory
  // ---------------------------------------------------------------------------------------

  /** The definition files, which the scan does not parse as NPC files. */
  predicate IsDefinitionFile(name: string) {
    Lower(name) in {"talents.json", "abilities.json", "force-powers.json"}
  }

  /** The scan over the first `n` files found, when the directory `d` holds the definition
      files `listing(d)`. */
  function ScanPrefix(configs: seq<SourceConfig>, selected: seq<string>, files: seq<JsonFile>,
                      listing: string -> seq<DefFile>, extract: Value -> Option<Dict>, show: Value -> string,
                      n: nat): Result<seq<Dict>>
    requires n <= |files|
  {
    if n == 0 then Ok([])
    else match ScanPrefix(configs, selected, files, listing, extract, show, n - 1)
      case Err(e) => Err(e)
      case Ok(prev) =>
        var f := files[n - 1];
        if IsDefinitionFile(f.name) then Ok(prev)
        else match AdversariesFiltered(configs, selected, show, ParsedJson(f, DefinitionsValue(listing(f.baseDir)), extract))
          case Err(e) => Err(e)
          case Ok(kept) => Ok(prev + kept)
  }

  /** `scan_directory`: `None` when the directory does not exist. */
  function Scanned(configs: seq<SourceConfig>, selected: seq<string>, dir: Option<seq<JsonFile>>,
                   listing: string -> seq<DefFile>, extract: Value -> Option<Dict>, show: Value -> string): Result<seq<Dict>> {
    match dir
    case None => Ok([])
    case Some(files) => ScanPrefix(configs, selected, files, listing, extract, show, |files|)
  }

  /** The scan never raises, gives only `npcs` records, and nothing from a definition file. */
  lemma {:induction false} ScanPrefixShaped(configs: seq<SourceConfig>, selected: seq<string>, files: seq<JsonFile>,
                                            listing: string -> seq<DefFile>, extract: Value -> Option<Dict>,
                                            show: Value -> string, n: nat)
    requires n <= |files| && ExtractsShaped(extract)
    ensures var r := ScanPrefix(configs, selected, files, listing, extract, show, n);
      r.Ok? && forall i :: 0 <= i < |r.value| ==> NpcShaped(r.value[i])
  {
    if n > 0 {
      ScanPrefixShaped(configs, selected, files, listing, extract, show, n - 1);
      var f := files[n - 1];
      if !IsDefinitionFile(f.name) {
        var defs := DefinitionsValue(listing(f.baseDir));
        ParsedJsonShaped(f, defs, extract);
        AdversariesFilterShaped(configs, selected, show, ParsedJson(f, defs, extract));
      }
    }
  }

  /** Definition files contribute nothing: a directory of only definition files gives no
      records. */
  lemma {:induction false} DefinitionFilesSkipped(configs: seq<SourceConfig>, selected: seq<string>, files: seq<JsonFile>,
                                                  listing: string -> seq<DefFile>, extract: Value -> Option<Dict>,
                                                  show: Value -> string, n: nat)
    requires n <= |files| && forall i :: 0 <= i < n ==> IsDefinitionFile(files[i].name)
    ensures ScanPrefix(configs, selected, files, listing, extract, show, n) == Ok([])
  {
    if n > 0 {
      DefinitionFilesSkipped(configs, selected, files, listing, extract, show, n - 1);
    }
  }

  lemma ScannedShaped(configs: seq<SourceConfig>, selected: seq<string>, dir: Option<seq<JsonFile>>,
                      listing: string -> seq<DefFile>, extract: Value -> Option<Dict>, show: Value -> string)
    requires ExtractsShaped(extract)
    ensures var r := Scanned(configs, selected, dir, listing, extract, show);
      r.Ok? && forall i :: 0 <= i < |r.value| ==> NpcShaped(r.value[i])
  {
    if dir.Some? {
      ScanPrefixShaped(configs, selected, dir.value, listing, extract, show, |dir.value|);
    }
  }

  // ---------------------------------------------------------------------------------------
  // The parser and its cache
  // ---------------------------------------------------------------------------------------

  /** A `JSONParser`: the source books it was configured with, its record extraction
      (`_extract_npc_data`, `Extractor` of the title-casing it was built with), and the
      definitions it has loaded, keyed by the base directory they were loaded for. */
  class JsonParser {
    const sources: seq<SourceConfig>
    const extract: Value -> Option<Dict>
    var defsCache: map<string, Value>

    constructor (sources: seq<SourceConfig>, title: string -> string)
      ensures this.sources == sources && extract == Extractor(title) && defsCache == map[]
      ensures ExtractsShaped(extract)
    {
      this.sources := sources;
      extract := Extractor(title);
      defsCache := map[];
      ExtractorShaped(title);
    }

    /** Every cached entry is what loading its directory gives. */
    ghost predicate Coherent(listing: string -> seq<DefFile>)
      reads this
    {
      forall k :: k in defsCache ==> defsCache[k] == DefinitionsValue(listing(k))
    }

    /** `_load_adversary_definitions`: a cached directory is answered from the cache, any
        other is loaded and cached. While the directories do not change, the cache makes no
        difference to the answer. */
    method LoadAdversaryDefinitions(baseKey: string, listing: string -> seq<DefFile>) returns (defs: Value)
      modifies this
      ensures baseKey in old(defsCache) ==> defs == old(defsCache)[baseKey] && defsCache == old(defsCache)
      ensures baseKey !in old(defsCache) ==>
        defs == DefinitionsValue(listing(baseKey)) && defsCache == old(defsCache)[baseKey := defs]
      ensures old(Coherent(listing)) ==> Coherent(listing) && defs == DefinitionsValue(listing(baseKey))
    {
      if baseKey in defsCache {
        return defsCache[baseKey];
      }
      defs := BuildDefinitions(listing(baseKey));
      defsCache := defsCache[baseKey := defs];
    }

    /** `parse_json_file`: a file that cannot be decoded, or that holds only `null`, gives
        nothing and loads nothing; any other gives only `npcs` records. */
    method ParseJsonFile(file: JsonFile, listing: string -> seq<DefFile>) returns (r: seq<Dict>)
      requires ExtractsShaped(extract)
      modifies this
      ensures file.content.None? || file.content.value == VNone ==> r == [] && defsCache == old(defsCache)
      ensures forall i :: 0 <= i < |r| ==> NpcShaped(r[i])
      ensures old(Coherent(listing)) ==>
        Coherent(listing) && r == ParsedJson(file, DefinitionsValue(listing(file.baseDir)), extract)
    {
      if file.content.None? || file.content.value == VNone {
        return [];
      }
      var defs := LoadAdversaryDefinitions(file.baseDir, listing);
      r := ParseContent(file.content.value, file.stem, defs, extract);
      assert r == ParsedJson(file, defs, extract);
      ParsedJsonShaped(file, defs, extract);
    }

    /** `filter_by_sources` with the configured source books. */
    method FilterBySources(records: seq<Dict>, selected: seq<string>, show: Value -> string)
      returns (r: Result<seq<Dict>>)
      ensures r == AdversariesFiltered(sources, selected, show, records)
    {
      r := FilterAdversaries(sources, selected, show, records);
    }

    /** `scan_directory`: it never raises, since every parsed record has a `data` dict. */
    method ScanDirectory(dir: Option<seq<JsonFile>>, selected: seq<string>, listing: string -> seq<DefFile>,
                         show: Value -> string) returns (r: seq<Dict>)
      requires ExtractsShaped(extract)
      modifies this
      ensures forall i :: 0 <= i < |r| ==> NpcShaped(r[i])
      ensures old(Coherent(listing)) ==>
        Coherent(listing) && Scanned(sources, selected, dir, listing, extract, show) == Ok(r)
    {
      if dir.None? {
        return [];
      }
      var files := dir.value;
      r := [];
      for i := 0 to |files|
        invariant forall k :: 0 <= k < |r| ==> NpcShaped(r[k])
        invariant old(Coherent(listing)) ==>
          Coherent(listing) && ScanPrefix(sources, selected, files, listing, extract, show, i) == Ok(r)
      {
        var f := files[i];
        if !IsDefinitionFile(f.name) {
          var records := ParseJsonFile(f, listing);
          var kept := FilterBySources(records, selected, show);
          AdversariesFilterShaped(sources, selected, show, records);
          r := r + kept.value;
        }
      }
    }
  }
}
