/** The fixed lookup tables of the OggDude to Realm VTT data mapper (src/data_mapper.py):
    skill keys, ranges, restricted flags, skill names and weapon qualities. */
module MapperTables {
  import opened Wrappers
  import opened Text
  import opened Values

  function SkillMapping(): map<string, string> {
    map[
      "RANGLT" := "Ranged (Light)", "RANGHV" := "Ranged (Heavy)", "RANGHVY" := "Ranged (Heavy)",
      "MECH" := "Mechanics", "GUNN" := "Gunnery", "GUNNERY" := "Gunnery",
      "MELEE" := "Melee", "BRAWL" := "Brawl", "LIGHTSABER" := "Lightsaber",
      "LTSABER" := "Lightsaber", "LIGHT" := "Ranged (Light)", "HEAVY" := "Ranged (Heavy)"]
  }

  /** The Realm VTT skill names the table produces. */
  function RealmSkillNames(): set<string> {
    {"Ranged (Light)", "Ranged (Heavy)", "Mechanics", "Gunnery", "Melee", "Brawl", "Lightsaber"}
  }

  /** `_map_skill_key`: a known OggDude skill key becomes its Realm VTT name, anything else is kept. */
  function MapSkillKey(key: string): (r: string)
    ensures key in SkillMapping() ==> r in RealmSkillNames()
    ensures key !in SkillMapping() ==> r == key
  {
    if key in SkillMapping() then SkillMapping()[key] else key
  }

  /** No Realm VTT skill name is itself an OggDude key, so mapping twice is mapping once. */
  lemma MapSkillKeyIdempotent(key: string)
    ensures MapSkillKey(MapSkillKey(key)) == MapSkillKey(key)
  {
    assert forall n :: n in RealmSkillNames() ==> n !in SkillMapping();
  }

  function RangeMapping(): map<string, string> {
    map[
      "wrEngaged" := "Engaged", "wrClose" := "Engaged", "wrShort" := "Short",
      "wrMedium" := "Medium", "wrLong" := "Long", "wrExtreme" := "Extreme"]
  }

  function RealmRanges(): set<string> {
    {"Engaged", "Short", "Medium", "Long", "Extreme"}
  }

  /** `_map_range_value`: OggDude range bands become Realm VTT range names; both `wrClose`
      and `wrEngaged` mean Engaged; unknown values are kept. */
  function MapRangeValue(range: string): (r: string)
    ensures range in RangeMapping() ==> r in RealmRanges()
    ensures range == "wrClose" || range == "wrEngaged" ==> r == "Engaged"
    ensures range !in RangeMapping() ==> r == range
  {
    if range in RangeMapping() then RangeMapping()[range] else range
  }

  lemma MapRangeValueIdempotent(range: string)
    ensures MapRangeValue(MapRangeValue(range)) == MapRangeValue(range)
  {
    assert forall n :: n in RealmRanges() ==> n !in RangeMapping();
  }

  /** Case-insensitive string equality (ASCII). */
  predicate EqualsIgnoringCase(a: string, b: string) {
    Lower(a) == Lower(b)
  }

  /** `_convert_restricted_value`: a string is lower-cased, then the value is looked up in
      `[True, 'true', 'yes', 1]` with Python equality (where `True == 1`). */
  function ConvertRestrictedValue(v: Value): (r: string)
    ensures r == "yes" || r == "no"
    ensures r == "yes" <==>
      v == VBool(true) || v == VInt(1) ||
      (v.VStr? && (EqualsIgnoringCase(v.s, "true") || EqualsIgnoringCase(v.s, "yes")))
  {
    assert Lower("true") == "true" && Lower("yes") == "yes";
    var w := if v.VStr? then VStr(Lower(v.s)) else v;
    if w in [VBool(true), VStr("true"), VStr("yes"), VInt(1)] then "yes" else "no"
  }

  /** Values the tests expect to read as not restricted. */
  lemma RestrictedFalseValues()
    ensures ConvertRestrictedValue(VBool(false)) == "no"
    ensures ConvertRestrictedValue(VInt(0)) == "no"
    ensures ConvertRestrictedValue(VStr("")) == "no"
    ensures ConvertRestrictedValue(VNone) == "no"
    ensures ConvertRestrictedValue(VStr("no")) == "no"
    ensures ConvertRestrictedValue(VStr("TRUE")) == "yes"
  {
    assert Lower("TRUE") == "true";
  }

  /** `_convert_skill_name`: "A - B" becomes "A (B)", splitting at the first " - " only. */
  function ConvertSkillName(name: string): (r: string)
    ensures !Contains(name, " - ") ==> r == name
  {
    match IndexOf(name, " - ")
    case None =>
      IndexOfSpec(name, " - ");
      name
    case Some(i) =>
      IndexOfSpec(name, " - ");
      name[..i] + " (" + name[i + 3..] + ")"
  }

  /** Any occurrence of " - " that starts inside `a` lies within `a + " -"`. */
  lemma NoEarlierDash(a: string, b: string)
    requires !Contains(a + " -", " - ")
    ensures forall j :: 0 <= j < |a| ==> !StartsWith((a + " - " + b)[j..], " - ")
  {
    var s := a + " - " + b;
    forall j | 0 <= j < |a| ensures !StartsWith(s[j..], " - ") {
      if StartsWith(s[j..], " - ") {
        assert (a + " -")[j..j + 3] == s[j..j + 3];
        ContainsAt(a + " -", " - ", j);
      }
    }
  }

  /** "Piloting - Planetary" becomes "Piloting (Planetary)": the part before the first " - "
      and everything after it, rejoined with parentheses. */
  lemma SkillNameSplitsAtFirstDash(a: string, b: string)
    requires !Contains(a + " -", " - ")
    ensures ConvertSkillName(a + " - " + b) == a + " (" + b + ")"
  {
    var s := a + " - " + b;
    IndexOfSpec(s, " - ");
    NoEarlierDash(a, b);
    assert s[|a|..|a| + 3] == " - ";
    ContainsAt(s, " - ", |a|);
    var i := IndexOf(s, " - ").value;
    assert s[|a|..][..3] == " - ";
    assert s[i..][..3] == s[i..i + 3];
    assert i == |a|;
    assert s[..|a|] == a && s[|a| + 3..] == b;
  }

  function QualityMapping(): map<string, string> {
    map[
      "ACCURATE" := "accurate", "AUTOFIRE" := "auto-fire", "BREACH" := "breach", "BURN" := "burn",
      "BLAST" := "blast", "CONCUSSIVE" := "concussive", "CORTOSIS" := "cortosis",
      "CUMBERSOME" := "cumbersome", "DEFENSIVE" := "defensive", "DEFLECTION" := "deflection",
      "DISORIENT" := "disorient", "ENSNARE" := "ensnare", "GUIDED" := "guided",
      "KNOCKDOWN" := "knockdown", "INACCURATE" := "inaccurate", "INFERIOR" := "inferior",
      "ION" := "ion", "LIMITEDAMMO" := "limited-ammo", "LINKED" := "linked", "PIERCE" := "pierce",
      "PREPARE" := "prepare", "SLOWFIRING" := "slow-firing", "STUN" := "stun",
      "STUNDAMAGE" := "stun-damage", "STUNDAMAGEDROID" := "stun-damage-droid",
      "STUNSETTING" := "stun-setting", "SUNDER" := "sunder", "SUPERIOR" := "superior",
      "TRACTOR" := "tractor", "VICIOUS" := "vicious", "UNARMED" := "unarmed"]
  }

  /** Field names that carry a quality's rank; they differ from the quality names for
      LIMITEDAMMO and SLOWFIRING. */
  function QualityCountFields(): map<string, string> {
    map[
      "ACCURATE" := "accurate", "AUTOFIRE" := "auto-fire", "BREACH" := "breach", "BURN" := "burn",
      "BLAST" := "blast", "CONCUSSIVE" := "concussive", "CORTOSIS" := "cortosis",
      "CUMBERSOME" := "cumbersome", "DEFENSIVE" := "defensive", "DEFLECTION" := "deflection",
      "DISORIENT" := "disorient", "ENSNARE" := "ensnare", "GUIDED" := "guided",
      "KNOCKDOWN" := "knockdown", "INACCURATE" := "inaccurate", "INFERIOR" := "inferior",
      "ION" := "ion", "LIMITEDAMMO" := "limitedAmmo", "LINKED" := "linked", "PIERCE" := "pierce",
      "PREPARE" := "prepare", "SLOWFIRING" := "slowFiring", "STUN" := "stun",
      "STUNDAMAGE" := "stun-damage", "STUNDAMAGEDROID" := "stun-damage-droid",
      "STUNSETTING" := "stun-setting", "SUNDER" := "sunder", "SUPERIOR" := "superior",
      "TRACTOR" := "tractor", "VICIOUS" := "vicious", "UNARMED" := "unarmed"]
  }

  /** The Realm VTT name of a quality key: the table entry for its upper-case form, or else
      the key lower-cased. */
  function QualityName(key: string): (r: string)
    ensures Upper(key) !in QualityMapping() ==> r == Lower(key)
  {
    var k := Upper(key);
    if k in QualityMapping() then QualityMapping()[k] else Lower(key)
  }

  /** The count field for a quality key, if the key has one. */
  function CountField(key: string): (r: Option<string>)
    ensures r.Some? <==> Upper(key) in QualityCountFields()
  {
    var k := Upper(key);
    if k in QualityCountFields() then Some(QualityCountFields()[k]) else None
  }
}
