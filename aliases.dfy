/** The two alias tables of the weapon mapping (scripts/whale-importer.js,
    `skillMap` and `ammoMap`): known free-text names and their canonical
    values. Both are used as `table[key] || raw`, so a miss passes the raw
    value through. */
module Aliases {
  import opened Js
  import opened JsString

  /** `skillMap`: weapon skill names that the game system spells differently. */
  const SkillMap: map<string, string> := map[
    "SMG" := "Handgun", "MediumPistol" := "Handgun", "HeavyPistol" := "Handgun",
    "AssaultRifle" := "Handgun", "SniperRifle" := "Handgun", "Shotgun" := "Handgun",
    "Bow" := "Archery", "ThrownWeapon" := "Archery",
    "RocketLauncher" := "Heavy Weapon", "GrenadeLauncher" := "Heavy Weapon",
    "CombatKnife" := "Melee Weapon", "BaseballBat" := "Melee Weapon", "Tomahawk" := "Melee Weapon"
  ]

  /** `ammoMap`: the canonical ammunition tags, each mapped to itself. */
  const AmmoMap: map<string, string> := map[
    "paintball" := "paintball", "rifle" := "rifle", "arrow" := "arrow",
    "shotgunShell" := "shotgunShell", "shotgunSlug" := "shotgunSlug", "grenade" := "grenade",
    "heavyPistol" := "heavyPistol", "vHeavyPistol" := "vHeavyPistol", "medPistol" := "medPistol",
    "battery" := "battery", "rocket" := "rocket", "customAmmo" := "customAmmo"
  ]

  /** The four canonical skills the table can produce. */
  const CanonicalSkills: set<string> := {"Handgun", "Archery", "Heavy Weapon", "Melee Weapon"}

  /** `skillMap[raw.skill] || raw.skill` for the weapon's `weaponSkill`. The
      property key is `String(raw.skill)`, so a non-string value such as
      `["SMG"]` is looked up by its text. */
  function SkillAlias(v: Json): Json {
    var key := ToText(v);
    if key in SkillMap then JStr(SkillMap[key]) else v
  }

  /** `ammoMap[t.replace(/\s+/g, '')] || t` for one ammunition name. */
  function AmmoAlias(t: string): string {
    var key := StripWhitespace(t);
    if key in AmmoMap then AmmoMap[key] else t
  }

  /** Every table value is a non-empty string, so `||` never falls back to
      the raw value on a hit; the skill table only produces canonical skills
      and the ammunition table is the identity on its keys. */
  lemma TablesWellFormed()
    ensures forall k :: k in SkillMap ==> SkillMap[k] in CanonicalSkills && SkillMap[k] != ""
    ensures forall k :: k in AmmoMap ==> AmmoMap[k] == k && k != ""
  {
  }

  /** A skill alias is the table's value for the text of the raw value,
      which is always a truthy canonical skill, or else the raw value. */
  lemma SkillAliasSpec(v: Json)
    ensures SkillAlias(v) == v || (SkillAlias(v).JStr? && SkillAlias(v).s in CanonicalSkills)
    ensures ToText(v) in SkillMap ==>
      SkillAlias(v) == JStr(SkillMap[ToText(v)]) && SkillAlias(v).s in CanonicalSkills && Truthy(SkillAlias(v))
    ensures ToText(v) !in SkillMap ==> SkillAlias(v) == v
    ensures SkillAlias(JStr("SMG")) == JStr("Handgun")
    ensures SkillAlias(JStr("HeavyPistol")) == JStr("Handgun")
    ensures SkillAlias(JStr("CombatKnife")) == JStr("Melee Weapon")
    ensures SkillAlias(JStr("UnknownSkill")) == JStr("UnknownSkill")
    ensures SkillAlias(JUndef) == JUndef
  {
    TablesWellFormed();
    SkillKeyCoerced();
  }

  /** `skillMap[["SMG"]]` reads the key "SMG": a one-element array is
      aliased like its element. */
  lemma SkillKeyCoerced()
    ensures ToText(JArr([JStr("SMG")])) == "SMG"
    ensures SkillAlias(JArr([JStr("SMG")])) == JStr("Handgun")
  {
    assert JoinText([JStr("SMG")]) == "SMG";
  }

  /** An ammunition name resolves to its whitespace-free spelling when that
      spelling is a known tag, and passes through unchanged otherwise. */
  lemma AmmoAliasSpec(t: string)
    ensures StripWhitespace(t) in AmmoMap ==> AmmoAlias(t) == StripWhitespace(t)
    ensures StripWhitespace(t) !in AmmoMap ==> AmmoAlias(t) == t
    ensures AmmoAlias(t) in AmmoMap.Values || AmmoAlias(t) == t
  {
    TablesWellFormed();
  }

  /** The whitespace is removed before the lookup: "shotgun Shell" hits. */
  lemma AmmoAliasStripsBeforeLookup()
    ensures AmmoAlias("shotgun Shell") == "shotgunShell"
  {
    ShotgunShellStripped();
    assert "shotgunShell" in AmmoMap;
  }

  lemma ShotgunShellStripped()
    ensures StripWhitespace("shotgun Shell") == "shotgunShell"
  {
    var a, b := "shotgun", "Shell";
    assert NoWhitespace(a);
    assert NoWhitespace(b);
    StripSpace(a, b);
    assert "shotgun Shell" == a + [' '] + b;
    assert a + b == "shotgunShell";
  }

  /** An unknown ammunition name passes through unchanged. */
  lemma AmmoAliasMissPassesThrough()
    ensures AmmoAlias("Flechette") == "Flechette"
  {
    assert NoWhitespace("Flechette");
    assert "Flechette" !in AmmoMap;
  }
}
