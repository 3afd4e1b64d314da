/** Properties of `mapItemData` (module Normalizer): which keys the system
    object has, when each universal field appears, how the subtype selects
    a branch, and which branch fields can come out undefined. */
module NormalizerProperties {
  import opened Js
  import opened Wrappers
  import opened Normalizer
  import Aliases

  // ---------------------------------------------------------------------
  // The documented output schema: which keys each branch writes.
  // ---------------------------------------------------------------------

  const WeaponKeys: set<string> :=
    {"attackmod", "rof", "damage", "ammoVariety", "brand", "concealable", "critFailEffect",
     "dvTable", "equipped", "favorite", "fireModes", "handsReq", "installedItems", "isRanged",
     "magazine", "price", "quality", "revealed", "source", "unarmedAutomaticCalculation",
     "usage", "usesType", "weaponSkill", "weaponType", "description"}

  /** Armor writes its fields at the top level of the system object. */
  const ArmorKeys: set<string> :=
    {"bodyLocation", "headLocation", "brand", "concealable", "equipped", "favorite",
     "installedItems", "isShield", "shieldHitPoints", "penalty", "price", "quality",
     "revealed", "source", "usage"}

  /** Clothing writes a nested `clothing` object and top-level fields. */
  const ClothingKeys: set<string> :=
    {"clothing", "equipped", "favorite", "installedItems", "price", "quality", "revealed",
     "source", "usage"}

  const ClothingInnerKeys: set<string> :=
    {"amount", "brand", "concealable", "description", "isElectronic", "providesHardening"}

  const CyberwareKeys: set<string> :=
    {"attackmod", "brand", "concealable", "damage", "critFailEffect", "dvTable", "equipped",
     "favorite", "fireModes", "handsReq", "humanityLoss", "installedItems", "isElectronic",
     "isRanged", "isWeapon", "magazine", "modifiers", "price", "providesHardening", "quality",
     "revealed", "rof", "size", "source", "unarmedAutomaticCalculation", "usage", "usesType",
     "weaponSkill", "weaponType"}

  const UpgradeKeys: set<string> :=
    {"attackmod", "brand", "concealable", "damage", "dvTable", "description", "equipped",
     "favorite", "fireModes", "handsReq", "installLocation", "installedItems", "isElectronic",
     "magazine", "modifiers", "price", "providesHardening", "quality", "revealed", "rof",
     "size", "source", "unarmedAutomaticCalculation", "usage", "usesType", "weaponSkill",
     "weaponType"}

  const GearKeys: set<string> :=
    {"brand", "concealable", "description", "equipped", "favorite", "installLocation",
     "installedItems", "isElectronic", "price", "providesHardening", "quality", "revealed",
     "size", "source"}

  const DrugKeys: set<string> := {"rating", "addictionCheck", "cumulative", "description", "price"}

  const ProgramKeys: set<string> :=
    {"programSize", "class", "atk", "def", "rez", "description", "price"}

  const ArchitectureKeys: set<string> := {"layers", "dv", "description", "price"}

  const CriticalKeys: set<string> :=
    {"location", "quickFixType", "quickFixDV", "treatmentType", "treatmentDV",
     "increasesDeathSave", "description"}

  const AmmoKeys: set<string> :=
    {"amount", "quantity", "variety", "type", "ablationAmount", "modifyDamage",
     "modifyAutofireMax", "price"}

  const VehicleKeys: set<string> :=
    {"structuralDamagePoints", "seats", "combatSpeed", "speedNarrative", "installedItems",
     "price", "quality", "revealed"}

  const SkillKeys: set<string> := {"category", "difficulty", "basic", "level", "stat", "description"}

  const RoleKeys: set<string> :=
    {"abilities", "bonusRatio", "bonuses", "addRoleAbilityRank", "hasRoll", "isSituational",
     "universalBonuses", "rank", "onByDefault", "stat", "skill", "description", "favorite",
     "revealed"}

  const CyberdeckKeys: set<string> :=
    {"brand", "concealable", "electronic", "providesHardening", "size", "installLocation",
     "installedItems", "price", "quality", "revealed", "source", "description"}

  /** The keys of the object a branch builds: its rule table's keys, and
      for the weapon the three fields its branch adds itself. */
  function BuiltKeys(k: Subtype): set<string> {
    if k == Weapon then RulesOf(k).Keys + {"ammoVariety", "weaponType", "description"}
    else RulesOf(k).Keys
  }

  /** The keys a `case` adds to the system object: its own nested object,
      or for armor and clothing the top-level fields of its table. */
  function BranchKeys(k: Subtype): set<string> {
    if TopLevel(k) then RulesOf(k).Keys else {NameOf(k)}
  }

  // Each rule table writes exactly the documented keys; the weapon table
  // leaves out the three fields its branch adds itself.

  lemma WeaponSchema() ensures WeaponRules.Keys + {"ammoVariety", "weaponType", "description"} == WeaponKeys { }
  lemma ArmorSchema() ensures ArmorRules.Keys == ArmorKeys { }
  lemma ClothingSchema() ensures ClothingRules.Keys == ClothingKeys { }
  lemma CyberwareSchema() ensures CyberwareRules.Keys == CyberwareKeys { }
  lemma UpgradeSchema() ensures UpgradeRules.Keys == UpgradeKeys { }
  lemma GearSchema() ensures GearRules.Keys == GearKeys { }
  lemma DrugSchema() ensures DrugRules.Keys == DrugKeys { }
  lemma ProgramSchema() ensures ProgramRules.Keys == ProgramKeys { }
  lemma ArchitectureSchema() ensures ArchitectureRules.Keys == ArchitectureKeys { }
  lemma CriticalSchema() ensures CriticalRules.Keys == CriticalKeys { }
  lemma AmmoSchema() ensures AmmoRules.Keys == AmmoKeys { }
  lemma VehicleSchema() ensures VehicleRules.Keys == VehicleKeys { }
  lemma SkillSchema() ensures SkillRules.Keys == SkillKeys { }
  lemma RoleSchema() ensures RoleRules.Keys == RoleKeys { }
  lemma CyberdeckSchema() ensures CyberdeckRules.Keys == CyberdeckKeys { }

  lemma ClothingInnerMatchesSchema()
    ensures ClothingInnerRules.Keys == ClothingInnerKeys
  {
  }

  // ---------------------------------------------------------------------
  // Universal fields and dispatch.
  // ---------------------------------------------------------------------

  /** Each universal field is present exactly when its input qualifies, and
      then holds the coerced input: `description` as `{ value }`, `price`
      as `{ market }`, `revealed`/`favorite` as booleans. */
  lemma UniversalFieldsSpec(raw: Json)
    ensures var u := UniversalFields(raw);
      && ("description" in u <==> Truthy(Get(raw, "description")))
      && ("description" in u ==> u["description"] == JObj(map["value" := Get(raw, "description")]))
      && ("price" in u <==> !Nullish(Get(raw, "price")))
      && ("price" in u ==> u["price"] == JObj(map["market" := Get(raw, "price")]))
      && ("category" in u <==> Truthy(Get(raw, "category")))
      && ("category" in u ==> u["category"] == Get(raw, "category"))
      && ("quality" in u <==> Truthy(Get(raw, "quality")))
      && ("quality" in u ==> u["quality"] == Get(raw, "quality"))
      && ("revealed" in u <==> !Nullish(Get(raw, "revealed")))
      && ("revealed" in u ==> u["revealed"] == JBool(Truthy(Get(raw, "revealed"))))
      && ("favorite" in u <==> !Nullish(Get(raw, "favorite")))
      && ("favorite" in u ==> u["favorite"] == JBool(Truthy(Get(raw, "favorite"))))
  {
  }

  /** A record with none of the six keys gets no universal field. */
  lemma EmptyRecordNoUniversal()
    ensures UniversalFields(JObj(map[])) == map[]
  {
  }

  /** The `case` labels and the subtype values round-trip: each label
      selects its own case, and a value selects a case only when it is a
      string equal to that case's label. */
  lemma CaseLabelsRoundTrip(k: Subtype, subtype: Json)
    ensures CaseOf(JStr(NameOf(k))) == Some(k)
    ensures CaseOf(subtype) == Some(k) <==> subtype == JStr(NameOf(k))
  {
  }

  /** A subtype without a case (such as the actor keys `upgrades` and
      `programs`, or a non-string subtype) gets only the universal fields. */
  lemma UnmatchedSubtypeUniversalOnly(subtype: Json, raw: Json)
    requires !Nullish(raw)
    requires forall k :: subtype != JStr(NameOf(k))
    ensures MapItemData(subtype, raw) == Ok(UniversalFields(raw))
  {
    if CaseOf(subtype).Some? {
      CaseLabelsRoundTrip(CaseOf(subtype).value, subtype);
    }
  }

  /** The two plural tags the actor import uses for sub-items match no case. */
  lemma PluralActorTagsUniversalOnly(raw: Json)
    requires !Nullish(raw)
    ensures MapItemData(JStr("upgrades"), raw) == Ok(UniversalFields(raw))
    ensures MapItemData(JStr("programs"), raw) == Ok(UniversalFields(raw))
  {
    PluralTagsMatchNoCase();
  }

  lemma PluralTagsMatchNoCase()
    ensures CaseOf(JStr("upgrades")) == None && CaseOf(JStr("programs")) == None
  {
  }

  /** A branch that nests its fields puts the object its rule table builds
      under its own label and leaves the universal fields as they were. */
  lemma NestedBranchShape(k: Subtype, raw: Json)
    requires !Nullish(raw)
    requires k != Weapon && !TopLevel(k)
    ensures MapItemData(JStr(NameOf(k)), raw) ==
      Ok(UniversalFields(raw)[NameOf(k) := JObj(Apply(RulesOf(k), raw))])
  {
    CaseLabelsRoundTrip(k, JStr(NameOf(k)));
  }

  /** Armor and clothing write the built fields over the universal ones. */
  lemma TopLevelBranchShape(k: Subtype, raw: Json)
    requires !Nullish(raw)
    requires TopLevel(k)
    ensures MapItemData(JStr(NameOf(k)), raw) == Ok(UniversalFields(raw) + Apply(RulesOf(k), raw))
  {
    CaseLabelsRoundTrip(k, JStr(NameOf(k)));
  }

  /** The weapon case fails exactly when its branch throws, and otherwise
      puts the weapon object under `weapon`. */
  lemma WeaponBranchShape(raw: Json)
    requires !Nullish(raw)
    ensures var u := UniversalFields(raw);
      && (WeaponBranch(raw, u).Err? ==> MapItemData(JStr("weapon"), raw) == Err(WeaponBranch(raw, u).error))
      && (WeaponBranch(raw, u).Ok? ==> MapItemData(JStr("weapon"), raw) == Ok(u["weapon" := JObj(WeaponBranch(raw, u).value)]))
  {
    CaseLabelsRoundTrip(Weapon, JStr("weapon"));
  }

  /** The keys of the system object one case produces: the universal
      fields plus the case's own keys. */
  lemma CaseKeys(k: Subtype, raw: Json)
    requires !Nullish(raw)
    ensures MapItemData(JStr(NameOf(k)), raw).Ok? ==>
      MapItemData(JStr(NameOf(k)), raw).value.Keys == UniversalFields(raw).Keys + BranchKeys(k)
  {
    if k == Weapon {
      WeaponBranchShape(raw);
    } else if TopLevel(k) {
      TopLevelCaseKeys(k, raw);
    } else {
      NestedBranchShape(k, raw);
    }
  }

  lemma TopLevelCaseKeys(k: Subtype, raw: Json)
    requires !Nullish(raw)
    requires TopLevel(k)
    ensures MapItemData(JStr(NameOf(k)), raw).Ok?
    ensures MapItemData(JStr(NameOf(k)), raw).value.Keys == UniversalFields(raw).Keys + RulesOf(k).Keys
  {
    TopLevelBranchShape(k, raw);
    var u, built := UniversalFields(raw), Apply(RulesOf(k), raw);
    assert (u + built).Keys == u.Keys + built.Keys;
  }

  /** Only the weapon case can throw, and a successful result holds the
      universal fields plus exactly the keys of the case. */
  lemma MapItemDataKeys(subtype: Json, raw: Json)
    requires !Nullish(raw)
    ensures MapItemData(subtype, raw).Err? ==> subtype == JStr("weapon")
    ensures MapItemData(subtype, raw).Ok? ==>
      MapItemData(subtype, raw).value.Keys ==
        UniversalFields(raw).Keys + (if CaseOf(subtype).Some? then BranchKeys(CaseOf(subtype).value) else {})
  {
    match CaseOf(subtype)
    case None =>
      assert MapItemData(subtype, raw) == Ok(UniversalFields(raw));
    case Some(k) =>
      CaseLabelsRoundTrip(k, subtype);
      MatchedCaseKeys(k, raw);
  }

  lemma MatchedCaseKeys(k: Subtype, raw: Json)
    requires !Nullish(raw)
    ensures MapItemData(JStr(NameOf(k)), raw).Err? ==> k == Weapon && NameOf(k) == "weapon"
    ensures MapItemData(JStr(NameOf(k)), raw).Ok? ==>
      MapItemData(JStr(NameOf(k)), raw).value.Keys == UniversalFields(raw).Keys + BranchKeys(k)
  {
    if k != Weapon {
      OnlyWeaponThrows(k, raw);
    }
    CaseKeys(k, raw);
  }

  /** Every field of a nested object is always written: whatever the
      input, the object under the case's label holds exactly its documented
      keys. */
  lemma NestedObjectKeys(k: Subtype, raw: Json)
    requires !Nullish(raw)
    requires !TopLevel(k)
    requires MapItemData(JStr(NameOf(k)), raw).Ok?
    ensures var sys := MapItemData(JStr(NameOf(k)), raw).value;
      NameOf(k) in sys && sys[NameOf(k)].JObj? && sys[NameOf(k)].fields.Keys == BuiltKeys(k)
  {
    if k == Weapon {
      WeaponBranchShape(raw);
    } else {
      NestedBranchShape(k, raw);
    }
  }

  /** On an empty record the weapon branch cannot throw. */
  lemma EmptyWeaponSucceeds()
    ensures MapItemData(JStr("weapon"), JObj(map[])).Ok?
  {
    EmptyWeaponBranchSucceeds();
    EmptyRecordNoUniversal();
    CaseLabelsRoundTrip(Weapon, JStr("weapon"));
  }

  lemma EmptyWeaponBranchSucceeds()
    ensures WeaponBranch(JObj(map[]), map[]).Ok?
  {
  }

  /** Every case but the weapon's succeeds. */
  lemma OnlyWeaponThrows(k: Subtype, raw: Json)
    requires !Nullish(raw)
    requires k != Weapon
    ensures MapItemData(JStr(NameOf(k)), raw).Ok?
  {
    CaseLabelsRoundTrip(k, JStr(NameOf(k)));
  }

  /** An empty record gives every case its full default set of keys and
      nothing else. */
  lemma EmptyRecordKeys(k: Subtype)
    ensures MapItemData(JStr(NameOf(k)), JObj(map[])).Ok?
    ensures MapItemData(JStr(NameOf(k)), JObj(map[])).value.Keys == BranchKeys(k)
  {
    if k == Weapon {
      EmptyWeaponSucceeds();
    } else {
      OnlyWeaponThrows(k, JObj(map[]));
    }
    EmptyRecordNoUniversal();
    KeysWithoutUniversal(k, JObj(map[]));
  }

  lemma KeysWithoutUniversal(k: Subtype, raw: Json)
    requires !Nullish(raw)
    requires UniversalFields(raw) == map[]
    requires MapItemData(JStr(NameOf(k)), raw).Ok?
    ensures MapItemData(JStr(NameOf(k)), raw).value.Keys == BranchKeys(k)
  {
    CaseKeys(k, raw);
  }

  /** The case labels are not universal field names. */
  lemma LabelsNotUniversal(k: Subtype)
    ensures NameOf(k) !in UniversalKeys
  {
  }

  /** Every branch that nests its fields under its own key leaves the
      universal fields exactly as they were set. */
  lemma NestedBranchesKeepUniversal(k: Subtype, raw: Json, f: string)
    requires !Nullish(raw)
    requires !TopLevel(k)
    requires MapItemData(JStr(NameOf(k)), raw).Ok?
    requires f in UniversalFields(raw)
    ensures f in MapItemData(JStr(NameOf(k)), raw).value
    ensures MapItemData(JStr(NameOf(k)), raw).value[f] == UniversalFields(raw)[f]
  {
    LabelsNotUniversal(k);
    if k == Weapon {
      WeaponBranchShape(raw);
    } else {
      NestedBranchShape(k, raw);
    }
  }

  /** The four fields armor and clothing write with the same rule, and
      the two universal fields they leave alone. */
  predicate SharesTopLevelRules(rules: map<string, Rule>) {
    && "price" in rules && rules["price"] == PriceRule
    && "quality" in rules && rules["quality"] == OrElse(["quality"], JStr("standard"))
    && "favorite" in rules && rules["favorite"] == NullishElse(["favorite"], JBool(false))
    && "revealed" in rules && rules["revealed"] == NullishElse(["revealed"], JBool(true))
    && "description" !in rules && "category" !in rules
  }

  lemma ArmorSharedRules()
    ensures SharesTopLevelRules(ArmorRules)
  {
  }

  lemma ClothingSharedRules()
    ensures SharesTopLevelRules(ClothingRules)
  {
  }

  /** Armor and clothing write `price`, `quality`, `favorite` and `revealed`
      at the top level after the universal fields, so the branch's values
      replace the universal ones; `description` and `category` survive. */
  lemma TopLevelBranchesOverride(k: Subtype, raw: Json)
    requires !Nullish(raw)
    requires TopLevel(k)
    ensures MapItemData(JStr(NameOf(k)), raw).Ok?
    ensures var sys := JObj(MapItemData(JStr(NameOf(k)), raw).value);
      var u := JObj(UniversalFields(raw));
      && Get(sys, "price") == JObj(map["market" := Or(Get(raw, "price"), JNum(0))])
      && Get(sys, "quality") == Or(Get(raw, "quality"), JStr("standard"))
      && Get(sys, "favorite") == Coalesce(Get(raw, "favorite"), JBool(false))
      && Get(sys, "revealed") == Coalesce(Get(raw, "revealed"), JBool(true))
      && Get(sys, "description") == Get(u, "description")
      && Get(sys, "category") == Get(u, "category")
  {
    TopLevelBranchShape(k, raw);
    if k == Armor {
      ArmorSharedRules();
    } else {
      ClothingSharedRules();
    }
    SharedRulesOverride(RulesOf(k), raw);
  }

  /** Writing a table with the shared rules over the universal fields. */
  lemma SharedRulesOverride(rules: map<string, Rule>, raw: Json)
    requires SharesTopLevelRules(rules)
    ensures var sys := JObj(UniversalFields(raw) + Apply(rules, raw));
      var u := JObj(UniversalFields(raw));
      && Get(sys, "price") == JObj(map["market" := Or(Get(raw, "price"), JNum(0))])
      && Get(sys, "quality") == Or(Get(raw, "quality"), JStr("standard"))
      && Get(sys, "favorite") == Coalesce(Get(raw, "favorite"), JBool(false))
      && Get(sys, "revealed") == Coalesce(Get(raw, "revealed"), JBool(true))
      && Get(sys, "description") == Get(u, "description")
      && Get(sys, "category") == Get(u, "category")
  {
    var m := Apply(rules, raw);
    PriceRuleValue(raw);
    SingleKeyChains(raw, "quality", JStr("standard"));
    SingleKeyChains(raw, "favorite", JBool(false));
    SingleKeyChains(raw, "revealed", JBool(true));
    assert (UniversalFields(raw) + m)["price"] == m["price"];
    assert (UniversalFields(raw) + m)["quality"] == m["quality"];
    assert (UniversalFields(raw) + m)["favorite"] == m["favorite"];
    assert (UniversalFields(raw) + m)["revealed"] == m["revealed"];
  }

  /** `raw.a || d` and `raw.a ?? d` written as one-key chains. */
  lemma SingleKeyChains(raw: Json, a: string, d: Json)
    ensures OrChain(raw, [a], d) == Or(Get(raw, a), d)
    ensures CoalesceChain(raw, [a], d) == Coalesce(Get(raw, a), d)
  {
    assert [a][1..] == [];
  }

  /** `{ market: raw.price || 0 }` as a value. */
  lemma PriceRuleValue(raw: Json)
    ensures Eval(PriceRule, raw) == JObj(map["market" := Or(Get(raw, "price"), JNum(0))])
  {
  }

  // ---------------------------------------------------------------------
  // Fields that can come out undefined.
  // ---------------------------------------------------------------------

  /** A rule whose value is never undefined: every leaf has a default that
      is not undefined, or is a `!!` or a literal. A bare copy and the skill
      alias (which passes `raw.skill` through) are not. */
  predicate Defaulted(r: Rule) {
    match r
    case Copy(_) => false
    case OrElse(_, d) => d != JUndef
    case NullishElse(_, d) => d != JUndef
    case Flag(_) => true
    case Const(v) => v != JUndef
    case InnerOrElse(_, _, d) => d != JUndef
    case CarriedSlotCount => true
    case SkillOf(_) => false
    case Object(fs) => forall f :: f in fs ==> Defaulted(fs[f])
  }

  lemma {:induction false} OrChainDefined(raw: Json, srcs: seq<string>, d: Json)
    requires d != JUndef
    ensures OrChain(raw, srcs, d) != JUndef
    decreases srcs
  {
    if srcs != [] {
      OrChainDefined(raw, srcs[1..], d);
    }
  }

  lemma {:induction false} CoalesceChainDefined(raw: Json, srcs: seq<string>, d: Json)
    requires d != JUndef
    ensures CoalesceChain(raw, srcs, d) != JUndef
    decreases srcs
  {
    if srcs != [] {
      CoalesceChainDefined(raw, srcs[1..], d);
    }
  }

  /** A defaulted rule never produces undefined, whatever the record. */
  lemma {:induction false} DefaultedNeverUndefined(r: Rule, raw: Json)
    requires Defaulted(r)
    ensures Eval(r, raw) != JUndef
  {
    match r
    case OrElse(srcs, d) => OrChainDefined(raw, srcs, d);
    case NullishElse(srcs, d) => CoalesceChainDefined(raw, srcs, d);
    case _ =>
  }

  /** The rules of a table that can produce undefined. */
  function Undefaulted(rules: map<string, Rule>): set<string> {
    set f | f in rules && !Defaulted(rules[f])
  }

  /** The weapon's `rof`, `damage`, `handsReq` and `weaponSkill` have no
      default, and each of them is undefined when the record is empty. */
  lemma WeaponUndefinedFields()
    ensures !Defaulted(WeaponRules["rof"]) && !Defaulted(WeaponRules["damage"])
    ensures !Defaulted(WeaponRules["handsReq"]) && !Defaulted(WeaponRules["weaponSkill"])
    ensures forall f :: f in {"rof", "damage", "handsReq", "weaponSkill"} ==>
      Apply(WeaponRules, JObj(map[]))[f] == JUndef
  {
    var rs := WeaponRules;
    assert rs["rof"] == Copy("rof") && rs["damage"] == Copy("damage");
    assert rs["handsReq"] == Copy("handsRequired") && rs["weaponSkill"] == SkillOf("skill");
    WeaponUndefinedOnEmpty(rs);
  }

  /** The empty-record half for any table with the weapon's four rules: an
      unset skill is looked up as "undefined", misses the table and passes
      through. */
  lemma WeaponUndefinedOnEmpty(rs: map<string, Rule>)
    requires "rof" in rs && rs["rof"] == Copy("rof")
    requires "damage" in rs && rs["damage"] == Copy("damage")
    requires "handsReq" in rs && rs["handsReq"] == Copy("handsRequired")
    requires "weaponSkill" in rs && rs["weaponSkill"] == SkillOf("skill")
    ensures forall f :: f in {"rof", "damage", "handsReq", "weaponSkill"} ==>
      Apply(rs, JObj(map[]))[f] == JUndef
  {
    CopiesUndefinedOnEmpty(rs, {"rof", "damage", "handsReq"});
    assert Eval(rs["weaponSkill"], JObj(map[])) == Aliases.SkillAlias(JUndef);
    assert "undefined" !in Aliases.SkillMap;
  }

  /** Where the rules of the fields in `fs` are bare copies, the empty
      record leaves each of those fields undefined. */
  lemma CopiesUndefinedOnEmpty(rules: map<string, Rule>, fs: set<string>)
    requires forall f :: f in fs ==> f in rules && rules[f].Copy?
    ensures forall f :: f in fs ==> Apply(rules, JObj(map[]))[f] == JUndef
  {
    forall f | f in fs
      ensures Apply(rules, JObj(map[]))[f] == JUndef
    {
      assert Eval(rules[f], JObj(map[])) == Get(JObj(map[]), rules[f].src);
    }
  }

  /** The copied fields of programs, architectures, criticals and skills
      are the only ones of those branches that can be undefined, and each
      of them is undefined when the record is empty. */
  lemma ProgramUndefinedFields()
    ensures Undefaulted(ProgramRules) == {"programSize", "class", "atk", "def", "rez"}
    ensures forall f :: f in Undefaulted(ProgramRules) ==> Apply(ProgramRules, JObj(map[]))[f] == JUndef
  {
    var fs := {"programSize", "class", "atk", "def", "rez"};
    assert Undefaulted(ProgramRules) == fs;
    CopiesUndefinedOnEmpty(ProgramRules, fs);
  }

  lemma ArchitectureUndefinedFields()
    ensures Undefaulted(ArchitectureRules) == {"layers", "dv"}
    ensures forall f :: f in Undefaulted(ArchitectureRules) ==> Apply(ArchitectureRules, JObj(map[]))[f] == JUndef
  {
    var fs := {"layers", "dv"};
    assert Undefaulted(ArchitectureRules) == fs;
    CopiesUndefinedOnEmpty(ArchitectureRules, fs);
  }

  lemma CriticalUndefinedFields()
    ensures Undefaulted(CriticalRules) == {"location", "quickFixType", "quickFixDV", "treatmentType", "treatmentDV"}
    ensures forall f :: f in Undefaulted(CriticalRules) ==> Apply(CriticalRules, JObj(map[]))[f] == JUndef
  {
    var fs := {"location", "quickFixType", "quickFixDV", "treatmentType", "treatmentDV"};
    assert Undefaulted(CriticalRules) == fs;
    CopiesUndefinedOnEmpty(CriticalRules, fs);
  }

  lemma SkillUndefinedFields()
    ensures Undefaulted(SkillRules) == {"category", "difficulty", "level", "stat"}
    ensures forall f :: f in Undefaulted(SkillRules) ==> Apply(SkillRules, JObj(map[]))[f] == JUndef
  {
    var fs := {"category", "difficulty", "level", "stat"};
    assert Undefaulted(SkillRules) == fs;
    CopiesUndefinedOnEmpty(SkillRules, fs);
  }

  /** Every field of the ammunition, drug, vehicle and role objects has a
      value whatever the record. */
  lemma AmmoFullyDefaulted() ensures Undefaulted(AmmoRules) == {} { }
  lemma DrugFullyDefaulted() ensures Undefaulted(DrugRules) == {} { }
  lemma VehicleFullyDefaulted() ensures Undefaulted(VehicleRules) == {} { }
  lemma RoleFullyDefaulted() ensures Undefaulted(RoleRules) == {} { }

  /** Hence a field outside those lists is never undefined, for any record. */
  lemma DefaultedFieldsHaveValues(k: Subtype, raw: Json, f: string)
    requires f in RulesOf(k) && f !in Undefaulted(RulesOf(k))
    ensures Apply(RulesOf(k), raw)[f] != JUndef
  {
    DefaultedNeverUndefined(RulesOf(k)[f], raw);
  }
}
