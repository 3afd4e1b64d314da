/** Field-level properties of `mapItemData` (module Normalizer): when the
    weapon branch throws, which raw key wins when several feed one field,
    and how `||` and `??` defaults differ on the same input. Each property
    is first stated on the object a branch builds and then carried over to
    the system object through the branch shapes of NormalizerProperties. */
module FieldProperties {
  import opened Js
  import opened JsString
  import opened Wrappers
  import opened Aliases
  import opened Normalizer
  import opened NormalizerProperties

  /** `sys[outer][f]`, undefined where a level is missing. */
  function At(sys: Fields, outer: string, f: string): Json {
    Get(Get(JObj(sys), outer), f)
  }

  /** `sys[key][f][g]` after `sys[key]` is set to an object. */
  lemma LabelledInnerAt(u: Fields, key: string, inner: Fields, f: string, g: string, v: Json)
    requires Get(Get(JObj(inner), f), g) == v
    ensures Get(At(u[key := JObj(inner)], key, f), g) == v
  {
    LabelledAt(u, key, inner, f);
  }

  /** A field of an object built from a rule table holds its rule's value. */
  lemma ApplyAt(rules: map<string, Rule>, raw: Json, f: string)
    requires f in rules
    ensures Get(JObj(Apply(rules, raw)), f) == Eval(rules[f], raw)
  {
  }

  /** A field of a nested object literal holds its rule's value. */
  lemma ObjectAt(fs: map<string, Rule>, raw: Json, f: string)
    requires f in fs
    ensures Get(Eval(Object(fs), raw), f) == Eval(fs[f], raw)
  {
  }

  /** `raw.a || raw.b || d` and `raw.a ?? raw.b ?? d` for two keys. */
  lemma TwoKeyChains(raw: Json, a: string, b: string, d: Json)
    ensures Truthy(Get(raw, a)) ==> OrChain(raw, [a, b], d) == Get(raw, a)
    ensures !Truthy(Get(raw, a)) && Truthy(Get(raw, b)) ==> OrChain(raw, [a, b], d) == Get(raw, b)
    ensures !Truthy(Get(raw, a)) && !Truthy(Get(raw, b)) ==> OrChain(raw, [a, b], d) == d
    ensures !Nullish(Get(raw, a)) ==> CoalesceChain(raw, [a, b], d) == Get(raw, a)
    ensures Nullish(Get(raw, a)) && !Nullish(Get(raw, b)) ==> CoalesceChain(raw, [a, b], d) == Get(raw, b)
    ensures Nullish(Get(raw, a)) && Nullish(Get(raw, b)) ==> CoalesceChain(raw, [a, b], d) == d
  {
    assert [a, b][1..] == [b];
    assert [b][1..] == [];
    assert OrChain(raw, [b], d) == Or(Get(raw, b), d);
    assert CoalesceChain(raw, [b], d) == Coalesce(Get(raw, b), d);
  }

  /** `sys[key][f]` after `sys[key]` is set to an object. */
  lemma LabelledAt(u: Fields, key: string, inner: Fields, f: string)
    ensures At(u[key := JObj(inner)], key, f) == Get(JObj(inner), f)
  {
  }

  /** For armor and clothing, a field of the table overrides the universal one. */
  lemma MergedAt(u: Fields, inner: Fields, f: string)
    requires f in inner
    ensures Get(JObj(u + inner), f) == Get(JObj(inner), f)
  {
  }

  // ---------------------------------------------------------------------
  // Weapon.
  // ---------------------------------------------------------------------

  /** The weapon branch throws exactly when `ammoType` is truthy and not a
      string (it has no `.replace`) or `weaponType` is truthy and not a
      string (it has no `.toLowerCase`); `ammoVariety` is evaluated first,
      so its error wins when both apply. */
  lemma WeaponBranchFails(raw: Json, u: Fields)
    ensures var a := Get(raw, "ammoType"); var w := Get(raw, "weaponType");
      && (WeaponBranch(raw, u).Err? <==> (Truthy(a) && !a.JStr?) || (Truthy(w) && !w.JStr?))
      && (Truthy(a) && !a.JStr? ==> WeaponBranch(raw, u) == Err(TypeError(NotAFunction("replace"))))
      && (!(Truthy(a) && !a.JStr?) && Truthy(w) && !w.JStr? ==>
            WeaponBranch(raw, u) == Err(TypeError(NotAFunction("toLowerCase"))))
  {
  }

  /** The same statement about the whole system object. */
  lemma WeaponFailsExactly(raw: Json)
    requires !Nullish(raw)
    ensures var a := Get(raw, "ammoType"); var w := Get(raw, "weaponType");
      && (MapItemData(JStr("weapon"), raw).Err? <==> (Truthy(a) && !a.JStr?) || (Truthy(w) && !w.JStr?))
      && (Truthy(a) && !a.JStr? ==> MapItemData(JStr("weapon"), raw) == Err(TypeError(NotAFunction("replace"))))
      && (!(Truthy(a) && !a.JStr?) && Truthy(w) && !w.JStr? ==>
            MapItemData(JStr("weapon"), raw) == Err(TypeError(NotAFunction("toLowerCase"))))
  {
    WeaponBranchShape(raw);
    WeaponBranchFails(raw, UniversalFields(raw));
  }

  /** The branch's three own fields are not in the weapon rule table. */
  lemma WeaponAddedKeysFresh()
    ensures "ammoVariety" !in WeaponRules && "weaponType" !in WeaponRules && "description" !in WeaponRules
  {
  }

  /** A successful weapon case puts the branch's object under `weapon`. */
  lemma WeaponAt(raw: Json, sys: Fields, f: string)
    requires !Nullish(raw)
    requires MapItemData(JStr("weapon"), raw) == Ok(sys)
    ensures WeaponBranch(raw, UniversalFields(raw)).Ok?
    ensures At(sys, "weapon", f) == Get(JObj(WeaponBranch(raw, UniversalFields(raw)).value), f)
  {
    WeaponBranchShape(raw);
  }

  /** A weapon field from the rule table holds its rule's value. */
  lemma WeaponRuleAt(raw: Json, u: Fields, f: string)
    requires WeaponBranch(raw, u).Ok?
    requires f in WeaponRules
    ensures Get(JObj(WeaponBranch(raw, u).value), f) == Eval(WeaponRules[f], raw)
  {
    WeaponAddedKeysFresh();
    ApplyAt(WeaponRules, raw, f);
  }

  /** The fields of a weapon object the branch computes itself: the skill
      alias (a miss passes the raw skill through), the slug of the weapon
      type (no whitespace, no upper case, '' when the raw type is falsy),
      the ammunition list (empty when `ammoType` is falsy, else the alias
      of the raw name), and the universal description, undefined when the
      record gave none. */
  lemma WeaponComputedFields(raw: Json, u: Fields)
    requires WeaponBranch(raw, u).Ok?
    ensures var wo := JObj(WeaponBranch(raw, u).value);
      var a := Get(raw, "ammoType"); var w := Get(raw, "weaponType");
      && Get(wo, "weaponType").JStr?
      && NoWhitespace(Get(wo, "weaponType").s) && NoUpper(Get(wo, "weaponType").s)
      && (!Truthy(w) ==> Get(wo, "weaponType") == JStr(""))
      && (Truthy(w) ==> w.JStr? && Get(wo, "weaponType") == JStr(Slug(w.s)))
      && (!Truthy(a) ==> Get(wo, "ammoVariety") == JArr([]))
      && (Truthy(a) ==> a.JStr? && Get(wo, "ammoVariety") == JArr([JStr(AmmoAlias(a.s))]))
      && Get(wo, "description") == Get(JObj(u), "description")
  {
    WeaponTypeField(raw, u);
    AmmoVarietyField(raw, u);
  }

  lemma WeaponTypeField(raw: Json, u: Fields)
    requires WeaponBranch(raw, u).Ok?
    ensures var wo := JObj(WeaponBranch(raw, u).value); var w := Get(raw, "weaponType");
      && Get(wo, "weaponType") == WeaponType(w).value
      && (!Truthy(w) ==> Get(wo, "weaponType") == JStr(""))
      && (Truthy(w) ==> w.JStr? && Get(wo, "weaponType") == JStr(Slug(w.s)))
  {
    assert Slug("") == "";
  }

  lemma AmmoVarietyField(raw: Json, u: Fields)
    requires WeaponBranch(raw, u).Ok?
    ensures var wo := JObj(WeaponBranch(raw, u).value); var a := Get(raw, "ammoType");
      && (!Truthy(a) ==> Get(wo, "ammoVariety") == JArr([]))
      && (Truthy(a) ==> a.JStr? && Get(wo, "ammoVariety") == JArr([JStr(AmmoAlias(a.s))]))
      && Get(wo, "description") == Get(JObj(u), "description")
  {
  }

  /** The weapon rule table entries the properties below rely on. */
  lemma WeaponCopiedRules()
    ensures "rof" in WeaponRules && WeaponRules["rof"] == Copy("rof")
    ensures "damage" in WeaponRules && WeaponRules["damage"] == Copy("damage")
    ensures "handsReq" in WeaponRules && WeaponRules["handsReq"] == Copy("handsRequired")
    ensures "weaponSkill" in WeaponRules && WeaponRules["weaponSkill"] == SkillOf("skill")
  {
  }

  lemma WeaponDefaultedRules()
    ensures "quality" in WeaponRules && WeaponRules["quality"] == OrElse(["quality", "rarity"], JStr("standard"))
    ensures "equipped" in WeaponRules && WeaponRules["equipped"] == OrElse(["equipped"], JStr("owned"))
    ensures "usage" in WeaponRules && WeaponRules["usage"] == OrElse(["usage"], JStr("equipped"))
  {
  }

  /** The copied and defaulted weapon fields: `rof`, `damage` and
      `handsReq` are copied as they are (undefined when absent), the skill
      goes through its alias; `quality` falls back from `quality` to
      `rarity` to 'standard'; `equipped` and `usage` default to 'owned'
      and 'equipped'. */
  lemma WeaponRuleFields(raw: Json, u: Fields)
    requires WeaponBranch(raw, u).Ok?
    ensures var wo := JObj(WeaponBranch(raw, u).value);
      && Get(wo, "rof") == Get(raw, "rof")
      && Get(wo, "damage") == Get(raw, "damage")
      && Get(wo, "handsReq") == Get(raw, "handsRequired")
      && Get(wo, "weaponSkill") == SkillAlias(Get(raw, "skill"))
      && Get(wo, "quality") == OrChain(raw, ["quality", "rarity"], JStr("standard"))
      && Get(wo, "equipped") == Or(Get(raw, "equipped"), JStr("owned"))
      && Get(wo, "usage") == Or(Get(raw, "usage"), JStr("equipped"))
  {
    WeaponCopiedRules();
    WeaponDefaultedRules();
    WeaponRuleAt(raw, u, "rof");
    WeaponRuleAt(raw, u, "damage");
    WeaponRuleAt(raw, u, "handsReq");
    WeaponRuleAt(raw, u, "weaponSkill");
    WeaponRuleAt(raw, u, "quality");
    WeaponRuleAt(raw, u, "equipped");
    WeaponRuleAt(raw, u, "usage");
  }

  /** A string without whitespace or upper-case letters. */
  predicate SlugText(v: Json) {
    v.JStr? && NoWhitespace(v.s) && NoUpper(v.s)
  }

  /** The derived weapon fields as they appear in the system object. */
  lemma WeaponDerivedFields(raw: Json, sys: Fields)
    requires !Nullish(raw)
    requires MapItemData(JStr("weapon"), raw) == Ok(sys)
    ensures var a := Get(raw, "ammoType"); var w := Get(raw, "weaponType");
      && At(sys, "weapon", "weaponSkill") == SkillAlias(Get(raw, "skill"))
      && SlugText(At(sys, "weapon", "weaponType"))
      && (!Truthy(w) ==> At(sys, "weapon", "weaponType") == JStr(""))
      && (Truthy(w) ==> w.JStr? && At(sys, "weapon", "weaponType") == JStr(Slug(w.s)))
      && (!Truthy(a) ==> At(sys, "weapon", "ammoVariety") == JArr([]))
      && (Truthy(a) ==> a.JStr? && At(sys, "weapon", "ammoVariety") == JArr([JStr(AmmoAlias(a.s))]))
  {
    var u := UniversalFields(raw);
    WeaponAt(raw, sys, "weaponSkill");
    WeaponAt(raw, sys, "weaponType");
    WeaponAt(raw, sys, "ammoVariety");
    WeaponComputedFields(raw, u);
    WeaponRuleFields(raw, u);
  }

  /** Weapon `quality` falls back from `quality` to `rarity` to 'standard'. */
  lemma WeaponQualityPrecedence(raw: Json, sys: Fields)
    requires !Nullish(raw)
    requires MapItemData(JStr("weapon"), raw) == Ok(sys)
    ensures var q := At(sys, "weapon", "quality");
      && (Truthy(Get(raw, "quality")) ==> q == Get(raw, "quality"))
      && (!Truthy(Get(raw, "quality")) && Truthy(Get(raw, "rarity")) ==> q == Get(raw, "rarity"))
      && (!Truthy(Get(raw, "quality")) && !Truthy(Get(raw, "rarity")) ==> q == JStr("standard"))
  {
    WeaponAt(raw, sys, "quality");
    WeaponRuleFields(raw, UniversalFields(raw));
    TwoKeyChains(raw, "quality", "rarity", JStr("standard"));
  }

  /** A record that sets neither `ammoType` nor `weaponType` cannot make
      the weapon case throw. */
  lemma UntypedWeaponSucceeds(raw: Json)
    requires !Nullish(raw)
    requires Get(raw, "ammoType") == JUndef && Get(raw, "weaponType") == JUndef
    ensures MapItemData(JStr("weapon"), raw).Ok?
  {
    WeaponFailsExactly(raw);
  }

  /** The skill alias on concrete names: a known name is translated, an
      unknown one passes through. */
  lemma WeaponSkillExamples(raw: Json, sys: Fields)
    requires !Nullish(raw)
    requires MapItemData(JStr("weapon"), raw) == Ok(sys)
    ensures Get(raw, "skill") == JStr("SMG") ==> At(sys, "weapon", "weaponSkill") == JStr("Handgun")
    ensures Get(raw, "skill") == JStr("UnknownSkill") ==> At(sys, "weapon", "weaponSkill") == JStr("UnknownSkill")
  {
    SkillAliasSpec(JStr("SMG"));
    WeaponDerivedFields(raw, sys);
  }

  /** The heavy pistol record of the scenario below: skill "HeavyPistol",
      rate of fire 2, damage "2d6", and none of the other keys the weapon
      branch and the universal fields read. */
  predicate PistolFields(raw: Json) {
    && Get(raw, "skill") == JStr("HeavyPistol") && Get(raw, "rof") == JNum(2)
    && Get(raw, "damage") == JStr("2d6")
    && Get(raw, "ammoType") == JUndef && Get(raw, "weaponType") == JUndef
    && Get(raw, "handsRequired") == JUndef && Get(raw, "rarity") == JUndef
    && Get(raw, "equipped") == JUndef && Get(raw, "usage") == JUndef
    && Get(raw, "description") == JUndef && Get(raw, "price") == JUndef
    && Get(raw, "category") == JUndef && Get(raw, "quality") == JUndef
    && Get(raw, "revealed") == JUndef && Get(raw, "favorite") == JUndef
  }

  /** The pistol record written out. */
  function PistolRecord(): Json {
    JObj(map["skill" := JStr("HeavyPistol"), "rof" := JNum(2), "damage" := JStr("2d6")])
  }

  lemma PistolRecordFields()
    ensures PistolFields(PistolRecord())
  {
  }

  /** A record that sets none of the six universal inputs gets no universal field. */
  lemma NoUniversalInputs(raw: Json)
    requires forall key :: key in UniversalKeys ==> Get(raw, key) == JUndef
    ensures UniversalFields(raw) == map[]
  {
    assert UniversalFields(raw).Keys == {};
  }

  /** A heavy pistol record cannot make the weapon case throw. */
  lemma PistolRecordSucceeds(raw: Json)
    requires PistolFields(raw)
    ensures MapItemData(JStr("weapon"), raw).Ok?
  {
    UntypedWeaponSucceeds(raw);
  }

  /** A heavy pistol with skill "HeavyPistol", rate of fire 2 and damage
      "2d6" maps to skill "Handgun", keeps rate of fire and damage, takes
      the documented defaults, and leaves the fields the source copies
      without a default (`handsReq`, `description`) undefined. */
  lemma WeaponFromPistolRecord(raw: Json, sys: Fields)
    requires PistolFields(raw)
    requires MapItemData(JStr("weapon"), raw) == Ok(sys)
    ensures sys.Keys == {"weapon"}
    ensures At(sys, "weapon", "weaponSkill") == JStr("Handgun")
    ensures At(sys, "weapon", "rof") == JNum(2)
    ensures At(sys, "weapon", "damage") == JStr("2d6")
    ensures At(sys, "weapon", "equipped") == JStr("owned")
    ensures At(sys, "weapon", "usage") == JStr("equipped")
    ensures At(sys, "weapon", "quality") == JStr("standard")
    ensures At(sys, "weapon", "ammoVariety") == JArr([])
    ensures At(sys, "weapon", "weaponType") == JStr("")
    ensures At(sys, "weapon", "handsReq") == JUndef
    ensures At(sys, "weapon", "description") == JUndef
  {
    WeaponSystem(raw, sys);
    PistolReads(raw);
    NoUniversalInputs(raw);
    WithoutUniversal(raw, UniversalFields(raw), sys);
    PistolWeaponObject(raw, sys);
  }

  /** A successful weapon case is the universal fields plus `weapon`. */
  lemma WeaponSystem(raw: Json, sys: Fields)
    requires !Nullish(raw)
    requires MapItemData(JStr("weapon"), raw) == Ok(sys)
    ensures WeaponBranch(raw, UniversalFields(raw)).Ok?
    ensures sys == UniversalFields(raw)["weapon" := JObj(WeaponBranch(raw, UniversalFields(raw)).value)]
  {
    WeaponBranchShape(raw);
  }

  lemma WithoutUniversal(raw: Json, u: Fields, sys: Fields)
    requires u == map[]
    requires WeaponBranch(raw, u).Ok?
    requires sys == u["weapon" := JObj(WeaponBranch(raw, u).value)]
    ensures WeaponBranch(raw, map[]).Ok?
    ensures sys == map["weapon" := JObj(WeaponBranch(raw, map[]).value)]
    ensures sys.Keys == {"weapon"}
  {
  }

  lemma PistolReads(raw: Json)
    requires PistolFields(raw)
    ensures forall key :: key in UniversalKeys ==> Get(raw, key) == JUndef
  {
  }

  /** The weapon object the branch builds for the pistol record. */
  lemma PistolWeaponObject(raw: Json, sys: Fields)
    requires PistolFields(raw)
    requires WeaponBranch(raw, map[]).Ok?
    requires sys == map["weapon" := JObj(WeaponBranch(raw, map[]).value)]
    ensures At(sys, "weapon", "weaponSkill") == JStr("Handgun")
    ensures At(sys, "weapon", "rof") == JNum(2)
    ensures At(sys, "weapon", "damage") == JStr("2d6")
    ensures At(sys, "weapon", "equipped") == JStr("owned")
    ensures At(sys, "weapon", "usage") == JStr("equipped")
    ensures At(sys, "weapon", "quality") == JStr("standard")
    ensures At(sys, "weapon", "ammoVariety") == JArr([])
    ensures At(sys, "weapon", "weaponType") == JStr("")
    ensures At(sys, "weapon", "handsReq") == JUndef
    ensures At(sys, "weapon", "description") == JUndef
  {
    SkillAliasSpec(JStr("HeavyPistol"));
    WeaponComputedFields(raw, map[]);
    WeaponRuleFields(raw, map[]);
    TwoKeyChains(raw, "quality", "rarity", JStr("standard"));
  }

  // ---------------------------------------------------------------------
  // Ammunition and clothing counts.
  // ---------------------------------------------------------------------

  /** The ammunition count fields of the built object. */
  lemma AmmoCountFields(raw: Json)
    ensures Get(JObj(Apply(AmmoRules, raw)), "amount") == CoalesceChain(raw, ["amount"], JNum(1))
    ensures Get(JObj(Apply(AmmoRules, raw)), "quantity") == CoalesceChain(raw, ["quantity", "amount"], JNum(1))
  {
    AmmoCountRules();
    ApplyAt(AmmoRules, raw, "amount");
    ApplyAt(AmmoRules, raw, "quantity");
  }

  lemma AmmoCountRules()
    ensures "amount" in AmmoRules && AmmoRules["amount"] == NullishElse(["amount"], JNum(1))
    ensures "quantity" in AmmoRules && AmmoRules["quantity"] == NullishElse(["quantity", "amount"], JNum(1))
  {
  }

  /** Ammunition counts use `??`: `quantity` keeps an explicit value, even
      0, and otherwise falls back to `amount`, then 1; `amount` becomes 1
      only when it is null or undefined. */
  lemma AmmoCountPrecedence(raw: Json, sys: Fields)
    requires !Nullish(raw)
    requires MapItemData(JStr("ammo"), raw) == Ok(sys)
    ensures var q := Get(raw, "quantity"); var a := Get(raw, "amount");
      && (!Nullish(q) ==> At(sys, "ammo", "quantity") == q)
      && (Nullish(q) && !Nullish(a) ==> At(sys, "ammo", "quantity") == a)
      && (Nullish(q) && Nullish(a) ==> At(sys, "ammo", "quantity") == JNum(1))
      && (!Nullish(a) ==> At(sys, "ammo", "amount") == a)
      && (Nullish(a) ==> At(sys, "ammo", "amount") == JNum(1))
  {
    AmmoShape(raw);
    LabelledAt(UniversalFields(raw), "ammo", Apply(AmmoRules, raw), "quantity");
    LabelledAt(UniversalFields(raw), "ammo", Apply(AmmoRules, raw), "amount");
    BuiltAmmoCounts(raw);
  }

  lemma AmmoShape(raw: Json)
    requires !Nullish(raw)
    ensures MapItemData(JStr("ammo"), raw) == Ok(UniversalFields(raw)["ammo" := JObj(Apply(AmmoRules, raw))])
  {
    assert NameOf(Ammo) == "ammo" && RulesOf(Ammo) == AmmoRules;
    NestedBranchShape(Ammo, raw);
  }

  lemma BuiltAmmoCounts(raw: Json)
    ensures var q := Get(raw, "quantity"); var a := Get(raw, "amount");
      var built := JObj(Apply(AmmoRules, raw));
      && (!Nullish(q) ==> Get(built, "quantity") == q)
      && (Nullish(q) && !Nullish(a) ==> Get(built, "quantity") == a)
      && (Nullish(q) && Nullish(a) ==> Get(built, "quantity") == JNum(1))
      && (!Nullish(a) ==> Get(built, "amount") == a)
      && (Nullish(a) ==> Get(built, "amount") == JNum(1))
  {
    AmmoCountFields(raw);
    TwoKeyChains(raw, "quantity", "amount", JNum(1));
    assert CoalesceChain(raw, ["amount"], JNum(1)) == Coalesce(Get(raw, "amount"), JNum(1));
  }

  /** A record with `amount: 5` and no quantity gets quantity 5; an
      explicit quantity 2 wins over any amount, and an explicit quantity 0
      is kept. */
  lemma AmmoCountExamples(raw: Json, sys: Fields)
    requires !Nullish(raw)
    requires MapItemData(JStr("ammo"), raw) == Ok(sys)
    ensures Get(raw, "quantity") == JUndef && Get(raw, "amount") == JNum(5) ==> At(sys, "ammo", "quantity") == JNum(5)
    ensures Get(raw, "quantity") == JNum(2) ==> At(sys, "ammo", "quantity") == JNum(2)
    ensures Get(raw, "quantity") == JNum(0) ==> At(sys, "ammo", "quantity") == JNum(0)
  {
    AmmoCountPrecedence(raw, sys);
  }

  lemma ClothingAmountRule()
    ensures "clothing" in ClothingRules && ClothingRules["clothing"] == Object(ClothingInnerRules)
    ensures "amount" in ClothingInnerRules && ClothingInnerRules["amount"] == NumOr("amount", 1)
  {
  }

  lemma ClothingObject(raw: Json)
    ensures Get(JObj(Apply(ClothingRules, raw)), "clothing") == Eval(Object(ClothingInnerRules), raw)
  {
    ClothingAmountRule();
    ApplyAt(ClothingRules, raw, "clothing");
  }

  lemma ClothingObjectAmount(raw: Json)
    ensures Get(Eval(Object(ClothingInnerRules), raw), "amount") == Or(Get(raw, "amount"), JNum(1))
  {
    ClothingAmountRule();
    ObjectAt(ClothingInnerRules, raw, "amount");
  }

  /** Clothing's `amount` lives in the nested `clothing` object and uses `||`. */
  lemma ClothingAmount(raw: Json, sys: Fields)
    requires !Nullish(raw)
    requires MapItemData(JStr("clothing"), raw) == Ok(sys)
    ensures At(sys, "clothing", "amount") == Or(Get(raw, "amount"), JNum(1))
  {
    ClothingShape(raw);
    ClothingAmountRule();
    MergedAt(UniversalFields(raw), Apply(ClothingRules, raw), "clothing");
    BuiltClothingAmount(raw);
  }

  lemma ClothingShape(raw: Json)
    requires !Nullish(raw)
    ensures MapItemData(JStr("clothing"), raw) == Ok(UniversalFields(raw) + Apply(ClothingRules, raw))
  {
    assert NameOf(Clothing) == "clothing" && RulesOf(Clothing) == ClothingRules;
    TopLevelBranchShape(Clothing, raw);
  }

  lemma BuiltClothingAmount(raw: Json)
    ensures Get(Get(JObj(Apply(ClothingRules, raw)), "clothing"), "amount") == Or(Get(raw, "amount"), JNum(1))
  {
    ClothingObject(raw);
    ClothingObjectAmount(raw);
  }

  /** The same input 0 survives a `??` default and is replaced by an `||`
      default: ammunition `amount: 0` stays 0, clothing `amount: 0` becomes 1. */
  lemma ZeroAmountAmmoVersusClothing(raw: Json, ammo: Fields, clothing: Fields)
    requires Get(raw, "amount") == JNum(0)
    requires MapItemData(JStr("ammo"), raw) == Ok(ammo)
    requires MapItemData(JStr("clothing"), raw) == Ok(clothing)
    ensures At(ammo, "ammo", "amount") == JNum(0)
    ensures At(clothing, "clothing", "amount") == JNum(1)
  {
    AmmoCountPrecedence(raw, ammo);
    ClothingAmount(raw, clothing);
  }

  // ---------------------------------------------------------------------
  // Armor.
  // ---------------------------------------------------------------------

  const BodyLocationRules: map<string, Rule> :=
    map["sp" := NullishElse(["spBody", "sp"], JNum(0)), "ablation" := NumOr("ablationBody", 0)]

  const HeadLocationRules: map<string, Rule> :=
    map["sp" := NumOr("spHead", 0), "ablation" := NumOr("ablationHead", 0)]

  lemma ArmorLocationRules()
    ensures "bodyLocation" in ArmorRules && ArmorRules["bodyLocation"] == Object(BodyLocationRules)
    ensures "headLocation" in ArmorRules && ArmorRules["headLocation"] == Object(HeadLocationRules)
  {
  }

  lemma ArmorLocations(raw: Json)
    ensures Get(JObj(Apply(ArmorRules, raw)), "bodyLocation") == Eval(Object(BodyLocationRules), raw)
    ensures Get(JObj(Apply(ArmorRules, raw)), "headLocation") == Eval(Object(HeadLocationRules), raw)
  {
    ArmorLocationRules();
    ApplyAt(ArmorRules, raw, "bodyLocation");
    ApplyAt(ArmorRules, raw, "headLocation");
  }

  lemma LocationSp(raw: Json)
    ensures Get(Eval(Object(BodyLocationRules), raw), "sp") == CoalesceChain(raw, ["spBody", "sp"], JNum(0))
    ensures Get(Eval(Object(HeadLocationRules), raw), "sp") == Or(Get(raw, "spHead"), JNum(0))
  {
    ObjectAt(BodyLocationRules, raw, "sp");
    ObjectAt(HeadLocationRules, raw, "sp");
  }

  /** Armor body SP takes `spBody`, then `sp`, then 0, keeping an explicit
      0; head SP uses `||`, so a 0 and a missing value are the same. */
  lemma ArmorSpPrecedence(raw: Json, sys: Fields)
    requires !Nullish(raw)
    requires MapItemData(JStr("armor"), raw) == Ok(sys)
    ensures var body := At(sys, "bodyLocation", "sp"); var head := At(sys, "headLocation", "sp");
      && (!Nullish(Get(raw, "spBody")) ==> body == Get(raw, "spBody"))
      && (Nullish(Get(raw, "spBody")) && !Nullish(Get(raw, "sp")) ==> body == Get(raw, "sp"))
      && (Nullish(Get(raw, "spBody")) && Nullish(Get(raw, "sp")) ==> body == JNum(0))
      && (Truthy(Get(raw, "spHead")) ==> head == Get(raw, "spHead"))
      && (!Truthy(Get(raw, "spHead")) ==> head == JNum(0))
  {
    ArmorShape(raw);
    ArmorLocationRules();
    MergedAt(UniversalFields(raw), Apply(ArmorRules, raw), "bodyLocation");
    MergedAt(UniversalFields(raw), Apply(ArmorRules, raw), "headLocation");
    BuiltArmorSp(raw);
  }

  lemma ArmorShape(raw: Json)
    requires !Nullish(raw)
    ensures MapItemData(JStr("armor"), raw) == Ok(UniversalFields(raw) + Apply(ArmorRules, raw))
  {
    assert NameOf(Armor) == "armor" && RulesOf(Armor) == ArmorRules;
    TopLevelBranchShape(Armor, raw);
  }

  lemma BuiltArmorSp(raw: Json)
    ensures var built := JObj(Apply(ArmorRules, raw));
      var body := Get(Get(built, "bodyLocation"), "sp"); var head := Get(Get(built, "headLocation"), "sp");
      && (!Nullish(Get(raw, "spBody")) ==> body == Get(raw, "spBody"))
      && (Nullish(Get(raw, "spBody")) && !Nullish(Get(raw, "sp")) ==> body == Get(raw, "sp"))
      && (Nullish(Get(raw, "spBody")) && Nullish(Get(raw, "sp")) ==> body == JNum(0))
      && (Truthy(Get(raw, "spHead")) ==> head == Get(raw, "spHead"))
      && (!Truthy(Get(raw, "spHead")) ==> head == JNum(0))
  {
    ArmorLocations(raw);
    LocationSp(raw);
    TwoKeyChains(raw, "spBody", "sp", JNum(0));
  }

  // ---------------------------------------------------------------------
  // Installed-item slots.
  // ---------------------------------------------------------------------

  /** `(a ?? b) || 0` and `a ?? (b || 0)`, the two readings of the
      unparenthesised slot expression, agree unless the carried `slots` is
      present but falsy (false, 0 or ''); under both, a truthy carried value
      wins, and a missing one falls back to `raw.slots`, then 0. */
  lemma CarriedSlotsReadings(raw: Json)
    ensures var a := OptGet(Get(raw, "installedItems"), "slots"); var b := Get(raw, "slots");
      var other := Coalesce(a, Or(b, JNum(0)));
      && (CarriedSlots(raw) != other ==> !Nullish(a) && !Truthy(a))
      && (Truthy(a) ==> CarriedSlots(raw) == a && other == a)
      && (Nullish(a) ==> CarriedSlots(raw) == Or(b, JNum(0)) && other == Or(b, JNum(0)))
  {
  }

  lemma DeckSlotRules()
    ensures "installedItems" in CyberdeckRules && CyberdeckRules["installedItems"] == DeckInstalled
    ensures "slots" in DeckInstalled.fields
    ensures DeckInstalled.fields["slots"] == InnerOrElse("installedItems", "slots", JNum(0))
  {
  }

  lemma GearSlotRules()
    ensures "installedItems" in GearRules && GearRules["installedItems"] == CarriedInstalled(["itemUpgrade", "program"])
    ensures "slots" in CarriedInstalled(["itemUpgrade", "program"]).fields
    ensures CarriedInstalled(["itemUpgrade", "program"]).fields["slots"] == CarriedSlotCount
  {
  }

  lemma DeckBuiltSlots(raw: Json)
    ensures Get(Get(JObj(Apply(CyberdeckRules, raw)), "installedItems"), "slots") ==
      Or(OptGet(Get(raw, "installedItems"), "slots"), JNum(0))
  {
    DeckSlotRules();
    ApplyAt(CyberdeckRules, raw, "installedItems");
    ObjectAt(DeckInstalled.fields, raw, "slots");
  }

  lemma GearBuiltSlots(raw: Json)
    ensures Get(Get(JObj(Apply(GearRules, raw)), "installedItems"), "slots") == CarriedSlots(raw)
  {
    GearSlotRules();
    ApplyAt(GearRules, raw, "installedItems");
    ObjectAt(CarriedInstalled(["itemUpgrade", "program"]).fields, raw, "slots");
  }

  lemma DeckShape(raw: Json)
    requires !Nullish(raw)
    ensures MapItemData(JStr("cyberdeck"), raw) ==
      Ok(UniversalFields(raw)["cyberdeck" := JObj(Apply(CyberdeckRules, raw))])
  {
    assert NameOf(Cyberdeck) == "cyberdeck" && RulesOf(Cyberdeck) == CyberdeckRules;
    NestedBranchShape(Cyberdeck, raw);
  }

  lemma GearShape(raw: Json)
    requires !Nullish(raw)
    ensures MapItemData(JStr("gear"), raw) == Ok(UniversalFields(raw)["gear" := JObj(Apply(GearRules, raw))])
  {
    assert NameOf(Gear) == "gear" && RulesOf(Gear) == GearRules;
    NestedBranchShape(Gear, raw);
  }

  /** The cyberdeck reads its slot count only from `installedItems`,
      defaulting to 0. */
  lemma DeckSlots(raw: Json, deck: Fields)
    requires !Nullish(raw)
    requires MapItemData(JStr("cyberdeck"), raw) == Ok(deck)
    ensures Get(At(deck, "cyberdeck", "installedItems"), "slots") ==
      Or(OptGet(Get(raw, "installedItems"), "slots"), JNum(0))
  {
    var inner := Apply(CyberdeckRules, raw);
    DeckShape(raw);
    DeckBuiltSlots(raw);
    LabelledInnerAt(UniversalFields(raw), "cyberdeck", inner, "installedItems", "slots",
      Or(OptGet(Get(raw, "installedItems"), "slots"), JNum(0)));
  }

  /** Gear reads its slot count from `installedItems` and falls back to the
      record's own `slots`. */
  lemma GearSlots(raw: Json, gear: Fields)
    requires !Nullish(raw)
    requires MapItemData(JStr("gear"), raw) == Ok(gear)
    ensures Get(At(gear, "gear", "installedItems"), "slots") == CarriedSlots(raw)
  {
    var inner := Apply(GearRules, raw);
    GearShape(raw);
    GearBuiltSlots(raw);
    LabelledInnerAt(UniversalFields(raw), "gear", inner, "installedItems", "slots", CarriedSlots(raw));
  }

  /** On a record with `slots: 3` and no `installedItems` the cyberdeck has
      0 slots and gear has 3. */
  lemma CyberdeckIgnoresRecordSlots(raw: Json, deck: Fields, gear: Fields)
    requires Get(raw, "slots") == JNum(3) && Get(raw, "installedItems") == JUndef
    requires MapItemData(JStr("cyberdeck"), raw) == Ok(deck)
    requires MapItemData(JStr("gear"), raw) == Ok(gear)
    ensures Get(At(deck, "cyberdeck", "installedItems"), "slots") == JNum(0)
    ensures Get(At(gear, "gear", "installedItems"), "slots") == JNum(3)
  {
    DeckSlots(raw, deck);
    GearSlots(raw, gear);
    RecordSlotsOnly(raw);
  }

  lemma RecordSlotsOnly(raw: Json)
    requires Get(raw, "slots") == JNum(3) && Get(raw, "installedItems") == JUndef
    ensures Or(OptGet(Get(raw, "installedItems"), "slots"), JNum(0)) == JNum(0)
    ensures CarriedSlots(raw) == JNum(3)
  {
  }
}
