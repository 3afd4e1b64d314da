/** `mapItemData` of scripts/whale-importer.js: maps a subtype and a loose
    raw record onto the item's `system` object of the Cyberpunk RED game
    system. The universal fields are set first, then one branch per subtype
    fills its fields from the raw record or from an explicit default. A
    subtype without a branch gets the universal fields only.

    Each branch's object literal is written down as a table of field rules
    (`Rule`): which raw keys a field reads, with which operator, and which
    default it falls back to. `Eval` gives a rule its meaning on a record. */
module Normalizer {
  import opened Js
  import opened JsString
  import opened Wrappers
  import opened Aliases

  type Fields = map<string, Json>

  // ---------------------------------------------------------------------
  // Field rules.
  // ---------------------------------------------------------------------

  /** How one field of an output object is computed from the raw record. */
  datatype Rule =
    | Copy(src: string)                          // raw.src
    | OrElse(srcs: seq<string>, dflt: Json)      // raw.s1 || raw.s2 || … || dflt
    | NullishElse(srcs: seq<string>, dflt: Json) // raw.s1 ?? raw.s2 ?? … ?? dflt
    | Flag(src: string)                          // !!raw.src
    | Const(v: Json)                             // a literal
    | InnerOrElse(outer: string, src: string, dflt: Json) // raw.outer?.src || dflt
    | CarriedSlotCount                           // raw.installedItems?.slots ?? raw.slots || 0
    | SkillOf(src: string)                       // skillMap[raw.src] || raw.src
    | Object(fields: map<string, Rule>)          // a nested object literal

  /** `raw.s1 || … || dflt`. `||` is associative, so grouping to the right
      gives the same value as the language's grouping to the left. */
  function OrChain(raw: Json, srcs: seq<string>, dflt: Json): Json
    decreases srcs
  {
    if srcs == [] then dflt else Or(Get(raw, srcs[0]), OrChain(raw, srcs[1..], dflt))
  }

  /** `raw.s1 ?? … ?? dflt`, likewise associative. */
  function CoalesceChain(raw: Json, srcs: seq<string>, dflt: Json): Json
    decreases srcs
  {
    if srcs == [] then dflt else Coalesce(Get(raw, srcs[0]), CoalesceChain(raw, srcs[1..], dflt))
  }

  /** `(raw.installedItems?.slots ?? raw.slots) || 0`. The source writes this
      without parentheses, which the language grammar does not accept; this
      model reads it with `??` first. */
  function CarriedSlots(raw: Json): Json {
    Or(Coalesce(OptGet(Get(raw, "installedItems"), "slots"), Get(raw, "slots")), JNum(0))
  }

  /** The value of a field rule on a raw record. */
  function Eval(r: Rule, raw: Json): Json {
    match r
    case Copy(src) => Get(raw, src)
    case OrElse(srcs, dflt) => OrChain(raw, srcs, dflt)
    case NullishElse(srcs, dflt) => CoalesceChain(raw, srcs, dflt)
    case Flag(src) => DoubleNot(Get(raw, src))
    case Const(v) => v
    case InnerOrElse(outer, src, dflt) => Or(OptGet(Get(raw, outer), src), dflt)
    case CarriedSlotCount => CarriedSlots(raw)
    case SkillOf(src) => SkillAlias(Get(raw, src))
    case Object(fs) => JObj(map k | k in fs :: Eval(fs[k], raw))
  }

  /** An object literal written as a table of rules, evaluated on `raw`: it
      has exactly the table's keys, each holding its rule's value. */
  function Apply(rules: map<string, Rule>, raw: Json): (m: Fields)
    ensures m.Keys == rules.Keys
    ensures forall k :: k in rules ==> m[k] == Eval(rules[k], raw)
  {
    map k | k in rules :: Eval(rules[k], raw)
  }

  // ---------------------------------------------------------------------
  // Rules shared by several branches.
  // ---------------------------------------------------------------------

  /** `{ book: 'Core', page: 0 }`, the default `source`. */
  const CoreSource: Json := JObj(map["book" := JStr("Core"), "page" := JNum(0)])

  /** `{ market: raw.price || 0 }` */
  const PriceRule: Rule := Object(map["market" := OrElse(["price"], JNum(0))])

  /** `{ value: raw.description || '' }` */
  const DescriptionRule: Rule := Object(map["value" := OrElse(["description"], JStr(""))])

  /** `{ concealable: !!raw.conceal, isConcealed: false }` */
  const ConcealableRule: Rule :=
    Object(map["concealable" := Flag("conceal"), "isConcealed" := Const(JBool(false))])

  /** `{ autoFire: raw.autofire || 0, suppressiveFire: !!raw.suppressive }` */
  const FireModesRule: Rule :=
    Object(map["autoFire" := OrElse(["autofire"], JNum(0)), "suppressiveFire" := Flag("suppressive")])

  /** `raw.source || { book: 'Core', page: 0 }` */
  const SourceRule: Rule := OrElse(["source"], CoreSource)

  /** `raw.src || ''` */
  function TextOr(src: string): Rule { OrElse([src], JStr("")) }

  /** `raw.src || d` for a number `d` */
  function NumOr(src: string, d: int): Rule { OrElse([src], JNum(d)) }

  /** An `allowedTypes` array literal. */
  function Names(xs: seq<string>): (r: Json)
    ensures r.JArr? && |r.items| == |xs|
    ensures forall i :: 0 <= i < |xs| ==> r.items[i] == JStr(xs[i])
  {
    JArr(seq(|xs|, i requires 0 <= i < |xs| => JStr(xs[i])))
  }

  /** Installed-items slot without carried contents:
      `{ allowed: true, allowedTypes, list: [], slots: raw.slots || 0, usedSlots: 0 }` */
  function FreshInstalled(allowedTypes: seq<string>): Rule {
    Object(map["allowed" := Const(JBool(true)), "allowedTypes" := Const(Names(allowedTypes)),
               "list" := Const(JArr([])), "slots" := NumOr("slots", 0),
               "usedSlots" := Const(JNum(0))])
  }

  /** Installed-items slot carried over from `raw.installedItems`:
      `list: ii?.list || []`, `slots` as `CarriedSlots`, `usedSlots: ii?.usedSlots || 0`. */
  function CarriedInstalled(allowedTypes: seq<string>): Rule {
    Object(map["allowed" := Const(JBool(true)), "allowedTypes" := Const(Names(allowedTypes)),
               "list" := InnerOrElse("installedItems", "list", JArr([])),
               "slots" := CarriedSlotCount,
               "usedSlots" := InnerOrElse("installedItems", "usedSlots", JNum(0))])
  }

  /** The cyberdeck variant: `slots: ii?.slots || 0`, with no fallback to `raw.slots`. */
  const DeckInstalled: Rule :=
    Object(map["allowed" := Const(JBool(true)), "allowedTypes" := Const(Names(["itemUpgrade", "program"])),
               "list" := InnerOrElse("installedItems", "list", JArr([])),
               "slots" := InnerOrElse("installedItems", "slots", JNum(0)),
               "usedSlots" := InnerOrElse("installedItems", "usedSlots", JNum(0))])

  // ---------------------------------------------------------------------
  // Universal fields.
  // ---------------------------------------------------------------------

  const UniversalKeys: set<string> :=
    {"description", "price", "category", "quality", "revealed", "favorite"}

  /** The universal fields set only when their input is not null or
      undefined; the other three need a truthy input. */
  const PresenceKeys: set<string> := {"price", "revealed", "favorite"}

  /** Whether the universal field `k` is set for the input value `v`. */
  predicate Qualifies(k: string, v: Json) {
    if k in PresenceKeys then !Nullish(v) else Truthy(v)
  }

  /** The value the universal field `k` takes for the input value `v`:
      `{ value: v }`, `{ market: v }`, `!!v`, or `v` itself. */
  function Coerced(k: string, v: Json): Json {
    if k == "description" then JObj(map["value" := v])
    else if k == "price" then JObj(map["market" := v])
    else if k == "revealed" || k == "favorite" then DoubleNot(v)
    else v
  }

  /** The fields set before the subtype switch, each only when its input
      qualifies: `description`, `category`, `quality` when truthy; `price`,
      `revealed`, `favorite` when not null or undefined. The six statements
      write distinct keys, so their order does not matter. */
  function UniversalFields(raw: Json): (u: Fields)
    ensures u.Keys <= UniversalKeys
  {
    map k | k in UniversalKeys && Qualifies(k, Get(raw, k)) :: Coerced(k, Get(raw, k))
  }

  // ---------------------------------------------------------------------
  // Weapon.
  // ---------------------------------------------------------------------

  /** `raw.ammoType ? [ ammoMap[raw.ammoType.replace(/\s+/g,'')] || raw.ammoType ] : []`;
      `.replace` on a truthy non-string throws. */
  function AmmoVariety(ammoType: Json): Result<Json, Thrown> {
    if !Truthy(ammoType) then Ok(JArr([]))
    else if ammoType.JStr? then Ok(JArr([JStr(AmmoAlias(ammoType.s))]))
    else Err(TypeError(NotAFunction("replace")))
  }

  /** `(raw.weaponType || '').toLowerCase().replace(/\s+/g,'_')`;
      `.toLowerCase` on a truthy non-string throws. */
  function WeaponType(weaponType: Json): Result<Json, Thrown> {
    var w := Or(weaponType, JStr(""));
    if w.JStr? then Ok(JStr(Slug(w.s))) else Err(TypeError(NotAFunction("toLowerCase")))
  }

  /** The `weapon` object's fields other than the two that can throw
      (`ammoVariety`, `weaponType`) and the copied universal `description`. */
  const WeaponRules: map<string, Rule> := map[
    "attackmod" := NullishElse(["attackmod"], JNum(0)),
    "rof" := Copy("rof"),
    "damage" := Copy("damage"),
    "brand" := TextOr("brand"),
    "concealable" := ConcealableRule,
    "critFailEffect" := TextOr("special"),
    "dvTable" := TextOr("dvTable"),
    "equipped" := OrElse(["equipped"], JStr("owned")),
    "favorite" := NullishElse(["favorite"], JBool(false)),
    "fireModes" := FireModesRule,
    "handsReq" := Copy("handsRequired"),
    "installedItems" := FreshInstalled(["itemUpgrade", "ammo"]),
    "isRanged" := Flag("rangedWeapon"),
    "magazine" := Object(map["max" := NumOr("magazine", 0), "value" := NumOr("loadedAmmo", 0)]),
    "price" := PriceRule,
    "quality" := OrElse(["quality", "rarity"], JStr("standard")),
    "revealed" := NullishElse(["revealed"], JBool(true)),
    "source" := SourceRule,
    "unarmedAutomaticCalculation" := NullishElse(["unarmedAutomaticCalculation"], JBool(true)),
    "usage" := OrElse(["usage"], JStr("equipped")),
    "usesType" := OrElse(["usesType"], JStr("magazine")),
    "weaponSkill" := SkillOf("skill")
  ]

  /** The weapon branch: the `weapon` object, or the TypeError its object
      literal throws (the `ammoVariety` entry is evaluated before `weaponType`).
      `description` is the universal `sys.description`, undefined when unset. */
  function WeaponBranch(raw: Json, u: Fields): Result<Fields, Thrown>
  {
    match AmmoVariety(Get(raw, "ammoType"))
    case Err(e) => Err(e)
    case Ok(ammoVariety) =>
      match WeaponType(Get(raw, "weaponType"))
      case Err(e) => Err(e)
      case Ok(weaponType) =>
        var description := if "description" in u then u["description"] else JUndef;
        Ok(Apply(WeaponRules, raw)["ammoVariety" := ammoVariety]["weaponType" := weaponType]
                                  ["description" := description])
  }

  // ---------------------------------------------------------------------
  // Armor and clothing: fields written at the top level.
  // ---------------------------------------------------------------------

  const ArmorRules: map<string, Rule> := map[
    "bodyLocation" := Object(map["sp" := NullishElse(["spBody", "sp"], JNum(0)),
                                 "ablation" := NumOr("ablationBody", 0)]),
    "headLocation" := Object(map["sp" := NumOr("spHead", 0), "ablation" := NumOr("ablationHead", 0)]),
    "brand" := TextOr("brand"),
    "concealable" := ConcealableRule,
    "equipped" := OrElse(["equipped"], JStr("owned")),
    "favorite" := NullishElse(["favorite"], JBool(false)),
    "installedItems" := FreshInstalled(["itemUpgrade"]),
    "isShield" := NullishElse(["isShield"], JBool(false)),
    "shieldHitPoints" := Object(map["max" := NumOr("shieldMax", 0), "value" := NumOr("shieldValue", 0)]),
    "penalty" := NumOr("penalty", 0),
    "price" := PriceRule,
    "quality" := OrElse(["quality"], JStr("standard")),
    "revealed" := NullishElse(["revealed"], JBool(true)),
    "source" := SourceRule,
    "usage" := OrElse(["usage"], JStr("equipped"))
  ]

  const ClothingInnerRules: map<string, Rule> := map[
    "amount" := NumOr("amount", 1),
    "brand" := TextOr("brand"),
    "concealable" := ConcealableRule,
    "description" := DescriptionRule,
    "isElectronic" := Flag("electronic"),
    "providesHardening" := Flag("providesHardening")
  ]

  const ClothingRules: map<string, Rule> := map[
    "clothing" := Object(ClothingInnerRules),
    "equipped" := OrElse(["equipped"], JStr("owned")),
    "favorite" := NullishElse(["favorite"], JBool(false)),
    "installedItems" := CarriedInstalled(["itemUpgrade"]),
    "price" := PriceRule,
    "quality" := OrElse(["quality"], JStr("standard")),
    "revealed" := NullishElse(["revealed"], JBool(true)),
    "source" := SourceRule,
    "usage" := OrElse(["usage"], JStr("equipped"))
  ]

  // ---------------------------------------------------------------------
  // The nested objects of the remaining branches.
  // ---------------------------------------------------------------------

  const CyberwareRules: map<string, Rule> := map[
    "attackmod" := NumOr("attackmod", 0),
    "brand" := TextOr("brand"),
    "concealable" := ConcealableRule,
    "damage" := TextOr("damage"),
    "critFailEffect" := TextOr("special"),
    "dvTable" := TextOr("dvTable"),
    "equipped" := OrElse(["equipped"], JStr("owned")),
    "favorite" := NullishElse(["favorite"], JBool(false)),
    "fireModes" := FireModesRule,
    "handsReq" := NumOr("handsRequired", 1),
    "humanityLoss" := Object(map["roll" := TextOr("humanityRoll"), "static" := NumOr("humanityStatic", 0)]),
    "installedItems" := FreshInstalled(["itemUpgrade", "program"]),
    "isElectronic" := Flag("electronic"),
    "isRanged" := Flag("isRanged"),
    "isWeapon" := Flag("isWeapon"),
    "magazine" := Object(map["max" := NumOr("magazine", 0), "value" := NumOr("loadedAmmo", 0)]),
    "modifiers" := OrElse(["modifiers"], JObj(map[])),
    "price" := PriceRule,
    "providesHardening" := Flag("providesHardening"),
    "quality" := OrElse(["quality"], JStr("standard")),
    "revealed" := NullishElse(["revealed"], JBool(true)),
    "rof" := NumOr("rof", 0),
    "size" := NumOr("size", 0),
    "source" := SourceRule,
    "unarmedAutomaticCalculation" := NullishElse(["unarmedAutomaticCalculation"], JBool(true)),
    "usage" := OrElse(["usage"], JStr("installed")),
    "usesType" := OrElse(["usesType"], JStr("magazine")),
    "weaponSkill" := TextOr("weaponSkill"),
    "weaponType" := TextOr("weaponType")
  ]

  const UpgradeRules: map<string, Rule> := map[
    "attackmod" := NumOr("attackmod", 0),
    "brand" := TextOr("brand"),
    "concealable" := ConcealableRule,
    "damage" := TextOr("damage"),
    "dvTable" := TextOr("dvTable"),
    "description" := DescriptionRule,
    "equipped" := OrElse(["equipped"], JStr("owned")),
    "favorite" := NullishElse(["favorite"], JBool(false)),
    "fireModes" := FireModesRule,
    "handsReq" := NumOr("handsRequired", 0),
    "installLocation" := TextOr("installLocation"),
    "installedItems" := CarriedInstalled(["itemUpgrade"]),
    "isElectronic" := Flag("electronic"),
    "magazine" := Object(map["max" := NumOr("magazine", 0),
                             "value" := OrElse(["loadedAmmo", "ammo"], JNum(0))]),
    "modifiers" := OrElse(["modifiers"], JObj(map[])),
    "price" := PriceRule,
    "providesHardening" := Flag("providesHardening"),
    "quality" := OrElse(["quality"], JStr("standard")),
    "revealed" := NullishElse(["revealed"], JBool(true)),
    "rof" := NumOr("rof", 0),
    "size" := NumOr("size", 0),
    "source" := SourceRule,
    "unarmedAutomaticCalculation" := NullishElse(["unarmedAutomaticCalculation"], JBool(true)),
    "usage" := OrElse(["usage"], JStr("equipped")),
    "usesType" := OrElse(["usesType"], JStr("magazine")),
    "weaponSkill" := TextOr("weaponSkill"),
    "weaponType" := TextOr("weaponType")
  ]

  const GearRules: map<string, Rule> := map[
    "brand" := TextOr("brand"),
    "concealable" := ConcealableRule,
    "description" := DescriptionRule,
    "equipped" := OrElse(["equipped"], JStr("owned")),
    "favorite" := NullishElse(["favorite"], JBool(false)),
    "installLocation" := TextOr("installLocation"),
    "installedItems" := CarriedInstalled(["itemUpgrade", "program"]),
    "isElectronic" := Flag("electronic"),
    "price" := PriceRule,
    "providesHardening" := Flag("providesHardening"),
    "quality" := OrElse(["quality"], JStr("standard")),
    "revealed" := NullishElse(["revealed"], JBool(true)),
    "size" := NumOr("size", 0),
    "source" := SourceRule
  ]

  const DrugRules: map<string, Rule> := map[
    "rating" := NumOr("rating", 0),
    "addictionCheck" := NumOr("addictionCheck", 0),
    "cumulative" := OrElse(["cumulative"], JBool(false)),
    "description" := DescriptionRule,
    "price" := PriceRule
  ]

  const ProgramRules: map<string, Rule> := map[
    "programSize" := Copy("programSize"),
    "class" := Copy("class"),
    "atk" := Copy("ATK"),
    "def" := Copy("DEF"),
    "rez" := Copy("REZ"),
    "description" := DescriptionRule,
    "price" := PriceRule
  ]

  const ArchitectureRules: map<string, Rule> := map[
    "layers" := Copy("layers"),
    "dv" := Copy("DV"),
    "description" := DescriptionRule,
    "price" := PriceRule
  ]

  const CriticalRules: map<string, Rule> := map[
    "location" := Copy("location"),
    "quickFixType" := Copy("quickFixType"),
    "quickFixDV" := Copy("quickFixDV"),
    "treatmentType" := Copy("treatmentType"),
    "treatmentDV" := Copy("treatmentDV"),
    "increasesDeathSave" := Flag("increasesDeathSave"),
    "description" := DescriptionRule
  ]

  const AmmoRules: map<string, Rule> := map[
    "amount" := NullishElse(["amount"], JNum(1)),
    "quantity" := NullishElse(["quantity", "amount"], JNum(1)),
    "variety" := TextOr("variety"),
    "type" := TextOr("type"),
    "ablationAmount" := NumOr("ablationAmount", 0),
    "modifyDamage" := Flag("modifyDamage"),
    "modifyAutofireMax" := Flag("modifyAutofireMax"),
    "price" := PriceRule
  ]

  const VehicleRules: map<string, Rule> := map[
    "structuralDamagePoints" := NumOr("structuralDamagePoints", 0),
    "seats" := NumOr("seats", 0),
    "combatSpeed" := NumOr("combatSpeed", 0),
    "speedNarrative" := TextOr("speedNarrative"),
    "installedItems" := FreshInstalled(["itemUpgrade", "weapon"]),
    "price" := PriceRule,
    "quality" := OrElse(["quality"], JStr("standard")),
    "revealed" := NullishElse(["revealed"], JBool(true))
  ]

  const SkillRules: map<string, Rule> := map[
    "category" := Copy("category"),
    "difficulty" := Copy("difficulty"),
    "basic" := Flag("basic"),
    "level" := Copy("level"),
    "stat" := Copy("stat"),
    "description" := DescriptionRule
  ]

  const RoleRules: map<string, Rule> := map[
    "abilities" := OrElse(["abilities"], JArr([])),
    "bonusRatio" := NumOr("bonusRatio", 1),
    "bonuses" := OrElse(["bonuses"], JArr([])),
    "addRoleAbilityRank" := Flag("addRoleAbilityRank"),
    "hasRoll" := Flag("hasRoll"),
    "isSituational" := Flag("isSituational"),
    "universalBonuses" := OrElse(["universalBonuses"], JArr([])),
    "rank" := NumOr("rank", 0),
    "onByDefault" := Flag("onByDefault"),
    "stat" := TextOr("stat"),
    "skill" := TextOr("skill"),
    "description" := DescriptionRule,
    "favorite" := NullishElse(["favorite"], JBool(false)),
    "revealed" := NullishElse(["revealed"], JBool(true))
  ]

  const CyberdeckRules: map<string, Rule> := map[
    "brand" := TextOr("brand"),
    "concealable" := ConcealableRule,
    "electronic" := Flag("electronic"),
    "providesHardening" := Flag("providesHardening"),
    "size" := NumOr("size", 0),
    "installLocation" := TextOr("installLocation"),
    "installedItems" := DeckInstalled,
    "price" := PriceRule,
    "quality" := OrElse(["quality"], JStr("standard")),
    "revealed" := NullishElse(["revealed"], JBool(true)),
    "source" := SourceRule,
    "description" := DescriptionRule
  ]

  // ---------------------------------------------------------------------
  // mapItemData
  // ---------------------------------------------------------------------

  /** The `case` labels of the subtype switch. */
  datatype Subtype =
    | Weapon | Armor | Clothing | Cyberware | Upgrade | Gear | Drug | Program
    | Architecture | Critical | Ammo | Vehicle | Skill | Role | Cyberdeck

  const SubtypeNames: map<string, Subtype> := map[
    "weapon" := Weapon, "armor" := Armor, "clothing" := Clothing, "cyberware" := Cyberware,
    "upgrade" := Upgrade, "gear" := Gear, "drug" := Drug, "program" := Program,
    "architecture" := Architecture, "critical" := Critical, "ammo" := Ammo,
    "vehicle" := Vehicle, "skill" := Skill, "role" := Role, "cyberdeck" := Cyberdeck
  ]

  /** The `case` label of a subtype, which is also the key of its nested object. */
  function NameOf(k: Subtype): string {
    match k
    case Weapon => "weapon" case Armor => "armor" case Clothing => "clothing"
    case Cyberware => "cyberware" case Upgrade => "upgrade" case Gear => "gear"
    case Drug => "drug" case Program => "program" case Architecture => "architecture"
    case Critical => "critical" case Ammo => "ammo" case Vehicle => "vehicle"
    case Skill => "skill" case Role => "role" case Cyberdeck => "cyberdeck"
  }

  /** The `case` a subtype value selects under strict equality: only a
      string equal to a label matches; nothing matches otherwise. */
  function CaseOf(subtype: Json): Option<Subtype> {
    if subtype.JStr? && subtype.s in SubtypeNames then Some(SubtypeNames[subtype.s]) else None
  }

  /** The rule table of each branch (for the weapon, its non-throwing fields). */
  function RulesOf(k: Subtype): map<string, Rule> {
    match k
    case Weapon => WeaponRules
    case Armor => ArmorRules
    case Clothing => ClothingRules
    case Cyberware => CyberwareRules
    case Upgrade => UpgradeRules
    case Gear => GearRules
    case Drug => DrugRules
    case Program => ProgramRules
    case Architecture => ArchitectureRules
    case Critical => CriticalRules
    case Ammo => AmmoRules
    case Vehicle => VehicleRules
    case Skill => SkillRules
    case Role => RoleRules
    case Cyberdeck => CyberdeckRules
  }

  /** Armor and clothing write onto the system object itself; every other
      branch writes one nested object under its own label. */
  predicate TopLevel(k: Subtype) {
    k == Armor || k == Clothing
  }

  /** The system object after one `case` runs on the universal fields `u`. */
  function Branch(k: Subtype, raw: Json, u: Fields): Result<Fields, Thrown> {
    if k == Weapon then
      match WeaponBranch(raw, u)
      case Err(e) => Err(e)
      case Ok(w) => Ok(u["weapon" := JObj(w)])
    else if TopLevel(k) then Ok(u + Apply(RulesOf(k), raw))
    else Ok(u[NameOf(k) := JObj(Apply(RulesOf(k), raw))])
  }

  /** The system object for a subtype and a raw record: the universal
      fields, then the matching `case`, if any (there is no `default`). The
      caller always passes `data || {}`, so `raw` is never null or
      undefined. */
  function MapItemData(subtype: Json, raw: Json): Result<Fields, Thrown>
    requires !Nullish(raw)
  {
    var u := UniversalFields(raw);
    match CaseOf(subtype)
    case None => Ok(u)
    case Some(k) => Branch(k, raw, u)
  }
}
