# Whale Importer — a Dafny model of its import core

The Whale Importer is a module for the Foundry virtual tabletop that
imports JSON exports of Cyberpunk RED content ("The Whale") into a world.
The exports hold items, actors and roll tables. The repository has two
versions of the importer script:

- `scripts/whale-importer.js` validates each record loosely. It
  *normalises* the record: `mapItemData` turns a loose item record into
  the `system` object of the Cyberpunk RED game system, with one branch
  per item subtype, and the two alias tables `skillMap` and `ammoMap`
  translate free-text names. It then creates items, actors (with embedded
  sub-items and a skills update) and roll tables.
- `WhaleImporter/scripts/whale-importer.js` is a stricter *pass-through*
  version. It checks the record's kind, its name and its declared subtype,
  then hands the record to the store unchanged.

This project models both versions and proves what they do.

- **JSON values** (`Js`) are modelled as they look to the script while it
  runs:
  - undefined is distinct from null;
  - truthiness, `||`, `??`, `!!` and optional reads are written out;
  - reading a property of a non-object gives undefined.
- **Throws** are failures of a result.
  - An `Error` raised by the importer carries its message.
  - A language `TypeError` carries its cause: calling a method that is not
    there (`.replace` on a number, `.forEach` on an object), or reading a
    property of null or undefined.
- **The string operations** (`JsString`) are the three the weapon branch
  uses: `toLowerCase`, `replace(/\s+/g, '')` and `replace(/\s+/g, '_')`.
- **`mapItemData`** (`Normalizer`) sets the six universal fields, then
  runs one branch.
  - Each branch's object literal is a table of field rules. A rule says
    which raw keys the field reads, with `||` or `??`, and which default it
    falls back to.
  - The weapon branch is written out, because it can throw.
- **The document store** (`Documents`) is a class whose one field is the
  log of calls it received, in order:
  - `Item.create`, `Actor.create`, `RollTable.create`;
  - `createEmbeddedDocuments` and `update` on an actor.
  A created document is named by the position of its creating call in the
  log.
- **The import loops** (`Importer`, `StrictImporter`) are methods that
  call the store. Each is proved to produce exactly the calls, and the
  outcome, that a recursive function over the records describes.
  - The loose loop takes the normaliser as a parameter (`Mapper`). Its
    lemmas therefore hold for any normaliser, and `SystemData`
    (`mapItemData(type, data || {})`) instantiates them.

Properties proved:

- **Validation**: each validator accepts exactly its well-formed records,
  and raises each message exactly when its check is the first one to fail.
- **Output schema**: every branch writes the documented keys, and only the
  weapon branch can throw (exactly when `ammoType` or `weaponType` is
  truthy but not a string).
- **Field rules**:
  - the universal fields need truthiness or presence;
  - `??` keeps 0 where `||` replaces it;
  - the weapon's skill and ammunition aliases and its weapon-type slug;
  - slot counts.
- **Import order**: an actor's sub-items come in group order, and the
  first throw ends the batch.
- **Store log**: every call on an actor names an actor created earlier.

## Model

| member | source | states |
|---|---|---|
| Js.AsList | scripts/whale-importer.js:213 | An array payload is its own list of entries; any other value is a one-entry list. |
| Js.CoalesceVersusOr | scripts/whale-importer.js:31-36 | `??` and `\|\|` pick the same operand except on a present falsy value (false, 0, ''), where `??` keeps it and `\|\|` falls back. |
| Js.PresentFalsyValues | scripts/whale-importer.js:31-36 | The only values that are falsy yet not null or undefined are false, 0 and ''. |
| Js.DefaultsNeverMissing | scripts/whale-importer.js:53-85 | `x \|\| d` with a truthy default is truthy, `x ?? d` with a present default is present, and `x \|\| 0` is never null or undefined. |
| JsString.ToLower | scripts/whale-importer.js:83 | `toLowerCase` keeps the length, leaves no upper-case letter, lowers each character in place and leaves lower-case text unchanged. |
| JsString.StripWhitespace | scripts/whale-importer.js:57 | `replace(/\s+/g,'')` leaves no whitespace, never lengthens the text and leaves whitespace-free text unchanged. |
| JsString.CollapseWhitespace | scripts/whale-importer.js:83 | `replace(/\s+/g,'_')` leaves no whitespace, never lengthens the text, adds no upper case and leaves whitespace-free text unchanged. |
| JsString.Slug | scripts/whale-importer.js:83 | The weapon-type slug has no whitespace and no upper-case letter. |
| JsString.StripAppend | scripts/whale-importer.js:57 | Stripping whitespace distributes over concatenation. |
| JsString.CollapseKeepsText | scripts/whale-importer.js:83 | Collapsing keeps the non-whitespace text in order: the result holds no whitespace, and with the separators removed it is the stripped input. |
| JsString.CollapseLeadingRun | scripts/whale-importer.js:83 | A maximal run of whitespace of any length becomes exactly one separator (`/\s+/g` matches the whole run). |
| JsString.CollapseKeepsChar | scripts/whale-importer.js:83 | A non-whitespace character is kept in place. With CollapseLeadingRun this fixes the result run by run. |
| JsString.CollapseDoubleSpace | scripts/whale-importer.js:83 | Two spaces between two non-whitespace characters give one separator: "a  b" becomes "a_b", not "a__b". |
| JsString.SlugIdempotent | scripts/whale-importer.js:83 | The slug of a slug is the slug itself. |
| Aliases.TablesWellFormed | scripts/whale-importer.js:40-52 | Every `skillMap` value is one of the four canonical skills, and every `ammoMap` entry maps a non-empty tag to itself, so `\|\|` never falls through on a hit. |
| Aliases.SkillAliasSpec | scripts/whale-importer.js:40-46 | The skill table is looked up with the text of the raw value, as a property key is. When that text is a table key, the result is that key's canonical skill, which is truthy. Otherwise the raw value passes through unchanged. SMG and HeavyPistol become Handgun, CombatKnife becomes Melee Weapon, and unknown or missing skills pass through. |
| Aliases.SkillKeyCoerced | scripts/whale-importer.js:82 | A one-element array `["SMG"]` is read as the key "SMG" and becomes Handgun. |
| Aliases.AmmoAliasSpec | scripts/whale-importer.js:47-57 | An ammunition name resolves to its whitespace-free spelling when that is a table key, and otherwise passes through unchanged. |
| Aliases.AmmoAliasStripsBeforeLookup | scripts/whale-importer.js:57 | "shotgun Shell" resolves to the canonical tag "shotgunShell", because whitespace is removed before the lookup. |
| Aliases.AmmoAliasMissPassesThrough | scripts/whale-importer.js:57 | Example: the name "Flechette", which is not in the table, is kept as written. The general fact is the second clause of Aliases.AmmoAliasSpec. |
| Normalizer.Apply | scripts/whale-importer.js:53-200 | An object literal built from a rule table has exactly the table's keys, each holding its rule's value. |
| Normalizer.Names | scripts/whale-importer.js:96 | An `allowedTypes` array literal lists the given type names in order. |
| Normalizer.UniversalFields | scripts/whale-importer.js:31-36 | The fields set before the switch are among the six universal keys. |
| NormalizerProperties.ClothingInnerMatchesSchema | scripts/whale-importer.js:109 | The nested `clothing` rule table, as transcribed, has the keys of the source's `clothing` literal: a check of the transcription. |
| NormalizerProperties.UniversalFieldsSpec | scripts/whale-importer.js:31-36 | Each universal field is present exactly when its input qualifies, and then holds the coerced input. Qualifying means truthy for description, category and quality, and not null or undefined for price, revealed and favorite. The coercions are `{value}`, `{market}` and `!!`. |
| NormalizerProperties.EmptyRecordNoUniversal | scripts/whale-importer.js:31-36 | An empty record gets no universal field. |
| NormalizerProperties.CaseLabelsRoundTrip | scripts/whale-importer.js:38-201 | Each `case` label selects its own branch, and a subtype selects a branch only when it is the string equal to that label (strict equality). |
| NormalizerProperties.UnmatchedSubtypeUniversalOnly | scripts/whale-importer.js:38-201 | A subtype matching no `case` label (there is no `default`) yields the universal fields alone. |
| NormalizerProperties.PluralActorTagsUniversalOnly | scripts/whale-importer.js:38-201 | The actor groups `upgrades` and `programs` match no case, so their sub-items get the universal fields only. |
| NormalizerProperties.NestedBranchShape | scripts/whale-importer.js:121-200 | A nesting branch puts the object its table builds under its own label and leaves the universal fields as they were. |
| NormalizerProperties.TopLevelBranchShape | scripts/whale-importer.js:89-119 | Armor and clothing write their fields over the universal ones at the top level. |
| NormalizerProperties.WeaponBranchShape | scripts/whale-importer.js:39-87 | The weapon case throws exactly what its object literal throws, and otherwise adds the weapon object under `weapon`. |
| NormalizerProperties.CaseKeys | scripts/whale-importer.js:38-201 | A successful case yields the universal keys plus exactly the keys that case writes. |
| NormalizerProperties.MapItemDataKeys | scripts/whale-importer.js:27-203 | Only the `weapon` subtype can throw, and a successful system object has the universal keys plus exactly the matched case's keys, or the universal keys alone when nothing matches. |
| NormalizerProperties.NestedObjectKeys | scripts/whale-importer.js:53-200 | Whatever the input, the nested object under a case's label has exactly that branch's documented keys. |
| NormalizerProperties.EmptyWeaponSucceeds | scripts/whale-importer.js:53-85 | An empty weapon record does not throw. |
| NormalizerProperties.OnlyWeaponThrows | scripts/whale-importer.js:89-200 | Every case other than the weapon's succeeds on every record. |
| NormalizerProperties.EmptyRecordKeys | scripts/whale-importer.js:38-201 | An empty record gets, for each case, exactly that case's full set of default keys and nothing else. |
| NormalizerProperties.LabelsNotUniversal | scripts/whale-importer.js:31-201 | No case label is a universal field name. |
| NormalizerProperties.NestedBranchesKeepUniversal | scripts/whale-importer.js:31-200 | A nesting branch never changes a universal field that was set. |
| NormalizerProperties.TopLevelBranchesOverride | scripts/whale-importer.js:89-119 | Armor and clothing replace the universal price, quality, favorite and revealed with their own defaulted values, and keep the universal description and category. |
| NormalizerProperties.DefaultedNeverUndefined | scripts/whale-importer.js:53-200 | A field rule with a non-undefined default, a `!!` or a literal never yields undefined, whatever the record. |
| NormalizerProperties.WeaponUndefinedFields | scripts/whale-importer.js:55-82 | The weapon's rof, damage, handsReq and weaponSkill have no default, and each of them is undefined when the record is empty. |
| NormalizerProperties.WeaponUndefinedOnEmpty | scripts/whale-importer.js:55-82 | On the empty record the three copied weapon fields are undefined. An unset skill is looked up as "undefined", misses the table and passes through as undefined. |
| NormalizerProperties.ProgramUndefinedFields | scripts/whale-importer.js:162-165 | programSize, class, atk, def and rez are the program's only fields that can be undefined, and each of them is undefined when the record is empty. |
| NormalizerProperties.ArchitectureUndefinedFields | scripts/whale-importer.js:167-170 | layers and dv are the architecture's only fields that can be undefined, and each of them is undefined when the record is empty. |
| NormalizerProperties.CriticalUndefinedFields | scripts/whale-importer.js:172-175 | location, quickFixType, quickFixDV, treatmentType and treatmentDV are the critical injury's only fields that can be undefined, and each of them is undefined when the record is empty. |
| NormalizerProperties.SkillUndefinedFields | scripts/whale-importer.js:187-190 | category, difficulty, level and stat are the skill's only fields that can be undefined, and each of them is undefined when the record is empty. |
| NormalizerProperties.DefaultedFieldsHaveValues | scripts/whale-importer.js:53-200 | Every field outside those lists always has a value: all ammunition, drug, vehicle and role fields, for instance. |
| FieldProperties.WeaponBranchFails | scripts/whale-importer.js:57-83 | The weapon literal throws exactly when `ammoType` is truthy but not a string (no `.replace`) or `weaponType` is truthy but not a string (no `.toLowerCase`). The `ammoType` error wins when both apply. |
| FieldProperties.WeaponFailsExactly | scripts/whale-importer.js:39-87 | The same if-and-only-if, and the same two errors, for the whole `weapon` case of `mapItemData`. |
| FieldProperties.WeaponComputedFields | scripts/whale-importer.js:57-83 | weaponType is '' for a falsy raw type and otherwise the slug of the type (no whitespace, no upper case). ammoVariety is empty without an `ammoType`, and otherwise holds the aliased name. |
| FieldProperties.WeaponRuleFields | scripts/whale-importer.js:53-85 | rof, damage and handsReq copy the raw values. weaponSkill is the skill alias. quality falls back quality → rarity → 'standard'. equipped and usage default to 'owned' and 'equipped'. |
| FieldProperties.WeaponDerivedFields | scripts/whale-importer.js:57-83 | In the system object, the weapon's skill is the alias of the raw skill, its type is a slug, and its ammunition list follows `ammoType` as above. |
| FieldProperties.WeaponQualityPrecedence | scripts/whale-importer.js:76 | The weapon's quality is the first truthy of quality and rarity, else 'standard'. |
| FieldProperties.UntypedWeaponSucceeds | scripts/whale-importer.js:57-83 | A record setting neither `ammoType` nor `weaponType` cannot make the weapon case throw. |
| FieldProperties.WeaponSkillExamples | scripts/whale-importer.js:82 | Skill "SMG" yields "Handgun", and "UnknownSkill" is kept. |
| FieldProperties.WeaponFromPistolRecord | scripts/whale-importer.js:31-85 | A heavy pistol record (skill HeavyPistol, rof 2, damage 2d6) yields a system object with only `weapon`: skill Handgun, rof 2, damage 2d6, equipped owned, usage equipped, quality standard, no ammunition, type '' and an undefined handsReq and description. |
| FieldProperties.AmmoCountPrecedence | scripts/whale-importer.js:178 | quantity keeps any present value, even 0, then falls back to amount, then 1. amount becomes 1 only when null or undefined. |
| FieldProperties.AmmoCountExamples | scripts/whale-importer.js:178 | A record with amount 5 and no quantity has quantity 5, an explicit quantity 2 wins over any amount, and an explicit quantity 0 is kept. |
| FieldProperties.ClothingAmount | scripts/whale-importer.js:109 | Clothing's amount sits in the nested `clothing` object and is `amount \|\| 1`. |
| FieldProperties.ZeroAmountAmmoVersusClothing | scripts/whale-importer.js:109-178 | The same `amount: 0` stays 0 for ammunition and becomes 1 for clothing. |
| FieldProperties.ArmorSpPrecedence | scripts/whale-importer.js:90-91 | Body SP takes spBody, then sp, then 0, keeping an explicit 0. Head SP is spHead when truthy, else 0. |
| FieldProperties.CarriedSlotsReadings | scripts/whale-importer.js:112-150 | The two groupings of `ii?.slots ?? raw.slots \|\| 0` differ only on a present falsy carried value. Under both, a truthy carried value wins and a missing one falls back to `raw.slots \|\| 0`. |
| FieldProperties.DeckSlots | scripts/whale-importer.js:198 | The cyberdeck reads its slot count only from `installedItems.slots`, defaulting to 0. |
| FieldProperties.GearSlots | scripts/whale-importer.js:150 | Gear reads its slot count from `installedItems.slots`, then falls back to the record's own `slots`, then 0. |
| FieldProperties.CyberdeckIgnoresRecordSlots | scripts/whale-importer.js:150-198 | With `slots: 3` and no `installedItems`, a cyberdeck has 0 slots and gear has 3. |
| Validator.ValidateEntityAccepts | scripts/whale-importer.js:18-24 | A record passes exactly when it is not null, has a known entityType and a truthy name, and has a truthy type unless it is a RollTable. |
| Validator.ValidateEntityErrors | scripts/whale-importer.js:19-23 | Each of the four messages is raised exactly when its check fails and every earlier one passed. |
| Validator.ValidateEntityThrows | scripts/whale-importer.js:18-19 | A null or undefined record throws a TypeError (reading entityType), and every other failure is one of the four importer messages. |
| Validator.RollTableNeedsNoType | scripts/whale-importer.js:22-23 | A named RollTable passes without a type. |
| Documents.Repository.constructor | scripts/whale-importer.js:212-234 | A fresh store has received no call. |
| Documents.Repository.CreateItem | scripts/whale-importer.js:208 | `Item.create` appends one item creation to the log and names the new item by its position. |
| Documents.Repository.CreateActor | scripts/whale-importer.js:219 | `Actor.create` appends one actor creation and keeps the log well formed. |
| Documents.Repository.CreateEmbeddedDocuments | scripts/whale-importer.js:227 | Embedding appends one call, and keeps the log well formed when the actor was created earlier. |
| Documents.Repository.Update | scripts/whale-importer.js:228 | An update appends one call, and keeps the log well formed when the actor was created earlier. |
| Documents.Repository.CreateRollTable | scripts/whale-importer.js:230 | `RollTable.create` appends one table creation to the log. |
| Importer.CollectGroup | scripts/whale-importer.js:221-225 | The `forEach` push loop returns exactly the group's sub-items: none for a falsy group, a TypeError for a non-array or a null element. |
| Importer.CollectKeyedGroups | scripts/whale-importer.js:223-225 | The loop over the twelve group keys returns the groups' sub-items in key order, or the first throw. |
| Importer.CollectActorItems | scripts/whale-importer.js:220-225 | The actor's item list: weapons, then armor, then the keyed groups. |
| Importer.EmbedDocuments | scripts/whale-importer.js:226 | The `map` over the sub-items returns their item documents in order, or the normaliser's first throw. |
| Importer.CreateItemDocument | scripts/whale-importer.js:206-209 | Appends to the log exactly the item record's calls: one item with the mapped system object, or none when mapping throws. |
| Importer.ImportActor | scripts/whale-importer.js:219-228 | Appends exactly the actor record's calls and returns its outcome. |
| Importer.EmbedActorItems | scripts/whale-importer.js:220-228 | Appends exactly the calls after the actor's creation: the embed, then the skills update. |
| Importer.ImportEntry | scripts/whale-importer.js:215-231 | One loop iteration appends exactly the record's calls. |
| Importer.ImportPayload | scripts/whale-importer.js:212-234 | The payload loop appends exactly the batch's calls, in order up to the first throw, and returns the batch outcome. It works for any normaliser. |
| Importer.ProcessImportPayload | scripts/whale-importer.js:212-234 | The same, with `mapItemData(type, data \|\| {})` as the normaliser. |
| ImporterProperties.ElementsSpec | scripts/whale-importer.js:221-224 | A group's push loop succeeds exactly when no element is null or undefined, and otherwise throws reading `name`. On success there is one sub-item per element, in order, carrying the element as its data. |
| ImporterProperties.GroupSpec | scripts/whale-importer.js:221-224 | `(v \|\| []).forEach` gives no sub-item for a falsy value and throws "forEach is not a function" on a truthy non-array. It succeeds exactly on falsy values and arrays without null elements, and every sub-item carries the group's tag. |
| ImporterProperties.RankOfKey | scripts/whale-importer.js:223 | The twelve group keys are distinct, and none is weapon or armor. |
| ImporterProperties.KeyedItemsOrdered | scripts/whale-importer.js:223-225 | The keyed groups' sub-items come in key order and fail only with a TypeError. |
| ImporterProperties.ActorItemsOrdered | scripts/whale-importer.js:220-225 | An actor's sub-items come weapons first, then armor, then the keyed groups in key order. |
| ImporterProperties.KeyedItemsFail | scripts/whale-importer.js:223-225 | One failing group makes the whole collection throw. |
| ImporterProperties.KeyedItemsNone | scripts/whale-importer.js:223-225 | A record with no keyed group set has no keyed sub-item. |
| ImporterProperties.EmbeddedDocsSpec | scripts/whale-importer.js:226 | Embedding succeeds exactly when the normaliser succeeds on every sub-item, and then gives each sub-item's document at its own position. A failure is the normaliser's throw on the first sub-item it fails on. |
| ImporterProperties.PluralGroupsUniversalOnly | scripts/whale-importer.js:223-226 | Embedded `upgrades` and `programs` sub-items get only the universal fields. |
| ImporterProperties.InvalidRecordCreatesNothing | scripts/whale-importer.js:215 | A record that fails validation makes no call and ends with the validation error. |
| ImporterProperties.EntryRunShape | scripts/whale-importer.js:214-231 | A completed record passed validation and made at most three calls. A record that throws after making calls is an actor whose only call is its own creation. |
| ImporterProperties.ItemRecord | scripts/whale-importer.js:206-217 | A valid item record creates one item holding the mapped system object, or creates nothing and throws the mapping error. |
| ImporterProperties.RollTableRecord | scripts/whale-importer.js:229-230 | A valid roll table record creates one table from its name, image and results. |
| ImporterProperties.ActorWithoutData | scripts/whale-importer.js:219 | A valid actor record without `data` throws reading `stats` before anything is created. |
| ImporterProperties.ActorTailShape | scripts/whale-importer.js:220-228 | After the actor's creation comes nothing when collecting or mapping throws. Otherwise comes the embed call, then a skills update exactly when skills are truthy. |
| ImporterProperties.ActorDocSystem | scripts/whale-importer.js:219 | The actor document keeps the record's name, type, stats and role, and a falsy reputation becomes 0. |
| ImporterProperties.ActorRecord | scripts/whale-importer.js:219-228 | An actor with data is first created, not rendered, and every later call is on that actor. The record completes exactly when the embed follows, and makes three calls exactly when it also has skills, the third being the skills update. |
| ImporterProperties.EntryRunOnActor | scripts/whale-importer.js:219-228 | Every call a record makes on an actor names that record's own newly created actor. |
| ImporterProperties.RoleStringStopsActor | scripts/whale-importer.js:219-224 | An actor whose `role` is a non-empty string is still created, but the role group then throws "forEach is not a function" and nothing is embedded. |
| ImporterProperties.ImportRunConcat | scripts/whale-importer.js:214-232 | Importing `xs + ys` is importing `xs`, then, unless that threw, importing `ys` after its calls. |
| ImporterProperties.FailingHeadStops | scripts/whale-importer.js:214-232 | A record that throws ends the batch with its own calls and error. |
| ImporterProperties.FirstFailureStops | scripts/whale-importer.js:214-232 | The records after the first throw make no call: the batch keeps the calls made so far and ends with that throw. |
| ImporterProperties.InvalidFirstRecordStopsAll | scripts/whale-importer.js:214-215 | A payload whose first record is invalid makes no call at all. |
| ImporterProperties.EntryRunWellFormed | scripts/whale-importer.js:219-228 | One record keeps the store's log well formed. |
| ImporterProperties.ImportRunWellFormed | scripts/whale-importer.js:212-234 | A whole batch keeps the log well formed: every embed or update names an actor created earlier in the log. |
| ImporterProperties.GlockRecord | scripts/whale-importer.js:206-217 | The "Glock" item record with skill HeavyPistol creates exactly one item whose system object is only `weapon`, with skill Handgun, rof 2, damage 2d6, equipped owned and usage equipped. |
| ImporterProperties.KnifeRecordSucceeds | scripts/whale-importer.js:53-85 | A knife record cannot make the weapon case throw. |
| ImporterProperties.GangerRecord | scripts/whale-importer.js:219-228 | The "Ganger" actor with one knife creates the actor, then embeds exactly one weapon item whose skill is "Melee Weapon", and makes no other call. |
| ImporterProperties.GangerRun | scripts/whale-importer.js:219-228 | The Ganger's calls for any normaliser that maps the knife to a given system object. |
| StrictImporter.ValidateStrictAccepts | WhaleImporter/scripts/whale-importer.js:32-63 | A record passes exactly when it has a known type and a non-empty string name. An Actor or Item must also have a non-empty string subtype (`data.type`) among those declared for its kind, and a RollTable must have an array of results. |
| StrictImporter.ValidateStrictErrors | WhaleImporter/scripts/whale-importer.js:33-60 | Each message is raised exactly when its check is the first to fail: the type message, the name message, "Invalid Actor/Item subtype: …" naming the rendered subtype, and the results message. |
| StrictImporter.MissingSubtype | WhaleImporter/scripts/whale-importer.js:40-45 | An actor without `data` fails with "Invalid Actor subtype: undefined". |
| StrictImporter.NothingDeclared | WhaleImporter/scripts/whale-importer.js:41-49 | With no declared type labels, every Actor and Item record is rejected. |
| StrictImporter.ValidCreatesOne | WhaleImporter/scripts/whale-importer.js:72-82 | A valid record makes exactly one create call, with the record itself as the document. That call is an actor creation, rendered, exactly for an Actor. |
| StrictImporter.CreateRecord | WhaleImporter/scripts/whale-importer.js:72-82 | The `switch` appends exactly the record's create call. |
| StrictImporter.StrictImportPayload | WhaleImporter/scripts/whale-importer.js:68-85 | The pass-through loop appends exactly the batch's calls and returns its outcome. |
| StrictImporter.StrictRunSpec | WhaleImporter/scripts/whale-importer.js:68-85 | The i-th call is the creation of the i-th record. The batch completes exactly when every record is valid, and then makes one call per record. Otherwise it fails with the first invalid record's error. |
| StrictImporter.StrictRunWellFormed | WhaleImporter/scripts/whale-importer.js:68-85 | The pass-through loop never calls on an actor, so it keeps the store's log well formed. |

## Left out

- The dialog, the sheet-header button, the hooks and the message listener are left out. They are user interface, not import logic.
- `JSON.parse` of the pasted text is left out: the model starts from parsed values.
- Asynchrony is left out, and so are rejected store calls. Every `create`, `createEmbeddedDocuments` and `update` is taken to succeed, and the awaits run in order.
- `ui.notifications` and `console.log` are left out. They are output only and change nothing the model tracks.
- Numbers are integers: floating point and NaN are not modelled.
- Strings are ASCII only for `toLowerCase` and the `\s` class. Unicode case mapping and the non-ASCII spaces are not modelled.
- Property reads see only a record's own fields: inherited prototype keys (`toString` and the like) are not modelled.
- Reading a property of a string, number or boolean gives undefined here. The model does not capture the few built-in properties such values have, such as a string's `length`.
- The stricter validator takes its lists of known actor and item types as parameters. Reading `CONFIG.Actor.typeLabels` and `CONFIG.Item.typeLabels` is not part of this model.
- The loose loop's normaliser is a parameter (`Mapper`), and `SystemData` instantiates it with `mapItemData`. The properties of the loop are proved for every normaliser.
- Normalizer.CarriedSlots: lines 112, 138 and 150 write `raw.installedItems?.slots ?? raw.slots || 0` without parentheses, and the language's grammar does not accept `??` mixed with `||` like that. The model reads it as `(raw.installedItems?.slots ?? raw.slots) || 0`. The clothing, upgrade and gear `installedItems.slots` values depend on that choice, and so do Normalizer.MapItemData and FieldProperties.GearSlots. On `{installedItems: {slots: 0}, slots: 3}` this reading gives 3, while `raw.installedItems?.slots ?? (raw.slots || 0)` gives 0. FieldProperties.CarriedSlotsReadings states only what holds under both groupings.
- An idempotence property (importing the same payload twice gives the same world) is not modelled. The store model is a call log, and the importer never looks up existing documents, so a second import makes its calls again.

## Behaviour of the code worth knowing

The model follows the code on these points, some of which a reader might not expect:

- `mapItemData` can leave fields undefined: the weapon's rof, damage, handsReq and weaponSkill, and the copied fields of programs, architectures, critical injuries and skills (NormalizerProperties.WeaponUndefinedFields and the lemmas after it).
- The weapon branch can throw a TypeError on a record whose `ammoType` or `weaponType` is not a string (FieldProperties.WeaponFailsExactly).
- The universal description, category and quality need a truthy input, not merely a present one (NormalizerProperties.UniversalFieldsSpec).
- Weapon fields are nested under `system.weapon`.
- An actor given a `role` string, as its own role, also has that string read as the `role` group of sub-items. The import of that actor then throws after the actor is created (ImporterProperties.RoleStringStopsActor).
- Validation runs its checks in the code's order, and the first failing check decides the message.
