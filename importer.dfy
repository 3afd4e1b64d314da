/** `createItemDocument` and `processImportPayload` of
    scripts/whale-importer.js. Each record of a payload is validated and
    then turned into calls on the document store: an item is created with
    the system object `mapItemData` builds; an actor is created with its
    stats, role and reputation, its sub-items are collected from the
    record's groups and embedded in one call, and its skills are written in
    a last update; a roll table is created from its name, image and
    results. The first throw ends the whole batch.

    The functions below say which calls a record produces; the methods are
    the loops of the source, each proved to produce exactly those calls. */
module Importer {
  import opened Js
  import opened Wrappers
  import opened Validator
  import opened Normalizer
  import opened Documents

  // ---------------------------------------------------------------------
  // Sub-items of an actor record.
  // ---------------------------------------------------------------------

  /** An entry of the local `items` list: its tag (the future item type),
      name, raw data and image. */
  datatype SubItem = SubItem(tag: string, name: Json, data: Json, img: Json)

  /** The groups read after the weapons and the armor, in this order. */
  const GroupKeys: seq<string> :=
    ["gear", "cyberware", "upgrades", "programs", "architecture", "vehicle",
     "clothing", "critical", "skill", "role", "cyberdeck", "ammo"]

  /** `acc` followed by the items of `r`, or the error of `r`. */
  function Prepend<T>(acc: seq<T>, r: Result<seq<T>, Thrown>): Result<seq<T>, Thrown> {
    match r
    case Err(e) => Err(e)
    case Ok(xs) => Ok(acc + xs)
  }

  /** Prepending is associative, and prepending nothing changes nothing. */
  lemma PrependJoin<T>(a: seq<T>, b: seq<T>, r: Result<seq<T>, Thrown>)
    ensures Prepend(a, Prepend(b, r)) == Prepend(a + b, r)
    ensures Prepend([], r) == r
    ensures Prepend(a, Ok([])) == Ok(a)
  {
    if r.Ok? { assert a + (b + r.value) == a + b + r.value; assert [] + r.value == r.value; }
    assert a + [] == a;
  }

  /** The sub-item pushed for one element `x` of a group. Weapons are named
      `x.name`, the other groups `x.name || x`; reading `name` of null or
      undefined throws. */
  function Element(tag: string, fallback: bool, x: Json): Result<SubItem, Thrown> {
    if Nullish(x) then Err(TypeError(ReadOfNullish("name")))
    else
      var name := if fallback then Or(Get(x, "name"), x) else Get(x, "name");
      Ok(SubItem(tag, name, x, Get(x, "img")))
  }

  /** `xs.forEach(x => items.push(…))`: the elements' sub-items in order,
      or the throw of the first element that cannot be read. */
  function Elements(tag: string, fallback: bool, xs: seq<Json>): Result<seq<SubItem>, Thrown>
    decreases |xs|
  {
    if xs == [] then Ok([])
    else
      match Element(tag, fallback, xs[0])
      case Err(e) => Err(e)
      case Ok(s) => Prepend([s], Elements(tag, fallback, xs[1..]))
  }

  /** `(v || []).forEach(…)`: nothing for a falsy value, the elements of an
      array, and a TypeError for any other truthy value, which has no
      `forEach` method. */
  function Group(tag: string, fallback: bool, v: Json): Result<seq<SubItem>, Thrown> {
    if !Truthy(v) then Ok([])
    else if v.JArr? then Elements(tag, fallback, v.items)
    else Err(TypeError(NotAFunction("forEach")))
  }

  /** The armor sub-item, pushed only when the record's `armor` is truthy. */
  function ArmorItems(d: Json): seq<SubItem> {
    var a := Get(d, "armor");
    if Truthy(a) then [SubItem("armor", Get(a, "name"), a, Get(a, "img"))] else []
  }

  /** The key at position `i` of `GroupKeys`. */
  function GroupKeyAt(i: nat): string
    requires i < 12
  {
    match i
    case 0 => "gear" case 1 => "cyberware" case 2 => "upgrades" case 3 => "programs"
    case 4 => "architecture" case 5 => "vehicle" case 6 => "clothing" case 7 => "critical"
    case 8 => "skill" case 9 => "role" case 10 => "cyberdeck" case _ => "ammo"
  }

  /** `GroupKeyAt` walks `GroupKeys`. */
  lemma GroupKeysListed(i: nat)
    requires i < 12
    ensures |GroupKeys| == 12 && GroupKeys[i] == GroupKeyAt(i)
  {
  }

  /** The groups from position `i` of `GroupKeys` on, each tagged with its
      key, in key order. */
  function KeyedItems(d: Json, i: nat): Result<seq<SubItem>, Thrown>
    requires i <= 12
    decreases 12 - i
  {
    if i == 12 then Ok([])
    else
      var key := GroupKeyAt(i);
      match Group(key, true, Get(d, key))
      case Err(e) => Err(e)
      case Ok(g) => Prepend(g, KeyedItems(d, i + 1))
  }

  /** All sub-items of an actor record: weapons, then armor, then the other
      groups in the order of `GroupKeys`. */
  function ActorItems(d: Json): Result<seq<SubItem>, Thrown> {
    match Group("weapon", false, Get(d, "weapons"))
    case Err(e) => Err(e)
    case Ok(ws) => Prepend(ws + ArmorItems(d), KeyedItems(d, 0))
  }

  // ---------------------------------------------------------------------
  // Item documents.
  // ---------------------------------------------------------------------

  /** A function from an item type and raw item data to a system object,
      or the error it throws. The loop below is written over such a mapper;
      `SystemData` is the one the importer uses. */
  type Mapper = (Json, Json) -> Result<Fields, Thrown>

  /** `mapItemData(type, data || {})`. */
  function SystemData(subtype: Json, data: Json): Result<Fields, Thrown> {
    MapItemData(subtype, Or(data, JObj(map[])))
  }

  /** The item document `{name, type, system, img}`. */
  function ItemDoc(name: Json, subtype: Json, sys: Fields, img: Json): Json {
    JObj(map["name" := name, "type" := subtype, "system" := JObj(sys), "img" := img])
  }

  /** The embedded document built from one sub-item. */
  function EmbeddedDoc(norm: Mapper, i: SubItem): Result<Json, Thrown> {
    match norm(JStr(i.tag), i.data)
    case Err(e) => Err(e)
    case Ok(sys) => Ok(ItemDoc(i.name, JStr(i.tag), sys, i.img))
  }

  /** `items.map(…)`: the embedded documents in order, or the first throw. */
  function EmbeddedDocs(norm: Mapper, items: seq<SubItem>): Result<seq<Json>, Thrown>
    decreases |items|
  {
    if items == [] then Ok([])
    else
      match EmbeddedDoc(norm, items[0])
      case Err(e) => Err(e)
      case Ok(doc) => Prepend([doc], EmbeddedDocs(norm, items[1..]))
  }

  // ---------------------------------------------------------------------
  // What a record does to the store.
  // ---------------------------------------------------------------------

  /** The calls a record makes, and how its import ends. */
  datatype Run = Run(calls: seq<Call>, outcome: Outcome<Thrown>)

  /** `createItemDocument`: the system object is built before the create
      call, so a throw there creates nothing. */
  function ItemRun(norm: Mapper, entry: Json): Run {
    var subtype := Get(entry, "type");
    match norm(subtype, Get(entry, "data"))
    case Err(e) => Run([], Fail(e))
    case Ok(sys) => Run([ItemCreated(ItemDoc(Get(entry, "name"), subtype, sys, Get(entry, "img")))], Pass)
  }

  /** The actor document: name, type, image, and a system object holding
      the record's stats and role and its reputation, 0 when falsy. */
  function ActorDoc(entry: Json, d: Json): Json {
    var sys := map["stats" := Get(d, "stats"), "role" := Get(d, "role"),
                   "reputation" := Or(Get(d, "reputation"), JNum(0))];
    JObj(map["name" := Get(entry, "name"), "type" := Get(entry, "type"),
             "system" := JObj(sys), "img" := Get(entry, "img")])
  }

  /** The skills patch `{'system.skills': skills}`. */
  function SkillsPatch(skills: Json): Json {
    JObj(map["system.skills" := skills])
  }

  /** What follows the creation of the actor at position `actor`: the
      embedding of its sub-items, then the skills update when the record
      has skills. A throw while collecting or mapping the sub-items stops
      before anything is embedded. */
  function ActorTail(norm: Mapper, d: Json, actor: nat): Run {
    match ActorItems(d)
    case Err(e) => Run([], Fail(e))
    case Ok(items) =>
      match EmbeddedDocs(norm, items)
      case Err(e) => Run([], Fail(e))
      case Ok(docs) =>
        var skills := Get(d, "skills");
        if Truthy(skills) then Run([ItemsEmbedded(actor, docs), ActorUpdated(actor, SkillsPatch(skills))], Pass)
        else Run([ItemsEmbedded(actor, docs)], Pass)
  }

  /** The actor branch, for an actor that will be at position `actor` of
      the log. Reading `stats` of a missing `data` throws before anything
      is created. */
  function ActorRun(norm: Mapper, entry: Json, actor: nat): Run {
    var d := Get(entry, "data");
    if Nullish(d) then Run([], Fail(TypeError(ReadOfNullish("stats"))))
    else
      var tail := ActorTail(norm, d, actor);
      Run([ActorCreated(ActorDoc(entry, d), false)] + tail.calls, tail.outcome)
  }

  /** The roll table document `{name, img, results}`. */
  function TableDoc(entry: Json): Json {
    JObj(map["name" := Get(entry, "name"), "img" := Get(entry, "img"), "results" := Get(entry, "results")])
  }

  /** One iteration of the payload loop, when the log holds `base` calls. */
  function EntryRun(norm: Mapper, entry: Json, base: nat): Run {
    match ValidateEntity(entry)
    case Fail(e) => Run([], Fail(e))
    case Pass =>
      var kind := Get(entry, "entityType");
      if kind == JStr("Item") then ItemRun(norm, entry)
      else if kind == JStr("Actor") then ActorRun(norm, entry, base)
      else if kind == JStr("RollTable") then Run([RollTableCreated(TableDoc(entry))], Pass)
      else Run([], Pass)
  }

  /** The whole loop: each record's calls in turn, up to the first throw. */
  function ImportRun(norm: Mapper, entries: seq<Json>, base: nat): Run
    decreases |entries|, 1
  {
    if entries == [] then Run([], Pass)
    else ThenImport(norm, EntryRun(norm, entries[0], base), entries[1..], base)
  }

  /** The first record's run `first`, then, unless it threw, the rest. */
  function ThenImport(norm: Mapper, first: Run, rest: seq<Json>, base: nat): Run
    decreases |rest|, 2
  {
    if first.outcome.Fail? then first
    else
      var after := ImportRun(norm, rest, base + |first.calls|);
      Run(first.calls + after.calls, after.outcome)
  }

  // ---------------------------------------------------------------------
  // The loops.
  // ---------------------------------------------------------------------

  /** `(v || []).forEach(x => items.push(…))`. */
  method CollectGroup(tag: string, fallback: bool, v: Json) returns (r: Result<seq<SubItem>, Thrown>)
    ensures r == Group(tag, fallback, v)
  {
    if !Truthy(v) { return Ok([]); }
    if !v.JArr? { return Err(TypeError(NotAFunction("forEach"))); }
    var xs := v.items;
    var items: seq<SubItem> := [];
    var i := 0;
    assert xs[0..] == xs;
    PrependJoin([], [], Elements(tag, fallback, xs));
    while i < |xs|
      invariant 0 <= i <= |xs|
      invariant Elements(tag, fallback, xs) == Prepend(items, Elements(tag, fallback, xs[i..]))
    {
      assert xs[i..][1..] == xs[i + 1..];
      var x := xs[i];
      if Nullish(x) { return Err(TypeError(ReadOfNullish("name"))); }
      var name := if fallback then Or(Get(x, "name"), x) else Get(x, "name");
      var s := SubItem(tag, name, x, Get(x, "img"));
      PrependJoin(items, [s], Elements(tag, fallback, xs[i + 1..]));
      items := items + [s];
      i := i + 1;
    }
    assert xs[i..] == [];
    PrependJoin(items, [], Ok([]));
    return Ok(items);
  }

  /** `keys.forEach(key => (d[key] || []).forEach(…))`. */
  method CollectKeyedGroups(d: Json) returns (r: Result<seq<SubItem>, Thrown>)
    ensures r == KeyedItems(d, 0)
  {
    var keys := GroupKeys;
    var items: seq<SubItem> := [];
    var j := 0;
    PrependJoin([], [], KeyedItems(d, 0));
    while j < |keys|
      invariant 0 <= j <= |keys| == 12
      invariant KeyedItems(d, 0) == Prepend(items, KeyedItems(d, j))
    {
      GroupKeysListed(j);
      var group := CollectGroup(keys[j], true, Get(d, keys[j]));
      KeyedItemsStep(d, j);
      if group.Err? { return Err(group.error); }
      PrependJoin(items, group.value, KeyedItems(d, j + 1));
      items := items + group.value;
      j := j + 1;
    }
    PrependJoin(items, [], Ok([]));
    return Ok(items);
  }

  /** One step of `KeyedItems`: the group at `i`, then the rest. */
  lemma KeyedItemsStep(d: Json, i: nat)
    requires i < 12
    ensures var g := Group(GroupKeyAt(i), true, Get(d, GroupKeyAt(i)));
      && (g.Err? ==> KeyedItems(d, i) == Err(g.error))
      && (g.Ok? ==> KeyedItems(d, i) == Prepend(g.value, KeyedItems(d, i + 1)))
  {
  }

  /** The item collection of the actor branch. */
  method CollectActorItems(d: Json) returns (r: Result<seq<SubItem>, Thrown>)
    ensures r == ActorItems(d)
  {
    var weapons := CollectGroup("weapon", false, Get(d, "weapons"));
    if weapons.Err? { return Err(weapons.error); }
    var items := weapons.value;
    var armor := Get(d, "armor");
    if Truthy(armor) {
      items := items + [SubItem("armor", Get(armor, "name"), armor, Get(armor, "img"))];
    }
    var rest := CollectKeyedGroups(d);
    if rest.Err? { return Err(rest.error); }
    assert items == weapons.value + ArmorItems(d);
    return Ok(items + rest.value);
  }

  /** `items.map(i => ({…, system: mapItemData(i.type, i.data || {}), …}))`. */
  method EmbedDocuments(norm: Mapper, items: seq<SubItem>) returns (r: Result<seq<Json>, Thrown>)
    ensures r == EmbeddedDocs(norm, items)
  {
    var docs: seq<Json> := [];
    var i := 0;
    assert items[0..] == items;
    PrependJoin([], [], EmbeddedDocs(norm, items));
    while i < |items|
      invariant 0 <= i <= |items|
      invariant EmbeddedDocs(norm, items) == Prepend(docs, EmbeddedDocs(norm, items[i..]))
    {
      assert items[i..][1..] == items[i + 1..];
      var sys := norm(JStr(items[i].tag), items[i].data);
      if sys.Err? { return Err(sys.error); }
      var doc := ItemDoc(items[i].name, JStr(items[i].tag), sys.value, items[i].img);
      PrependJoin(docs, [doc], EmbeddedDocs(norm, items[i + 1..]));
      docs := docs + [doc];
      i := i + 1;
    }
    assert items[i..] == [];
    PrependJoin(docs, [], Ok([]));
    return Ok(docs);
  }

  /** `createItemDocument(e)`. */
  method CreateItemDocument(repo: Repository, norm: Mapper, entry: Json) returns (r: Outcome<Thrown>)
    modifies repo
    ensures repo.trace == old(repo.trace) + ItemRun(norm, entry).calls
    ensures r == ItemRun(norm, entry).outcome
  {
    var subtype := Get(entry, "type");
    var sys := norm(subtype, Get(entry, "data"));
    if sys.Err? { return Fail(sys.error); }
    var _ := repo.CreateItem(ItemDoc(Get(entry, "name"), subtype, sys.value, Get(entry, "img")));
    return Pass;
  }

  /** The actor branch of the payload loop. */
  method ImportActor(repo: Repository, norm: Mapper, entry: Json) returns (r: Outcome<Thrown>)
    modifies repo
    ensures repo.trace == old(repo.trace) + ActorRun(norm, entry, |old(repo.trace)|).calls
    ensures r == ActorRun(norm, entry, |old(repo.trace)|).outcome
  {
    var d := Get(entry, "data");
    if Nullish(d) { return Fail(TypeError(ReadOfNullish("stats"))); }
    var actor := repo.CreateActor(ActorDoc(entry, d), false);
    r := EmbedActorItems(repo, norm, d, actor);
  }

  /** The sub-items and skills of the actor at position `actor`. */
  method EmbedActorItems(repo: Repository, norm: Mapper, d: Json, actor: nat) returns (r: Outcome<Thrown>)
    modifies repo
    ensures repo.trace == old(repo.trace) + ActorTail(norm, d, actor).calls
    ensures r == ActorTail(norm, d, actor).outcome
  {
    var items := CollectActorItems(d);
    if items.Err? { return Fail(items.error); }
    var docs := EmbedDocuments(norm, items.value);
    if docs.Err? { return Fail(docs.error); }
    repo.CreateEmbeddedDocuments(actor, docs.value);
    var skills := Get(d, "skills");
    if Truthy(skills) {
      repo.Update(actor, SkillsPatch(skills));
    }
    return Pass;
  }

  /** One iteration of the payload loop. */
  method ImportEntry(repo: Repository, norm: Mapper, entry: Json) returns (r: Outcome<Thrown>)
    modifies repo
    ensures repo.trace == old(repo.trace) + EntryRun(norm, entry, |old(repo.trace)|).calls
    ensures r == EntryRun(norm, entry, |old(repo.trace)|).outcome
  {
    var valid := ValidateEntity(entry);
    if valid.Fail? { return valid; }
    var kind := Get(entry, "entityType");
    if kind == JStr("Item") {
      r := CreateItemDocument(repo, norm, entry);
    } else if kind == JStr("Actor") {
      r := ImportActor(repo, norm, entry);
    } else if kind == JStr("RollTable") {
      var _ := repo.CreateRollTable(TableDoc(entry));
      r := Pass;
    } else {
      r := Pass;
    }
  }

  /** The payload loop over the mapper `norm`: every record in turn,
      stopping at the first throw. */
  method ImportPayload(repo: Repository, norm: Mapper, raw: Json) returns (r: Outcome<Thrown>)
    modifies repo
    ensures repo.trace == old(repo.trace) + ImportRun(norm, AsList(raw), |old(repo.trace)|).calls
    ensures r == ImportRun(norm, AsList(raw), |old(repo.trace)|).outcome
  {
    var rest := AsList(raw);
    ghost var whole := ImportRun(norm, rest, |repo.trace|);
    while rest != []
      invariant old(repo.trace) + whole.calls == repo.trace + ImportRun(norm, rest, |repo.trace|).calls
      invariant whole.outcome == ImportRun(norm, rest, |repo.trace|).outcome
      decreases |rest|
    {
      ghost var before := repo.trace;
      var o := ImportEntry(repo, norm, rest[0]);
      ghost var first := EntryRun(norm, rest[0], |before|);
      if o.Fail? {
        ImportRunFails(norm, rest, |before|);
        return o;
      }
      ghost var n := |repo.trace|;
      assert n == |before| + |first.calls|;
      ImportRunContinues(norm, rest, |before|, first);
      ghost var after := ImportRun(norm, rest[1..], n);
      AppendStep(old(repo.trace) + whole.calls, before, ImportRun(norm, rest, |before|).calls, first.calls, after.calls, repo.trace);
      rest := rest[1..];
    }
    return Pass;
  }

  /** A batch whose first record throws ends with that record's run. */
  lemma ImportRunFails(norm: Mapper, entries: seq<Json>, base: nat)
    requires entries != [] && EntryRun(norm, entries[0], base).outcome.Fail?
    ensures ImportRun(norm, entries, base) == EntryRun(norm, entries[0], base)
  {
  }

  /** Otherwise the rest of the batch follows once the first record's calls
      are in the log. */
  lemma ImportRunContinues(norm: Mapper, entries: seq<Json>, base: nat, first: Run)
    requires entries != [] && first == EntryRun(norm, entries[0], base) && first.outcome == Pass
    ensures ImportRun(norm, entries, base).calls == first.calls + ImportRun(norm, entries[1..], base + |first.calls|).calls
    ensures ImportRun(norm, entries, base).outcome == ImportRun(norm, entries[1..], base + |first.calls|).outcome
  {
  }

  /** Splitting off the calls already made from a log. */
  lemma AppendStep<T>(all: seq<T>, before: seq<T>, run: seq<T>, first: seq<T>, after: seq<T>, now: seq<T>)
    requires all == before + run && run == first + after
    requires now == before + first
    ensures all == now + after
  {
  }

  /** `processImportPayload(raw)`, with the importer's own mapper. */
  method ProcessImportPayload(repo: Repository, raw: Json) returns (r: Outcome<Thrown>)
    modifies repo
    ensures repo.trace == old(repo.trace) + ImportRun(SystemData, AsList(raw), |old(repo.trace)|).calls
    ensures r == ImportRun(SystemData, AsList(raw), |old(repo.trace)|).outcome
  {
    r := ImportPayload(repo, SystemData, raw);
  }
}
