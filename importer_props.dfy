/** Properties of the import loop of scripts/whale-importer.js: what the
    groups of an actor record contribute, in which order, when a record
    throws and what it leaves behind, how a batch stops at its first
    failure, and two end-to-end records: the Glock item (a heavy pistol)
    and the Ganger actor with one knife. */
module ImporterProperties {
  import opened Js
  import opened Wrappers
  import opened Aliases
  import opened Validator
  import opened Normalizer
  import opened NormalizerProperties
  import opened FieldProperties
  import opened Documents
  import opened Importer

  // ---------------------------------------------------------------------
  // Groups and sub-items.
  // ---------------------------------------------------------------------

  /** A group's elements succeed exactly when none is null or undefined;
      then there is one sub-item per element, in order, carrying the
      element as its data. */
  lemma {:induction false} ElementsSpec(tag: string, fallback: bool, xs: seq<Json>)
    ensures Elements(tag, fallback, xs).Ok? <==> forall i :: 0 <= i < |xs| ==> !Nullish(xs[i])
    ensures Elements(tag, fallback, xs).Err? ==> Elements(tag, fallback, xs).error == TypeError(ReadOfNullish("name"))
    ensures Elements(tag, fallback, xs).Ok? ==>
      var items := Elements(tag, fallback, xs).value;
      && |items| == |xs|
      && forall i :: 0 <= i < |xs| ==> Element(tag, fallback, xs[i]) == Ok(items[i]) && items[i].tag == tag && items[i].data == xs[i]
    decreases |xs|
  {
    if xs != [] {
      ElementsSpec(tag, fallback, xs[1..]);
      forall i | 0 < i < |xs| ensures xs[i] == xs[1..][i - 1] { }
      if !Nullish(xs[0]) && Elements(tag, fallback, xs[1..]).Ok? {
        var rest := Elements(tag, fallback, xs[1..]).value;
        var items := Elements(tag, fallback, xs).value;
        assert items == [Element(tag, fallback, xs[0]).value] + rest;
        forall i | 0 < i < |xs| ensures items[i] == rest[i - 1] { }
      }
    }
  }

  /** `(v || []).forEach(…)` succeeds on a falsy value (with no item) and on
      an array without null or undefined elements; it throws a TypeError on
      any other value. Every sub-item of a group carries the group's tag. */
  lemma GroupSpec(tag: string, fallback: bool, v: Json)
    ensures !Truthy(v) ==> Group(tag, fallback, v) == Ok([])
    ensures Truthy(v) && !v.JArr? ==> Group(tag, fallback, v) == Err(TypeError(NotAFunction("forEach")))
    ensures Group(tag, fallback, v).Ok? <==>
      !Truthy(v) || (v.JArr? && forall i :: 0 <= i < |v.items| ==> !Nullish(v.items[i]))
    ensures Group(tag, fallback, v).Err? ==> Group(tag, fallback, v).error.TypeError?
    ensures Group(tag, fallback, v).Ok? ==> forall s :: s in Group(tag, fallback, v).value ==> s.tag == tag
  {
    if v.JArr? {
      ElementsSpec(tag, fallback, v.items);
    }
  }

  /** Where a tag comes in the actor's item list: weapons, armor, then the
      groups of `GroupKeys` in order. */
  function Rank(tag: string): nat {
    if tag == "weapon" then 0 else if tag == "armor" then 1 else 2 + KeyPos(tag, 0)
  }

  /** The position of `tag` in `GroupKeys` from `i` on, or 12. */
  function KeyPos(tag: string, i: nat): nat
    requires i <= 12
    decreases 12 - i
  {
    if i == 12 then 12 else if GroupKeyAt(i) == tag then i else KeyPos(tag, i + 1)
  }

  /** The keys are distinct and are neither "weapon" nor "armor", so each
      key's rank is its position plus two. */
  lemma RankOfKey(i: nat)
    requires i < 12
    ensures Rank(GroupKeyAt(i)) == 2 + i
  {
    var k := GroupKeyAt(i);
    assert k != "weapon" && k != "armor";
    KeyPosFrom(k, 0, i);
  }

  lemma {:induction false} KeyPosFrom(tag: string, j: nat, i: nat)
    requires j <= i < 12 && GroupKeyAt(i) == tag
    requires forall m :: j <= m < i ==> GroupKeyAt(m) != GroupKeyAt(i)
    ensures KeyPos(tag, j) == i
    decreases i - j
  {
    if j < i {
      KeyPosFrom(tag, j + 1, i);
    }
  }

  /** A list of sub-items whose ranks never decrease. */
  predicate Ordered(items: seq<SubItem>) {
    forall a, b :: 0 <= a < b < |items| ==> Rank(items[a].tag) <= Rank(items[b].tag)
  }

  /** The groups from position `i` on: ordered, each of rank at least
      2 + i, and failing only with a TypeError. */
  lemma {:induction false} KeyedItemsOrdered(d: Json, i: nat)
    requires i <= 12
    ensures KeyedItems(d, i).Err? ==> KeyedItems(d, i).error.TypeError?
    ensures KeyedItems(d, i).Ok? ==>
      Ordered(KeyedItems(d, i).value) &&
      forall s :: s in KeyedItems(d, i).value ==> Rank(s.tag) >= 2 + i
    decreases 12 - i
  {
    if i < 12 {
      var key := GroupKeyAt(i);
      GroupSpec(key, true, Get(d, key));
      KeyedItemsOrdered(d, i + 1);
      if KeyedItems(d, i).Ok? {
        RankOfKey(i);
        var g := Group(key, true, Get(d, key)).value;
        var rest := KeyedItems(d, i + 1).value;
        assert KeyedItems(d, i).value == g + rest;
        SortedJoin(g, rest, 2 + i);
      }
    }
  }

  /** A block of one rank `r` followed by an ordered list of ranks above
      `r` is ordered, and all its ranks are at least `r`. */
  lemma SortedJoin(g: seq<SubItem>, rest: seq<SubItem>, r: nat)
    requires forall s :: s in g ==> Rank(s.tag) == r
    requires Ordered(rest) && forall s :: s in rest ==> Rank(s.tag) >= r + 1
    ensures Ordered(g + rest) && forall s :: s in g + rest ==> Rank(s.tag) >= r
  {
    var all := g + rest;
    forall a, b | 0 <= a < b < |all| ensures Rank(all[a].tag) <= Rank(all[b].tag) {
      if b < |g| {
        assert all[a] in g && all[b] in g;
      } else if a < |g| {
        assert all[a] in g && all[b] == rest[b - |g|] && rest[b - |g|] in rest;
      } else {
        assert all[a] == rest[a - |g|] && all[b] == rest[b - |g|];
      }
    }
  }

  /** An actor's sub-items come weapons first, then the armor, then the
      groups in key order; a failure to collect them is always a
      TypeError. */
  lemma ActorItemsOrdered(d: Json)
    ensures ActorItems(d).Ok? ==> Ordered(ActorItems(d).value)
    ensures ActorItems(d).Err? ==> ActorItems(d).error.TypeError?
  {
    var weapons := Group("weapon", false, Get(d, "weapons"));
    GroupSpec("weapon", false, Get(d, "weapons"));
    KeyedItemsOrdered(d, 0);
    if weapons.Ok? && KeyedItems(d, 0).Ok? {
      var ws, ks := weapons.value, KeyedItems(d, 0).value;
      assert ActorItems(d) == Ok(ws + ArmorItems(d) + ks);
      ThreeBlocks(ws, ArmorItems(d), ks);
    }
  }

  /** Weapons, then armor, then keyed groups in order, are ordered. */
  lemma ThreeBlocks(ws: seq<SubItem>, armor: seq<SubItem>, ks: seq<SubItem>)
    requires forall s :: s in ws ==> s.tag == "weapon"
    requires forall s :: s in armor ==> s.tag == "armor"
    requires Ordered(ks) && forall s :: s in ks ==> Rank(s.tag) >= 2
    ensures Ordered(ws + armor + ks)
  {
    assert Rank("weapon") == 0 && Rank("armor") == 1;
    SortedJoin(armor, ks, 1);
    SortedJoin(ws, armor + ks, 0);
    assert ws + armor + ks == ws + (armor + ks);
  }

  /** The groups from position `i` on fail as soon as one group fails. */
  lemma {:induction false} KeyedItemsFail(d: Json, i: nat, j: nat)
    requires i <= j < 12
    requires Group(GroupKeyAt(j), true, Get(d, GroupKeyAt(j))).Err?
    ensures KeyedItems(d, i).Err?
    decreases j - i
  {
    if i < j {
      KeyedItemsFail(d, i + 1, j);
    }
  }

  /** A record with none of the groups set has no keyed sub-items. */
  lemma {:induction false} KeyedItemsNone(d: Json, i: nat)
    requires i <= 12
    requires forall j :: i <= j < 12 ==> !Truthy(Get(d, GroupKeyAt(j)))
    ensures KeyedItems(d, i) == Ok([])
    decreases 12 - i
  {
    if i < 12 {
      KeyedItemsNone(d, i + 1);
      var key := GroupKeyAt(i);
      assert Group(key, true, Get(d, key)) == Ok([]);
      var none: seq<SubItem> := [];
      assert none + none == none;
    }
  }

  // ---------------------------------------------------------------------
  // Embedded documents.
  // ---------------------------------------------------------------------

  /** Mapping the sub-items succeeds exactly when the mapper succeeds on
      each of them; then there is one document per sub-item, in order. A
      failure is the mapper's throw on the first sub-item it fails on. */
  lemma {:induction false} EmbeddedDocsSpec(norm: Mapper, items: seq<SubItem>)
    ensures EmbeddedDocs(norm, items).Ok? <==>
      forall i :: 0 <= i < |items| ==> EmbeddedDoc(norm, items[i]).Ok?
    ensures EmbeddedDocs(norm, items).Ok? ==>
      var docs := EmbeddedDocs(norm, items).value;
      |docs| == |items| && forall i :: 0 <= i < |items| ==> EmbeddedDoc(norm, items[i]) == Ok(docs[i])
    ensures EmbeddedDocs(norm, items).Err? ==>
      exists i :: 0 <= i < |items| && EmbeddedDoc(norm, items[i]) == Err(EmbeddedDocs(norm, items).error) &&
        forall j :: 0 <= j < i ==> EmbeddedDoc(norm, items[j]).Ok?
    decreases |items|
  {
    if items != [] {
      EmbeddedDocsSpec(norm, items[1..]);
      forall i | 0 < i < |items| ensures items[i] == items[1..][i - 1] { }
      if EmbeddedDoc(norm, items[0]).Err? {
        assert EmbeddedDoc(norm, items[0]) == Err(EmbeddedDocs(norm, items).error);
      } else if EmbeddedDocs(norm, items[1..]).Ok? {
        var rest := EmbeddedDocs(norm, items[1..]).value;
        var docs := EmbeddedDocs(norm, items).value;
        assert docs == [EmbeddedDoc(norm, items[0]).value] + rest;
        forall i | 0 < i < |items| ensures docs[i] == rest[i - 1] { }
      } else {
        var k :| 0 <= k < |items[1..]| && EmbeddedDoc(norm, items[1..][k]) == Err(EmbeddedDocs(norm, items).error) &&
          forall j :: 0 <= j < k ==> EmbeddedDoc(norm, items[1..][j]).Ok?;
        assert items[k + 1] == items[1..][k];
        forall j | 0 <= j < k + 1 ensures EmbeddedDoc(norm, items[j]).Ok? {
          if j > 0 { assert items[j] == items[1..][j - 1]; }
        }
      }
    }
  }

  /** The sub-items of the plural groups `upgrades` and `programs` match no
      case of the mapper, so they get the universal fields only. */
  lemma PluralGroupsUniversalOnly(name: Json, data: Json, img: Json)
    ensures EmbeddedDoc(SystemData, SubItem("upgrades", name, data, img)) ==
      Ok(ItemDoc(name, JStr("upgrades"), UniversalFields(Or(data, JObj(map[]))), img))
    ensures EmbeddedDoc(SystemData, SubItem("programs", name, data, img)) ==
      Ok(ItemDoc(name, JStr("programs"), UniversalFields(Or(data, JObj(map[]))), img))
  {
    PluralActorTagsUniversalOnly(Or(data, JObj(map[])));
  }

  // ---------------------------------------------------------------------
  // One record.
  // ---------------------------------------------------------------------

  /** A record that fails validation makes no call. */
  lemma InvalidRecordCreatesNothing(norm: Mapper, entry: Json, base: nat)
    requires ValidateEntity(entry).Fail?
    ensures EntryRun(norm, entry, base) == Run([], ValidateEntity(entry))
  {
  }

  /** A record that completes has passed validation; a record makes at
      most three calls; and a record that throws after a call is an actor
      whose only call is its own creation. */
  lemma EntryRunShape(norm: Mapper, entry: Json, base: nat)
    ensures EntryRun(norm, entry, base).outcome == Pass ==> ValidateEntity(entry) == Pass
    ensures |EntryRun(norm, entry, base).calls| <= 3
    ensures EntryRun(norm, entry, base).outcome.Fail? && EntryRun(norm, entry, base).calls != [] ==>
      Get(entry, "entityType") == JStr("Actor") && !Nullish(Get(entry, "data")) &&
      EntryRun(norm, entry, base).calls == [ActorCreated(ActorDoc(entry, Get(entry, "data")), false)]
  {
  }

  /** An item record creates one item whose system object is the mapper's
      result on its type and data, or nothing when the mapper throws. */
  lemma ItemRecord(norm: Mapper, entry: Json, base: nat)
    requires ValidateEntity(entry) == Pass && Get(entry, "entityType") == JStr("Item")
    ensures var sys := norm(Get(entry, "type"), Get(entry, "data"));
      && (sys.Err? ==> EntryRun(norm, entry, base) == Run([], Fail(sys.error)))
      && (sys.Ok? ==>
            EntryRun(norm, entry, base) ==
            Run([ItemCreated(ItemDoc(Get(entry, "name"), Get(entry, "type"), sys.value, Get(entry, "img")))], Pass))
  {
  }

  /** A roll table record creates one table from its name, image and
      results. */
  lemma RollTableRecord(norm: Mapper, entry: Json, base: nat)
    requires ValidateEntity(entry) == Pass && Get(entry, "entityType") == JStr("RollTable")
    ensures EntryRun(norm, entry, base) == Run([RollTableCreated(TableDoc(entry))], Pass)
  {
  }

  /** An actor record without `data` throws before anything is created. */
  lemma ActorWithoutData(norm: Mapper, entry: Json, base: nat)
    requires ValidateEntity(entry) == Pass && Get(entry, "entityType") == JStr("Actor")
    requires Nullish(Get(entry, "data"))
    ensures EntryRun(norm, entry, base) == Run([], Fail(TypeError(ReadOfNullish("stats"))))
  {
  }

  /** What follows an actor's creation: nothing when it throws; otherwise
      one embed call on that actor, then the skills update exactly when the
      record has skills. */
  lemma ActorTailShape(norm: Mapper, d: Json, actor: nat)
    ensures var tail := ActorTail(norm, d, actor);
      && (tail.outcome == Pass <==> tail.calls != [])
      && (tail.calls != [] ==> tail.calls[0].ItemsEmbedded? && tail.calls[0].actor == actor)
      && (|tail.calls| == 2 <==> tail.outcome == Pass && Truthy(Get(d, "skills")))
      && (|tail.calls| == 2 ==> tail.calls[1] == ActorUpdated(actor, SkillsPatch(Get(d, "skills"))))
      && |tail.calls| <= 2
  {
  }

  /** The actor document keeps the record's stats and role, and its
      reputation, with 0 for a falsy one. */
  lemma ActorDocSystem(entry: Json, d: Json)
    ensures var sys := Get(ActorDoc(entry, d), "system");
      && Get(sys, "stats") == Get(d, "stats") && Get(sys, "role") == Get(d, "role")
      && (Truthy(Get(d, "reputation")) ==> Get(sys, "reputation") == Get(d, "reputation"))
      && (!Truthy(Get(d, "reputation")) ==> Get(sys, "reputation") == JNum(0))
    ensures Get(ActorDoc(entry, d), "name") == Get(entry, "name") && Get(ActorDoc(entry, d), "type") == Get(entry, "type")
  {
  }

  /** An actor record with `data` is created first, not rendered; every
      later call is on that actor; it completes exactly when its items are
      embedded, and its skills are written exactly when it completes with
      skills. */
  lemma ActorRecord(norm: Mapper, entry: Json, base: nat)
    requires ValidateEntity(entry) == Pass && Get(entry, "entityType") == JStr("Actor")
    requires !Nullish(Get(entry, "data"))
    ensures var d := Get(entry, "data"); var run := EntryRun(norm, entry, base);
      && |run.calls| >= 1
      && run.calls[0] == ActorCreated(ActorDoc(entry, d), false)
      && (forall i :: 1 <= i < |run.calls| ==> OnActor(run.calls[i]) && run.calls[i].actor == base)
      && (run.outcome == Pass <==> |run.calls| >= 2 && run.calls[1].ItemsEmbedded?)
      && (|run.calls| == 3 <==> run.outcome == Pass && Truthy(Get(d, "skills")))
      && (|run.calls| == 3 ==> run.calls[2] == ActorUpdated(base, SkillsPatch(Get(d, "skills"))))
  {
    var d := Get(entry, "data");
    var tail := ActorTail(norm, d, base);
    assert EntryRun(norm, entry, base) == ActorRun(norm, entry, base);
    var run := EntryRun(norm, entry, base);
    assert run.calls == [ActorCreated(ActorDoc(entry, d), false)] + tail.calls && run.outcome == tail.outcome;
    ActorTailShape(norm, d, base);
    forall i | 1 <= i < |run.calls| ensures run.calls[i] == tail.calls[i - 1] { }
  }

  /** Every call a record makes on an actor comes after that record's
      creation of the actor, which is at position `base`. */
  lemma EntryRunOnActor(norm: Mapper, entry: Json, base: nat)
    ensures var run := EntryRun(norm, entry, base);
      forall i :: 0 <= i < |run.calls| && OnActor(run.calls[i]) ==>
        0 < i && run.calls[0].ActorCreated? && run.calls[i].actor == base
  {
    if Get(entry, "entityType") == JStr("Actor") && ValidateEntity(entry) == Pass && !Nullish(Get(entry, "data")) {
      ActorRecord(norm, entry, base);
    }
  }

  /** A role given as a non-empty string (the actor's own role) is also read
      as a group of role items: it has no `forEach`, so the actor is
      created, nothing is embedded, and the record throws a TypeError. */
  lemma RoleStringStopsActor(norm: Mapper, entry: Json, base: nat)
    requires ValidateEntity(entry) == Pass && Get(entry, "entityType") == JStr("Actor")
    requires !Nullish(Get(entry, "data"))
    requires Get(Get(entry, "data"), "role").JStr? && Get(Get(entry, "data"), "role").s != ""
    ensures var d := Get(entry, "data"); var run := EntryRun(norm, entry, base);
      && run.calls == [ActorCreated(ActorDoc(entry, d), false)]
      && run.outcome.Fail? && run.outcome.error.TypeError?
      && Get(Get(ActorDoc(entry, d), "system"), "role") == Get(d, "role")
  {
    var d := Get(entry, "data");
    GroupSpec("role", true, Get(d, "role"));
    KeyedItemsFail(d, 0, 9);
    ActorItemsOrdered(d);
  }

  // ---------------------------------------------------------------------
  // The batch.
  // ---------------------------------------------------------------------

  /** Importing `xs + ys` is importing `xs`, then, unless that threw,
      importing `ys` after its calls. */
  lemma {:induction false} ImportRunConcat(norm: Mapper, xs: seq<Json>, ys: seq<Json>, base: nat)
    ensures ImportRun(norm, xs + ys, base) == ThenImport(norm, ImportRun(norm, xs, base), ys, base)
    decreases |xs|, 1
  {
    if xs == [] {
      assert xs + ys == ys;
      assert ThenImport(norm, Run([], Pass), ys, base).calls == [] + ImportRun(norm, ys, base).calls;
    } else {
      assert (xs + ys)[0] == xs[0] && (xs + ys)[1..] == xs[1..] + ys;
      ThenImportConcat(norm, EntryRun(norm, xs[0], base), xs[1..], ys, base);
    }
  }

  /** The same, after a first run `first`. */
  lemma {:induction false} ThenImportConcat(norm: Mapper, first: Run, xs: seq<Json>, ys: seq<Json>, base: nat)
    ensures ThenImport(norm, first, xs + ys, base) == ThenImport(norm, ThenImport(norm, first, xs, base), ys, base)
    decreases |xs|, 2
  {
    if first.outcome.Pass? {
      var base' := base + |first.calls|;
      ImportRunConcat(norm, xs, ys, base');
      var a := ImportRun(norm, xs, base');
      var m := ThenImport(norm, first, xs, base);
      assert m == Run(first.calls + a.calls, a.outcome);
      if a.outcome.Pass? {
        var b := ImportRun(norm, ys, base' + |a.calls|);
        assert ImportRun(norm, xs + ys, base') == Run(a.calls + b.calls, b.outcome);
        assert base + |m.calls| == base' + |a.calls|;
        assert ThenImport(norm, m, ys, base) == Run(m.calls + b.calls, b.outcome);
        assert first.calls + (a.calls + b.calls) == m.calls + b.calls;
      } else {
        assert ImportRun(norm, xs + ys, base') == a;
      }
    }
  }

  /** A record that throws ends the batch it starts. */
  lemma FailingHeadStops(norm: Mapper, e: Json, ys: seq<Json>, base: nat)
    requires EntryRun(norm, e, base).outcome.Fail?
    ensures ImportRun(norm, [e] + ys, base) == EntryRun(norm, e, base)
  {
    assert ([e] + ys)[0] == e;
  }

  /** The records after the first one that throws make no call: the batch
      keeps the calls made so far and ends with that record's throw. */
  lemma FirstFailureStops(norm: Mapper, xs: seq<Json>, e: Json, ys: seq<Json>, base: nat)
    requires ImportRun(norm, xs, base).outcome == Pass
    requires EntryRun(norm, e, base + |ImportRun(norm, xs, base).calls|).outcome.Fail?
    ensures var a := ImportRun(norm, xs, base); var f := EntryRun(norm, e, base + |a.calls|);
      ImportRun(norm, xs + [e] + ys, base) == Run(a.calls + f.calls, f.outcome)
  {
    var a := ImportRun(norm, xs, base);
    ImportRunConcat(norm, xs, [e] + ys, base);
    assert xs + [e] + ys == xs + ([e] + ys);
    FailingHeadStops(norm, e, ys, base + |a.calls|);
  }

  /** A payload whose first record is invalid makes no call at all. */
  lemma InvalidFirstRecordStopsAll(norm: Mapper, e: Json, ys: seq<Json>, base: nat)
    requires ValidateEntity(e).Fail?
    ensures ImportRun(norm, [e] + ys, base) == Run([], ValidateEntity(e))
  {
    FailingHeadStops(norm, e, ys, base);
  }

  /** Appending calls keeps the log well formed when every call on an
      actor among them names the first of them, an actor creation. */
  lemma AppendWellFormed(t: seq<Call>, calls: seq<Call>)
    requires WellFormedTrace(t)
    requires forall i :: 0 <= i < |calls| && OnActor(calls[i]) ==>
      0 < i && calls[0].ActorCreated? && calls[i].actor == |t|
    ensures WellFormedTrace(t + calls)
  {
    var all := t + calls;
    forall i | 0 <= i < |all| && OnActor(all[i]) ensures all[i].actor < i && all[all[i].actor].ActorCreated? {
      if i < |t| {
        assert all[i] == t[i] && all[t[i].actor] == t[t[i].actor];
      } else {
        assert all[i] == calls[i - |t|] && all[|t|] == calls[0];
      }
    }
  }

  /** One record keeps the log well formed: its embed and update calls name
      the actor it has just created. */
  lemma EntryRunWellFormed(norm: Mapper, t: seq<Call>, entry: Json)
    requires WellFormedTrace(t)
    ensures WellFormedTrace(t + EntryRun(norm, entry, |t|).calls)
  {
    EntryRunOnActor(norm, entry, |t|);
    AppendWellFormed(t, EntryRun(norm, entry, |t|).calls);
  }

  /** A whole batch keeps the log well formed. */
  lemma {:induction false} ImportRunWellFormed(norm: Mapper, t: seq<Call>, entries: seq<Json>)
    requires WellFormedTrace(t)
    ensures WellFormedTrace(t + ImportRun(norm, entries, |t|).calls)
    decreases |entries|, 1
  {
    if entries == [] {
      assert t + [] == t;
    } else {
      EntryRunWellFormed(norm, t, entries[0]);
      ThenImportWellFormed(norm, t, EntryRun(norm, entries[0], |t|), entries[1..]);
    }
  }

  /** The same, after a first run that keeps the log well formed. */
  lemma {:induction false} ThenImportWellFormed(norm: Mapper, t: seq<Call>, first: Run, rest: seq<Json>)
    requires WellFormedTrace(t + first.calls)
    ensures WellFormedTrace(t + ThenImport(norm, first, rest, |t|).calls)
    decreases |rest|, 2
  {
    if first.outcome.Pass? {
      var t' := t + first.calls;
      ImportRunWellFormed(norm, t', rest);
      var after := ImportRun(norm, rest, |t'|);
      assert t' + after.calls == t + (first.calls + after.calls);
    }
  }

  // ---------------------------------------------------------------------
  // The end-to-end records.
  // ---------------------------------------------------------------------

  /** The item record "Glock": a weapon with skill "HeavyPistol", rate of
      fire 2 and damage "2d6" creates one item of type "weapon" whose
      system object carries the weapon fields under `weapon`, with skill
      "Handgun" and the documented defaults. */
  lemma GlockRecord(entry: Json, base: nat, sys: Fields)
    requires Get(entry, "entityType") == JStr("Item") && Get(entry, "name") == JStr("Glock")
    requires Get(entry, "type") == JStr("weapon") && PistolFields(Get(entry, "data"))
    requires MapItemData(JStr("weapon"), Get(entry, "data")) == Ok(sys)
    ensures EntryRun(SystemData, entry, base) ==
      Run([ItemCreated(ItemDoc(JStr("Glock"), JStr("weapon"), sys, Get(entry, "img")))], Pass)
    ensures sys.Keys == {"weapon"}
    ensures At(sys, "weapon", "weaponSkill") == JStr("Handgun")
    ensures At(sys, "weapon", "rof") == JNum(2) && At(sys, "weapon", "damage") == JStr("2d6")
    ensures At(sys, "weapon", "equipped") == JStr("owned") && At(sys, "weapon", "usage") == JStr("equipped")
  {
    var data := Get(entry, "data");
    TypedRecordValid(entry);
    SystemDataOfRecord(JStr("weapon"), data);
    ItemRecord(SystemData, entry, base);
    WeaponFromPistolRecord(data, sys);
  }

  /** A named item or actor with a subtype passes validation. */
  lemma TypedRecordValid(entry: Json)
    requires Get(entry, "entityType") == JStr("Item") || Get(entry, "entityType") == JStr("Actor")
    requires Truthy(Get(entry, "name")) && Truthy(Get(entry, "type"))
    ensures ValidateEntity(entry) == Pass
  {
    ValidateEntityAccepts(entry);
  }

  /** A truthy record is mapped as it is. */
  lemma SystemDataOfRecord(subtype: Json, data: Json)
    requires Truthy(data)
    ensures SystemData(subtype, data) == MapItemData(subtype, data)
  {
  }

  /** A knife record: an object named "Knife" with skill "CombatKnife" and
      no weapon or ammunition type. */
  predicate KnifeFields(w: Json) {
    w.JObj? && Get(w, "name") == JStr("Knife") && Get(w, "skill") == JStr("CombatKnife")
    && Get(w, "ammoType") == JUndef && Get(w, "weaponType") == JUndef
  }

  /** The knife record cannot make the weapon case throw. */
  lemma KnifeRecordSucceeds(w: Json)
    requires KnifeFields(w)
    ensures SystemData(JStr("weapon"), w).Ok?
  {
    assert Or(w, JObj(map[])) == w;
    UntypedWeaponSucceeds(w);
  }

  /** The actor record "Ganger" with one knife and no other group: the actor
      is created, then exactly one embed call carries one weapon item whose
      skill is "Melee Weapon"; nothing else is called. */
  lemma GangerRecord(entry: Json, base: nat, w: Json, sys: Fields)
    requires Get(entry, "entityType") == JStr("Actor") && Get(entry, "name") == JStr("Ganger")
    requires Get(entry, "type") == JStr("mook")
    requires var d := Get(entry, "data");
      && d.JObj? && Get(d, "weapons") == JArr([w])
      && !Truthy(Get(d, "armor")) && !Truthy(Get(d, "skills"))
      && forall j :: 0 <= j < 12 ==> !Truthy(Get(d, GroupKeyAt(j)))
    requires KnifeFields(w)
    requires MapItemData(JStr("weapon"), w) == Ok(sys)
    ensures EntryRun(SystemData, entry, base) ==
      Run([ActorCreated(ActorDoc(entry, Get(entry, "data")), false),
           ItemsEmbedded(base, [ItemDoc(JStr("Knife"), JStr("weapon"), sys, Get(w, "img"))])], Pass)
    ensures At(sys, "weapon", "weaponSkill") == JStr("Melee Weapon")
  {
    SystemDataOfRecord(JStr("weapon"), w);
    GangerRun(SystemData, entry, base, w, sys);
    KnifeSkill(w, sys);
  }

  /** The ganger's calls, for any mapper that maps the knife to `sys`. */
  lemma GangerRun(norm: Mapper, entry: Json, base: nat, w: Json, sys: Fields)
    requires Get(entry, "entityType") == JStr("Actor") && Get(entry, "name") == JStr("Ganger")
    requires Get(entry, "type") == JStr("mook")
    requires var d := Get(entry, "data");
      && d.JObj? && Get(d, "weapons") == JArr([w])
      && !Truthy(Get(d, "armor")) && !Truthy(Get(d, "skills"))
      && forall j :: 0 <= j < 12 ==> !Truthy(Get(d, GroupKeyAt(j)))
    requires KnifeFields(w)
    requires norm(JStr("weapon"), w) == Ok(sys)
    ensures EntryRun(norm, entry, base) ==
      Run([ActorCreated(ActorDoc(entry, Get(entry, "data")), false),
           ItemsEmbedded(base, [ItemDoc(JStr("Knife"), JStr("weapon"), sys, Get(w, "img"))])], Pass)
  {
    var d := Get(entry, "data");
    TypedRecordValid(entry);
    assert EntryRun(norm, entry, base) == ActorRun(norm, entry, base);
    GangerItems(d, w);
    GangerEmbeds(norm, w, sys);
    var doc := ItemDoc(JStr("Knife"), JStr("weapon"), sys, Get(w, "img"));
    assert ActorTail(norm, d, base) == Run([ItemsEmbedded(base, [doc])], Pass);
  }

  /** The knife's skill "CombatKnife" is mapped to "Melee Weapon". */
  lemma KnifeSkill(w: Json, sys: Fields)
    requires KnifeFields(w)
    requires MapItemData(JStr("weapon"), w) == Ok(sys)
    ensures At(sys, "weapon", "weaponSkill") == JStr("Melee Weapon")
  {
    SkillAliasSpec(JStr("CombatKnife"));
    WeaponDerivedFields(w, sys);
  }

  lemma GangerItems(d: Json, w: Json)
    requires Get(d, "weapons") == JArr([w]) && !Truthy(Get(d, "armor"))
    requires forall j :: 0 <= j < 12 ==> !Truthy(Get(d, GroupKeyAt(j)))
    requires KnifeFields(w)
    ensures ActorItems(d) == Ok([SubItem("weapon", JStr("Knife"), w, Get(w, "img"))])
  {
    KeyedItemsNone(d, 0);
    var s := SubItem("weapon", JStr("Knife"), w, Get(w, "img"));
    assert [w][0] == w && [w][1..] == [];
    assert Element("weapon", false, w) == Ok(s);
    assert [s] + [] == [s];
    assert Elements("weapon", false, [w]) == Ok([s]);
    assert Truthy(Get(d, "weapons")) && Get(d, "weapons").items == [w];
    assert Group("weapon", false, Get(d, "weapons")) == Ok([s]);
    assert ArmorItems(d) == [];
  }

  lemma GangerEmbeds(norm: Mapper, w: Json, sys: Fields)
    requires KnifeFields(w)
    requires norm(JStr("weapon"), w) == Ok(sys)
    ensures EmbeddedDocs(norm, [SubItem("weapon", JStr("Knife"), w, Get(w, "img"))]) ==
      Ok([ItemDoc(JStr("Knife"), JStr("weapon"), sys, Get(w, "img"))])
  {
    var item := SubItem("weapon", JStr("Knife"), w, Get(w, "img"));
    var doc := ItemDoc(JStr("Knife"), JStr("weapon"), sys, Get(w, "img"));
    assert EmbeddedDoc(norm, item) == Ok(doc);
    assert [item][0] == item && [item][1..] == [];
    assert [doc] + [] == [doc];
  }
}
