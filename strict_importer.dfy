/** The second importer, WhaleImporter/scripts/whale-importer.js: records
    name their kind in `type` and their subtype in `data.type`; the
    validator checks the name's type, the subtype against the subtypes the
    game system declares, and a roll table's results; a valid record is
    handed to the store unchanged. The declared subtypes (the keys of
    `CONFIG.Actor.typeLabels` and `CONFIG.Item.typeLabels`, none when
    those are missing) are parameters. */
module StrictImporter {
  import opened Js
  import opened Wrappers
  import opened Validator
  import opened Documents
  import opened Importer

  const MissingOrInvalid := "Missing or invalid "
  const TypeMessage := MissingOrInvalid + "`type` (must be Actor, Item, or RollTable)"
  const NameMessage := MissingOrInvalid + "`name`"
  const ResultsMessage := "RollTable missing `results` array"

  /** `data.data?.type`. */
  function SubtypeOf(data: Json): Json {
    OptGet(Get(data, "data"), "type")
  }

  /** `types.includes(subtype)`: only a string can equal a declared key. */
  predicate Declared(subtype: Json, types: seq<string>) {
    subtype.JStr? && subtype.s in types
  }

  /** The message of a rejected subtype, `noun` naming the kind. */
  function SubtypeMessage(noun: string, subtype: Json): string {
    "Invalid " + noun + " subtype: " + ToText(subtype)
  }

  /** The subtype check of an actor or an item. */
  function SubtypeCheck(noun: string, types: seq<string>, data: Json): Outcome<Thrown> {
    var subtype := SubtypeOf(data);
    if !Truthy(subtype) || !Declared(subtype, types) then Fail(Error(SubtypeMessage(noun, subtype)))
    else Pass
  }

  /** `validateEntity(data)`, the first failing check deciding the error;
      reading `type` of a null or undefined record throws. */
  function ValidateStrict(data: Json, actorTypes: seq<string>, itemTypes: seq<string>): Outcome<Thrown> {
    if Nullish(data) then Fail(TypeError(ReadOfNullish("type")))
    else
      var kind := Get(data, "type");
      var name := Get(data, "name");
      if !Truthy(kind) || kind !in EntityKinds then Fail(Error(TypeMessage))
      else if !Truthy(name) || !name.JStr? then Fail(Error(NameMessage))
      else if kind == JStr("Actor") then SubtypeCheck("Actor", actorTypes, data)
      else if kind == JStr("Item") then SubtypeCheck("Item", itemTypes, data)
      else if !Get(data, "results").JArr? then Fail(Error(ResultsMessage))
      else Pass
  }

  /** What a record must satisfy to pass: a known kind, a non-empty string
      name, a non-empty declared subtype for an actor or an item, and an
      array of results for a roll table. */
  predicate StrictRecord(data: Json, actorTypes: seq<string>, itemTypes: seq<string>) {
    && !Nullish(data)
    && Get(data, "type") in EntityKinds
    && Get(data, "name").JStr? && Get(data, "name").s != ""
    && (Get(data, "type") == JStr("Actor") ==>
          Declared(SubtypeOf(data), actorTypes) && SubtypeOf(data).s != "")
    && (Get(data, "type") == JStr("Item") ==>
          Declared(SubtypeOf(data), itemTypes) && SubtypeOf(data).s != "")
    && (Get(data, "type") == JStr("RollTable") ==> Get(data, "results").JArr?)
  }

  /** A record passes exactly when it satisfies every check. */
  lemma ValidateStrictAccepts(data: Json, actorTypes: seq<string>, itemTypes: seq<string>)
    ensures ValidateStrict(data, actorTypes, itemTypes) == Pass <==> StrictRecord(data, actorTypes, itemTypes)
  {
  }

  /** Each error is raised exactly when its check fails and every earlier
      check passed; the subtype errors quote the subtype found. */
  lemma ValidateStrictErrors(data: Json, actorTypes: seq<string>, itemTypes: seq<string>)
    requires !Nullish(data)
    ensures ValidateStrict(data, actorTypes, itemTypes) == Fail(Error(TypeMessage)) <==>
      Get(data, "type") !in EntityKinds
    ensures ValidateStrict(data, actorTypes, itemTypes) == Fail(Error(NameMessage)) <==>
      Get(data, "type") in EntityKinds && !(Get(data, "name").JStr? && Get(data, "name").s != "")
    ensures Get(data, "type") == JStr("Actor") && Get(data, "name").JStr? && Get(data, "name").s != "" ==>
      (ValidateStrict(data, actorTypes, itemTypes) == Fail(Error(SubtypeMessage("Actor", SubtypeOf(data)))) <==>
        !(Declared(SubtypeOf(data), actorTypes) && SubtypeOf(data).s != ""))
    ensures Get(data, "type") == JStr("Item") && Get(data, "name").JStr? && Get(data, "name").s != "" ==>
      (ValidateStrict(data, actorTypes, itemTypes) == Fail(Error(SubtypeMessage("Item", SubtypeOf(data)))) <==>
        !(Declared(SubtypeOf(data), itemTypes) && SubtypeOf(data).s != ""))
    ensures ValidateStrict(data, actorTypes, itemTypes) == Fail(Error(ResultsMessage)) <==>
      Get(data, "type") == JStr("RollTable") && Get(data, "name").JStr? && Get(data, "name").s != "" &&
      !Get(data, "results").JArr?
  {
    var st := SubtypeOf(data);
    SubtypeMessageHead("Actor", st);
    SubtypeMessageHead("Item", st);
    assert TypeMessage[0] == 'M';
    assert NameMessage[0] == 'M';
    assert ResultsMessage[0] == 'R';
  }

  /** Subtype messages start with "Invalid " and then the kind. */
  lemma SubtypeMessageHead(noun: string, subtype: Json)
    requires noun != ""
    ensures SubtypeMessage(noun, subtype)[0] == 'I' && SubtypeMessage(noun, subtype)[8] == noun[0]
  {
    var m := SubtypeMessage(noun, subtype);
    assert m == "Invalid " + (noun + (" subtype: " + ToText(subtype)));
  }

  /** A record without `data` has subtype undefined, which no declaration
      can list: an actor or item record without `data` always fails, and
      its message names the subtype "undefined". */
  lemma MissingSubtype(data: Json, actorTypes: seq<string>, itemTypes: seq<string>)
    requires Get(data, "type") == JStr("Actor") && Get(data, "name").JStr? && Get(data, "name").s != ""
    requires Nullish(Get(data, "data"))
    ensures ValidateStrict(data, actorTypes, itemTypes) == Fail(Error("Invalid Actor subtype: undefined"))
  {
    assert "Invalid " + "Actor" + " subtype: " + "undefined" == "Invalid Actor subtype: undefined";
  }

  /** With no declared subtypes (the system's labels missing), no actor or
      item record can pass. */
  lemma NothingDeclared(data: Json)
    requires Get(data, "type") in {JStr("Actor"), JStr("Item")}
    ensures ValidateStrict(data, [], []).Fail?
  {
  }

  /** The store call for a record by kind: an actor is created with its
      sheet rendered, an item and a roll table as they are; any other kind
      makes no call. */
  function CreateCalls(data: Json): seq<Call> {
    var kind := Get(data, "type");
    if kind == JStr("Actor") then [ActorCreated(data, true)]
    else if kind == JStr("Item") then [ItemCreated(data)]
    else if kind == JStr("RollTable") then [RollTableCreated(data)]
    else []
  }

  /** A valid record makes exactly one call, whose document is the record
      itself and which names no earlier document. */
  lemma ValidCreatesOne(data: Json, actorTypes: seq<string>, itemTypes: seq<string>)
    requires ValidateStrict(data, actorTypes, itemTypes) == Pass
    ensures |CreateCalls(data)| == 1 && !OnActor(CreateCalls(data)[0]) && CreateCalls(data)[0].doc == data
    ensures CreateCalls(data)[0].ActorCreated? <==> Get(data, "type") == JStr("Actor")
    ensures CreateCalls(data)[0].ActorCreated? ==> CreateCalls(data)[0].renderSheet
  {
  }

  /** The loop: each record validated, then created, up to the first throw. */
  function StrictRun(entries: seq<Json>, actorTypes: seq<string>, itemTypes: seq<string>): Run
    decreases |entries|
  {
    if entries == [] then Run([], Pass)
    else
      match ValidateStrict(entries[0], actorTypes, itemTypes)
      case Fail(e) => Run([], Fail(e))
      case Pass =>
        var rest := StrictRun(entries[1..], actorTypes, itemTypes);
        Run(CreateCalls(entries[0]) + rest.calls, rest.outcome)
  }

  /** The `switch (data.type)` of the loop. */
  method CreateRecord(repo: Repository, data: Json)
    modifies repo
    ensures repo.trace == old(repo.trace) + CreateCalls(data)
  {
    var kind := Get(data, "type");
    if kind == JStr("Actor") {
      var _ := repo.CreateActor(data, true);
    } else if kind == JStr("Item") {
      var _ := repo.CreateItem(data);
    } else if kind == JStr("RollTable") {
      var _ := repo.CreateRollTable(data);
    } else {
      assert repo.trace == old(repo.trace) + [];
    }
  }

  /** `processImportPayload(payload)`. */
  method StrictImportPayload(repo: Repository, payload: Json, actorTypes: seq<string>, itemTypes: seq<string>)
    returns (r: Outcome<Thrown>)
    modifies repo
    ensures repo.trace == old(repo.trace) + StrictRun(AsList(payload), actorTypes, itemTypes).calls
    ensures r == StrictRun(AsList(payload), actorTypes, itemTypes).outcome
  {
    var rest := AsList(payload);
    ghost var whole := StrictRun(rest, actorTypes, itemTypes);
    while rest != []
      invariant old(repo.trace) + whole.calls == repo.trace + StrictRun(rest, actorTypes, itemTypes).calls
      invariant whole.outcome == StrictRun(rest, actorTypes, itemTypes).outcome
      decreases |rest|
    {
      var data := rest[0];
      var valid := ValidateStrict(data, actorTypes, itemTypes);
      if valid.Fail? {
        StrictRunStep(rest, actorTypes, itemTypes);
        return valid;
      }
      ghost var before := repo.trace;
      CreateRecord(repo, data);
      StrictRunStep(rest, actorTypes, itemTypes);
      AppendStep(old(repo.trace) + whole.calls, before, StrictRun(rest, actorTypes, itemTypes).calls,
        CreateCalls(data), StrictRun(rest[1..], actorTypes, itemTypes).calls, repo.trace);
      rest := rest[1..];
    }
    return Pass;
  }

  /** The first record of a batch decides how the batch goes on: an invalid
      one ends it with nothing created, a valid one is created before the
      rest. */
  lemma StrictRunStep(entries: seq<Json>, actorTypes: seq<string>, itemTypes: seq<string>)
    requires entries != []
    ensures var valid := ValidateStrict(entries[0], actorTypes, itemTypes);
      var rest := StrictRun(entries[1..], actorTypes, itemTypes);
      && (valid.Fail? ==> StrictRun(entries, actorTypes, itemTypes) == Run([], valid))
      && (valid == Pass ==> StrictRun(entries, actorTypes, itemTypes).calls == CreateCalls(entries[0]) + rest.calls)
      && (valid == Pass ==> StrictRun(entries, actorTypes, itemTypes).outcome == rest.outcome)
  {
  }

  /** The calls of a batch are one per record, in order, for the records
      before the first invalid one; the batch completes exactly when every
      record is valid, and otherwise ends with the first invalid record's
      error. */
  lemma {:induction false} StrictRunSpec(entries: seq<Json>, actorTypes: seq<string>, itemTypes: seq<string>)
    ensures var run := StrictRun(entries, actorTypes, itemTypes);
      && |run.calls| <= |entries|
      && (forall i :: 0 <= i < |run.calls| ==>
            ValidateStrict(entries[i], actorTypes, itemTypes) == Pass && CreateCalls(entries[i]) == [run.calls[i]])
      && (run.outcome == Pass <==> forall i :: 0 <= i < |entries| ==> ValidateStrict(entries[i], actorTypes, itemTypes) == Pass)
      && (run.outcome == Pass ==> |run.calls| == |entries|)
      && (run.outcome.Fail? ==> |run.calls| < |entries| && run.outcome == ValidateStrict(entries[|run.calls|], actorTypes, itemTypes))
    decreases |entries|
  {
    if entries != [] {
      var e := entries[0];
      StrictRunSpec(entries[1..], actorTypes, itemTypes);
      forall i | 0 < i < |entries| ensures entries[i] == entries[1..][i - 1] { }
      if ValidateStrict(e, actorTypes, itemTypes) == Pass {
        ValidCreatesOne(e, actorTypes, itemTypes);
        var rest := StrictRun(entries[1..], actorTypes, itemTypes);
        var run := StrictRun(entries, actorTypes, itemTypes);
        assert run.calls == CreateCalls(e) + rest.calls;
        forall i | 0 < i < |run.calls| ensures run.calls[i] == rest.calls[i - 1] { }
      }
    }
  }

  /** This importer never calls on an existing actor, so it keeps the log
      well formed. */
  lemma {:induction false} StrictRunWellFormed(t: seq<Call>, entries: seq<Json>, actorTypes: seq<string>, itemTypes: seq<string>)
    requires WellFormedTrace(t)
    ensures WellFormedTrace(t + StrictRun(entries, actorTypes, itemTypes).calls)
  {
    var calls := StrictRun(entries, actorTypes, itemTypes).calls;
    StrictRunSpec(entries, actorTypes, itemTypes);
    forall i | 0 <= i < |calls| ensures !OnActor(calls[i]) {
      ValidCreatesOne(entries[i], actorTypes, itemTypes);
    }
    NoActorCallsWellFormed(t, calls);
  }

  /** Appending calls none of which is on an actor keeps the log well
      formed. */
  lemma NoActorCallsWellFormed(t: seq<Call>, calls: seq<Call>)
    requires WellFormedTrace(t)
    requires forall i :: 0 <= i < |calls| ==> !OnActor(calls[i])
    ensures WellFormedTrace(t + calls)
  {
    var all := t + calls;
    forall j | |t| <= j < |all| ensures !OnActor(all[j]) {
      assert all[j] == calls[j - |t|];
    }
    forall i | 0 <= i < |all| && OnActor(all[i]) ensures all[i].actor < i && all[all[i].actor].ActorCreated? {
      assert all[i] == t[i] && all[t[i].actor] == t[t[i].actor];
    }
  }
}
