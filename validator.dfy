/** `validateEntity` of scripts/whale-importer.js: the checks a record must
    pass before the importer writes anything, in the order they run. */
module Validator {
  import opened Js
  import opened Wrappers

  /** The three entity kinds `['Actor','Item','RollTable'].includes` accepts. */
  const EntityKinds: set<Json> := {JStr("Actor"), JStr("Item"), JStr("RollTable")}

  /** The checks of one record, the first failing one deciding the error;
      reading `entityType` of a null or undefined record throws. */
  function ValidateEntity(data: Json): Outcome<Thrown> {
    if Nullish(data) then Fail(TypeError(ReadOfNullish("entityType")))
    else
      var kind := Get(data, "entityType");
      if !Truthy(kind) || kind !in EntityKinds then Fail(Error("Invalid entityType"))
      else if !Truthy(Get(data, "name")) then Fail(Error("Missing name"))
      else if kind == JStr("Item") && !Truthy(Get(data, "type")) then Fail(Error("Missing Item type"))
      else if kind == JStr("Actor") && !Truthy(Get(data, "type")) then Fail(Error("Missing Actor type"))
      else Pass
  }

  /** What a record must satisfy to pass: a known kind, a truthy name, and
      a truthy subtype unless it is a roll table. */
  predicate WellFormedRecord(data: Json) {
    && !Nullish(data)
    && Get(data, "entityType") in EntityKinds
    && Truthy(Get(data, "name"))
    && (Get(data, "entityType") != JStr("RollTable") ==> Truthy(Get(data, "type")))
  }

  /** A record passes exactly when it is well formed. */
  lemma ValidateEntityAccepts(data: Json)
    ensures ValidateEntity(data) == Pass <==> WellFormedRecord(data)
  {
  }

  /** Each error is raised exactly when its check fails and every earlier
      check passed. */
  lemma ValidateEntityErrors(data: Json)
    requires !Nullish(data)
    ensures ValidateEntity(data) == Fail(Error("Invalid entityType")) <==>
      Get(data, "entityType") !in EntityKinds
    ensures ValidateEntity(data) == Fail(Error("Missing name")) <==>
      Get(data, "entityType") in EntityKinds && !Truthy(Get(data, "name"))
    ensures ValidateEntity(data) == Fail(Error("Missing Item type")) <==>
      Get(data, "entityType") == JStr("Item") && Truthy(Get(data, "name")) && !Truthy(Get(data, "type"))
    ensures ValidateEntity(data) == Fail(Error("Missing Actor type")) <==>
      Get(data, "entityType") == JStr("Actor") && Truthy(Get(data, "name")) && !Truthy(Get(data, "type"))
  {
  }

  /** A null or undefined record fails with a TypeError, never with one of
      the importer's own messages; a record that is not null fails only
      with one of those messages. */
  lemma ValidateEntityThrows(data: Json)
    ensures Nullish(data) <==> ValidateEntity(data) == Fail(TypeError(ReadOfNullish("entityType")))
    ensures ValidateEntity(data).Fail? && !Nullish(data) ==>
      ValidateEntity(data).error.Error? &&
      ValidateEntity(data).error.message in {"Invalid entityType", "Missing name", "Missing Item type", "Missing Actor type"}
  {
  }

  /** A roll table needs no subtype. */
  lemma RollTableNeedsNoType(data: Json)
    requires Get(data, "entityType") == JStr("RollTable") && Truthy(Get(data, "name"))
    ensures ValidateEntity(data) == Pass
  {
  }
}
