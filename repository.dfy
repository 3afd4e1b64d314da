/** The game's document store as the importers see it: `Item.create`,
    `Actor.create`, `RollTable.create`, and on a created actor
    `createEmbeddedDocuments('Item', …)` and `update(…)`. The store is
    modelled by the log of calls it receives, in order; a created document
    is referred to by the position of its creating call in that log. Every
    call succeeds. */
module Documents {
  import opened Js

  /** One call on the store. */
  datatype Call =
    | ItemCreated(doc: Json)
    | ActorCreated(doc: Json, renderSheet: bool)
    | ItemsEmbedded(actor: nat, items: seq<Json>)
    | ActorUpdated(actor: nat, patch: Json)
    | RollTableCreated(doc: Json)

  /** A call made on an existing actor rather than on the store. */
  predicate OnActor(c: Call) {
    c.ItemsEmbedded? || c.ActorUpdated?
  }

  /** Every call made on an actor names an actor created earlier in the log. */
  predicate WellFormedTrace(t: seq<Call>) {
    forall i {:trigger OnActor(t[i])} :: 0 <= i < |t| && OnActor(t[i]) ==> t[i].actor < i && t[t[i].actor].ActorCreated?
  }

  class Repository {
    /** The calls received so far. */
    var trace: seq<Call>

    constructor ()
      ensures trace == []
    {
      trace := [];
    }

    /** `Item.create(doc)`; the new item is the position of this call. */
    method CreateItem(doc: Json) returns (item: nat)
      modifies this
      ensures trace == old(trace) + [ItemCreated(doc)]
      ensures item == |old(trace)|
    {
      item := |trace|;
      trace := trace + [ItemCreated(doc)];
    }

    /** `Actor.create(doc, {renderSheet})`; the new actor is the position of this call. */
    method CreateActor(doc: Json, renderSheet: bool) returns (actor: nat)
      modifies this
      ensures trace == old(trace) + [ActorCreated(doc, renderSheet)]
      ensures actor == |old(trace)|
      ensures WellFormedTrace(old(trace)) ==> WellFormedTrace(trace)
    {
      actor := |trace|;
      trace := trace + [ActorCreated(doc, renderSheet)];
    }

    /** `actor.createEmbeddedDocuments('Item', items)`. */
    method CreateEmbeddedDocuments(actor: nat, items: seq<Json>)
      modifies this
      ensures trace == old(trace) + [ItemsEmbedded(actor, items)]
      ensures WellFormedTrace(old(trace)) && actor < |old(trace)| && old(trace)[actor].ActorCreated? ==>
        WellFormedTrace(trace)
    {
      trace := trace + [ItemsEmbedded(actor, items)];
    }

    /** `actor.update(patch)`. */
    method Update(actor: nat, patch: Json)
      modifies this
      ensures trace == old(trace) + [ActorUpdated(actor, patch)]
      ensures WellFormedTrace(old(trace)) && actor < |old(trace)| && old(trace)[actor].ActorCreated? ==>
        WellFormedTrace(trace)
    {
      trace := trace + [ActorUpdated(actor, patch)];
    }

    /** `RollTable.create(doc)`; the new table is the position of this call. */
    method CreateRollTable(doc: Json) returns (table: nat)
      modifies this
      ensures trace == old(trace) + [RollTableCreated(doc)]
      ensures table == |old(trace)|
    {
      table := |trace|;
      trace := trace + [RollTableCreated(doc)];
    }
  }
}
