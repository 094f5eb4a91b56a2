/** The four routers of the route-per-resource backend (activities, goals,
    nutrition entries, progress entries). They differ only in the schema and
    in the wording of their messages, so one class, given the resource kind,
    stands for each of them. The caller's identity is the one the `protect`
    middleware put on the request. */
module ResourceRoutes {
  import opened Json
  import opened Schemas

  /** The resource a router serves. */
  datatype Kind = Activity | Goal | Nutrition | Progress

  /** The 404 message of each router. */
  function NotFoundText(kind: Kind): string {
    match kind
    case Activity => "Activity not found"
    case Goal => "Goal not found"
    case Nutrition => "Nutrition entry not found"
    case Progress => "Progress entry not found"
  }

  /** The confirmation a delete sends. */
  function RemovedText(kind: Kind): string {
    match kind
    case Activity => "Activity removed"
    case Goal => "Goal removed"
    case Nutrition => "Nutrition entry removed"
    case Progress => "Progress entry removed"
  }

  /** The owner of a stored document: its `user` field. */
  function Owner(doc: Doc): Option<nat> {
    RefIn(doc, "user")
  }

  /** The document a create builds: `{ user: caller, ...body }`, so a `user`
      field in the body replaces the caller. */
  function Spread(caller: nat, body: Doc): (r: Doc)
    ensures Owner(r) == if "user" in body then Owner(body) else Some(caller)
    ensures forall f | f in body :: f in r && r[f] == body[f]
    ensures r.Keys == body.Keys + {"user"}
  {
    Assign(map["user" := Ref(caller)], body)
  }

  /** The schema each router's model declares. */
  function SchemaOf(kind: Kind): (s: Schema)
    ensures "user" in s.required && "user" in s.fields && s.fields["user"] == TRef
    ensures s.timestamps && "updatedAt" in s.fields && s.fields["updatedAt"] == TDate
  {
    match kind
    case Activity => ActivitySchema
    case Goal => GoalSchema
    case Nutrition => NutritionSchema
    case Progress => ProgressSchema
  }

  class ResourceRouter {
    const kind: Kind
    /** The collection: documents by id. */
    var records: map<nat, Doc>
    /** The next id to hand out; ids increase with insertion. */
    var nextId: nat

    /** Every id was handed out, and every stored document casts and has an owner. */
    ghost predicate Valid()
      reads this
    {
      forall id | id in records :: id < nextId && Castable(SchemaOf(kind), records[id]) && Owner(records[id]).Some?
    }

    constructor (kind: Kind)
      ensures Valid() && this.kind == kind && records == map[] && nextId == 0
    {
      this.kind := kind;
      records := map[];
      nextId := 0;
    }

    /** GET /: the caller's documents, in insertion order. */
    method List(caller: nat) returns (resp: Response)
      requires Valid()
      ensures resp.status == 200 && resp.body.Records?
      ensures AllOwned(resp.body.recs, records, "user", caller)
    {
      var owned := Matching(records, "user", caller, nextId);
      MatchingAllOwned(records, "user", caller, nextId);
      resp := Response(200, Records(owned));
    }

    /** POST /: build `{ user: caller, ...body }` with the schema's defaults
        and timestamps, and save it if it validates (201); otherwise 400 and
        nothing is stored. */
    method Create(caller: nat, body: Doc, now: int) returns (resp: Response)
      requires Valid()
      modifies this
      ensures Valid()
      ensures var doc := Build(SchemaOf(kind), Spread(caller, body), now);
              if Validates(SchemaOf(kind), doc) then
                && records == old(records)[old(nextId) := doc]
                && nextId == old(nextId) + 1
                && resp == Response(201, Record(Saved(old(nextId), doc)))
              else
                && records == old(records) && nextId == old(nextId)
                && resp == Response(400, ErrorMessage(ValidationFailed))
    {
      var doc := Build(SchemaOf(kind), Spread(caller, body), now);
      if Validates(SchemaOf(kind), doc) {
        ValidOwned(kind, doc);
        records := records[nextId := doc];
        resp := Response(201, Record(Saved(nextId, doc)));
        nextId := nextId + 1;
      } else {
        resp := Response(400, ErrorMessage(ValidationFailed));
      }
    }

    /** PUT /:id: 404 when there is no such document, 401 when the caller
        does not own it, 400 when the body does not cast; otherwise the body's
        fields are applied to that document alone, `updatedAt` is the time of
        the update, and the new document is sent. */
    method Update(caller: nat, id: nat, body: Doc, now: int) returns (resp: Response)
      requires Valid()
      modifies this
      ensures Valid() && nextId == old(nextId)
      ensures id !in old(records) ==>
                records == old(records) && resp == Response(404, Message(NotFoundText(kind)))
      ensures id in old(records) && Owner(old(records)[id]) != Some(caller) ==>
                records == old(records) && resp == Response(401, Message("Not authorized"))
      ensures id in old(records) && Owner(old(records)[id]) == Some(caller) && !Castable(SchemaOf(kind), body) ==>
                records == old(records) && resp == Response(400, ErrorMessage(CastFailed))
      ensures id in old(records) && Owner(old(records)[id]) == Some(caller) && Castable(SchemaOf(kind), body) ==>
                var doc := Touch(SchemaOf(kind), old(records)[id], body, now);
                && records == old(records)[id := doc]
                && resp == Response(200, Record(Saved(id, doc)))
    {
      if id !in records {
        return Response(404, Message(NotFoundText(kind)));
      }
      if Owner(records[id]) != Some(caller) {
        return Response(401, Message("Not authorized"));
      }
      if !Castable(SchemaOf(kind), body) {
        return Response(400, ErrorMessage(CastFailed));
      }
      var doc := Touch(SchemaOf(kind), records[id], body, now);
      TouchKeepsInvariant(kind, records[id], body, now);
      records := records[id := doc];
      resp := Response(200, Record(Saved(id, doc)));
    }

    /** DELETE /:id: 404 when there is no such document, 401 when the caller
        does not own it; otherwise that document alone is removed. */
    method Delete(caller: nat, id: nat) returns (resp: Response)
      requires Valid()
      modifies this
      ensures Valid() && nextId == old(nextId)
      ensures id !in old(records) ==>
                records == old(records) && resp == Response(404, Message(NotFoundText(kind)))
      ensures id in old(records) && Owner(old(records)[id]) != Some(caller) ==>
                records == old(records) && resp == Response(401, Message("Not authorized"))
      ensures id in old(records) && Owner(old(records)[id]) == Some(caller) ==>
                records == old(records) - {id} && resp == Response(200, Message(RemovedText(kind)))
    {
      if id !in records {
        return Response(404, Message(NotFoundText(kind)));
      }
      if Owner(records[id]) != Some(caller) {
        return Response(401, Message("Not authorized"));
      }
      records := records - {id};
      resp := Response(200, Message(RemovedText(kind)));
    }
  }

  /** Every router's schema requires an owner: a document that validates
      has one. */
  lemma ValidOwned(kind: Kind, doc: Doc)
    requires Validates(SchemaOf(kind), doc)
    ensures Owner(doc).Some?
  {
    ValidRef(SchemaOf(kind), doc, "user");
  }

  /** An update that casts keeps a stored document castable and owned: a
      `user` in the body is itself an ObjectId. */
  lemma TouchKeepsInvariant(kind: Kind, doc: Doc, body: Doc, now: int)
    requires Castable(SchemaOf(kind), doc) && Owner(doc).Some? && Castable(SchemaOf(kind), body)
    ensures Castable(SchemaOf(kind), Touch(SchemaOf(kind), doc, body, now))
    ensures Owner(Touch(SchemaOf(kind), doc, body, now)).Some?
  {
    var s := SchemaOf(kind);
    TouchCastable(s, doc, body, now);
    if "user" in body {
      assert s.fields["user"] == TRef;
    } else {
      TouchKeeps(s, doc, body, now, "user");
    }
  }
}
