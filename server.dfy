/**
 The route handlers of server.js. Each one receives the document `loadDB`
 returned and answers with a response and the document `saveDB` writes
 back (None when the handler saves nothing). The generated id (`uuid()`)
 and the creation time (`new Date()`) are parameters.
 */
module Server {
  import opened Records
  import opened Collections
  import opened Store

  /** What a handler sends: 200 with a collection or a record, 201 with the
      created record, 200 `{message: "Deleted"}`, 404 `{error: "Not found"}`
      or 400 `{error: "IDs inválidos"}`. */
  datatype Response =
    | Items(items: seq<Record>)
    | Item(item: Record)
    | Created(item: Record)
    | Deleted
    | NotFound
    | InvalidIds

  /** A request as the router sees it: verb, collection, path id and body. */
  datatype Request =
    | ListAll(e: Entity)
    | GetOne(e: Entity, id: Value)
    | Post(e: Entity, body: Record)
    | Put(e: Entity, id: Value, body: Record)
    | Remove(e: Entity, id: Value)

  /** `after` is `before` with `item` pushed onto collection `e`: one record
      longer, the earlier records as they were, the other collections untouched. */
  ghost predicate Appended(before: Document, after: Document, e: Entity, item: Record)
  {
    && |after.Col(e)| == |before.Col(e)| + 1
    && after.Col(e)[..|before.Col(e)|] == before.Col(e)
    && after.Col(e)[|before.Col(e)|] == item
    && forall e' :: e' != e ==> after.Col(e') == before.Col(e')
  }

  /** Each of the body's `propertyId`, `clientId` and `brokerId` is the id of
      some record of `properties`, `clients` and `brokers` respectively. */
  ghost predicate ReferencesExist(doc: Document, body: Record)
  {
    && (exists i :: 0 <= i < |doc.properties| && IdOf(doc.properties[i]) == Field(body, "propertyId"))
    && (exists i :: 0 <= i < |doc.clients| && IdOf(doc.clients[i]) == Field(body, "clientId"))
    && (exists i :: 0 <= i < |doc.brokers| && IdOf(doc.brokers[i]) == Field(body, "brokerId"))
  }

  /** GET /{entity}: the whole collection, in stored order; nothing is saved. */
  method List(doc: Document, e: Entity) returns (resp: Response, saved: Option<Document>)
    ensures resp == Items(doc.Col(e))
    ensures saved == None
  {
    resp := Items(doc.Col(e));
    saved := None;
  }

  /** GET /{entity}/:id: the first record with that id, or 404. */
  method GetById(doc: Document, e: Entity, id: Value) returns (resp: Response, saved: Option<Document>)
    ensures saved == None
    ensures resp.NotFound? <==> NoMatch(doc.Col(e), Some(id))
    ensures !resp.NotFound? ==>
      resp.Item? && exists i :: FirstMatch(doc.Col(e), Some(id), i) && resp.item == doc.Col(e)[i]
  {
    var item := Find(doc.Col(e), Some(id));
    FindAtFindIndex(doc.Col(e), Some(id));
    if item.Some? {
      assert FirstMatch(doc.Col(e), Some(id), FindIndex(doc.Col(e), Some(id)));
      resp := Item(item.value);
    } else {
      resp := NotFound;
    }
    saved := None;
  }

  /** POST /{entity} (generic): push `{ id: freshId, ...body }` and save. */
  method Create(doc: Document, e: Entity, freshId: Value, body: Record) returns (resp: Response, saved: Option<Document>)
    ensures resp == Created(NewItem(freshId, body))
    ensures saved.Some? && Appended(doc, saved.value, e, resp.item)
  {
    var db := new Db.Load(doc);
    var item := NewItem(freshId, body);
    db.Push(e, item);
    saved := Some(db.Snapshot());
    resp := Created(item);
  }

  /** POST /properties: push `{ id: freshId, createdAt: now, ...body }` and save. */
  method CreateProperty(doc: Document, freshId: Value, now: Value, body: Record) returns (resp: Response, saved: Option<Document>)
    ensures resp == Created(NewProperty(freshId, now, body))
    ensures saved.Some? && Appended(doc, saved.value, Properties, resp.item)
  {
    var db := new Db.Load(doc);
    var item := NewProperty(freshId, now, body);
    db.Push(Properties, item);
    saved := Some(db.Snapshot());
    resp := Created(item);
  }

  /** PUT /{entity}/:id: merge the body into the first record with that id
      and save, or answer 404 and save nothing. */
  method Update(doc: Document, e: Entity, id: Value, body: Record) returns (resp: Response, saved: Option<Document>)
    ensures resp.NotFound? <==> NoMatch(doc.Col(e), Some(id))
    ensures resp.NotFound? ==> saved == None
    ensures !resp.NotFound? ==>
      && resp.Item?
      && saved.Some?
      && exists i ::
        && FirstMatch(doc.Col(e), Some(id), i)
        && resp.item == Spread(doc.Col(e)[i], body)
        && saved.value == doc.With(e, doc.Col(e)[i := resp.item])
  {
    var db := new Db.Load(doc);
    var idx := FindIndex(db.Col(e), Some(id));
    if idx == -1 {
      return NotFound, None;
    }
    db.SetAt(e, idx, Spread(db.Col(e)[idx], body));
    saved := Some(db.Snapshot());
    resp := Item(db.Col(e)[idx]);
  }

  /** DELETE /{entity}/:id: drop every record with that id and save; the
      answer is "Deleted" whether or not anything matched. */
  method Delete(doc: Document, e: Entity, id: Value) returns (resp: Response, saved: Option<Document>)
    ensures resp == Deleted
    ensures saved == Some(doc.With(e, Without(doc.Col(e), Some(id))))
    ensures Find(saved.value.Col(e), Some(id)) == None
  {
    var db := new Db.Load(doc);
    db.Assign(e, Without(db.Col(e), Some(id)));
    saved := Some(db.Snapshot());
    resp := Deleted;
    FindWithout(doc.Col(e), Some(id));
  }

  /** POST /appointments: push `{ id: freshId, ...body }` only when the three
      ids it references exist; otherwise answer 400 and save nothing. */
  method CreateAppointment(doc: Document, freshId: Value, body: Record) returns (resp: Response, saved: Option<Document>)
    ensures resp.InvalidIds? <==> !ReferencesExist(doc, body)
    ensures resp.InvalidIds? ==> saved == None
    ensures !resp.InvalidIds? ==>
      resp == Created(NewItem(freshId, body)) && saved.Some? && Appended(doc, saved.value, Appointments, resp.item)
  {
    var db := new Db.Load(doc);
    var propertyId, clientId, brokerId := Field(body, "propertyId"), Field(body, "clientId"), Field(body, "brokerId");
    var valid :=
      Occurs(db.properties, propertyId) && Occurs(db.clients, clientId) && Occurs(db.brokers, brokerId);
    if !valid {
      return InvalidIds, None;
    }
    var item := NewItem(freshId, body);
    db.Push(Appointments, item);
    saved := Some(db.Snapshot());
    resp := Created(item);
  }

  /** The routes in registration order: the hand-written properties routes,
      crudHandler for brokers and clients, the validated POST /appointments,
      then crudHandler for appointments, whose POST is shadowed by the
      validated one while its PUT is not. */
  method Handle(doc: Document, req: Request, freshId: Value, now: Value) returns (resp: Response, saved: Option<Document>)
    ensures (req.ListAll? || req.GetOne?) ==> saved == None
    ensures req.Remove? ==> resp == Deleted && saved.Some?
    ensures resp.NotFound? <==> (req.GetOne? || req.Put?) && NoMatch(doc.Col(req.e), Some(req.id))
    ensures resp.InvalidIds? <==> req.Post? && req.e == Appointments && !ReferencesExist(doc, req.body)
    ensures (resp.NotFound? || resp.InvalidIds?) ==> saved == None
    ensures req.Post? && !resp.InvalidIds? ==>
      resp.Created? && saved.Some? && Appended(doc, saved.value, req.e, resp.item)
    ensures req.Post? && !resp.InvalidIds? && "id" !in req.body ==> IdOf(resp.item) == Some(freshId)
    ensures req.ListAll? ==> resp == Items(doc.Col(req.e))
    ensures req.GetOne? && !resp.NotFound? ==>
      resp.Item? && exists i :: FirstMatch(doc.Col(req.e), Some(req.id), i) && resp.item == doc.Col(req.e)[i]
    ensures req.Post? && req.e == Properties ==> resp == Created(NewProperty(freshId, now, req.body))
    ensures req.Post? && req.e != Properties && !resp.InvalidIds? ==> resp == Created(NewItem(freshId, req.body))
    ensures req.Put? && !resp.NotFound? ==>
      && resp.Item?
      && saved.Some?
      && exists i ::
        && FirstMatch(doc.Col(req.e), Some(req.id), i)
        && resp.item == Spread(doc.Col(req.e)[i], req.body)
        && saved.value == doc.With(req.e, doc.Col(req.e)[i := resp.item])
    ensures req.Remove? ==> saved == Some(doc.With(req.e, Without(doc.Col(req.e), Some(req.id))))
  {
    match req
    case ListAll(e) =>
      resp, saved := List(doc, e);
    case GetOne(e, id) =>
      resp, saved := GetById(doc, e, id);
    case Post(e, body) =>
      if e == Properties {
        resp, saved := CreateProperty(doc, freshId, now, body);
      } else if e == Appointments {
        resp, saved := CreateAppointment(doc, freshId, body);
      } else {
        resp, saved := Create(doc, e, freshId, body);
      }
    case Put(e, id, body) =>
      resp, saved := Update(doc, e, id, body);
    case Remove(e, id) =>
      resp, saved := Delete(doc, e, id);
  }
}
