/**
 Records of the JSON document: each record is a shallow map from field name
 to a JSON value. Only equality of values matters to the handlers (ids are
 compared with `===`), so a value is an opaque type with equality.
 */
module Records {

  /** A JSON value as parsed from the request body or the stored document. */
  type Value(==, !new)

  datatype Option<T> = None | Some(value: T)

  type Record = map<string, Value>

  /** Reading `r.name`: a field the record lacks reads as `undefined`, written None. */
  function Field(r: Record, name: string): Option<Value>
  {
    if name in r then Some(r[name]) else None
  }

  /** The `id` a record carries, if any. */
  function IdOf(r: Record): Option<Value>
  {
    Field(r, "id")
  }

  /** Object spread `{ ...base, ...over }`: every field of `over` wins,
      every other field of `base` is kept. */
  function Spread(base: Record, over: Record): (r: Record)
    ensures r.Keys == base.Keys + over.Keys
    ensures forall k :: k in over ==> r[k] == over[k]
    ensures forall k :: k in base && k !in over ==> r[k] == base[k]
  {
    base + over
  }

  /** The record a generic create pushes: `{ id: freshId, ...body }`.
      A body that carries its own `id` replaces the generated one. */
  function NewItem(freshId: Value, body: Record): (r: Record)
    ensures r.Keys == body.Keys + {"id"}
    ensures forall k :: k in body ==> r[k] == body[k]
    ensures IdOf(r) == if "id" in body then Some(body["id"]) else Some(freshId)
  {
    Spread(map["id" := freshId], body)
  }

  /** The record a property create pushes: `{ id: freshId, createdAt: now, ...body }`.
      The body may replace both generated fields. */
  function NewProperty(freshId: Value, now: Value, body: Record): (r: Record)
    ensures r.Keys == body.Keys + {"id", "createdAt"}
    ensures forall k :: k in body ==> r[k] == body[k]
    ensures IdOf(r) == if "id" in body then Some(body["id"]) else Some(freshId)
    ensures Field(r, "createdAt") == if "createdAt" in body then Some(body["createdAt"]) else Some(now)
  {
    Spread(map["id" := freshId, "createdAt" := now], body)
  }

  /** Merging the same body a second time changes nothing. */
  lemma SpreadIdempotent(r: Record, body: Record)
    ensures Spread(Spread(r, body), body) == Spread(r, body)
  {
  }
}
