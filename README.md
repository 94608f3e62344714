# Real-estate scheduling API: collection engine and appointment validation

`server.js` serves a JSON document with four collections: `properties`,
`brokers`, `clients` and `appointments`. Every route loads the whole
document and applies one operation to one collection. It writes the
document back after every create, update and delete (a delete saves even
when nothing matched), and never after a read, an update that misses or a
rejected appointment. There are five operations. List returns the collection.
Get finds the first record with the id. Create pushes `{id: uuid(), ...body}`.
Update replaces the first match with `{...old, ...body}`. Delete filters out
every record with the id. Properties get a hand-written copy of these routes
whose create also stamps `createdAt`. Appointment creation first checks that
the referenced property, client and broker exist.

The model has four modules:

- `Records` (records.dfy): JSON values, records, object spread, and the records that create builds.
- `Collections` (collections.dfy): `find`, `findIndex`, `some` and `filter` on a collection, matched by `id`, with lemmas relating them.
- `Store` (store.dfy): the document value, and class `Db`. `Db` is the mutable object that `loadDB` returns and the handlers change in place with `push`, indexed assignment and reassignment.
- `Server` (server.dfy): one method per route handler, plus `Handle`, which dispatches in the routes' registration order.

A handler takes the loaded document. It returns the response and the
document that `saveDB` writes, or `None` when nothing is saved. The fresh
id from `uuid()` and the timestamp from `new Date()` are parameters.

Ids are `Option<Value>`: a missing field reads as `undefined`, written
`None`. The validator compares `p.id === propertyId`, and
`undefined === undefined` is true. So in the model, as in the code, a body
without `propertyId` passes the property check whenever some property has
no `id`. Path ids are always present (`Some(id)`).

Where the code and the behaviour one would describe for it differ, the model follows the code:

- Create spreads the body after the generated fields (server.js:32-36, server.js:73). A body `id` therefore replaces the generated id, and a body `createdAt` replaces the timestamp. The generated id does not win.
- Update spreads the body over the stored record (server.js:46, server.js:83), so a body `id` changes the record's id. Ids are not immutable.
- The appointment handler loads the document once, validates against it and pushes onto that same object (server.js:101-113). It does not call the generic create and does not read the document a second time.
- Nothing checks that a generated or body-supplied id is unique. After a create whose body repeats an existing id, Get returns the older record (`Collections.FindAppend`).
- PUT on appointments goes through the unvalidated generic update (`Server.Handle`).

## Model

| member | source | states |
|---|---|---|
| `Records.Spread` | server.js:83 | `{...base, ...over}`: the keys are the union of both, a field present in `over` takes its value, and every other field keeps its `base` value |
| `Records.SpreadIdempotent` | server.js:83 | merging the same body a second time leaves the record as it was after the first merge |
| `Records.NewItem` | server.js:73 | the created record has exactly the body's fields plus `id`, every body field keeps its value, and the id is the body's `id` when it has one, otherwise the generated id |
| `Records.NewProperty` | server.js:32-36 | the same for properties with `createdAt` added: a body `id` or `createdAt` replaces the generated value, and otherwise the generated id and the given time are used |
| `Collections.FindIndex` | server.js:81 | `findIndex` returns -1 exactly when no record has the id; otherwise it returns the position of the first record with that id (the same at server.js:44) |
| `Collections.Find` | server.js:67 | `find` returns nothing exactly when no record has the id; otherwise it returns the first record carrying that id (the same at server.js:26) |
| `Collections.Occurs` | server.js:105-107 | `some` holds exactly when some record of the collection has the given id, including an absent id against a record without one |
| `Collections.Without` | server.js:90 | `filter` keeps exactly the records whose id differs from the argument, each as many times as it occurred, and drops every occurrence of the others (the same at server.js:53) |
| `Collections.FindAtFindIndex` | server.js:67-81 | `find` and `findIndex` agree: `find` returns the record at the index `findIndex` reports, so Get answers the first match |
| `Collections.FindAppend` | server.js:74 | after a push, Get still returns any earlier hit; on an earlier miss it returns the pushed record if that record carries the id, and otherwise misses |
| `Collections.WithoutAppend` | server.js:90 | `filter` distributes over concatenation, so the surviving records keep their relative order |
| `Collections.WithoutSingle` | server.js:90 | on a single record, `filter` drops it exactly when its id matches |
| `Collections.WithoutNoMatch` | server.js:90 | when no record has the id, delete leaves the collection unchanged |
| `Collections.FindWithout` | server.js:88-93 | after delete, `find` and `findIndex` both miss the deleted id |
| `Collections.WithoutIdempotent` | server.js:90 | deleting the same id twice gives the same collection as deleting it once |
| `Collections.UpdateIdempotent` | server.js:81-83 | if the body keeps the record's id, a second identical update hits the same index and changes nothing |
| `Store.Document.With` | server.js:90 | replacing `db[entity]` changes that collection and leaves the other three unchanged |
| `Store.Db.Load` | server.js:10-12 | the loaded object holds exactly the stored document |
| `Store.Db.Push` | server.js:74 | `db[entity].push(item)` appends the item to that collection and changes nothing else |
| `Store.Db.SetAt` | server.js:83 | `db[entity][i] = item` replaces position `i` of that collection and changes nothing else |
| `Store.Db.Assign` | server.js:90 | `db[entity] = s` replaces that collection and changes nothing else |
| `Server.List` | server.js:60-63 | returns the collection unchanged and in order, and saves nothing (the same at server.js:19-22) |
| `Server.GetById` | server.js:65-69 | answers 404 exactly when no record has the id; otherwise it returns the first record with that id; it saves nothing (the same at server.js:24-28) |
| `Server.Create` | server.js:71-77 | answers 201 with `{id: fresh, ...body}` and saves a document in which this record is appended as the last element, the earlier records are unchanged and the other collections are untouched |
| `Server.CreateProperty` | server.js:30-40 | the same for properties, with the record `{id: fresh, createdAt: now, ...body}` |
| `Server.Update` | server.js:79-86 | answers 404 and saves nothing exactly when no record has the id; otherwise it replaces only the first match with `old ⊕ body`, keeps the length and every other position, and returns the merged record (the same at server.js:42-49) |
| `Server.Delete` | server.js:88-93 | always answers "Deleted", saves the collection with every matching record filtered out, and a later Get on that id misses (the same at server.js:51-56) |
| `Server.CreateAppointment` | server.js:100-115 | answers 400 exactly when some id among `propertyId`, `clientId` and `brokerId` is not the id of a record in its collection; on that path it saves nothing; otherwise it appends `{id: fresh, ...body}` to appointments and changes nothing else |
| `Server.Handle` | server.js:96-117 | dispatches by route order: reads never save; delete always succeeds; 404 only on a get or update miss; 400 exactly on an appointment POST with a missing reference, so the generic POST never runs for appointments and PUT on appointments is never validated; every other POST appends one record whose id is the fresh one unless the body supplies one; per request kind the result is exactly that of the handler the route reaches: list returns the collection, a get hit the first match, POST /properties `{id, createdAt, ...body}`, every other accepted POST `{id, ...body}`, a PUT hit (appointments included) the generic first-match merge, and DELETE saves the filtered collection |

## Left out

- The Express routing layer, request parsing and response serialisation (server.js:1-6, server.js:120) are not modelled. Responses are a datatype, and status codes appear only in comments.
- File I/O and JSON parse/stringify in `loadDB`/`saveDB` (server.js:10-16) are foreign. The document is passed in, and the saved document is returned. A missing or corrupt file, and `createdAt` turning from a `Date` into a string after a save and a load, are not modelled.
- `uuid()` and `new Date()` are non-deterministic foreign calls, so they are parameters. The code never checks that the generated id is unique, and neither does the model.
- Concurrent requests interleaving between one handler's load and save, including the lost-update race, are not modelled. Each handler is one sequential step.
- JSON value semantics are abstract: `Value` has equality only. `===` on object or array ids compares references, and `NaN !== NaN`, but the model compares values by equality.
- A request body that is not a JSON object, or a missing body, is not modelled; the body is always a record. JavaScript object key order, which only affects how the JSON is printed, is not modelled either.
