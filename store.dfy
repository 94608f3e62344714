/**
 The stored document: four named collections of records. `loadDB` parses
 it into a fresh mutable object (class Db), a handler changes that object
 in place, and `saveDB` writes the whole of it back (Db.Snapshot).
 */
module Store {
  import opened Records

  /** The collection names the handlers use as `db[entity]`. */
  datatype Entity = Properties | Brokers | Clients | Appointments

  /** The persisted document; its four keys are always present. */
  datatype Document = Document(
    properties: seq<Record>,
    brokers: seq<Record>,
    clients: seq<Record>,
    appointments: seq<Record>)
  {
    /** `db[e]` */
    function Col(e: Entity): seq<Record>
    {
      match e
      case Properties => properties
      case Brokers => brokers
      case Clients => clients
      case Appointments => appointments
    }

    /** The document with collection `e` replaced by `s`. */
    function With(e: Entity, s: seq<Record>): (d: Document)
      ensures d.Col(e) == s
      ensures forall e' :: e' != e ==> d.Col(e') == Col(e')
    {
      match e
      case Properties => this.(properties := s)
      case Brokers => this.(brokers := s)
      case Clients => this.(clients := s)
      case Appointments => this.(appointments := s)
    }
  }

  /** The object `loadDB` returns, which a handler mutates before `saveDB`. */
  class Db {
    var properties: seq<Record>
    var brokers: seq<Record>
    var clients: seq<Record>
    var appointments: seq<Record>

    /** `loadDB()` */
    constructor Load(doc: Document)
      ensures Snapshot() == doc
    {
      properties := doc.properties;
      brokers := doc.brokers;
      clients := doc.clients;
      appointments := doc.appointments;
    }

    /** What `saveDB(db)` writes. */
    function Snapshot(): Document
      reads this
    {
      Document(properties, brokers, clients, appointments)
    }

    /** `db[e]` */
    function Col(e: Entity): seq<Record>
      reads this
    {
      Snapshot().Col(e)
    }

    /** `db[e].push(item)` */
    method Push(e: Entity, item: Record)
      modifies this
      ensures Snapshot() == old(Snapshot()).With(e, old(Col(e)) + [item])
    {
      match e
      case Properties => properties := properties + [item];
      case Brokers => brokers := brokers + [item];
      case Clients => clients := clients + [item];
      case Appointments => appointments := appointments + [item];
    }

    /** `db[e][i] = item` */
    method SetAt(e: Entity, i: nat, item: Record)
      requires i < |Col(e)|
      modifies this
      ensures Snapshot() == old(Snapshot()).With(e, old(Col(e))[i := item])
    {
      match e
      case Properties => properties := properties[i := item];
      case Brokers => brokers := brokers[i := item];
      case Clients => clients := clients[i := item];
      case Appointments => appointments := appointments[i := item];
    }

    /** `db[e] = s` */
    method Assign(e: Entity, s: seq<Record>)
      modifies this
      ensures Snapshot() == old(Snapshot()).With(e, s)
    {
      match e
      case Properties => properties := s;
      case Brokers => brokers := s;
      case Clients => clients := s;
      case Appointments => appointments := s;
    }
  }
}
