/** The persistent collections the services read and write, as one mutable
    store: farmers, crop definitions, crop cycles and auth sessions keyed by
    identifier, and the append-only risk snapshots and notifications. */
module Store {
  import opened Common
  import opened Models

  /** No two farmers share an e-mail address (the unique index on `email`). */
  predicate UniqueEmails(farmers: map<Id, Farmer>) {
    forall a, b :: a in farmers && b in farmers && farmers[a].email == farmers[b].email ==> a == b
  }

  /** `findOne({ _id: cycleId, farmer: farmerId })` finds a document. */
  predicate Owns(cycles: map<Id, CropCycle>, cycleId: Id, farmerId: Id) {
    cycleId in cycles && cycles[cycleId].farmer == farmerId
  }

  class Db {
    var farmers: map<Id, Farmer>
    /** Crop definitions are reference data; a definition's identifier is its index. */
    var definitions: seq<CropDefinition>
    var cycles: map<Id, CropCycle>
    var sessions: map<Id, Session>
    /** A snapshot's identifier is its index. */
    var snapshots: seq<RiskSnapshot>
    var notifications: seq<Notification>
    /** The next identifier handed out for a farmer, cycle or session. */
    var nextId: nat

    /** Every reference to a farmer resolves, e-mails are unique and every
        identifier in use is below `nextId`. */
    ghost predicate Valid()
      reads this
    {
      && (forall id :: id in farmers ==> id < nextId)
      && (forall id :: id in cycles ==> id < nextId && cycles[id].farmer in farmers)
      && (forall id :: id in sessions ==> id < nextId && sessions[id].farmer in farmers)
      && UniqueEmails(farmers)
    }

    /** An empty store over the given crop definitions. */
    constructor (definitions: seq<CropDefinition>)
      ensures Valid()
      ensures this.definitions == definitions
      ensures farmers == map[] && cycles == map[] && sessions == map[]
      ensures snapshots == [] && notifications == [] && nextId == 0
    {
      farmers := map[];
      this.definitions := definitions;
      cycles := map[];
      sessions := map[];
      snapshots := [];
      notifications := [];
      nextId := 0;
    }

    /** Hands out a fresh identifier: one not used by any farmer, cycle or session. */
    method FreshId() returns (id: Id)
      requires Valid()
      modifies this`nextId
      ensures Valid()
      ensures id == old(nextId) && nextId == id + 1
      ensures id !in farmers && id !in cycles && id !in sessions
    {
      id := nextId;
      nextId := nextId + 1;
    }

    /** `Farmer.create(f)`: stores a farmer whose address no other farmer uses. */
    method AddFarmer(f: Farmer) returns (id: Id)
      requires Valid()
      requires forall other :: other in farmers ==> farmers[other].email != f.email
      modifies this`farmers, this`nextId
      ensures Valid()
      ensures id !in old(farmers) && farmers == old(farmers)[id := f]
    {
      id := FreshId();
      farmers := farmers[id := f];
    }

    /** `AuthSession.create(s)`: stores a session of an existing farmer. */
    method AddSession(s: Session) returns (id: Id)
      requires Valid()
      requires s.farmer in farmers
      modifies this`sessions, this`nextId
      ensures Valid()
      ensures id !in old(sessions) && sessions == old(sessions)[id := s]
    {
      id := FreshId();
      sessions := sessions[id := s];
    }
  }
}
