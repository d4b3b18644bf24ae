/** The database the controllers work on: the three collections, updated in place. */
module Db {
  import opened Records
  import Workflows
  import Ledger

  class Store {
    var users: map<UserId, User>
    var shipments: map<ShipmentId, Shipment>
    var products: map<ProductId, Product>
    /** The next ObjectId the driver hands out for a new document. */
    var nextId: nat

    /** Every stored shipment and product id was handed out before `nextId`. */
    ghost predicate Valid()
      reads this
    {
      Ledger.FreshFrom(Snapshot(), nextId)
    }

    /** The collections as one value. */
    function Snapshot(): Workflows.State
      reads this
    {
      Workflows.State(users, shipments, products)
    }

    /** A database holding the given users and nothing else, as after seeding. */
    constructor (users: map<UserId, User>)
      ensures Valid()
      ensures Snapshot() == Workflows.State(users, map[], map[])
      ensures nextId == 0
    {
      this.users := users;
      shipments := map[];
      products := map[];
      nextId := 0;
    }
  }
}
