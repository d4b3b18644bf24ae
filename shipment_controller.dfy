/** The user and shipment routes: credit lookups and purchases, and creating,
    listing, reading and deleting shipments. */
module ShipmentController {
  import opened Records
  import opened Pricing
  import opened Sums
  import opened Weights
  import opened Db
  import W = Workflows

  /** The body of GET /shipments/{shipmentId}. */
  datatype Details = Details(shipment: Shipment, products: map<ProductId, Product>)

  /** `checkCredit` (GET /users/{userId}/credits): reads only. */
  method CheckCredit(db: Store, userId: UserId) returns (r: Result<Credits>)
    ensures r.Ok? <==> userId in db.users
    ensures r.Ok? ==> r.value == db.users[userId].credits
    ensures r.Err? ==> r.error == UserNotFound
  {
    if userId !in db.users {
      return Err(UserNotFound);
    }
    r := Ok(db.users[userId].credits);
  }

  /** `createShipment` (POST /users/{userId}/shipments). */
  method CreateShipment(db: Store, userId: UserId, input: ShipmentInput) returns (r: Result<W.Created>)
    requires db.Valid()
    modifies db
    ensures db.Valid()
    ensures var step := W.CreateShipment(old(db.Snapshot()), old(db.nextId), userId, input);
            r == step.reply && db.Snapshot() == step.state
    ensures db.nextId == if r.Ok? then old(db.nextId) + 1 else old(db.nextId)
  {
    if !W.ShipmentFieldsGiven(input) {
      return Err(MissingFields);
    }
    if userId !in db.users {
      return Err(UserNotFound);
    }
    var user := db.users[userId];
    if user.credits.shipments <= 0 {
      return Err(NoShipmentsLeft);
    }
    if user.credits.amount < user.credits.cost {
      return Err(InsufficientCredits(user.credits.cost, user.credits.amount));
    }
    var id := db.nextId;
    var shipment := Shipment(userId, input.name.value, input.address.value, input.phone.value,
                             input.ref.value, input.observation, user.credits.cost);
    db.shipments := db.shipments[id := shipment];
    db.nextId := id + 1;

    var credits := user.credits;
    credits := credits.(shipments := credits.shipments - 1);
    credits := credits.(amount := credits.amount - credits.cost);
    db.users := db.users[userId := user.(credits := credits)];
    r := Ok(W.Created(id, credits.amount, credits.shipments));
  }

  /** `getUserShipments` (GET /users/{userId}/shipments): reads only. */
  method GetUserShipments(db: Store, userId: UserId) returns (r: map<ShipmentId, Shipment>)
    ensures forall id :: id in r <==> id in db.shipments && db.shipments[id].userId == userId
    ensures forall id :: id in r ==> r[id] == db.shipments[id]
  {
    r := Of(db.shipments, W.OwnerOf, userId);
  }

  /** `getShipment` (GET /shipments/{shipmentId}): the shipment and its products; reads only. */
  method GetShipment(db: Store, shipmentId: ShipmentId) returns (r: Result<Details>)
    ensures r.Ok? <==> shipmentId in db.shipments
    ensures r.Err? ==> r.error == ShipmentNotFound
    ensures r.Ok? ==> r.value.shipment == db.shipments[shipmentId]
    ensures r.Ok? ==> forall id :: id in r.value.products <==>
                        id in db.products && db.products[id].shipmentId == shipmentId
    ensures r.Ok? ==> forall id :: id in r.value.products ==> r.value.products[id] == db.products[id]
  {
    if shipmentId !in db.shipments {
      return Err(ShipmentNotFound);
    }
    r := Ok(Details(db.shipments[shipmentId], ProductsOf(db.products, shipmentId)));
  }

  /** `deleteShipment` (DELETE /shipments/{shipmentId}). */
  method DeleteShipment(db: Store, shipmentId: ShipmentId) returns (r: Result<W.Refunded>)
    requires db.Valid()
    modifies db
    ensures db.Valid() && db.nextId == old(db.nextId)
    ensures var step := W.DeleteShipment(old(db.Snapshot()), shipmentId);
            r == step.reply && db.Snapshot() == step.state
  {
    if shipmentId !in db.shipments {
      return Err(ShipmentNotFound);
    }
    var shipment := db.shipments[shipmentId];
    if shipment.userId !in db.users {
      return Err(UserNotFound);
    }
    var user := db.users[shipment.userId];
    var shipmentCost := shipment.cost;
    var credits := user.credits;
    credits := credits.(shipments := credits.shipments + 1);
    if shipmentCost > 0.0 {
      credits := credits.(amount := credits.amount + shipmentCost);
    }
    db.users := db.users[shipment.userId := user.(credits := credits)];
    db.products := NotOf(db.products, ShipmentOf, shipmentId);
    db.shipments := db.shipments - {shipmentId};
    r := Ok(W.Refunded(shipmentCost, credits.amount, credits.shipments));
  }

  /** `buyCredits` (POST /users/{userId}/credits). */
  method BuyCredits(db: Store, userId: UserId, plan: int) returns (r: Result<Credits>)
    requires db.Valid()
    modifies db
    ensures db.Valid() && db.nextId == old(db.nextId)
    ensures var step := W.BuyCredits(old(db.Snapshot()), userId, plan);
            r == step.reply && db.Snapshot() == step.state
  {
    if userId !in db.users {
      return Err(UserNotFound);
    }
    var user := db.users[userId];
    var chosen := Plan(plan);
    if chosen.None? {
      return Err(InvalidPlan);
    }
    var credits := chosen.value;
    db.users := db.users[userId := user.(credits := credits)];
    r := Ok(credits);
  }
}
