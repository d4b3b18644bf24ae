/** What the workflows promise, one call at a time: the outcome of each
    workflow, its reply, and the rollback of a rejected call. */
module Ledger {
  import opened Records
  import opened Pricing
  import opened Sums
  import opened Weights
  import opened Workflows

  // ---------------------------------------------------------------------
  // Store invariants

  /** Every product's shipment and every shipment's owner exists. */
  ghost predicate Integrity(st: State)
  {
    && (forall id :: id in st.products ==> st.products[id].shipmentId in st.shipments)
    && (forall id :: id in st.shipments ==> st.shipments[id].userId in st.users)
  }

  /** Base rates and shipment charges are never negative. */
  ghost predicate NonNegativeCosts(st: State)
  {
    && (forall u :: u in st.users ==> st.users[u].credits.cost >= 0.0)
    && (forall id :: id in st.shipments ==> st.shipments[id].cost >= 0.0)
  }

  /** No stored shipment or product uses an id from `next` on. */
  ghost predicate FreshFrom(st: State, next: nat)
  {
    && (forall id :: id in st.shipments ==> id < next)
    && (forall id :: id in st.products ==> id < next)
  }

  ghost predicate Good(st: State, next: nat)
  {
    Integrity(st) && NonNegativeCosts(st) && FreshFrom(st, next)
  }

  /** A user's balance plus everything currently charged for their shipments. */
  ghost function Holdings(st: State, uid: UserId): real
    requires uid in st.users
  {
    st.users[uid].credits.amount + Total(Of(st.shipments, OwnerOf, uid), CostOf)
  }

  /** A shipment's charge is its owner's price for its total weight, or 0 once
      a deletion left no positive weight. */
  ghost predicate PricedShipment(st: State, sid: ShipmentId)
    requires sid in st.shipments
  {
    var s := st.shipments[sid];
    var totalWeight := TotalWeight(st.products, sid);
    && s.userId in st.users
    && (|| s.cost == CalculateCost(st.users[s.userId].credits.cost, totalWeight)
        || (totalWeight <= 0.0 && s.cost == 0.0))
  }

  ghost predicate Priced(st: State)
  {
    forall sid :: sid in st.shipments ==> PricedShipment(st, sid)
  }

  /** The balance of a shipment's owner plus that shipment's charge. */
  ghost function Exposure(st: State, sid: ShipmentId): real
    requires sid in st.shipments && st.shipments[sid].userId in st.users
  {
    st.users[st.shipments[sid].userId].credits.amount + st.shipments[sid].cost
  }

  // ---------------------------------------------------------------------
  // addProduct

  /** The outcome of `addProduct`: the gates in order; then the shipment is
      re-priced from its old total plus the new weight, and the call is
      rejected exactly when the refunded balance is below the new price, with
      nothing changed; otherwise the product, the price and the balance are
      stored, and balance plus charge is what it was. */
  lemma AddProductOutcome(st: State, id: ProductId, sid: ShipmentId, input: ProductInput)
    requires id !in st.products
    ensures var step := AddProduct(st, id, sid, input);
      && (step.reply.Err? ==> step.state == st)
      && (!ProductFieldsGiven(input) ==> step.reply == Err(MissingFields))
      && (ProductFieldsGiven(input) && sid !in st.shipments ==> step.reply == Err(ShipmentNotFound))
      && (ProductFieldsGiven(input) && sid in st.shipments && st.shipments[sid].userId !in st.users
          ==> step.reply == Err(UserNotFound))
    ensures ProductFieldsGiven(input) && sid in st.shipments && st.shipments[sid].userId in st.users ==>
      var step := AddProduct(st, id, sid, input);
      var shipment := st.shipments[sid];
      var uid := shipment.userId;
      var credits := st.users[uid].credits;
      var totalWeight := TotalWeight(st.products, sid) + input.weight.value;
      var newCost := CalculateCost(credits.cost, totalWeight);
      && (step.reply.Err? <==> Refund(credits.amount, shipment.cost) < newCost)
      && (step.reply.Err? ==>
            step.reply.error == InsufficientCreditsForWeight(newCost, credits.amount, totalWeight))
      && (step.reply.Ok? ==>
            && step.reply.value.productId == id
            && step.reply.value.totalWeight == totalWeight
            && step.reply.value.costMultiplier == Multiplier(totalWeight)
            && step.reply.value.shipmentCost == newCost
            && step.state.products == st.products[id := NewProduct(sid, input)]
            && step.state.shipments == st.shipments[sid := shipment.(cost := newCost)]
            && step.state.users == st.users[uid := WithAmount(st.users[uid], step.reply.value.remainingCredits)]
            && step.reply.value.remainingCredits >= 0.0
            && (shipment.cost >= 0.0 ==> Exposure(step.state, sid) == Exposure(st, sid)))
  {
    if ProductFieldsGiven(input) && sid in st.shipments {
      TotalWeightInsert(st.products, id, NewProduct(sid, input), sid);
    }
  }

  // ---------------------------------------------------------------------
  // updateProduct

  /** `updateProduct` replaces exactly the fields given; without a weight it
      touches neither the shipment nor the user. */
  lemma UpdateProductPatches(st: State, pid: ProductId, input: ProductInput)
    requires pid in st.products
    ensures var step := UpdateProduct(st, pid, input);
      var p := st.products[pid];
      step.reply.Ok? ==>
        var q := step.reply.value;
        && q.shipmentId == p.shipmentId
        && q.description == (if TextGiven(input.description) then input.description.value else p.description)
        && q.weight == (if WeightGiven(input.weight) then input.weight.value else p.weight)
        && q.packages == (if CountGiven(input.packages) then input.packages.value else p.packages)
        && q.deliveryDate == (if DateGiven(input.deliveryDate) then input.deliveryDate.value else p.deliveryDate)
        && step.state.products == st.products[pid := q]
    ensures !WeightGiven(input.weight) ==>
      var step := UpdateProduct(st, pid, input);
      && step.reply.Ok?
      && step.state.users == st.users
      && step.state.shipments == st.shipments
  {
  }

  /** `updateProduct`'s error paths: a missing product is not-found, and
      every rejection, the aborted re-pricing and a missing shipment or owner
      included, leaves the store exactly as it was. */
  lemma UpdateProductErrors(st: State, pid: ProductId, input: ProductInput)
    ensures var step := UpdateProduct(st, pid, input);
      && (step.reply.Err? ==> step.state == st)
      && (pid !in st.products ==> step.reply == Err(ProductNotFound))
      && (step.reply.Err? ==> step.reply.error == ProductNotFound || step.reply.error == Unexpected
                              || step.reply.error.InsufficientCreditsForWeight?)
      && (pid in st.products && WeightGiven(input.weight)
          && (st.products[pid].shipmentId !in st.shipments
              || st.shipments[st.products[pid].shipmentId].userId !in st.users)
          ==> step.reply == Err(Unexpected))
  {
  }

  /** With a weight, `updateProduct` re-prices from the whole product set: the
      total moves by the weight change, a price the refunded balance does not
      cover aborts the whole update (the other fields too), and a committed
      one keeps the owner's balance plus the charge. */
  lemma UpdateProductReprices(st: State, pid: ProductId, input: ProductInput)
    requires pid in st.products && WeightGiven(input.weight)
    requires st.products[pid].shipmentId in st.shipments
    requires st.shipments[st.products[pid].shipmentId].userId in st.users
    ensures
      var step := UpdateProduct(st, pid, input);
      var p := st.products[pid];
      var sid := p.shipmentId;
      var shipment := st.shipments[sid];
      var uid := shipment.userId;
      var credits := st.users[uid].credits;
      var totalWeight := TotalWeight(st.products, sid) - p.weight + input.weight.value;
      var newCost := CalculateCost(credits.cost, totalWeight);
      var available := Refund(credits.amount, shipment.cost);
      && (step.reply.Err? <==> available < newCost)
      && (step.reply.Err? ==>
            && step.state == st
            && step.reply.error == InsufficientCreditsForWeight(newCost, available - shipment.cost, totalWeight))
      && (step.reply.Ok? ==>
            && step.state.shipments == st.shipments[sid := shipment.(cost := newCost)]
            && step.state.users == st.users[uid := WithAmount(st.users[uid], available - newCost)]
            && newCost == CalculateCost(credits.cost, TotalWeight(step.state.products, sid))
            && available - newCost >= 0.0
            && (shipment.cost >= 0.0 ==> Exposure(step.state, sid) == Exposure(st, sid)))
  {
    var p := st.products[pid];
    TotalWeightUpdate(st.products, pid, Patch(p, input), p.shipmentId);
  }

  // ---------------------------------------------------------------------
  // deleteProduct

  /** `deleteProduct` is never rejected for want of credit: a stored product
      whose shipment and owner exist is always removed, the shipment is priced
      at 0 once no positive weight remains and otherwise at the tier price of
      what remains, and the owner's balance moves by the old charge minus the
      new one; when the price does not change, neither user nor shipment does. */
  lemma DeleteProductOutcome(st: State, pid: ProductId)
    ensures var step := DeleteProduct(st, pid);
      && (step.reply.Err? ==> step.state == st)
      && (step.reply.Err? ==> step.reply.error == ProductNotFound || step.reply.error == Unexpected)
      && (pid !in st.products ==> step.reply == Err(ProductNotFound))
    ensures pid in st.products && st.products[pid].shipmentId in st.shipments
            && st.shipments[st.products[pid].shipmentId].userId in st.users ==>
      var step := DeleteProduct(st, pid);
      var p := st.products[pid];
      var sid := p.shipmentId;
      var shipment := st.shipments[sid];
      var uid := shipment.userId;
      var credits := st.users[uid].credits;
      var totalWeight := TotalWeight(st.products, sid) - p.weight;
      var newCost := CostAfterDelete(credits.cost, totalWeight);
      && step.reply.Ok?
      && step.reply.value.totalWeight == totalWeight
      && step.reply.value.shipmentCost == step.state.shipments[sid].cost
      && step.reply.value.remainingCredits == step.state.users[uid].credits.amount
      && step.state.products == st.products - {pid}
      && (totalWeight <= 0.0 ==> step.state.shipments[sid].cost == 0.0)
      && (totalWeight > 0.0 ==> step.state.shipments[sid].cost == CalculateCost(credits.cost, totalWeight))
      && (shipment.cost == newCost ==> step.state.users == st.users && step.state.shipments == st.shipments)
      && (shipment.cost != newCost ==>
            && step.state.shipments == st.shipments[sid := shipment.(cost := newCost)]
            && step.state.users == st.users[uid := WithAmount(st.users[uid], step.reply.value.remainingCredits)])
      && (credits.cost >= 0.0 ==> Exposure(step.state, sid) == Exposure(st, sid))
  {
    if pid in st.products {
      TotalWeightRemove(st.products, pid, st.products[pid].shipmentId);
    }
  }

  /** With no sufficiency check, a deletion can overdraw the balance: here the
      base rate rose from 3 to 4.5 since the shipment was last priced. */
  lemma DeleteProductCanOverdraw()
    ensures
      var st := State(
        map[0 := User("u", "u@mail", Credits(0.0, 29, 4.5))],
        map[1 := Shipment(0, "s", "a", "p", "r", None, 3.0)],
        map[2 := Product(1, "d", 1.0, 1, Date("x")), 3 := Product(1, "d", 1.0, 1, Date("x"))]);
      var step := DeleteProduct(st, 2);
      step.reply.Ok? && step.state.users[0].credits.amount == -1.5
  {
    var p := Product(1, "d", 1.0, 1, Date("x"));
    var products := map[2 := p, 3 := p];
    assert products - {2} == map[][3 := p];
    TotalWeightNone(map[], 1);
    TotalWeightInsert(map[], 3, p, 1);
  }

  // ---------------------------------------------------------------------
  // createShipment

  /** `createShipment`'s gates, in order: fields, user, quota (whatever the
      balance), balance; a rejected call changes nothing. */
  lemma CreateShipmentGates(st: State, id: ShipmentId, uid: UserId, input: ShipmentInput)
    ensures var step := CreateShipment(st, id, uid, input);
      && (step.reply.Err? ==> step.state == st)
      && (!ShipmentFieldsGiven(input) ==> step.reply == Err(MissingFields))
      && (ShipmentFieldsGiven(input) && uid !in st.users ==> step.reply == Err(UserNotFound))
      && (ShipmentFieldsGiven(input) && uid in st.users && st.users[uid].credits.shipments <= 0
          ==> step.reply == Err(NoShipmentsLeft))
      && (ShipmentFieldsGiven(input) && uid in st.users && st.users[uid].credits.shipments > 0
          && st.users[uid].credits.amount < st.users[uid].credits.cost
          ==> step.reply == Err(InsufficientCredits(st.users[uid].credits.cost, st.users[uid].credits.amount)))
      && (ShipmentFieldsGiven(input) && uid in st.users && st.users[uid].credits.shipments > 0
          && st.users[uid].credits.amount >= st.users[uid].credits.cost
          ==> step.reply.Ok?)
  {
  }

  /** A created shipment belongs to the user, costs the base rate, has the
      request's fields, and is paid for with one unit of quota and its price. */
  lemma CreateShipmentCommit(st: State, id: ShipmentId, uid: UserId, input: ShipmentInput)
    ensures var step := CreateShipment(st, id, uid, input);
      step.reply.Ok? ==>
        var c := st.users[uid].credits;
        var s := step.state.shipments[id];
        && uid in st.users
        && step.reply.value == Created(id, c.amount - c.cost, c.shipments - 1)
        && s.userId == uid && s.cost == c.cost
        && s.name == input.name.value && s.address == input.address.value
        && s.phone == input.phone.value && s.ref == input.ref.value
        && s.observation == input.observation
        && step.state.shipments == st.shipments[id := s]
        && step.state.products == st.products
        && step.state.users == st.users[uid := st.users[uid].(credits := Credits(c.amount - c.cost, c.shipments - 1, c.cost))]
        && step.state.users[uid].credits.amount >= 0.0
  {
  }

  // ---------------------------------------------------------------------
  // deleteShipment

  /** `deleteShipment` gives back one unit of quota and a positive charge,
      removes the shipment and all its products, and changes nothing else. */
  lemma DeleteShipmentOutcome(st: State, sid: ShipmentId)
    ensures var step := DeleteShipment(st, sid);
      && (step.reply.Err? ==> step.state == st)
      && (sid !in st.shipments ==> step.reply == Err(ShipmentNotFound))
      && (sid in st.shipments && st.shipments[sid].userId !in st.users ==> step.reply == Err(UserNotFound))
    ensures sid in st.shipments && st.shipments[sid].userId in st.users ==>
      var step := DeleteShipment(st, sid);
      var s := st.shipments[sid];
      var user := st.users[s.userId];
      var c := user.credits;
      && step.reply == Ok(Refunded(s.cost, if s.cost > 0.0 then c.amount + s.cost else c.amount, c.shipments + 1))
      && step.state.users == st.users[s.userId := user.(credits :=
           Credits(if s.cost > 0.0 then c.amount + s.cost else c.amount, c.shipments + 1, c.cost))]
      && step.state.shipments == st.shipments - {sid}
      && (forall id :: id in step.state.products <==> id in st.products && st.products[id].shipmentId != sid)
      && (forall id :: id in step.state.products ==> step.state.products[id] == st.products[id])
  {
  }

  /** Creating a shipment and deleting it again restores the whole store,
      the user's credits included. */
  lemma {:induction false} CreateThenDeleteRestores(st: State, next: nat, uid: UserId, input: ShipmentInput)
    requires Good(st, next)
    ensures var created := CreateShipment(st, next, uid, input);
      created.reply.Ok? ==>
        var deleted := DeleteShipment(created.state, next);
        && deleted.reply.Ok?
        && deleted.state == st
        && deleted.state.users[uid].credits == st.users[uid].credits
  {
    var created := CreateShipment(st, next, uid, input);
    if created.reply.Ok? {
      var deleted := DeleteShipment(created.state, next);
      assert st.shipments[next := created.state.shipments[next]] - {next} == st.shipments;
      assert NotOf(st.products, ShipmentOf, next) == st.products;
      assert deleted.state.users == st.users;
    }
  }

  // ---------------------------------------------------------------------
  // buyCredits

  /** `buyCredits` replaces the credits block by the plan's, whatever was
      there before, and changes nothing else; unknown plans are rejected. */
  lemma BuyCreditsReplaces(st: State, uid: UserId, plan: int)
    ensures var step := BuyCredits(st, uid, plan);
      && (step.reply.Err? ==> step.state == st)
      && (uid !in st.users ==> step.reply == Err(UserNotFound))
      && (uid in st.users && plan !in {1, 2, 3} ==> step.reply == Err(InvalidPlan))
      && (uid in st.users && plan in {1, 2, 3} ==>
            && step.reply == Ok(Plan(plan).value)
            && step.state.users == st.users[uid := st.users[uid].(credits := Plan(plan).value)]
            && step.state.shipments == st.shipments
            && step.state.products == st.products)
  {
  }

  // ---------------------------------------------------------------------
  // A worked history

  /** A user with balance 10, quota 5 and base rate 5 creates a shipment
      (charged 5), adds a product of weight 4 (re-priced to 10 after the
      refund of 5, leaving 0), then adds one of weight 5: the total of 9 is
      priced 15, the refunded balance of 10 does not cover it, and the second
      addition is rejected with nothing changed. */
  lemma ScenarioSecondProductRejected()
    ensures
      var st := State(map[0 := User("u", "u@mail", Credits(10.0, 5, 5.0))], map[], map[]);
      var created := CreateShipment(st, 0, 0, ShipmentInput(Some("n"), Some("a"), Some("p"), Some("r"), None));
      var first := AddProduct(created.state, 1, 0, ProductInput(Some("d"), Some(4.0), Some(1), Some(Date("x"))));
      var second := AddProduct(first.state, 2, 0, ProductInput(Some("d"), Some(5.0), Some(1), Some(Date("x"))));
      && created.reply == Ok(Created(0, 5.0, 4))
      && created.state.shipments[0].cost == 5.0
      && first.reply.Ok?
      && first.reply.value.costMultiplier == 2
      && first.state.shipments[0].cost == 10.0
      && first.state.users[0].credits == Credits(0.0, 4, 5.0)
      && second.reply == Err(InsufficientCreditsForWeight(15.0, 0.0, 9.0))
      && second.state == first.state
  {
    var p1 := Product(0, "d", 4.0, 1, Date("x"));
    var p2 := Product(0, "d", 5.0, 1, Date("x"));
    TotalWeightNone(map[], 0);
    TotalWeightInsert(map[], 1, p1, 0);
    TotalWeightInsert(map[][1 := p1], 2, p2, 0);
  }

  // ---------------------------------------------------------------------
  // Integrity makes the 500 paths unreachable

  /** In a store whose references all resolve, no workflow dereferences a
      missing record. */
  lemma NoUnexpected(st: State, next: nat, pid: ProductId, sid: ShipmentId, pinput: ProductInput)
    requires Integrity(st)
    ensures UpdateProduct(st, pid, pinput).reply != Err(Unexpected)
    ensures DeleteProduct(st, pid).reply != Err(Unexpected)
    ensures AddProduct(st, next, sid, pinput).reply != Err(UserNotFound)
    ensures DeleteShipment(st, sid).reply != Err(UserNotFound)
  {
  }
}
