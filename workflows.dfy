/** What each mutating workflow of the two controllers does to the store, as a
    function from the state before to its reply and the state after. A workflow
    runs in one transaction: a rejected call leaves the state it started from. */
module Workflows {
  import opened Records
  import opened Pricing
  import opened Sums
  import opened Weights

  /** The three collections of the database. */
  datatype State = State(
    users: map<UserId, User>,
    shipments: map<ShipmentId, Shipment>,
    products: map<ProductId, Product>)

  /** A workflow's reply and the state it leaves behind. */
  datatype Step<T> = Step(reply: Result<T>, state: State)

  /** The data part of each successful reply. */
  datatype Added = Added(
    productId: ProductId, totalWeight: real, shipmentCost: real,
    costMultiplier: int, remainingCredits: real)
  datatype Removed = Removed(totalWeight: real, shipmentCost: real, remainingCredits: real)
  datatype Created = Created(shipmentId: ShipmentId, remainingCredits: real, remainingShipments: int)
  datatype Refunded = Refunded(shipmentCost: real, availableCredits: real, availableShipments: int)

  function OwnerOf(s: Shipment): UserId { s.userId }

  function CostOf(s: Shipment): real { s.cost }

  /** The balance after giving back a shipment's previous charge; only a
      positive cost is given back. */
  function Refund(amount: real, cost: real): real
  {
    if cost > 0.0 then amount + cost else amount
  }

  function WithAmount(u: User, amount: real): User
  {
    u.(credits := u.credits.(amount := amount))
  }

  predicate ProductFieldsGiven(input: ProductInput)
  {
    && TextGiven(input.description)
    && WeightGiven(input.weight)
    && CountGiven(input.packages)
    && DateGiven(input.deliveryDate)
  }

  function NewProduct(sid: ShipmentId, input: ProductInput): Product
    requires ProductFieldsGiven(input)
  {
    Product(sid, input.description.value, input.weight.value, input.packages.value, input.deliveryDate.value)
  }

  /** The product after a partial update: each field given (truthy) in the
      request replaces the stored one. */
  function Patch(p: Product, input: ProductInput): Product
  {
    p.(description := if TextGiven(input.description) then input.description.value else p.description,
       weight := if WeightGiven(input.weight) then input.weight.value else p.weight,
       packages := if CountGiven(input.packages) then input.packages.value else p.packages,
       deliveryDate := if DateGiven(input.deliveryDate) then input.deliveryDate.value else p.deliveryDate)
  }

  predicate ShipmentFieldsGiven(input: ShipmentInput)
  {
    TextGiven(input.name) && TextGiven(input.address) && TextGiven(input.phone) && TextGiven(input.ref)
  }

  /** `addProduct`: insert the product under the fresh id `id`, re-price the
      shipment from its new total weight, give back the old charge and take the
      new one; if the refunded balance does not cover it, roll everything back. */
  ghost function AddProduct(st: State, id: ProductId, sid: ShipmentId, input: ProductInput): Step<Added>
  {
    if !ProductFieldsGiven(input) then Step(Err(MissingFields), st)
    else if sid !in st.shipments then Step(Err(ShipmentNotFound), st)
    else if st.shipments[sid].userId !in st.users then Step(Err(UserNotFound), st)
    else
      var shipment := st.shipments[sid];
      var uid := shipment.userId;
      var user := st.users[uid];
      var products := st.products[id := NewProduct(sid, input)];
      var totalWeight := TotalWeight(products, sid);
      var newCost := CalculateCost(user.credits.cost, totalWeight);
      var available := Refund(user.credits.amount, shipment.cost);
      if available < newCost then
        Step(Err(InsufficientCreditsForWeight(newCost, user.credits.amount, totalWeight)), st)
      else
        var remaining := available - newCost;
        Step(Ok(Added(id, totalWeight, newCost, Multiplier(totalWeight), remaining)),
             State(st.users[uid := WithAmount(user, remaining)],
                   st.shipments[sid := shipment.(cost := newCost)],
                   products))
  }

  /** `updateProduct`: patch the given fields; when a weight is given, re-price
      the shipment as `addProduct` does, rolling the whole update back if the
      refunded balance does not cover the new price. */
  ghost function UpdateProduct(st: State, pid: ProductId, input: ProductInput): Step<Product>
  {
    if pid !in st.products then Step(Err(ProductNotFound), st)
    else
      var product := Patch(st.products[pid], input);
      var products := st.products[pid := product];
      var sid := product.shipmentId;
      if !WeightGiven(input.weight) then Step(Ok(product), st.(products := products))
      else if sid !in st.shipments || st.shipments[sid].userId !in st.users then
        Step(Err(Unexpected), st)
      else
        var shipment := st.shipments[sid];
        var uid := shipment.userId;
        var user := st.users[uid];
        var available := Refund(user.credits.amount, shipment.cost);
        var totalWeight := TotalWeight(products, sid);
        var newCost := CalculateCost(user.credits.cost, totalWeight);
        if available < newCost then
          Step(Err(InsufficientCreditsForWeight(newCost, available - shipment.cost, totalWeight)), st)
        else
          Step(Ok(product),
               State(st.users[uid := WithAmount(user, available - newCost)],
                     st.shipments[sid := shipment.(cost := newCost)],
                     products))
  }

  /** `deleteProduct`: remove the product and, if the price of what remains
      differs from the shipment's cost, swap the old charge for the new one,
      with no check that the balance covers it. */
  ghost function DeleteProduct(st: State, pid: ProductId): Step<Removed>
  {
    if pid !in st.products then Step(Err(ProductNotFound), st)
    else
      var sid := st.products[pid].shipmentId;
      var products := st.products - {pid};
      if sid !in st.shipments || st.shipments[sid].userId !in st.users then
        Step(Err(Unexpected), st)
      else
        var shipment := st.shipments[sid];
        var uid := shipment.userId;
        var user := st.users[uid];
        var totalWeight := TotalWeight(products, sid);
        var newCost := CostAfterDelete(user.credits.cost, totalWeight);
        if shipment.cost != newCost then
          var remaining := user.credits.amount + shipment.cost - (if newCost > 0.0 then newCost else 0.0);
          Step(Ok(Removed(totalWeight, newCost, remaining)),
               State(st.users[uid := WithAmount(user, remaining)],
                     st.shipments[sid := shipment.(cost := newCost)],
                     products))
        else
          Step(Ok(Removed(totalWeight, shipment.cost, user.credits.amount)), st.(products := products))
  }

  /** `createShipment`: gate on the quota, then on the balance, then store the
      shipment under the fresh id `id` at the base rate and charge it. */
  function CreateShipment(st: State, id: ShipmentId, uid: UserId, input: ShipmentInput): Step<Created>
  {
    if !ShipmentFieldsGiven(input) then Step(Err(MissingFields), st)
    else if uid !in st.users then Step(Err(UserNotFound), st)
    else
      var user := st.users[uid];
      var c := user.credits;
      if c.shipments <= 0 then Step(Err(NoShipmentsLeft), st)
      else if c.amount < c.cost then Step(Err(InsufficientCredits(c.cost, c.amount)), st)
      else
        var shipment := Shipment(uid, input.name.value, input.address.value, input.phone.value,
                                 input.ref.value, input.observation, c.cost);
        var credits := c.(shipments := c.shipments - 1, amount := c.amount - c.cost);
        Step(Ok(Created(id, credits.amount, credits.shipments)),
             st.(users := st.users[uid := user.(credits := credits)],
                 shipments := st.shipments[id := shipment]))
  }

  /** `deleteShipment`: give back one unit of quota and the shipment's charge,
      and delete the shipment together with its products. */
  function DeleteShipment(st: State, sid: ShipmentId): Step<Refunded>
  {
    if sid !in st.shipments then Step(Err(ShipmentNotFound), st)
    else if st.shipments[sid].userId !in st.users then Step(Err(UserNotFound), st)
    else
      var shipment := st.shipments[sid];
      var uid := shipment.userId;
      var user := st.users[uid];
      var c := user.credits;
      var credits := c.(shipments := c.shipments + 1, amount := Refund(c.amount, shipment.cost));
      Step(Ok(Refunded(shipment.cost, credits.amount, credits.shipments)),
           State(st.users[uid := user.(credits := credits)],
                 st.shipments - {sid},
                 NotOf(st.products, ShipmentOf, sid)))
  }

  /** `buyCredits`: replace the user's credits block by the chosen plan's. */
  function BuyCredits(st: State, uid: UserId, plan: int): Step<Credits>
  {
    if uid !in st.users then Step(Err(UserNotFound), st)
    else
      match Plan(plan)
      case None => Step(Err(InvalidPlan), st)
      case Some(c) => Step(Ok(c), st.(users := st.users[uid := st.users[uid].(credits := c)]))
  }
}
