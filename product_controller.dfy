/** The product routes: each mutation changes the store step by step inside one
    transaction and is proved to leave exactly the state `Workflows` describes. */
module ProductController {
  import opened Records
  import opened Pricing
  import opened Sums
  import opened Weights
  import opened Db
  import W = Workflows

  /** `calculateTotalWeight`: find the shipment's products and add up their weights. */
  method CalculateTotalWeight(db: Store, shipmentId: ShipmentId) returns (totalWeight: real)
    ensures totalWeight == TotalWeight(db.products, shipmentId)
  {
    var products := ProductsOf(db.products, shipmentId);
    totalWeight := 0.0;
    var pending := products.Keys;
    while pending != {}
      invariant pending <= products.Keys
      invariant totalWeight + Sum(products, pending, Weight) == Total(products, Weight)
      decreases pending
    {
      var id :| id in pending;
      SumPick(products, pending, Weight, id);
      totalWeight := totalWeight + products[id].weight;
      pending := pending - {id};
    }
  }

  /** `addProduct` (POST /shipments/{shipmentId}/products). */
  method AddProduct(db: Store, shipmentId: ShipmentId, input: ProductInput) returns (r: Result<W.Added>)
    requires db.Valid()
    modifies db
    ensures db.Valid()
    ensures var step := W.AddProduct(old(db.Snapshot()), old(db.nextId), shipmentId, input);
            r == step.reply && db.Snapshot() == step.state
    ensures db.nextId == if r.Ok? then old(db.nextId) + 1 else old(db.nextId)
  {
    if !W.ProductFieldsGiven(input) {
      return Err(MissingFields);
    }
    if shipmentId !in db.shipments {
      return Err(ShipmentNotFound);
    }
    var shipment := db.shipments[shipmentId];
    if shipment.userId !in db.users {
      return Err(UserNotFound);
    }
    var user := db.users[shipment.userId];

    var before := db.products;
    var id := db.nextId;
    var product := Product(shipmentId, input.description.value, input.weight.value,
                           input.packages.value, input.deliveryDate.value);
    db.products := db.products[id := product];

    var totalWeight := CalculateTotalWeight(db, shipmentId);
    var costMultiplier := 1;
    if totalWeight > 6.0 {
      costMultiplier := 3;
    } else if totalWeight > 3.0 {
      costMultiplier := 2;
    }
    var baseCost := user.credits.cost;
    var oldCost := shipment.cost;
    var newCost := baseCost * costMultiplier as real;
    assert costMultiplier == Multiplier(totalWeight);
    assert newCost == CalculateCost(baseCost, totalWeight);

    var amount := user.credits.amount;
    if oldCost > 0.0 {
      amount := amount + oldCost;
    }
    if amount < newCost {
      // the new product is deleted again and the transaction aborted, which
      // leaves the collection as it was before the call
      db.products := before;
      if oldCost > 0.0 {
        amount := amount - oldCost;
      }
      return Err(InsufficientCreditsForWeight(newCost, amount, totalWeight));
    }

    db.shipments := db.shipments[shipmentId := shipment.(cost := newCost)];
    amount := amount - newCost;
    db.users := db.users[shipment.userId := W.WithAmount(user, amount)];
    db.nextId := id + 1;
    r := Ok(W.Added(id, totalWeight, newCost, costMultiplier, amount));
  }

  /** The field-by-field update of `updateProduct`: a field given in the
      request overwrites the stored one. */
  method PatchFields(stored: Product, input: ProductInput) returns (product: Product)
    ensures product == W.Patch(stored, input)
  {
    product := stored;
    if TextGiven(input.description) { product := product.(description := input.description.value); }
    if WeightGiven(input.weight) { product := product.(weight := input.weight.value); }
    if CountGiven(input.packages) { product := product.(packages := input.packages.value); }
    if DateGiven(input.deliveryDate) { product := product.(deliveryDate := input.deliveryDate.value); }
  }

  /** `updateProduct` (PUT /products/{productId}). */
  method UpdateProduct(db: Store, productId: ProductId, input: ProductInput) returns (r: Result<Product>)
    requires db.Valid()
    modifies db
    ensures db.Valid() && db.nextId == old(db.nextId)
    ensures var step := W.UpdateProduct(old(db.Snapshot()), productId, input);
            r == step.reply && db.Snapshot() == step.state
  {
    if productId !in db.products {
      return Err(ProductNotFound);
    }
    var before := db.products;
    var product := PatchFields(db.products[productId], input);
    db.products := db.products[productId := product];

    if WeightGiven(input.weight) {
      var shipmentId := product.shipmentId;
      if shipmentId !in db.shipments || db.shipments[shipmentId].userId !in db.users {
        // dereferencing the missing record throws; the transaction is aborted
        db.products := before;
        return Err(Unexpected);
      }
      var shipment := db.shipments[shipmentId];
      var user := db.users[shipment.userId];
      var amount := user.credits.amount;
      if shipment.cost > 0.0 {
        amount := amount + shipment.cost;
      }
      var totalWeight := CalculateTotalWeight(db, shipmentId);
      var costMultiplier := 1;
      if totalWeight > 6.0 {
        costMultiplier := 3;
      } else if totalWeight > 3.0 {
        costMultiplier := 2;
      }
      var newCost := user.credits.cost * costMultiplier as real;
      assert newCost == CalculateCost(user.credits.cost, totalWeight);
      if amount < newCost {
        // the old weight is written back and the transaction aborted
        db.products := before;
        amount := amount - shipment.cost;
        return Err(InsufficientCreditsForWeight(newCost, amount, totalWeight));
      }
      db.shipments := db.shipments[shipmentId := shipment.(cost := newCost)];
      amount := amount - newCost;
      db.users := db.users[shipment.userId := W.WithAmount(user, amount)];
    }
    r := Ok(product);
  }

  /** `deleteProduct` (DELETE /products/{productId}). */
  method DeleteProduct(db: Store, productId: ProductId) returns (r: Result<W.Removed>)
    requires db.Valid()
    modifies db
    ensures db.Valid() && db.nextId == old(db.nextId)
    ensures var step := W.DeleteProduct(old(db.Snapshot()), productId);
            r == step.reply && db.Snapshot() == step.state
  {
    if productId !in db.products {
      return Err(ProductNotFound);
    }
    var before := db.products;
    var shipmentId := db.products[productId].shipmentId;
    db.products := db.products - {productId};

    if shipmentId !in db.shipments || db.shipments[shipmentId].userId !in db.users {
      // dereferencing the missing record throws; the transaction is aborted
      db.products := before;
      return Err(Unexpected);
    }
    var shipment := db.shipments[shipmentId];
    var user := db.users[shipment.userId];
    var totalWeight := CalculateTotalWeight(db, shipmentId);
    var costMultiplier := 1;
    if totalWeight > 6.0 {
      costMultiplier := 3;
    } else if totalWeight > 3.0 {
      costMultiplier := 2;
    }
    var baseCost := user.credits.cost;
    var newCost := if totalWeight > 0.0 then baseCost * costMultiplier as real else 0.0;

    var amount := user.credits.amount;
    if shipment.cost != newCost {
      amount := amount + shipment.cost;
      shipment := shipment.(cost := newCost);
      db.shipments := db.shipments[shipmentId := shipment];
      if newCost > 0.0 {
        amount := amount - newCost;
      }
      db.users := db.users[shipment.userId := W.WithAmount(user, amount)];
    }
    r := Ok(W.Removed(totalWeight, shipment.cost, amount));
  }

  /** `getShipmentProducts` (GET /shipments/{shipmentId}/products): reads only. */
  method GetShipmentProducts(db: Store, shipmentId: ShipmentId) returns (r: map<ProductId, Product>)
    ensures forall id :: id in r <==> id in db.products && db.products[id].shipmentId == shipmentId
    ensures forall id :: id in r ==> r[id] == db.products[id]
  {
    r := ProductsOf(db.products, shipmentId);
  }
}
