/** The total weight of a shipment: the sum of the weights of the products
    whose `shipmentId` is that shipment. */
module Weights {
  import opened Records
  import opened Sums

  function ShipmentOf(p: Product): ShipmentId { p.shipmentId }

  function Weight(p: Product): real { p.weight }

  /** The products stored under one shipment, as the lookup by shipment id returns them. */
  function ProductsOf(products: map<ProductId, Product>, sid: ShipmentId): (r: map<ProductId, Product>)
    ensures forall id :: id in r <==> id in products && products[id].shipmentId == sid
    ensures forall id :: id in r ==> r[id] == products[id]
  {
    Of(products, ShipmentOf, sid)
  }

  ghost function TotalWeight(products: map<ProductId, Product>, sid: ShipmentId): real
  {
    Total(ProductsOf(products, sid), Weight)
  }

  /** Inserting a product adds its weight to its own shipment's total only. */
  lemma TotalWeightInsert(products: map<ProductId, Product>, id: ProductId, p: Product, sid: ShipmentId)
    requires id !in products
    ensures TotalWeight(products[id := p], sid)
         == TotalWeight(products, sid) + (if p.shipmentId == sid then p.weight else 0.0)
  {
    OfInsert(products, id, p, ShipmentOf, sid, Weight);
  }

  /** Deleting a product takes its weight off its own shipment's total only. */
  lemma TotalWeightRemove(products: map<ProductId, Product>, id: ProductId, sid: ShipmentId)
    requires id in products
    ensures TotalWeight(products - {id}, sid)
         == TotalWeight(products, sid) - (if products[id].shipmentId == sid then products[id].weight else 0.0)
  {
    OfRemove(products, id, ShipmentOf, sid, Weight);
  }

  /** Changing a product in place (same shipment) moves its shipment's total by the weight change. */
  lemma TotalWeightUpdate(products: map<ProductId, Product>, id: ProductId, p: Product, sid: ShipmentId)
    requires id in products && p.shipmentId == products[id].shipmentId
    ensures TotalWeight(products[id := p], sid)
         == TotalWeight(products, sid)
            + (if p.shipmentId == sid then p.weight - products[id].weight else 0.0)
  {
    OfUpdate(products, id, p, ShipmentOf, sid, Weight);
  }

  /** A shipment without products weighs nothing. */
  lemma TotalWeightNone(products: map<ProductId, Product>, sid: ShipmentId)
    requires forall id :: id in products ==> products[id].shipmentId != sid
    ensures TotalWeight(products, sid) == 0.0
  {
    OfNone(products, ShipmentOf, sid, Weight);
  }

  /** Removing all products of one shipment leaves every other shipment's total alone. */
  lemma TotalWeightCascade(products: map<ProductId, Product>, gone: ShipmentId, sid: ShipmentId)
    requires sid != gone
    ensures TotalWeight(NotOf(products, ShipmentOf, gone), sid) == TotalWeight(products, sid)
  {
    NotOfFrame(products, ShipmentOf, gone, sid);
  }
}
