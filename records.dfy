/** The records kept by the shipment store (users, shipments, products),
    the request bodies the workflows accept, and their outcomes. */
module Records {

  /** Mongo ObjectIds, treated as abstract keys. */
  type UserId = nat
  type ShipmentId = nat
  type ProductId = nat

  datatype Option<+T> = None | Some(value: T)

  /** A user's prepaid block: the balance, the number of shipments the plan
      still allows, and the base rate charged per shipment. */
  datatype Credits = Credits(amount: real, shipments: int, cost: real)

  datatype User = User(name: string, email: string, credits: Credits)

  /** A delivery date as received; its conversion to a calendar date is not modelled. */
  datatype Date = Date(text: string)

  /** A shipment; `cost` is the price last charged to its owner (0 by default). */
  datatype Shipment = Shipment(
    userId: UserId,
    name: string,
    address: string,
    phone: string,
    ref: string,
    observation: Option<string>,
    cost: real)

  datatype Product = Product(
    shipmentId: ShipmentId,
    description: string,
    weight: real,
    packages: int,
    deliveryDate: Date)

  /** Request body of POST /users/{userId}/shipments: every field may be absent. */
  datatype ShipmentInput = ShipmentInput(
    name: Option<string>,
    address: Option<string>,
    phone: Option<string>,
    ref: Option<string>,
    observation: Option<string>)

  /** Request body of POST /shipments/{id}/products and PUT /products/{id}. */
  datatype ProductInput = ProductInput(
    description: Option<string>,
    weight: Option<real>,
    packages: Option<int>,
    deliveryDate: Option<Date>)

  // JavaScript truthiness of a request-body field: absent, "" and 0 are all falsy.

  predicate TextGiven(v: Option<string>) { v.Some? && v.value != "" }

  predicate WeightGiven(v: Option<real>) { v.Some? && v.value != 0.0 }

  predicate CountGiven(v: Option<int>) { v.Some? && v.value != 0 }

  predicate DateGiven(v: Option<Date>) { v.Some? && v.value.text != "" }

  /** The outcomes the controllers report instead of a stored change. */
  datatype Error =
    | MissingFields                 // 400: a required field is absent or falsy
    | UserNotFound                  // 404
    | ShipmentNotFound              // 404
    | ProductNotFound               // 404
    | NoShipmentsLeft               // 400: the plan's shipment quota is used up
    | InsufficientCredits(required: real, available: real)
    | InsufficientCreditsForWeight(required: real, available: real, totalWeight: real)
    | InvalidPlan                   // 400: plan other than 1, 2 or 3
    | Unexpected                    // 500: a record the code dereferences is missing

  datatype Result<+T> = Ok(value: T) | Err(error: Error)
}
