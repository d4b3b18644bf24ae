# Postmail credit and cost reconciliation

Postmail is a shipment service. Users hold a prepaid block of credits: a
balance (`amount`), a shipment quota (`shipments`) and a base rate (`cost`).
Each shipment belongs to a user and records the price last charged for it.
Each product belongs to a shipment and has a weight. A shipment's price is
the owner's base rate times a tier multiplier of its total product weight:
3 above 6, 2 above 3, otherwise 1.

Adding a product, and updating one with a new weight, re-sums the
shipment's weights and refunds the old charge. It then charges the new price,
or rejects the change and aborts the transaction. An update without a weight
changes only the product. Deleting a product re-sums the remaining weights.
If the price changes, it swaps the old charge for the new one, and it never
rejects. Creating a shipment charges the base rate and one unit of quota.
Deleting a shipment gives back the unit of quota and the shipment's current
charge, if that charge is positive. The current charge may be a re-priced
multiple of the base rate. The shipment's products are deleted with it.
Buying credits installs one of three fixed plans.

The project has these modules:

- `Records`: the stored records and request bodies. It also has JavaScript
  truthiness for request fields: absent, `""` and `0` all count as missing.
- `Pricing`: the tier rule and the plan table.
- `Sums` and `Weights`: a shipment's total weight, as a sum over a finite map.
- `Workflows`: each mutating route as a function from a store state to a
  reply and the next state.
- `Db.Store`: the database as a class with one map field per collection.
- `ProductController` and `ShipmentController`: the routes as methods on a
  `Store`. They change its fields step by step. Each one is proved to leave
  exactly the state its workflow function describes.
- `Ledger`: the outcome of each workflow.
- `History`: what holds across any sequence of requests.
  - The store invariants always hold.
  - A user's holdings are their balance plus the charges on their
    shipments. Without a credit purchase, every user's holdings stay the same.
  - Without a credit purchase, a store where every shipment is charged its
    tier price stays that way.

A transaction is atomic. A rejected call returns an error and leaves the
store exactly as it found it. This holds even where the code undoes its own
writes before aborting (the compensating product delete in `addProduct`, the
weight write-back in `updateProduct`).

The code has some behaviours worth knowing about. The model follows the code
in each case:

- The `available` figure in `addProduct`'s rejection is the balance before
  the refund. The rejection paths of `addProduct` and `updateProduct` both
  undo the refund before aborting.
  `updateProduct` also subtracts the old charge again, even when that charge
  is not positive.
- `addProduct`, `updateProduct` and `deleteShipment` give back only a
  positive charge. `deleteProduct` gives back the stored charge whatever its
  sign, and takes off only a positive new one.
- `createShipment` charges the base rate for an empty shipment. That is the
  tier price of weight 0.
- `deleteProduct` has no sufficiency check. `Ledger.DeleteProductCanOverdraw`
  gives a concrete store where the balance ends at -1.5.
- `buyCredits` replaces the user's base rate without re-pricing their
  shipments. It is the one request that can leave a shipment charged
  something other than its tier price (`History.BuyCreditsUnprices`).
- The plan must equal the number 1, 2 or 3 exactly; the code compares with a
  `switch`, which is strict.

## Model

| member | source | states |
|---|---|---|
| Pricing.Multiplier | src/controllers/ProductController.js:17-28 | the multiplier is always 1, 2 or 3 |
| Pricing.CalculateCost | src/controllers/ProductController.js:17-28 | at a non-negative base rate the price lies between the base rate and three times it |
| Pricing.Tiers | src/controllers/ProductController.js:104-113 | multiplier 3 exactly when weight > 6, 2 exactly when 3 < weight <= 6, 1 exactly when weight <= 3; price is base times multiplier; weight 3 costs the base, weight 6 twice the base, 6.01 three times |
| Pricing.CostMonotone | src/controllers/ProductController.js:104-113 | at a non-negative base rate a heavier shipment never costs less |
| Pricing.CostAfterDelete | src/controllers/ProductController.js:323-332 | at a non-negative base rate the price after a deletion lies between 0 and the tier price of what remains; at a positive rate it is 0 exactly when no positive weight remains |
| Pricing.Plan | src/controllers/ShipmentController.js:297-317 | exactly plans 1, 2 and 3 exist; each has positive amount and quota, and its per-shipment cost times the quota is its amount |
| Pricing.PlanTable | src/controllers/ShipmentController.js:297-317 | plan 1 is {135, 30, 4.5}, plan 2 is {160, 40, 4}, plan 3 is {180, 60, 3} |
| Weights.ProductsOf | src/controllers/ProductController.js:30-32 | exactly the products whose shipmentId is the shipment, unchanged |
| Weights.TotalWeightInsert | src/controllers/ProductController.js:95-101 | inserting a product adds its weight to its own shipment's total and to no other |
| Weights.TotalWeightRemove | src/controllers/ProductController.js:315-320 | deleting a product takes its weight off its own shipment's total and off no other |
| Weights.TotalWeightUpdate | src/controllers/ProductController.js:221-235 | changing a product's weight moves its shipment's total by the difference and no other total |
| Weights.TotalWeightNone | src/controllers/ProductController.js:30-39 | a shipment without products weighs 0 |
| Weights.TotalWeightCascade | src/controllers/ShipmentController.js:249 | deleting all products of one shipment leaves every other shipment's total unchanged |
| ProductController.CalculateTotalWeight | src/controllers/ProductController.js:30-39 | the loop returns exactly the sum of the weights of the products whose shipmentId is the shipment |
| ProductController.AddProduct | src/controllers/ProductController.js:41-167 | the step-by-step insert, re-price, refund, check and charge (or compensating delete and abort) leaves exactly the reply and store of `Workflows.AddProduct`; ids stay fresh |
| ProductController.PatchFields | src/controllers/ProductController.js:220-223 | each field given (truthy) in the request replaces the stored one, the others are kept |
| ProductController.UpdateProduct | src/controllers/ProductController.js:194-288 | the patch and, with a weight, the re-price or write-back and abort leave exactly the reply and store of `Workflows.UpdateProduct` |
| ProductController.DeleteProduct | src/controllers/ProductController.js:290-368 | the delete, re-price and unchecked charge swap leave exactly the reply and store of `Workflows.DeleteProduct` |
| ProductController.GetShipmentProducts | src/controllers/ProductController.js:169-192 | returns exactly the shipment's products; reads only |
| ShipmentController.CheckCredit | src/controllers/ShipmentController.js:16-49 | succeeds exactly when the user exists, with that user's credits block; otherwise user-not-found; reads only |
| ShipmentController.CreateShipment | src/controllers/ShipmentController.js:51-143 | the gates, insert and two debits leave exactly the reply and store of `Workflows.CreateShipment`; ids stay fresh |
| ShipmentController.GetUserShipments | src/controllers/ShipmentController.js:145-168 | returns exactly the user's shipments; reads only |
| ShipmentController.GetShipment | src/controllers/ShipmentController.js:170-204 | succeeds exactly when the shipment exists, with the shipment and exactly its products; otherwise shipment-not-found; reads only |
| ShipmentController.DeleteShipment | src/controllers/ShipmentController.js:206-274 | the refund, quota restore and cascading delete leave exactly the reply and store of `Workflows.DeleteShipment` |
| ShipmentController.BuyCredits | src/controllers/ShipmentController.js:276-340 | leaves exactly the reply and store of `Workflows.BuyCredits` |
| Ledger.AddProductOutcome | src/controllers/ProductController.js:55-143 | gates in order (fields, shipment, user) with no change. The new price is the tier price of the old total plus the new weight. Rejection happens exactly when the refunded balance is below it, and carries required = new price, available = the balance before the call, and the total. On success the reply carries the new price, the product, price and balance are stored, the balance is >= 0, and at a non-negative charge balance plus charge is unchanged |
| Ledger.UpdateProductPatches | src/controllers/ProductController.js:208-227 | exactly the given fields change, the shipment link does not; without a weight the update always succeeds and neither users nor shipments change |
| Ledger.UpdateProductErrors | src/controllers/ProductController.js:208-263 | a missing product is not-found; with a weight, a missing shipment or owner is the 500 path; every error (not-found, 500, insufficient credit) leaves the store exactly as it was |
| Ledger.UpdateProductReprices | src/controllers/ProductController.js:227-269 | with a weight the total becomes old total minus old weight plus new weight. Rejection happens exactly when the refunded balance is below the new price, and leaves the whole store unchanged. A commit charges the tier price of the new product set, leaves a balance >= 0 and, at a non-negative charge, keeps balance plus charge |
| Ledger.DeleteProductOutcome | src/controllers/ProductController.js:303-346 | a missing product is not-found. Otherwise the deletion always succeeds. The charge becomes 0 when no positive weight remains, else the tier price of the rest. The reply carries the new charge and the owner's balance after the call. An unchanged price touches neither user nor shipment. At a non-negative rate, balance plus charge is kept |
| Ledger.DeleteProductCanOverdraw | src/controllers/ProductController.js:335-346 | with the base rate raised since the last pricing, a deletion succeeds and leaves the balance at -1.5 |
| Ledger.CreateShipmentGates | src/controllers/ShipmentController.js:65-98 | gates in order: required fields, user, quota (whatever the balance), balance with required and available; a rejection changes nothing; a request passing all four gates (balance at least the rate) is accepted |
| Ledger.CreateShipmentCommit | src/controllers/ShipmentController.js:109-121 | the reply carries the new id, the remaining balance and the remaining quota; the new shipment is the user's, has the request's fields and costs the base rate; quota drops by 1, balance by the rate and stays >= 0; nothing else changes |
| Ledger.DeleteShipmentOutcome | src/controllers/ShipmentController.js:219-251 | the reply carries the shipment's charge and the new balance and quota; quota + 1, a positive charge refunded, the shipment and exactly its products removed, nothing else changed |
| Ledger.CreateThenDeleteRestores | src/controllers/ShipmentController.js:109-251 | creating a shipment and deleting it again restores the whole store, the user's credits included |
| Ledger.BuyCreditsReplaces | src/controllers/ShipmentController.js:287-325 | the credits block is replaced by the plan's, not added to; any other plan or a missing user is an error with no change |
| Ledger.ScenarioSecondProductRejected | src/controllers/ProductController.js:95-136 | balance 10, rate 5: a shipment costs 5, a 4-unit product re-prices it to 10 leaving 0, and a further 5-unit product (total 9, price 15) is rejected with nothing changed |
| Ledger.NoUnexpected | src/controllers/ProductController.js:228-229 | in a store whose references resolve, no workflow reaches a missing shipment or user |
| History.ReconcileKeeps | src/controllers/ProductController.js:231-269 | a refund-and-recharge of one shipment keeps the invariants and every user's holdings, and keeps the store priced when the new charge is the tier price |
| History.AddProductKeeps | src/controllers/ProductController.js:95-143 | `addProduct` keeps the invariants, every user's holdings and pricing |
| History.UpdateProductKeeps | src/controllers/ProductController.js:220-269 | `updateProduct` keeps the invariants, every user's holdings and pricing |
| History.DeleteProductKeeps | src/controllers/ProductController.js:313-346 | `deleteProduct` keeps the invariants, every user's holdings and pricing |
| History.CreateShipmentKeeps | src/controllers/ShipmentController.js:109-121 | `createShipment` keeps the invariants, every user's holdings and pricing |
| History.DeleteShipmentKeeps | src/controllers/ShipmentController.js:239-251 | `deleteShipment` keeps the invariants, every user's holdings and pricing |
| History.BuyCreditsKeeps | src/controllers/ShipmentController.js:319-325 | `buyCredits` keeps the invariants and the set of users |
| History.RunKeeps | src/controllers/ProductController.js:41-368 | over any sequence of the six mutating routes, the product ones here and `createShipment`, `deleteShipment` and `buyCredits` at src/controllers/ShipmentController.js:51-340, the invariants hold and the users stay. Without a credit purchase every user's holdings are conserved, so no refund is dropped and no charge taken twice, and a priced store stays priced |
| History.BuyCreditsUnprices | src/controllers/ShipmentController.js:319-323 | buying credits can leave a shipment charged something other than its owner's new tier price |

## Left out

- HTTP handling: requests, status codes, messages and routes. Each outcome is a value of `Records.Error`. The 500 path appears only where a missing record is dereferenced (`Unexpected`).
- Id well-formedness checks: ids are abstract keys. Their early returns write nothing.
- Sessions and concurrency: each workflow is one atomic step on a snapshot. `Db.Store.nextId` stands in for ObjectId generation and supplies fresh ids.
- Number and date parsing, and floating point: amounts and weights are exact reals, and a delivery date is an uninterpreted text. A non-numeric (NaN) weight is not modelled.
- The User model file is not part of this model. The user record's shape (name, email, credits) is inferred from its uses.
- Schema extras are not modelled: timestamps, the never-changed `status` field, and validation beyond the fields the workflows use.
- The two value-holder classes for products and shipments only assemble records. They are folded into `Workflows.NewProduct` and the shipment built by `Workflows.CreateShipment`.
- ProductController.calculateCost prices a single product's own weight, and no workflow calls it. Its tier rule is `Pricing.CalculateCost`; the workflows apply that rule to the total weight.
- ShipmentController.GetUserShipments, ProductController.GetShipmentProducts and the `products` of ShipmentController.GetShipment are maps keyed by id rather than lists. The order of the results is not modelled.
