/** Sequences of requests: the store invariants hold after any of them, and,
    as long as no credits are bought, no user's balance-plus-charges moves and
    every shipment stays priced by its products' weight. */
module History {
  import opened Records
  import opened Pricing
  import opened Sums
  import opened Weights
  import W = Workflows
  import opened Ledger

  /** The mutating routes, with their path parameters and bodies. */
  datatype Request =
    | BuyCredits(userId: UserId, plan: int)
    | CreateShipment(userId: UserId, shipment: ShipmentInput)
    | DeleteShipment(shipmentId: ShipmentId)
    | AddProduct(shipmentId: ShipmentId, product: ProductInput)
    | UpdateProduct(productId: ProductId, product: ProductInput)
    | DeleteProduct(productId: ProductId)

  /** The state after serving one request; `next` is the id a new document gets. */
  ghost function Apply(st: W.State, next: nat, req: Request): W.State
  {
    match req
    case BuyCredits(u, plan) => W.BuyCredits(st, u, plan).state
    case CreateShipment(u, input) => W.CreateShipment(st, next, u, input).state
    case DeleteShipment(sid) => W.DeleteShipment(st, sid).state
    case AddProduct(sid, input) => W.AddProduct(st, next, sid, input).state
    case UpdateProduct(pid, input) => W.UpdateProduct(st, pid, input).state
    case DeleteProduct(pid) => W.DeleteProduct(st, pid).state
  }

  /** The state after serving the requests one after the other. */
  ghost function Run(st: W.State, next: nat, reqs: seq<Request>): W.State
    decreases |reqs|
  {
    if reqs == [] then st else Run(Apply(st, next, reqs[0]), next + 1, reqs[1..])
  }

  ghost predicate NoPurchase(reqs: seq<Request>)
  {
    forall i :: 0 <= i < |reqs| ==> !reqs[i].BuyCredits?
  }

  /** What one request preserves: the invariants always; balances plus
      charges and pricing unless it buys credits. */
  ghost predicate Keeps(st: W.State, st': W.State, next: nat, req: Request)
    requires Good(st, next)
  {
    && Good(st', next + 1)
    && st'.users.Keys == st.users.Keys
    && (!req.BuyCredits? ==> forall u :: u in st.users ==> Holdings(st', u) == Holdings(st, u))
    && (!req.BuyCredits? && Priced(st) ==> Priced(st'))
  }

  /** The reconciliation step the product workflows share: the shipment's
      charge becomes `newCost`, its owner's balance moves by the old charge
      minus the new one, no other shipment's total weight changes, and every
      product still points at a stored shipment. */
  ghost predicate Reconciles(st: W.State, st': W.State, next: nat, sid: ShipmentId, newCost: real)
  {
    && sid in st.shipments && st.shipments[sid].userId in st.users
    && (var s := st.shipments[sid];
        var user := st.users[s.userId];
        && st'.shipments == st.shipments[sid := s.(cost := newCost)]
        && st'.users == st.users[s.userId := W.WithAmount(user, user.credits.amount + s.cost - newCost)])
    && newCost >= 0.0
    && (forall id :: id in st'.products ==> st'.products[id].shipmentId in st.shipments && id < next + 1)
    && (forall sid' :: sid' != sid ==> TotalWeight(st'.products, sid') == TotalWeight(st.products, sid'))
  }

  /** A reconciliation step keeps the invariants and every user's holdings,
      and keeps the store priced when the new charge is the price of the new
      total. */
  lemma ReconcileKeeps(st: W.State, st': W.State, next: nat, sid: ShipmentId, newCost: real)
    requires Good(st, next) && Reconciles(st, st', next, sid, newCost)
    ensures Good(st', next + 1)
    ensures st'.users.Keys == st.users.Keys
    ensures forall u :: u in st.users ==> Holdings(st', u) == Holdings(st, u)
    ensures Priced(st) && PricedShipment(st', sid) ==> Priced(st')
  {
    ReconcileGood(st, st', next, sid, newCost);
    ReconcileHoldings(st, st', next, sid, newCost);
    if Priced(st) && PricedShipment(st', sid) {
      ReconcilePriced(st, st', next, sid, newCost);
    }
  }

  lemma ReconcileGood(st: W.State, st': W.State, next: nat, sid: ShipmentId, newCost: real)
    requires Good(st, next) && Reconciles(st, st', next, sid, newCost)
    ensures Good(st', next + 1) && st'.users.Keys == st.users.Keys
  {
    var s := st.shipments[sid];
    var uid := s.userId;
    assert st'.users.Keys == st.users.Keys;
    assert st'.shipments.Keys == st.shipments.Keys;
    forall id | id in st'.shipments
      ensures st'.shipments[id].userId in st'.users && st'.shipments[id].cost >= 0.0
    {
      if id != sid {
        assert st'.shipments[id] == st.shipments[id];
      }
    }
    forall u | u in st'.users
      ensures st'.users[u].credits.cost >= 0.0
    {
      if u != uid {
        assert st'.users[u] == st.users[u];
      }
    }
  }

  lemma ReconcileHoldings(st: W.State, st': W.State, next: nat, sid: ShipmentId, newCost: real)
    requires Good(st, next) && Reconciles(st, st', next, sid, newCost)
    ensures forall u :: u in st.users ==> Holdings(st', u) == Holdings(st, u)
  {
    var s' := st'.shipments[sid];
    forall u | u in st.users
      ensures Holdings(st', u) == Holdings(st, u)
    {
      OfUpdate(st.shipments, sid, s', W.OwnerOf, u, W.CostOf);
    }
  }

  lemma ReconcilePriced(st: W.State, st': W.State, next: nat, sid: ShipmentId, newCost: real)
    requires Good(st, next) && Reconciles(st, st', next, sid, newCost)
    requires Priced(st) && PricedShipment(st', sid)
    ensures Priced(st')
  {
    forall sid' | sid' in st'.shipments
      ensures PricedShipment(st', sid')
    {
      if sid' != sid {
        assert PricedShipment(st, sid');
      }
    }
  }

  lemma AddProductKeeps(st: W.State, next: nat, sid: ShipmentId, input: ProductInput)
    requires Good(st, next)
    ensures Keeps(st, Apply(st, next, AddProduct(sid, input)), next, AddProduct(sid, input))
  {
    var step := W.AddProduct(st, next, sid, input);
    if step.reply.Ok? {
      AddProductCommitted(st, next, sid, input);
      var st' := step.state;
      var p := W.NewProduct(sid, input);
      forall sid' | sid' != sid
        ensures TotalWeight(st'.products, sid') == TotalWeight(st.products, sid')
      {
        TotalWeightInsert(st.products, next, p, sid');
      }
      ReconcileKeeps(st, st', next, sid, st'.shipments[sid].cost);
    }
  }

  /** The committed state of `addProduct`, written out. */
  lemma AddProductCommitted(st: W.State, next: nat, sid: ShipmentId, input: ProductInput)
    requires Good(st, next)
    requires W.AddProduct(st, next, sid, input).reply.Ok?
    ensures
      var step := W.AddProduct(st, next, sid, input);
      var shipment := st.shipments[sid];
      var uid := shipment.userId;
      var user := st.users[uid];
      var products := st.products[next := W.NewProduct(sid, input)];
      var newCost := CalculateCost(user.credits.cost, TotalWeight(products, sid));
      && W.ProductFieldsGiven(input) && sid in st.shipments && uid in st.users
      && step.state.products == products
      && step.state.shipments == st.shipments[sid := shipment.(cost := newCost)]
      && step.state.users == st.users[uid := W.WithAmount(user, user.credits.amount + shipment.cost - newCost)]
      && newCost >= 0.0
  {
  }

  lemma UpdateProductKeeps(st: W.State, next: nat, pid: ProductId, input: ProductInput)
    requires Good(st, next)
    ensures Keeps(st, Apply(st, next, UpdateProduct(pid, input)), next, UpdateProduct(pid, input))
  {
    var step := W.UpdateProduct(st, pid, input);
    if step.reply.Ok? {
      var st' := step.state;
      var p := W.Patch(st.products[pid], input);
      var sid := p.shipmentId;
      UpdateProductCommitted(st, next, pid, input);
      forall sid' | sid' != sid
        ensures TotalWeight(st'.products, sid') == TotalWeight(st.products, sid')
      {
        TotalWeightUpdate(st.products, pid, p, sid');
      }
      if !WeightGiven(input.weight) {
        TotalWeightUpdate(st.products, pid, p, sid);
        assert PricedShipment(st, sid) ==> PricedShipment(st', sid);
      }
      ReconcileKeeps(st, st', next, sid, st'.shipments[sid].cost);
    }
  }

  /** The committed state of `updateProduct`, written out; without a weight
      it is a reconciliation that charges the old price again. */
  lemma UpdateProductCommitted(st: W.State, next: nat, pid: ProductId, input: ProductInput)
    requires Good(st, next)
    requires W.UpdateProduct(st, pid, input).reply.Ok?
    ensures
      var step := W.UpdateProduct(st, pid, input);
      var p := W.Patch(st.products[pid], input);
      var sid := p.shipmentId;
      var shipment := st.shipments[sid];
      var uid := shipment.userId;
      var user := st.users[uid];
      var newCost := if WeightGiven(input.weight)
                     then CalculateCost(user.credits.cost, TotalWeight(st.products[pid := p], sid))
                     else shipment.cost;
      && pid in st.products && sid in st.shipments && uid in st.users
      && step.state.products == st.products[pid := p]
      && step.state.shipments == st.shipments[sid := shipment.(cost := newCost)]
      && step.state.users == st.users[uid := W.WithAmount(user, user.credits.amount + shipment.cost - newCost)]
      && newCost >= 0.0
  {
    var p := W.Patch(st.products[pid], input);
    var sid := p.shipmentId;
    var shipment := st.shipments[sid];
    var user := st.users[shipment.userId];
    if !WeightGiven(input.weight) {
      assert st.shipments[sid := shipment.(cost := shipment.cost)] == st.shipments;
      assert W.WithAmount(user, user.credits.amount + shipment.cost - shipment.cost) == user;
      assert st.users[shipment.userId := user] == st.users;
    }
  }

  lemma DeleteProductKeeps(st: W.State, next: nat, pid: ProductId)
    requires Good(st, next)
    ensures Keeps(st, Apply(st, next, DeleteProduct(pid)), next, DeleteProduct(pid))
  {
    var step := W.DeleteProduct(st, pid);
    if step.reply.Ok? {
      var st' := step.state;
      var sid := st.products[pid].shipmentId;
      DeleteProductCommitted(st, next, pid);
      forall sid' | sid' != sid
        ensures TotalWeight(st'.products, sid') == TotalWeight(st.products, sid')
      {
        TotalWeightRemove(st.products, pid, sid');
      }
      ReconcileKeeps(st, st', next, sid, st'.shipments[sid].cost);
    }
  }

  /** The committed state of `deleteProduct`, written out: the new charge is
      the price after the deletion, whether or not it changed. */
  lemma DeleteProductCommitted(st: W.State, next: nat, pid: ProductId)
    requires Good(st, next)
    requires W.DeleteProduct(st, pid).reply.Ok?
    ensures
      var step := W.DeleteProduct(st, pid);
      var sid := st.products[pid].shipmentId;
      var shipment := st.shipments[sid];
      var uid := shipment.userId;
      var user := st.users[uid];
      var newCost := CostAfterDelete(user.credits.cost, TotalWeight(st.products - {pid}, sid));
      && pid in st.products && sid in st.shipments && uid in st.users
      && step.state.products == st.products - {pid}
      && step.state.shipments == st.shipments[sid := shipment.(cost := newCost)]
      && step.state.users == st.users[uid := W.WithAmount(user, user.credits.amount + shipment.cost - newCost)]
      && newCost >= 0.0
      && PricedShipment(step.state, sid)
  {
    var sid := st.products[pid].shipmentId;
    var shipment := st.shipments[sid];
    var user := st.users[shipment.userId];
    var newCost := CostAfterDelete(user.credits.cost, TotalWeight(st.products - {pid}, sid));
    if shipment.cost == newCost {
      assert st.shipments[sid := shipment.(cost := newCost)] == st.shipments;
      assert W.WithAmount(user, user.credits.amount + shipment.cost - newCost) == user;
      assert st.users[shipment.userId := user] == st.users;
    }
  }

  /** `createShipment`'s committed step: shipment `s` is stored under the
      fresh id `next` at its owner's base rate, and the owner pays that rate
      and one unit of quota. */
  ghost predicate Opens(st: W.State, st': W.State, next: nat, s: Shipment)
  {
    && s.userId in st.users
    && (var user := st.users[s.userId];
        var c := user.credits;
        && s.cost == c.cost
        && st'.users == st.users[s.userId := user.(credits := c.(shipments := c.shipments - 1, amount := c.amount - c.cost))])
    && st'.shipments == st.shipments[next := s]
    && st'.products == st.products
  }

  lemma CreateShipmentKeeps(st: W.State, next: nat, uid: UserId, input: ShipmentInput)
    requires Good(st, next)
    ensures Keeps(st, Apply(st, next, CreateShipment(uid, input)), next, CreateShipment(uid, input))
  {
    var step := W.CreateShipment(st, next, uid, input);
    var st' := step.state;
    if step.reply.Ok? {
      var s := st'.shipments[next];
      assert Opens(st, st', next, s);
      OpensGood(st, st', next, s);
      OpensHoldings(st, st', next, s);
      if Priced(st) {
        OpensPriced(st, st', next, s);
      }
    }
  }

  lemma OpensGood(st: W.State, st': W.State, next: nat, s: Shipment)
    requires Good(st, next) && Opens(st, st', next, s)
    ensures Good(st', next + 1) && st'.users.Keys == st.users.Keys
  {
    var uid := s.userId;
    assert st'.users.Keys == st.users.Keys;
    forall id | id in st'.shipments
      ensures st'.shipments[id].userId in st'.users && st'.shipments[id].cost >= 0.0
    {
      if id != next {
        assert st'.shipments[id] == st.shipments[id];
      }
    }
    forall u | u in st'.users
      ensures st'.users[u].credits.cost >= 0.0
    {
      if u != uid {
        assert st'.users[u] == st.users[u];
      }
    }
  }

  lemma OpensHoldings(st: W.State, st': W.State, next: nat, s: Shipment)
    requires Good(st, next) && Opens(st, st', next, s)
    ensures forall u :: u in st.users ==> Holdings(st', u) == Holdings(st, u)
  {
    forall u | u in st.users
      ensures Holdings(st', u) == Holdings(st, u)
    {
      OfInsert(st.shipments, next, s, W.OwnerOf, u, W.CostOf);
    }
  }

  lemma OpensPriced(st: W.State, st': W.State, next: nat, s: Shipment)
    requires Good(st, next) && Opens(st, st', next, s) && Priced(st)
    ensures Priced(st')
  {
    TotalWeightNone(st.products, next);
    forall sid' | sid' in st'.shipments
      ensures PricedShipment(st', sid')
    {
      if sid' != next {
        assert PricedShipment(st, sid');
      }
    }
  }

  /** `deleteShipment`'s committed step: shipment `sid` and its products go,
      and its owner gets back one unit of quota and the charge, if positive. */
  ghost predicate Closes(st: W.State, st': W.State, sid: ShipmentId)
  {
    && sid in st.shipments && st.shipments[sid].userId in st.users
    && (var s := st.shipments[sid];
        var user := st.users[s.userId];
        var c := user.credits;
        st'.users == st.users[s.userId := user.(credits := c.(shipments := c.shipments + 1, amount := W.Refund(c.amount, s.cost)))])
    && st'.shipments == st.shipments - {sid}
    && st'.products == NotOf(st.products, ShipmentOf, sid)
  }

  lemma DeleteShipmentKeeps(st: W.State, next: nat, sid: ShipmentId)
    requires Good(st, next)
    ensures Keeps(st, Apply(st, next, DeleteShipment(sid)), next, DeleteShipment(sid))
  {
    var step := W.DeleteShipment(st, sid);
    var st' := step.state;
    if step.reply.Ok? {
      assert Closes(st, st', sid);
      ClosesGood(st, st', next, sid);
      ClosesHoldings(st, st', next, sid);
      if Priced(st) {
        ClosesPriced(st, st', next, sid);
      }
    }
  }

  lemma ClosesGood(st: W.State, st': W.State, next: nat, sid: ShipmentId)
    requires Good(st, next) && Closes(st, st', sid)
    ensures Good(st', next + 1) && st'.users.Keys == st.users.Keys
  {
    var uid := st.shipments[sid].userId;
    assert st'.users.Keys == st.users.Keys;
    forall id | id in st'.products
      ensures st'.products[id].shipmentId in st'.shipments && id < next + 1
    {
      assert st'.products[id] == st.products[id];
    }
    forall id | id in st'.shipments
      ensures st'.shipments[id].userId in st'.users && st'.shipments[id].cost >= 0.0
    {
      assert st'.shipments[id] == st.shipments[id];
    }
    forall u | u in st'.users
      ensures st'.users[u].credits.cost >= 0.0
    {
      if u != uid {
        assert st'.users[u] == st.users[u];
      }
    }
  }

  lemma ClosesHoldings(st: W.State, st': W.State, next: nat, sid: ShipmentId)
    requires Good(st, next) && Closes(st, st', sid)
    ensures forall u :: u in st.users ==> Holdings(st', u) == Holdings(st, u)
  {
    forall u | u in st.users
      ensures Holdings(st', u) == Holdings(st, u)
    {
      OfRemove(st.shipments, sid, W.OwnerOf, u, W.CostOf);
    }
  }

  lemma ClosesPriced(st: W.State, st': W.State, next: nat, sid: ShipmentId)
    requires Good(st, next) && Closes(st, st', sid) && Priced(st)
    ensures Priced(st')
  {
    forall sid' | sid' in st'.shipments
      ensures PricedShipment(st', sid')
    {
      var s := st.shipments[sid'];
      assert st'.shipments[sid'] == s;
      assert s.userId in st.users;
      assert st'.users[s.userId].credits.cost == st.users[s.userId].credits.cost;
      TotalWeightCascade(st.products, sid, sid');
      assert PricedShipment(st, sid');
    }
  }

  lemma BuyCreditsKeeps(st: W.State, next: nat, uid: UserId, plan: int)
    requires Good(st, next)
    ensures Keeps(st, Apply(st, next, BuyCredits(uid, plan)), next, BuyCredits(uid, plan))
  {
  }

  lemma ApplyKeeps(st: W.State, next: nat, req: Request)
    requires Good(st, next)
    ensures Keeps(st, Apply(st, next, req), next, req)
  {
    match req
    case BuyCredits(u, plan) => BuyCreditsKeeps(st, next, u, plan);
    case CreateShipment(u, input) => CreateShipmentKeeps(st, next, u, input);
    case DeleteShipment(sid) => DeleteShipmentKeeps(st, next, sid);
    case AddProduct(sid, input) => AddProductKeeps(st, next, sid, input);
    case UpdateProduct(pid, input) => UpdateProductKeeps(st, next, pid, input);
    case DeleteProduct(pid) => DeleteProductKeeps(st, next, pid);
  }

  /** Over any sequence of requests the invariants hold and the users stay;
      without a credit purchase every user's balance plus the charges on
      their shipments is conserved (no refund is dropped, no charge is taken
      twice) and a priced store stays priced. */
  lemma {:induction false} RunKeeps(st: W.State, next: nat, reqs: seq<Request>)
    requires Good(st, next)
    ensures Good(Run(st, next, reqs), next + |reqs|)
    ensures Run(st, next, reqs).users.Keys == st.users.Keys
    ensures NoPurchase(reqs) ==>
      forall u :: u in st.users ==> Holdings(Run(st, next, reqs), u) == Holdings(st, u)
    ensures NoPurchase(reqs) && Priced(st) ==> Priced(Run(st, next, reqs))
    decreases |reqs|
  {
    if reqs != [] {
      var st1 := Apply(st, next, reqs[0]);
      ApplyKeeps(st, next, reqs[0]);
      RunKeeps(st1, next + 1, reqs[1..]);
      if NoPurchase(reqs) {
        assert !reqs[0].BuyCredits?;
        assert NoPurchase(reqs[1..]) by {
          forall i | 0 <= i < |reqs[1..]| ensures !reqs[1..][i].BuyCredits? {
            assert reqs[1..][i] == reqs[i + 1];
          }
        }
      }
    }
  }

  /** Buying credits re-rates a user without re-pricing their shipments, so
      a priced store need not stay priced. */
  lemma BuyCreditsUnprices()
    ensures
      var st := W.State(
        map[0 := User("u", "u@mail", Credits(10.0, 3, 3.0))],
        map[1 := Shipment(0, "s", "a", "p", "r", None, 3.0)],
        map[]);
      && Good(st, 2) && Priced(st)
      && !Priced(Apply(st, 2, BuyCredits(0, 1)))
  {
    var st := W.State(
      map[0 := User("u", "u@mail", Credits(10.0, 3, 3.0))],
      map[1 := Shipment(0, "s", "a", "p", "r", None, 3.0)],
      map[]);
    TotalWeightNone(st.products, 1);
    assert PricedShipment(st, 1);
    var st' := Apply(st, 2, BuyCredits(0, 1));
    assert st'.products == st.products;
    assert !PricedShipment(st', 1);
  }
}
