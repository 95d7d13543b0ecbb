/** The order lifecycle of server/routes/orders.js: creation with its
    per-item stock loop and pricing, reading one order, and cancellation with
    stock restoration. The item loop and the restoration loop are specified by
    the folds `TakeItems` and `Restock`, whose properties are proved here. */
module OrderRoutes {
  import opened Wrappers
  import opened Strings
  import opened Records
  import opened UserModel
  import opened Pricing
  import opened AuthMiddleware
  import Db

  datatype ItemRequest = ItemRequest(productId: Id, quantity: int)

  /** The state of the item loop: the products as saved so far, the lines
      processed so far, the running subtotal, and the reply that ended the
      loop early, if one did. */
  datatype Intake = Intake(products: map<Id, Product>, lines: seq<OrderLine>, subtotal: int, stopped: Option<Reply>)

  /** The order line recorded for `quantity` units of product `id`. */
  function LineFor(id: Id, p: Product, quantity: int): (l: OrderLine)
    ensures l.productId == id && l.quantity == quantity && l.price == p.price
    ensures l.total == l.price * l.quantity
  {
    OrderLine(id, p.sellerId, p.name, p.price, quantity, p.thumbnail, p.price * quantity)
  }

  /** A product with `q` units taken out of its stock and added to its sales. */
  function Shifted(p: Product, q: int): (r: Product)
    ensures r.stock == p.stock - q && r.sales == p.sales + q
    ensures r.(stock := p.stock, sales := p.sales) == p
  {
    p.(stock := p.stock - q, sales := p.sales + q)
  }

  lemma ShiftedTwice(p: Product, a: int, b: int)
    ensures Shifted(Shifted(p, a), b) == Shifted(p, a + b)
    ensures Shifted(p, 0) == p
  {
  }

  /** One pass of the item loop: look the product up, check its stock, then
      record the line and save the product with the stock taken out. */
  function Step(acc: Intake, item: ItemRequest): Intake {
    if acc.stopped.Some? then acc
    else if item.productId !in acc.products then
      acc.(stopped := Some(Reply(404, "Product " + item.productId + " not found")))
    else
      var p := acc.products[item.productId];
      if p.stock < item.quantity then
        acc.(stopped := Some(Reply(400, "Insufficient stock for " + p.name)))
      else
        Intake(acc.products[item.productId := Shifted(p, item.quantity)],
               acc.lines + [LineFor(item.productId, p, item.quantity)],
               acc.subtotal + p.price * item.quantity,
               None)
  }

  /** The item loop over `items`, starting from the stored products. */
  function TakeItems(products: map<Id, Product>, items: seq<ItemRequest>): Intake
    decreases |items|
  {
    if items == [] then Intake(products, [], 0, None)
    else Step(TakeItems(products, items[..|items| - 1]), items[|items| - 1])
  }

  /** Total units of product `id` over `lines`. */
  function Qty(lines: seq<OrderLine>, id: Id): int
    decreases |lines|
  {
    if lines == [] then 0
    else Qty(lines[..|lines| - 1], id) + (if lines[|lines| - 1].productId == id then lines[|lines| - 1].quantity else 0)
  }

  /** The sum of the line totals. */
  function LinesTotal(lines: seq<OrderLine>): int
    decreases |lines|
  {
    if lines == [] then 0 else LinesTotal(lines[..|lines| - 1]) + lines[|lines| - 1].total
  }

  lemma QtyAppend(lines: seq<OrderLine>, l: OrderLine, id: Id)
    ensures Qty(lines + [l], id) == Qty(lines, id) + (if l.productId == id then l.quantity else 0)
  {
    assert (lines + [l])[..|lines|] == lines;
  }

  /** Each line follows its item: the loop records the items' products and
      quantities in order, one line per item until it stops, and every item
      when it does not. */
  lemma {:induction false} TakeItemsLines(products: map<Id, Product>, items: seq<ItemRequest>)
    ensures var r := TakeItems(products, items);
      |r.lines| <= |items|
      && (r.stopped.None? ==> |r.lines| == |items|)
      && forall i :: 0 <= i < |r.lines| ==>
           r.lines[i].productId == items[i].productId && r.lines[i].quantity == items[i].quantity
           && r.lines[i].total == r.lines[i].price * r.lines[i].quantity
    decreases |items|
  {
    if items != [] {
      var front := items[..|items| - 1];
      TakeItemsLines(products, front);
      assert forall i :: 0 <= i < |front| ==> front[i] == items[i];
      var prev, item := TakeItems(products, front), items[|items| - 1];
      var r := TakeItems(products, items);
      if prev.stopped.None? && item.productId in prev.products && prev.products[item.productId].stock >= item.quantity {
        var l := LineFor(item.productId, prev.products[item.productId], item.quantity);
        assert r.lines == prev.lines + [l];
        assert forall i :: 0 <= i < |prev.lines| ==> r.lines[i] == prev.lines[i];
        assert r.lines[|prev.lines|] == l;
      } else {
        assert r.lines == prev.lines;
      }
    }
  }

  /** The subtotal is the sum of `price * quantity` over the processed lines. */
  lemma {:induction false} SubtotalIsLinesTotal(products: map<Id, Product>, items: seq<ItemRequest>)
    ensures TakeItems(products, items).subtotal == LinesTotal(TakeItems(products, items).lines)
    decreases |items|
  {
    if items != [] {
      var prev := TakeItems(products, items[..|items| - 1]);
      SubtotalIsLinesTotal(products, items[..|items| - 1]);
      var item := items[|items| - 1];
      var r := TakeItems(products, items);
      if prev.stopped.None? && item.productId in prev.products && prev.products[item.productId].stock >= item.quantity {
        var p := prev.products[item.productId];
        var l := LineFor(item.productId, p, item.quantity);
        assert r.lines == prev.lines + [l];
        assert r.subtotal == prev.subtotal + l.total;
        assert (prev.lines + [l])[..|prev.lines|] == prev.lines;
      } else {
        assert r.lines == prev.lines && r.subtotal == prev.subtotal;
      }
    }
  }

  /** The loop's whole effect on the products: the same products, each with
      its stock lowered and its sales raised by its units over the recorded
      lines, and nothing else about it changed. */
  lemma {:induction false} TakeItemsEffect(products: map<Id, Product>, items: seq<ItemRequest>)
    ensures var r := TakeItems(products, items);
      r.products.Keys == products.Keys
      && forall id :: id in products ==> r.products[id] == Shifted(products[id], Qty(r.lines, id))
    decreases |items|
  {
    if items != [] {
      var prev := TakeItems(products, items[..|items| - 1]);
      TakeItemsEffect(products, items[..|items| - 1]);
      var item := items[|items| - 1];
      var r := TakeItems(products, items);
      if prev.stopped.None? && item.productId in prev.products && prev.products[item.productId].stock >= item.quantity {
        var p := prev.products[item.productId];
        var l := LineFor(item.productId, p, item.quantity);
        assert r.lines == prev.lines + [l];
        forall id | id in products
          ensures r.products[id] == Shifted(products[id], Qty(r.lines, id))
        {
          QtyAppend(prev.lines, l, id);
          if id == item.productId {
            ShiftedTwice(products[id], Qty(prev.lines, id), item.quantity);
          }
        }
      }
    }
  }

  /** The stock check keeps every stock that was non-negative non-negative. */
  lemma {:induction false} TakeItemsKeepsStock(products: map<Id, Product>, items: seq<ItemRequest>)
    requires StockNonNegative(products)
    ensures StockNonNegative(TakeItems(products, items).products)
    decreases |items|
  {
    if items != [] {
      TakeItemsKeepsStock(products, items[..|items| - 1]);
    }
  }

  /** Once the loop has stopped it stays stopped with the same state. */
  lemma {:induction false} StoppedStaysStopped(products: map<Id, Product>, items: seq<ItemRequest>, k: nat)
    requires k <= |items| && TakeItems(products, items[..k]).stopped.Some?
    ensures TakeItems(products, items) == TakeItems(products, items[..k])
    decreases |items| - k
  {
    if k < |items| {
      var front := items[..|items| - 1];
      assert front[..k] == items[..k];
      StoppedStaysStopped(products, front, k);
    } else {
      assert items[..k] == items;
    }
  }

  /** Earlier saves persist: when item k is missing or short of stock, the
      products are those after the first k items, and item k's reply ends
      the request. */
  lemma {:induction false} StoppedKeepsEarlierSaves(products: map<Id, Product>, items: seq<ItemRequest>)
    requires TakeItems(products, items).stopped.Some?
    ensures exists k :: (0 <= k < |items|
      && TakeItems(products, items[..k]).stopped.None?
      && TakeItems(products, items).products == TakeItems(products, items[..k]).products
      && TakeItems(products, items).lines == TakeItems(products, items[..k]).lines)
    decreases |items|
  {
    var front := items[..|items| - 1];
    var prev := TakeItems(products, front);
    if prev.stopped.Some? {
      StoppedKeepsEarlierSaves(products, front);
      var k :| 0 <= k < |front| && TakeItems(products, front[..k]).stopped.None?
        && prev.products == TakeItems(products, front[..k]).products
        && prev.lines == TakeItems(products, front[..k]).lines;
      assert front[..k] == items[..k];
    } else {
      assert items[..|items| - 1] == front;
    }
  }

  /** One `$inc` of a restored line; a product that no longer exists is left alone. */
  function Restore(products: map<Id, Product>, l: OrderLine): map<Id, Product> {
    if l.productId in products then products[l.productId := Shifted(products[l.productId], -l.quantity)]
    else products
  }

  /** The restoration loop of cancel over `lines`. */
  function Restock(products: map<Id, Product>, lines: seq<OrderLine>): map<Id, Product>
    decreases |lines|
  {
    if lines == [] then products else Restore(Restock(products, lines[..|lines| - 1]), lines[|lines| - 1])
  }

  /** The restoration's effect: every product gets back its units over the
      lines, and no product appears or disappears. */
  lemma {:induction false} RestockEffect(products: map<Id, Product>, lines: seq<OrderLine>)
    ensures Restock(products, lines).Keys == products.Keys
    ensures forall id :: id in products ==> Restock(products, lines)[id] == Shifted(products[id], -Qty(lines, id))
    decreases |lines|
  {
    if lines != [] {
      var front := lines[..|lines| - 1];
      RestockEffect(products, front);
      forall id | id in products
        ensures Restock(products, lines)[id] == Shifted(products[id], -Qty(lines, id))
      {
        if id == lines[|lines| - 1].productId {
          ShiftedTwice(products[id], -Qty(front, id), -lines[|lines| - 1].quantity);
        }
      }
    }
  }

  /** Cancelling exactly inverts the item loop: restoring the recorded lines
      onto the products the loop saved gives back the original products. */
  lemma CancelInvertsIntake(products: map<Id, Product>, items: seq<ItemRequest>)
    ensures var r := TakeItems(products, items); Restock(r.products, r.lines) == products
  {
    var r := TakeItems(products, items);
    TakeItemsEffect(products, items);
    RestockEffect(r.products, r.lines);
    forall id | id in products ensures Restock(r.products, r.lines)[id] == products[id] {
      ShiftedTwice(products[id], Qty(r.lines, id), -Qty(r.lines, id));
    }
  }

  /** With non-negative prices and quantities the subtotal is not negative. */
  lemma SubtotalNonNegative(products: map<Id, Product>, items: seq<ItemRequest>)
    requires forall id :: id in products ==> products[id].price >= 0
    requires forall i :: 0 <= i < |items| ==> items[i].quantity >= 0
    ensures TakeItems(products, items).subtotal >= 0
  {
    IntakeNonNegative(products, items);
  }

  /** Prices that are not negative stay so through the loop, and so does
      the subtotal. */
  lemma {:induction false} IntakeNonNegative(products: map<Id, Product>, items: seq<ItemRequest>)
    requires forall id :: id in products ==> products[id].price >= 0
    requires forall i :: 0 <= i < |items| ==> items[i].quantity >= 0
    ensures var r := TakeItems(products, items);
      r.subtotal >= 0 && forall id :: id in r.products ==> r.products[id].price >= 0
    decreases |items|
  {
    if items != [] {
      var front := items[..|items| - 1];
      assert forall i :: 0 <= i < |front| ==> front[i] == items[i];
      IntakeNonNegative(products, front);
      StepNonNegative(TakeItems(products, front), items[|items| - 1]);
    }
  }

  /** One pass of the loop keeps prices and subtotal non-negative. */
  lemma StepNonNegative(acc: Intake, item: ItemRequest)
    requires acc.subtotal >= 0 && item.quantity >= 0
    requires forall id :: id in acc.products ==> acc.products[id].price >= 0
    ensures Step(acc, item).subtotal >= 0
    ensures forall id :: id in Step(acc, item).products ==> Step(acc, item).products[id].price >= 0
  {
    if acc.stopped.None? && item.productId in acc.products && acc.products[item.productId].stock >= item.quantity {
      var p := acc.products[item.productId];
      assert p.price * item.quantity >= 0;
    }
  }

  /** A negative quantity passes the stock check and raises the stock. */
  lemma NegativeQuantityRaisesStock(products: map<Id, Product>, id: Id, q: int)
    requires id in products && products[id].stock >= 0 && q < 0
    ensures id in TakeItems(products, [ItemRequest(id, q)]).products
    ensures TakeItems(products, [ItemRequest(id, q)]).products[id].stock > products[id].stock
  {
    assert [ItemRequest(id, q)][..0] == [];
  }

  datatype AddressInput = AddressInput(street: Option<string>, city: Option<string>, state: Option<string>, postalCode: Option<string>)

  datatype PaymentInput = PaymentInput(payMethod: Option<string>)

  datatype OrderRequest = OrderRequest(
    items: Option<seq<ItemRequest>>,
    deliveryAddress: Option<AddressInput>,
    payment: Option<PaymentInput>,
    notes: Option<string>)

  predicate ItemsGiven(req: OrderRequest) {
    req.items.Some? && req.items.value != []
  }

  predicate AddressGiven(req: OrderRequest) {
    req.deliveryAddress.Some? && Truthy(req.deliveryAddress.value.street) && Truthy(req.deliveryAddress.value.city)
  }

  /** The public order number: `ORD` and the last six digits of the clock. */
  function OrderNumber(now: nat): (s: string)
    ensures 3 <= |s| <= 9 && s[..3] == "ORD"
    ensures now >= 100000 ==> |s| == 9
    ensures forall i :: 3 <= i < |s| ==> IsDigit(s[i])
  {
    if now >= 100000 then
      assert Pow10(5) == 100000;
      NatToStringLength(now, 5);
      "ORD" + LastChars(NatToString(now), 6)
    else "ORD" + LastChars(NatToString(now), 6)
  }

  /** The method the order records: the requested one, `COD` when it is falsy. */
  function PaymentMethodOf(p: PaymentInput): (m: string)
    ensures Truthy(p.payMethod) ==> m == p.payMethod.value
    ensures !Truthy(p.payMethod) ==> m == "COD"
  {
    if Truthy(p.payMethod) then p.payMethod.value else "COD"
  }

  /** The order document handed to `Order.create`. */
  function NewOrder(number: string, userId: Id, user: User, intake: Intake, address: AddressInput,
                    payment: PaymentInput, notes: Option<string>): (o: Order)
    ensures o.status == "pending" && o.payment.status == "pending"
    ensures o.items == intake.lines && o.userId == userId && o.orderId == number
    ensures o.subtotal == intake.subtotal && o.total == OrderTotals(intake.subtotal).total
    ensures o.total == o.subtotal + o.shipping - o.discount
  {
    var t := OrderTotals(intake.subtotal);
    Order(number, userId, user.name, user.email, user.phone, intake.lines,
          t.subtotal, t.shipping, t.discount, t.total,
          DeliveryAddress(address.street.GetOr(""), address.city.GetOr(""), address.state.GetOr(""), address.postalCode.GetOr("")),
          PaymentInfo(PaymentMethodOf(payment), "pending", None, None),
          "pending", notes)
  }

  /** What follows a completed item loop: the order that `Order.create`
      stores, or nothing when reading the user's fields or `payment.method`
      throws, the schema refuses the order, or the order number is taken. */
  function Finish(users: map<Id, User>, orders: map<Id, Order>, userId: Id, req: OrderRequest,
                  now: nat, intake: Intake): (r: Option<Order>)
    requires AddressGiven(req)
    ensures r.Some? ==>
      userId in users && req.payment.Some? && OrderSchemaValid(r.value)
      && !OrderIdTaken(orders, r.value.orderId) && r.value.orderId == OrderNumber(now)
      && r.value.status == "pending" && r.value.payment.status == "pending"
      && r.value.items == intake.lines && r.value.total >= 0
    ensures r.None? <==>
      (userId !in users || req.payment.None?
       || !OrderSchemaValid(NewOrder(OrderNumber(now), userId, users[userId], intake, req.deliveryAddress.value, req.payment.value, req.notes))
       || OrderIdTaken(orders, OrderNumber(now)))
  {
    if userId !in users || req.payment.None? then None
    else
      var o := NewOrder(OrderNumber(now), userId, users[userId], intake, req.deliveryAddress.value, req.payment.value, req.notes);
      if !OrderSchemaValid(o) || OrderIdTaken(orders, o.orderId) then None else Some(o)
  }

  /** POST /api/orders for the caller `userId`; `newKey` is the id the
      database gives the new order and `now` the clock. */
  method CreateOrder(db: Db.Database, userId: Id, req: OrderRequest, now: nat, newKey: Id)
    returns (reply: Reply, created: Option<Order>)
    requires newKey !in db.orders
    modifies db
    ensures !ItemsGiven(req) ==>
      reply == Reply(400, "Cart is empty")
      && db.products == old(db.products) && db.orders == old(db.orders) && db.users == old(db.users)
    ensures ItemsGiven(req) && !AddressGiven(req) ==>
      reply == Reply(400, "Delivery address is required")
      && db.products == old(db.products) && db.orders == old(db.orders) && db.users == old(db.users)
    ensures ItemsGiven(req) && AddressGiven(req) ==>
      var t := TakeItems(old(db.products), req.items.value);
      db.products == t.products
      && (t.stopped.Some? ==>
            reply == t.stopped.value && created.None? && db.orders == old(db.orders) && db.users == old(db.users))
      && (t.stopped.None? ==>
            match Finish(old(db.users), old(db.orders), userId, req, now, t)
            case None =>
              reply == Reply(500, "Failed to create order") && created.None?
              && db.orders == old(db.orders) && db.users == old(db.users)
            case Some(o) =>
              reply == Reply(201, "Order created successfully") && created == Some(o)
              && db.orders == old(db.orders)[newKey := o]
              && db.users == old(db.users)[userId := old(db.users)[userId].(orders := old(db.users)[userId].orders + [newKey])])
  {
    created := None;
    if !ItemsGiven(req) {
      reply := Reply(400, "Cart is empty");
      return;
    }
    if !AddressGiven(req) {
      reply := Reply(400, "Delivery address is required");
      return;
    }
    var items := req.items.value;
    ghost var start := db.products;
    var subtotal := 0;
    var lines: seq<OrderLine> := [];
    var i := 0;
    while i < |items|
      invariant 0 <= i <= |items|
      invariant TakeItems(start, items[..i]) == Intake(db.products, lines, subtotal, None)
      invariant db.orders == old(db.orders) && db.users == old(db.users)
    {
      var item := items[i];
      assert items[..i + 1][..i] == items[..i];
      assert TakeItems(start, items[..i + 1]) == Step(Intake(db.products, lines, subtotal, None), item);
      if item.productId !in db.products {
        reply := Reply(404, "Product " + item.productId + " not found");
        StoppedStaysStopped(start, items, i + 1);
        return;
      }
      var product := db.products[item.productId];
      if product.stock < item.quantity {
        reply := Reply(400, "Insufficient stock for " + product.name);
        StoppedStaysStopped(start, items, i + 1);
        return;
      }
      var itemTotal := product.price * item.quantity;
      subtotal := subtotal + itemTotal;
      lines := lines + [LineFor(item.productId, product, item.quantity)];
      db.products := db.products[item.productId := Shifted(product, item.quantity)];
      i := i + 1;
    }
    assert items[..i] == items;
    var outcome := Finish(db.users, db.orders, userId, req, now, Intake(db.products, lines, subtotal, None));
    if outcome.None? {
      reply := Reply(500, "Failed to create order");
      return;
    }
    var order := outcome.value;
    db.orders := db.orders[newKey := order];
    var user := db.users[userId];
    db.users := db.users[userId := user.(orders := user.orders + [newKey])];
    reply := Reply(201, "Order created successfully");
    created := Some(order);
  }

  /** GET /api/orders/:id as written: the owner, or a caller whose request
      user carries the admin role, may read the order. */
  function GetOrderAsWritten(orders: map<Id, Order>, key: Id, caller: RequestUser): (a: Answer<Order>)
    ensures a.data.Some? <==> key in orders && (orders[key].userId == caller.id || caller.role == Some(Admin))
    ensures a.data.Some? ==> a.reply.status == 200 && a.data.value == orders[key]
    ensures key !in orders ==> a.reply == Reply(404, "Order not found")
    ensures key in orders && a.data.None? ==> a.reply == Reply(403, "Unauthorized")
  {
    if key !in orders then Answer(Reply(404, "Order not found"), None)
    else if orders[key].userId != caller.id && caller.role != Some(Admin) then Answer(Reply(403, "Unauthorized"), None)
    else Answer(Reply(200, "OK"), Some(orders[key]))
  }

  /** Behind `verifyToken` the request user never has a role, so as written
      an admin reads only their own orders. */
  lemma AdminBypassUnreachable(header: Option<string>, verify: string -> Option<Id>, orders: map<Id, Order>, key: Id)
    requires VerifyToken(header, verify).Pass?
    ensures var caller := VerifyToken(header, verify).user;
      GetOrderAsWritten(orders, key, caller).data.Some? <==> key in orders && orders[key].userId == caller.id
  {
  }

  /** A concrete admin refused another user's order. */
  lemma AdminRefusedOthersOrder(o: Order)
    requires o.userId == "cust1"
    ensures var users := map["adm1" := NewUser("adm1", "Root", "root@shop.in", "9876543210", "secret1").(role := Admin)];
      var caller := RequestUser("adm1", None);
      VerifyToken(Some("Bearer tok"), (t: string) => Some("adm1")) == Pass(caller)
      && caller.id in users && users[caller.id].role == Admin
      && GetOrderAsWritten(map["o1" := o], "o1", caller).reply == Reply(403, "Unauthorized")
  {
    var h := "Bearer tok";
    assert h == "Bearer" + [' '] + "tok";
    BearerIgnoresScheme("Bearer", "tok", "");
  }

  /** GET /api/orders/:id with the admin check the route evidently intends:
      the caller's role read from the stored user. */
  function GetOrder(orders: map<Id, Order>, users: map<Id, User>, key: Id, callerId: Id): (a: Answer<Order>)
    ensures a.data.Some? <==>
      key in orders && (orders[key].userId == callerId || (callerId in users && users[callerId].role == Admin))
    ensures a.data.Some? ==> a.reply.status == 200 && a.data.value == orders[key]
    ensures key !in orders ==> a.reply == Reply(404, "Order not found")
    ensures key in orders && a.data.None? ==> a.reply == Reply(403, "Unauthorized")
  {
    var role := if callerId in users then Some(users[callerId].role) else None;
    GetOrderAsWritten(orders, key, RequestUser(callerId, role))
  }

  /** With that reading an admin sees every order and anyone else only their own. */
  lemma GetOrderAdminSeesAll(orders: map<Id, Order>, users: map<Id, User>, key: Id, callerId: Id)
    requires key in orders
    ensures callerId in users && users[callerId].role == Admin ==> GetOrder(orders, users, key, callerId).data == Some(orders[key])
    ensures !(callerId in users && users[callerId].role == Admin) ==>
      (GetOrder(orders, users, key, callerId).data.Some? <==> orders[key].userId == callerId)
  {
  }

  /** The order statuses from which a cancel is allowed. */
  predicate CancellableStatus(s: string) {
    s == "pending" || s == "confirmed"
  }

  /** PUT /api/orders/:id/cancel for the caller `callerId`. */
  method CancelOrder(db: Db.Database, key: Id, callerId: Id) returns (reply: Reply, data: Option<Order>)
    modifies db
    ensures db.users == old(db.users)
    ensures key !in old(db.orders) ==>
      reply == Reply(404, "Order not found") && data.None?
      && db.orders == old(db.orders) && db.products == old(db.products)
    ensures key in old(db.orders) && old(db.orders)[key].userId != callerId ==>
      reply == Reply(403, "Unauthorized") && data.None?
      && db.orders == old(db.orders) && db.products == old(db.products)
    ensures key in old(db.orders) && old(db.orders)[key].userId == callerId && !CancellableStatus(old(db.orders)[key].status) ==>
      reply == Reply(400, "Cannot cancel this order") && data.None?
      && db.orders == old(db.orders) && db.products == old(db.products)
    ensures key in old(db.orders) && old(db.orders)[key].userId == callerId && CancellableStatus(old(db.orders)[key].status) ==>
      reply == Reply(200, "Order cancelled successfully")
      && db.products == Restock(old(db.products), old(db.orders)[key].items)
      && db.orders == old(db.orders)[key := old(db.orders)[key].(status := "cancelled")]
      && data == Some(db.orders[key])
  {
    data := None;
    if key !in db.orders {
      reply := Reply(404, "Order not found");
      return;
    }
    var order := db.orders[key];
    if order.userId != callerId {
      reply := Reply(403, "Unauthorized");
      return;
    }
    if !CancellableStatus(order.status) {
      reply := Reply(400, "Cannot cancel this order");
      return;
    }
    ghost var start := db.products;
    var i := 0;
    while i < |order.items|
      invariant 0 <= i <= |order.items|
      invariant db.products == Restock(start, order.items[..i])
      invariant db.orders == old(db.orders) && db.users == old(db.users)
    {
      var line := order.items[i];
      assert order.items[..i + 1][..i] == order.items[..i];
      if line.productId in db.products {
        var p := db.products[line.productId];
        db.products := db.products[line.productId := Shifted(p, -line.quantity)];
      }
      i := i + 1;
    }
    assert order.items[..i] == order.items;
    var cancelled := order.(status := "cancelled");
    db.orders := db.orders[key := cancelled];
    reply := Reply(200, "Order cancelled successfully");
    data := Some(cancelled);
  }
}
