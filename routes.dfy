/**
 * The server's state and the handlers that change it. The database tables are
 * fields of one `Server` object; each handler returns the HTTP status it sends
 * and updates the tables as the handler does.
 */
module Routes {
  import opened Wrappers
  import opened Text
  import opened Schema
  import opened Rules

  /** The request's session: signed out, or signed in as the user with this id. */
  datatype Session = Anonymous | LoggedIn(userId: int)

  class Server {
    var users: map<int, User>
    var books: map<int, Book>
    var wilayas: seq<Wilaya>
    var orders: map<int, Order>
    var nextOrderId: int
    var log: seq<ActivityLog>

    /** Rows are stored under their own ids, order ids are issued in sequence, zone codes and ids are unique. */
    ghost predicate Valid()
      reads this
    {
      && (forall id :: id in users ==> users[id].id == id)
      && (forall id :: id in books ==> books[id].id == id)
      && (forall id :: id in orders ==> orders[id].id == id && id < nextOrderId)
      && UniqueCodes(wilayas) && UniqueIds(wilayas)
    }

    /** A server over the given tables, with no orders and an empty log. */
    constructor (users0: map<int, User>, books0: map<int, Book>, wilayas0: seq<Wilaya>)
      requires forall id :: id in users0 ==> users0[id].id == id
      requires forall id :: id in books0 ==> books0[id].id == id
      requires UniqueCodes(wilayas0) && UniqueIds(wilayas0)
      ensures Valid()
      ensures users == users0 && books == books0 && wilayas == wilayas0
      ensures orders == map[] && log == [] && nextOrderId == 1
    {
      users, books, wilayas := users0, books0, wilayas0;
      orders, nextOrderId, log := map[], 1, [];
    }

    /** `req.user` when `req.isAuthenticated()`: the session's user as currently stored. */
    function Caller(s: Session): (u: Option<User>)
      reads this
      ensures u.Some? ==> s.LoggedIn? && s.userId in users && u.value == users[s.userId]
      ensures s.LoggedIn? && s.userId in users ==> u.Some?
      ensures Valid() && u.Some? ==> u.value.id == s.userId
    {
      if s.LoggedIn? && s.userId in users then Some(users[s.userId]) else None
    }

    /** `logAdminAction`: appends one entry for the acting admin. */
    method LogAdminAction(admin: User, action: Action, entityType: Option<string>, entityId: Option<int>)
      modifies this`log
      ensures log == old(log) + [LogEntry(admin, action, entityType, entityId)]
    {
      log := log + [LogEntry(admin, action, entityType, entityId)];
    }

    /**
     * POST /api/orders. Signed-out callers get 401; an invalid payload or an
     * unknown book gets 400 and stores nothing; otherwise one order is stored
     * with the books' current prices, the zone's shipping charge and the total.
     */
    method CreateOrder(session: Session, input: OrderInput) returns (status: int, orderId: Option<int>)
      requires Valid()
      modifies this
      ensures Valid()
      ensures users == old(users) && books == old(books) && wilayas == old(wilayas) && log == old(log)
      ensures status == 201 || status == 400 || status == 401
      ensures status == 401 <==> old(Caller(session)).None?
      ensures status == 400 <==>
        && old(Caller(session)).Some?
        && (OrderIssue(input).Some? || !InCatalogue(old(books), input.items))
      ensures status != 201 ==> orders == old(orders) && nextOrderId == old(nextOrderId) && orderId.None?
      ensures status == 201 ==>
        && InCatalogue(old(books), input.items)
        && orderId == Some(old(nextOrderId)) && nextOrderId == old(nextOrderId) + 1
        && orders == old(orders)[old(nextOrderId) :=
             PlacedOrder(old(nextOrderId), old(Caller(session)).value.id, input, old(books), old(wilayas))]
    {
      var caller := Caller(session);
      if caller.None? {
        return 401, None;
      }
      if OrderIssue(input).Some? {
        return 400, None;
      }
      var found, bookPrices, subtotal := PriceItems(input.items);
      if !found {
        return 400, None;
      }
      var shippingPrice := ShippingFor(input.wilayaCode);
      var total := subtotal + shippingPrice;
      var id := nextOrderId;
      var order := OrderRow(id, caller.value.id, input.customerName, input.phone, input.address,
                            input.city, input.notes, total, bookPrices, input.wilayaCode,
                            input.wilayaName, input.baladiya, shippingPrice);
      assert order == PlacedOrder(id, caller.value.id, input, books, wilayas);
      StoreOrder(order);
      return 201, Some(id);
    }

    /** `storage.createOrder`: the order is stored under the next id, which then advances. */
    method StoreOrder(order: Order)
      requires Valid() && order.id == nextOrderId
      modifies this`orders, this`nextOrderId
      ensures Valid()
      ensures orders == old(orders)[old(nextOrderId) := order] && nextOrderId == old(nextOrderId) + 1
    {
      orders := orders[nextOrderId := order];
      nextOrderId := nextOrderId + 1;
    }

    /**
     * The pricing loop of POST /api/orders: each item is looked up and stored with
     * its book's current price, and the subtotal accumulates price × quantity. An
     * unknown book stops the loop.
     */
    method PriceItems(items: seq<OrderItemInput>) returns (found: bool, lines: seq<OrderItem>, subtotal: int)
      ensures found <==> InCatalogue(books, items)
      ensures found ==> lines == Priced(books, items) && subtotal == Subtotal(lines)
    {
      lines, subtotal := [], 0;
      var k := 0;
      while k < |items|
        invariant 0 <= k <= |items|
        invariant InCatalogue(books, items[..k])
        invariant lines == Priced(books, items[..k])
        invariant subtotal == Subtotal(lines)
      {
        var item := items[k];
        if item.bookId !in books {
          return false, lines, subtotal;
        }
        var price := books[item.bookId].price;
        assert items[..k + 1][..k] == items[..k];
        lines := lines + [OrderItem(item.bookId, item.quantity, price)];
        assert lines[..|lines| - 1] == Priced(books, items[..k]);
        subtotal := subtotal + price * item.quantity;
        k := k + 1;
      }
      assert items[..k] == items;
      return true, lines, subtotal;
    }

    /**
     * The shipping step of POST /api/orders: a given (non-zero) code whose zone
     * exists and is active charges that zone's price; anything else charges 0.
     */
    method ShippingFor(code: Option<int>) returns (price: int)
      ensures price == ShippingCharge(wilayas, code)
    {
      price := 0;
      if code.Some? && code.value != 0 {
        var found := FindWilaya(wilayas, ByCode(code.value), 0);
        if found.Some? && wilayas[found.value].isActive {
          price := wilayas[found.value].shippingPrice;
        }
      }
    }

    /**
     * GET /api/orders. An admin sees every order, any other signed-in user
     * (an employee included) only their own; signed-out callers get 401.
     */
    method ListOrders(session: Session) returns (status: int, result: map<int, Order>)
      ensures status == 200 || status == 401
      ensures status == 401 <==> Caller(session).None?
      ensures status == 401 ==> result == map[]
      ensures forall id :: id in result ==> id in orders && result[id] == orders[id]
      ensures status == 200 && Caller(session).value.role != Admin ==>
        forall id :: id in result ==> result[id].userId == Some(Caller(session).value.id)
      ensures status == 200 ==> forall id ::
        (id in orders && (Caller(session).value.role == Admin || orders[id].userId == Some(Caller(session).value.id)))
        ==> id in result
    {
      var caller := Caller(session);
      if caller.Some? && caller.value.role == Admin {
        return 200, orders;
      }
      if caller.Some? {
        var uid := caller.value.id;
        return 200, map id | id in orders && orders[id].userId == Some(uid) :: orders[id];
      }
      return 401, map[];
    }

    /**
     * PUT /api/orders/:id/status. Staff only (401). A missing order gets 404.
     * The status is set; a first confirmation of a customer's order credits
     * ⌊(total − shipping) / 350⌋ points once and marks the order as awarded.
     */
    method UpdateOrderStatus(session: Session, orderId: int, status: string) returns (code: int)
      requires Valid()
      modifies this
      ensures Valid()
      ensures books == old(books) && wilayas == old(wilayas) && nextOrderId == old(nextOrderId)
      ensures code == 200 || code == 401 || code == 404
      ensures code == 401 <==> !IsStaff(old(Caller(session)))
      ensures code == 404 <==> IsStaff(old(Caller(session))) && orderId !in old(orders)
      ensures code != 200 ==> users == old(users) && orders == old(orders) && log == old(log)
      ensures code == 200 ==>
        var o := old(orders[orderId]);
        var credit := PointsToCredit(o, status, old(users));
        var admin := old(Caller(session)).value;
        && orders == old(orders)[orderId := o.(status := status, pointsAwarded := o.pointsAwarded || credit > 0)]
        && users == CreditCustomer(old(users), o, status)
        && log == old(log)
             + (if credit > 0 then [LogEntry(admin, AwardedPoints(credit), Some("order"), Some(orderId))] else [])
             + [LogEntry(admin, UpdatedOrderStatus(status), Some("order"), Some(orderId))]
    {
      var caller := Caller(session);
      if !IsStaff(caller) {
        return 401;
      }
      if orderId !in orders {
        return 404;
      }
      var existing := orders[orderId];
      ghost var credit := PointsToCredit(existing, status, users);
      assert CreditCustomer(users, existing, status) == if credit > 0 then
        users[existing.userId.value := users[existing.userId.value].(points := users[existing.userId.value].points + credit)]
        else users;
      orders := orders[orderId := existing.(status := status)];
      if status == "confirmed" && !existing.pointsAwarded && HasCustomer(existing) {
        var pointsToAward := PointsFor(existing.total, existing.shippingPrice);
        if pointsToAward > 0 {
          var uid := existing.userId.value;
          if uid in users {
            assert credit == pointsToAward;
            var customer := users[uid];
            users := users[uid := customer.(points := customer.points + pointsToAward)];
            orders := orders[orderId := orders[orderId].(pointsAwarded := true)];
            LogAdminAction(caller.value, AwardedPoints(pointsToAward), Some("order"), Some(orderId));
          }
        }
      }
      LogAdminAction(caller.value, UpdatedOrderStatus(status), Some("order"), Some(orderId));
      return 200;
    }

    /**
     * POST /api/points/redeem. Signed-in users only (401); an unknown book gets 404;
     * a balance below the cost gets 400 and changes nothing. Otherwise the balance
     * drops by exactly the cost and a free order for the book is stored.
     */
    method RedeemPoints(session: Session, bookId: int, quantity: Option<int>) returns (code: int, pointsUsed: int)
      requires Valid()
      modifies this
      ensures Valid()
      ensures books == old(books) && wilayas == old(wilayas) && log == old(log)
      ensures code == 200 || code == 400 || code == 401 || code == 404
      ensures code == 401 <==> old(Caller(session)).None?
      ensures code == 404 <==> old(Caller(session)).Some? && bookId !in old(books)
      ensures code == 400 <==>
        && old(Caller(session)).Some? && bookId in old(books)
        && old(Caller(session)).value.points < RedeemCost(old(books)[bookId].price, quantity)
      ensures code != 200 ==> users == old(users) && orders == old(orders) && nextOrderId == old(nextOrderId)
      ensures code == 200 ==>
        var user := old(Caller(session)).value;
        && pointsUsed == RedeemCost(old(books)[bookId].price, quantity)
        && users == old(users)[user.id := user.(points := user.points - pointsUsed)]
        && users[user.id].points >= 0
        && nextOrderId == old(nextOrderId) + 1
        && orders == old(orders)[old(nextOrderId) :=
             RedemptionOrder(old(nextOrderId), user, old(books)[bookId], quantity, pointsUsed)]
    {
      var caller := Caller(session);
      if caller.None? {
        return 401, 0;
      }
      var user := caller.value;
      if bookId !in books {
        return 404, 0;
      }
      var book := books[bookId];
      var pointsNeeded := RedeemCost(book.price, quantity);
      if user.points < pointsNeeded {
        return 400, 0;
      }
      users := users[user.id := user.(points := user.points - pointsNeeded)];
      var id := nextOrderId;
      orders := orders[id := OrderRow(id, user.id, OrElse(user.name, user.email), OrElse(user.phone, ""),
                                      OrElse(user.address, ""), OrElse(user.city, ""),
                                      Some("Points redemption: " + IntToString(pointsNeeded) + " points used"),
                                      0, [OrderItem(book.id, EffectiveQuantity(quantity), 0)], None, None, None, 0)];
      nextOrderId := nextOrderId + 1;
      orders := orders[id := orders[id].(pointsAwarded := true)];
      return 200, pointsNeeded;
    }

    /**
     * PUT /api/admin/customers/:id. Staff only (401). An unknown id gets 400.
     * Otherwise the customer's row is updated, keeping only a known role and a
     * password of at least six characters.
     */
    method UpdateCustomer(session: Session, id: int, upd: CustomerUpdate) returns (code: int)
      requires Valid()
      modifies this
      ensures Valid()
      ensures books == old(books) && wilayas == old(wilayas) && orders == old(orders) && nextOrderId == old(nextOrderId)
      ensures code == 200 || code == 400 || code == 401
      ensures code == 401 <==> !IsStaff(old(Caller(session)))
      ensures code == 400 <==> IsStaff(old(Caller(session))) && id !in old(users)
      ensures code != 200 ==> users == old(users) && log == old(log)
      ensures code == 200 ==>
        && users == old(users)[id := ApplyCustomerUpdate(old(users[id]), upd)]
        && log == old(log) + [LogEntry(old(Caller(session)).value, UpdatedCustomer, Some("user"), Some(id))]
    {
      var caller := Caller(session);
      if !IsStaff(caller) {
        return 401;
      }
      if id !in users {
        return 400;
      }
      users := users[id := ApplyCustomerUpdate(users[id], upd)];
      LogAdminAction(caller.value, UpdatedCustomer, Some("user"), Some(id));
      return 200;
    }

    /**
     * DELETE /api/admin/customers/:id. Staff only (401). An unknown id gets 404,
     * an admin account 400; otherwise exactly that user is removed.
     */
    method DeleteCustomer(session: Session, id: int) returns (code: int)
      requires Valid()
      modifies this
      ensures Valid()
      ensures books == old(books) && wilayas == old(wilayas) && orders == old(orders) && nextOrderId == old(nextOrderId)
      ensures code == 204 || code == 400 || code == 401 || code == 404
      ensures code == 401 <==> !IsStaff(old(Caller(session)))
      ensures code == 404 <==> IsStaff(old(Caller(session))) && id !in old(users)
      ensures code == 400 <==> IsStaff(old(Caller(session))) && id in old(users) && old(users[id]).role == Admin
      ensures code != 204 ==> users == old(users) && log == old(log)
      ensures code == 204 ==>
        && users == old(users) - {id}
        && log == old(log) + [LogEntry(old(Caller(session)).value, DeletedCustomer, Some("user"), Some(id))]
      ensures forall u :: u in old(users) && old(users[u]).role == Admin ==> u in users
    {
      var caller := Caller(session);
      if !IsStaff(caller) {
        return 401;
      }
      if id !in users {
        return 404;
      }
      if users[id].role == Admin {
        return 400;
      }
      users := users - {id};
      LogAdminAction(caller.value, DeletedCustomer, Some("user"), Some(id));
      return 204;
    }

    /**
     * PUT /api/admin/shipping/wilayas/:id. Staff only (401). An unknown id gets 400;
     * otherwise the given price and active flag are set on that zone.
     */
    method UpdateShipping(session: Session, id: int, shippingPrice: Option<int>, isActive: Option<bool>)
      returns (code: int)
      requires Valid()
      modifies this
      ensures Valid()
      ensures users == old(users) && books == old(books) && orders == old(orders) && nextOrderId == old(nextOrderId)
      ensures code == 200 || code == 400 || code == 401
      ensures code == 401 <==> !IsStaff(old(Caller(session)))
      ensures code == 400 <==> IsStaff(old(Caller(session))) && forall i :: 0 <= i < |old(wilayas)| ==> old(wilayas)[i].id != id
      ensures code != 200 ==> wilayas == old(wilayas) && log == old(log)
      ensures code == 200 ==>
        && |wilayas| == |old(wilayas)|
        && (forall i :: 0 <= i < |wilayas| && old(wilayas)[i].id != id ==> wilayas[i] == old(wilayas)[i])
        && (forall i :: 0 <= i < |wilayas| && old(wilayas)[i].id == id ==>
              wilayas[i] == old(wilayas)[i].(shippingPrice := shippingPrice.GetOr(old(wilayas)[i].shippingPrice),
                                             isActive := isActive.GetOr(old(wilayas)[i].isActive)))
        && log == old(log) + [LogEntry(old(Caller(session)).value, UpdatedShipping, Some("wilaya"), Some(id))]
    {
      var caller := Caller(session);
      if !IsStaff(caller) {
        return 401;
      }
      var found := FindWilaya(wilayas, ById(id), 0);
      if found.None? {
        return 400;
      }
      var i := found.value;
      var w := wilayas[i];
      wilayas := wilayas[i := w.(shippingPrice := shippingPrice.GetOr(w.shippingPrice), isActive := isActive.GetOr(w.isActive))];
      LogAdminAction(caller.value, UpdatedShipping, Some("wilaya"), Some(id));
      return 200;
    }

    /**
     * PUT /api/admin/shipping/wilayas. Staff only (401). Every zone's price is
     * set to `defaultPrice`, and the count returned is the number of zones.
     */
    method BulkUpdateShipping(session: Session, defaultPrice: int) returns (code: int, updated: int)
      requires Valid()
      modifies this
      ensures Valid()
      ensures users == old(users) && books == old(books) && orders == old(orders) && nextOrderId == old(nextOrderId)
      ensures code == 200 || code == 401
      ensures code == 401 <==> !IsStaff(old(Caller(session)))
      ensures code == 401 ==> wilayas == old(wilayas) && log == old(log) && updated == 0
      ensures code == 200 ==>
        && updated == |old(wilayas)| == |wilayas|
        && (forall i :: 0 <= i < |wilayas| ==> wilayas[i] == old(wilayas)[i].(shippingPrice := defaultPrice))
        && log == old(log) + [LogEntry(old(Caller(session)).value, SetDefaultShipping(defaultPrice), Some("shipping"), None)]
    {
      var caller := Caller(session);
      if !IsStaff(caller) {
        return 401, 0;
      }
      var count := 0;
      var i := 0;
      while i < |wilayas|
        invariant 0 <= i <= |wilayas| == |old(wilayas)|
        invariant count == i
        invariant users == old(users) && books == old(books) && orders == old(orders)
        invariant nextOrderId == old(nextOrderId) && log == old(log)
        invariant forall j :: 0 <= j < i ==> wilayas[j] == old(wilayas)[j].(shippingPrice := defaultPrice)
        invariant forall j :: i <= j < |wilayas| ==> wilayas[j] == old(wilayas)[j]
      {
        wilayas := wilayas[i := wilayas[i].(shippingPrice := defaultPrice)];
        count := count + 1;
        i := i + 1;
      }
      LogAdminAction(caller.value, SetDefaultShipping(defaultPrice), Some("shipping"), None);
      return 200, count;
    }
  }

  /**
   * Confirming the same order twice credits its customer once: the second
   * confirmation leaves every balance where the first one left it.
   */
  method ConfirmTwice(s: Server, session: Session, orderId: int) returns (first: int, second: int)
    requires s.Valid()
    modifies s
    ensures s.Valid()
    ensures first == 200 ==> orderId in old(s.orders)
    ensures first == 200 && second == 200 ==> s.users == CreditCustomer(old(s.users), old(s.orders[orderId]), "confirmed")
  {
    first := s.UpdateOrderStatus(session, orderId, "confirmed");
    var afterFirst := s.users;
    second := s.UpdateOrderStatus(session, orderId, "confirmed");
    if first == 200 && second == 200 {
      var o := old(s.orders[orderId]);
      if PointsToCredit(o, "confirmed", old(s.users)) > 0 {
        assert s.users == afterFirst;
      }
    }
  }
}
