/**
 * The business rules inside the HTTP handlers, as pure functions: the admin
 * gate, order pricing and shipping, loyalty points, redemption cost, and the
 * filtered customer update.
 */
module Rules {
  import opened Wrappers
  import opened Text
  import opened Schema

  // === Admin gate ===

  /** `requireAdmin` lets the request through: signed in, with role "admin" or "employee". */
  function IsStaff(caller: Option<User>): (b: bool)
    ensures b <==> caller.Some? && RoleName(caller.value.role) in ["admin", "employee"]
  {
    caller.Some? && (caller.value.role == Admin || caller.value.role == Employee)
  }

  /** The gate turns away everyone signed out and every ordinary customer. */
  lemma GateRefusesCustomers(caller: Option<User>)
    ensures IsStaff(caller) <==> caller.Some? && caller.value.role != Customer
  {
  }

  /** A user inserted with the default role cannot pass the gate. */
  lemma NewUserIsNotStaff(id: int, u: NewUser)
    requires u.role.None?
    ensures !IsStaff(Some(UserRow(id, u)))
  {
  }

  /** The role names an admin may assign: "user", "employee" or "admin"; anything else is ignored. */
  function ParseRole(s: string): (r: Option<Role>)
    ensures r.Some? ==> RoleName(r.value) == s
    ensures r.None? ==> forall role :: RoleName(role) != s
  {
    if s == "user" then Some(Customer)
    else if s == "employee" then Some(Employee)
    else if s == "admin" then Some(Admin)
    else None
  }

  lemma RoleNameRoundTrip(role: Role)
    ensures ParseRole(RoleName(role)) == Some(role)
  {
  }

  // === Shipping zones ===

  /** How a wilaya is looked up: by its zone code, or by its row id. */
  datatype WilayaKey = ByCode(code: int) | ById(id: int)

  predicate HasKey(w: Wilaya, key: WilayaKey) {
    match key
    case ByCode(c) => w.code == c
    case ById(i) => w.id == i
  }

  /** The position of the first wilaya at or after `from` with the key. */
  function FindWilaya(ws: seq<Wilaya>, key: WilayaKey, from: nat): (r: Option<nat>)
    ensures r.Some? ==> from <= r.value < |ws| && HasKey(ws[r.value], key)
    ensures r.Some? ==> forall j :: from <= j < r.value ==> !HasKey(ws[j], key)
    ensures r.None? ==> forall j :: from <= j < |ws| ==> !HasKey(ws[j], key)
    decreases |ws| - from
  {
    if from >= |ws| then None
    else if HasKey(ws[from], key) then Some(from)
    else FindWilaya(ws, key, from + 1)
  }

  /** No two wilayas share a code (the column is unique). */
  predicate UniqueCodes(ws: seq<Wilaya>) {
    forall i, j :: 0 <= i < j < |ws| ==> ws[i].code != ws[j].code
  }

  /** No two wilayas share a row id. */
  predicate UniqueIds(ws: seq<Wilaya>) {
    forall i, j :: 0 <= i < j < |ws| ==> ws[i].id != ws[j].id
  }

  /**
   * The shipping charge of an order: the zone's price when a (non-zero) code is
   * given and that zone exists and is active, otherwise nothing.
   */
  function ShippingCharge(ws: seq<Wilaya>, code: Option<int>): (r: int)
    ensures r != 0 ==>
      && code.Some? && code.value != 0
      && exists i :: 0 <= i < |ws| && ws[i].code == code.value && ws[i].isActive && ws[i].shippingPrice == r
    ensures code.None? || code.value == 0 ==> r == 0
    ensures code.Some? && (forall i :: 0 <= i < |ws| ==> ws[i].code != code.value) ==> r == 0
  {
    if code.None? || code.value == 0 then 0
    else
      match FindWilaya(ws, ByCode(code.value), 0)
      case None => 0
      case Some(i) => if ws[i].isActive then ws[i].shippingPrice else 0
  }

  /** With unique codes, the charge for a zone is its price if active and 0 if not. */
  lemma ShippingOfZone(ws: seq<Wilaya>, i: nat)
    requires UniqueCodes(ws) && i < |ws| && ws[i].code != 0
    ensures ShippingCharge(ws, Some(ws[i].code)) == if ws[i].isActive then ws[i].shippingPrice else 0
  {
  }

  // === Order pricing ===

  /** Every item names a book of the catalogue. */
  predicate InCatalogue(books: map<int, Book>, items: seq<OrderItemInput>) {
    forall k :: 0 <= k < |items| ==> items[k].bookId in books
  }

  /** The stored order lines: each item with the current price of its book. */
  function Priced(books: map<int, Book>, items: seq<OrderItemInput>): (r: seq<OrderItem>)
    requires InCatalogue(books, items)
    ensures |r| == |items|
  {
    if items == [] then []
    else
      var last := items[|items| - 1];
      Priced(books, items[..|items| - 1]) + [OrderItem(last.bookId, last.quantity, books[last.bookId].price)]
  }

  /** Each stored line keeps the book, the quantity, and the book's price at that moment. */
  lemma {:induction false} PricedSnapshot(books: map<int, Book>, items: seq<OrderItemInput>, k: nat)
    requires InCatalogue(books, items) && k < |items|
    ensures Priced(books, items)[k] == OrderItem(items[k].bookId, items[k].quantity, books[items[k].bookId].price)
  {
    if k < |items| - 1 {
      PricedSnapshot(books, items[..|items| - 1], k);
    }
  }

  /** Σ unitPrice × quantity over the lines; not negative when no price is negative and every quantity is positive. */
  function Subtotal(lines: seq<OrderItem>): (r: int)
    ensures (forall k :: 0 <= k < |lines| ==> lines[k].unitPrice >= 0 && lines[k].quantity >= 1) ==> r >= 0
  {
    if lines == [] then 0
    else
      var last := lines[|lines| - 1];
      Subtotal(lines[..|lines| - 1]) + last.unitPrice * last.quantity
  }

  /**
   * The order row the create handler stores for a valid, fully priced payload:
   * one line per item, the total is the subtotal plus the shipping charge, and
   * the order starts pending with no points awarded.
   */
  function PlacedOrder(id: int, userId: int, input: OrderInput, books: map<int, Book>, ws: seq<Wilaya>): (o: Order)
    requires InCatalogue(books, input.items)
    ensures |o.items| == |input.items|
    ensures o.shippingPrice == ShippingCharge(ws, input.wilayaCode)
    ensures o.total == Subtotal(o.items) + o.shippingPrice
    ensures o.status == "pending" && !o.pointsAwarded && o.userId == Some(userId)
  {
    var lines := Priced(books, input.items);
    var shipping := ShippingCharge(ws, input.wilayaCode);
    OrderRow(id, userId, input.customerName, input.phone, input.address, input.city,
             input.notes, Subtotal(lines) + shipping, lines,
             input.wilayaCode, input.wilayaName, input.baladiya, shipping)
  }

  /** Every line of a placed order keeps its item's book and quantity at the book's price when the order was placed. */
  lemma PlacedOrderLines(id: int, userId: int, input: OrderInput, books: map<int, Book>, ws: seq<Wilaya>)
    requires InCatalogue(books, input.items)
    ensures var o := PlacedOrder(id, userId, input, books, ws);
      forall k :: 0 <= k < |o.items| ==>
        && o.items[k].bookId == input.items[k].bookId && o.items[k].quantity == input.items[k].quantity
        && o.items[k].unitPrice == books[input.items[k].bookId].price
  {
    forall k | 0 <= k < |input.items|
      ensures Priced(books, input.items)[k] ==
        OrderItem(input.items[k].bookId, input.items[k].quantity, books[input.items[k].bookId].price)
    {
      PricedSnapshot(books, input.items, k);
    }
  }

  // === Loyalty points ===

  /** `Math.floor((total − shipping) / 350)`. */
  function PointsFor(total: int, shipping: int): (p: int)
    ensures 350 * p <= total - shipping < 350 * p + 350
  {
    (total - shipping) / 350
  }

  /** For a placed order the points are the subtotal divided by 350, rounded down: shipping earns nothing. */
  lemma PlacedOrderPoints(id: int, userId: int, input: OrderInput, books: map<int, Book>, ws: seq<Wilaya>)
    requires InCatalogue(books, input.items)
    ensures var o := PlacedOrder(id, userId, input, books, ws);
      PointsFor(o.total, o.shippingPrice) == Subtotal(o.items) / 350
  {
  }

  /** A user id that JavaScript treats as present (0 is falsy). */
  function HasCustomer(o: Order): (b: bool)
    ensures b ==> o.userId.Some? && o.userId.value != 0
    ensures o.userId.Some? && o.userId.value > 0 ==> b
  {
    o.userId.Some? && o.userId.value != 0
  }

  /**
   * The points a status change credits: only for "confirmed", only if not yet
   * awarded, only to an existing customer, and only a positive amount.
   */
  function PointsToCredit(o: Order, status: string, users: map<int, User>): (p: int)
    ensures p >= 0
    ensures p > 0 ==> status == "confirmed" && !o.pointsAwarded && HasCustomer(o) && o.userId.value in users
    ensures p > 0 ==> p == PointsFor(o.total, o.shippingPrice)
    ensures (status == "confirmed" && !o.pointsAwarded && HasCustomer(o) && o.userId.value in users
             && PointsFor(o.total, o.shippingPrice) > 0) ==> p == PointsFor(o.total, o.shippingPrice)
  {
    if status == "confirmed" && !o.pointsAwarded && HasCustomer(o) then
      var award := PointsFor(o.total, o.shippingPrice);
      if award > 0 && o.userId.value in users then award else 0
    else 0
  }

  /** The customers after a status change: the order's customer gains the credited points. */
  function CreditCustomer(users: map<int, User>, o: Order, status: string): (r: map<int, User>)
    ensures r.Keys == users.Keys
    ensures forall id :: id in users && (PointsToCredit(o, status, users) == 0 || id != o.userId.value) ==> r[id] == users[id]
    ensures PointsToCredit(o, status, users) > 0 ==>
      r[o.userId.value] == users[o.userId.value].(points := users[o.userId.value].points + PointsToCredit(o, status, users))
  {
    var p := PointsToCredit(o, status, users);
    if p > 0 then
      var uid := o.userId.value;
      users[uid := users[uid].(points := users[uid].points + p)]
    else users
  }

  /** Once the flag is set no further change of status credits anything. */
  lemma CreditedAtMostOnce(o: Order, status: string, users: map<int, User>)
    requires o.pointsAwarded
    ensures PointsToCredit(o, status, users) == 0
    ensures CreditCustomer(users, o, status) == users
  {
  }

  /** A freshly placed order of an existing customer earns ⌊subtotal / 350⌋ points on confirmation. */
  lemma PlacedOrderEarns(id: int, userId: int, input: OrderInput, books: map<int, Book>, ws: seq<Wilaya>, users: map<int, User>)
    requires InCatalogue(books, input.items)
    requires userId != 0 && userId in users
    requires Subtotal(Priced(books, input.items)) >= 350
    ensures PointsToCredit(PlacedOrder(id, userId, input, books, ws), "confirmed", users)
      == Subtotal(Priced(books, input.items)) / 350 > 0
  {
  }

  // === Redemption ===

  /** `Math.ceil(price / 350)`: the points one copy costs. */
  function UnitCost(price: int): (c: int)
    ensures 350 * (c - 1) < price <= 350 * c
  {
    (price + 349) / 350
  }

  /** `quantity || 1`: an absent or zero quantity counts as one copy. */
  function EffectiveQuantity(quantity: Option<int>): (q: int)
    ensures q != 0
    ensures quantity.None? || quantity.value == 0 ==> q == 1
    ensures quantity.Some? && quantity.value != 0 ==> q == quantity.value
  {
    if quantity.None? || quantity.value == 0 then 1 else quantity.value
  }

  /**
   * `Math.ceil(price / 350) * (quantity || 1)`: the points a redemption costs.
   * For a positive quantity the points spent are worth at least the books at
   * 350 DZD per point, and less than one point per copy more.
   */
  function RedeemCost(price: int, quantity: Option<int>): (c: int)
    ensures c == UnitCost(price) * EffectiveQuantity(quantity)
    ensures var q := EffectiveQuantity(quantity);
      q >= 1 ==> price * q <= 350 * c < price * q + 350 * q
  {
    var u, q := UnitCost(price), EffectiveQuantity(quantity);
    assert q >= 1 ==> 350 * (u * q) - 350 * q < price * q <= 350 * (u * q) by {
      if q >= 1 {
        ScaleBounds(350 * (u - 1), price, 350 * u, q);
      }
    }
    u * q
  }

  /** Multiplying `lo < x <= hi` by a positive factor keeps both bounds. */
  lemma ScaleBounds(lo: int, x: int, hi: int, q: int)
    requires lo < x <= hi && q >= 1
    ensures lo * q < x * q <= hi * q
  {
  }

  /**
   * The quantity is not checked: a negative one gives a negative cost, so the
   * "debit" raises the balance (a 350 DZD book with quantity -2 costs -2 points,
   * and a balance of b becomes b + 2).
   */
  lemma NegativeQuantityCost(balance: int)
    ensures RedeemCost(350, Some(-2)) == -2
    ensures balance - RedeemCost(350, Some(-2)) > balance
  {
  }

  /**
   * The redemption cost as evidently intended: a quantity below one is refused,
   * so for a book of non-negative price the debit never raises the balance.
   */
  function CheckedRedeemCost(price: int, quantity: Option<int>): (r: Option<int>)
    ensures r.Some? <==> EffectiveQuantity(quantity) >= 1
    ensures r.Some? ==> r.value == RedeemCost(price, quantity)
    ensures r.Some? && price >= 0 ==> r.value >= 0
  {
    if EffectiveQuantity(quantity) >= 1 then Some(RedeemCost(price, quantity)) else None
  }

  /** The order a redemption creates: free, with no shipping, and already marked as awarded. */
  function RedemptionOrder(id: int, user: User, book: Book, quantity: Option<int>, cost: int): (o: Order)
    ensures o.total == 0 && o.shippingPrice == 0 && o.pointsAwarded
    ensures o.items == [OrderItem(book.id, EffectiveQuantity(quantity), 0)]
    ensures o.userId == Some(user.id)
  {
    OrderRow(id, user.id, OrElse(user.name, user.email), OrElse(user.phone, ""),
             OrElse(user.address, ""), OrElse(user.city, ""),
             Some("Points redemption: " + IntToString(cost) + " points used"),
             0, [OrderItem(book.id, EffectiveQuantity(quantity), 0)], None, None, None, 0)
      .(pointsAwarded := true)
  }

  /** `s || fallback` on a nullable text column: a non-empty value wins, anything else gives the fallback. */
  function OrElse(s: Option<string>, fallback: string): (r: string)
    ensures r == fallback || (s.Some? && r == s.value)
    ensures r == "" ==> fallback == ""
    ensures s.Some? && s.value != "" ==> r == s.value
  {
    if s.Some? && s.value != "" then s.value else fallback
  }

  // === Customer update ===

  /** The body of an admin's customer update; absent fields are left alone. */
  datatype CustomerUpdate = CustomerUpdate(
    enabled: Option<bool>, role: Option<string>, name: Option<string>, phone: Option<string>,
    address: Option<string>, city: Option<string>, email: Option<string>, password: Option<string>)

  /** The role after an update: a requested name of one of the three roles, otherwise the current role. */
  function UpdatedRole(current: Role, requested: Option<string>): (r: Role)
    ensures r != current ==> requested.Some? && ParseRole(requested.value) == Some(r)
    ensures requested.Some? && ParseRole(requested.value).Some? ==> r == ParseRole(requested.value).value
  {
    if requested.Some? && ParseRole(requested.value).Some? then ParseRole(requested.value).value else current
  }

  /** The password after an update: the hash of a requested one of at least six characters, otherwise the current one. */
  function UpdatedPassword(current: Secret, requested: Option<string>): (r: Secret)
    ensures r != current ==> requested.Some? && |requested.value| >= 6
    ensures requested.Some? && |requested.value| >= 6 ==> r == Hashed(requested.value)
  {
    if requested.Some? && |requested.value| >= 6 then Hashed(requested.value) else current
  }

  /**
   * The row after an admin's update: the role only changes to a known role, the
   * password only to the hash of one of at least six characters, the other given
   * fields replace the stored ones, absent ones are kept, and the id and the
   * points never change.
   */
  function ApplyCustomerUpdate(u: User, upd: CustomerUpdate): (r: User)
    ensures r.id == u.id && r.points == u.points
    ensures r.role != u.role ==> upd.role.Some? && ParseRole(upd.role.value) == Some(r.role)
    ensures upd.role.Some? && ParseRole(upd.role.value).Some? ==> r.role == ParseRole(upd.role.value).value
    ensures r.password != u.password ==> upd.password.Some? && |upd.password.value| >= 6
    ensures upd.password.Some? && |upd.password.value| >= 6 ==> r.password == Hashed(upd.password.value)
    ensures upd.email.Some? ==> r.email == upd.email.value
    ensures upd.email.None? ==> r.email == u.email
    ensures upd.enabled.Some? ==> r.enabled == upd.enabled.value
    ensures upd.enabled.None? ==> r.enabled == u.enabled
    ensures upd.name.Some? ==> r.name == upd.name
    ensures upd.name.None? ==> r.name == u.name
    ensures upd.phone.Some? ==> r.phone == upd.phone
    ensures upd.phone.None? ==> r.phone == u.phone
    ensures upd.address.Some? ==> r.address == upd.address
    ensures upd.address.None? ==> r.address == u.address
    ensures upd.city.Some? ==> r.city == upd.city
    ensures upd.city.None? ==> r.city == u.city
  {
    var role := UpdatedRole(u.role, upd.role);
    var password := UpdatedPassword(u.password, upd.password);
    User(u.id, upd.email.GetOr(u.email), password, role,
         if upd.name.Some? then upd.name else u.name,
         if upd.phone.Some? then upd.phone else u.phone,
         if upd.address.Some? then upd.address else u.address,
         if upd.city.Some? then upd.city else u.city,
         upd.enabled.GetOr(u.enabled), u.points)
  }

  // === Activity log ===

  /** The log entry `logAdminAction` appends; an empty entity type and a zero id are stored as null. */
  function LogEntry(admin: User, action: Action, entityType: Option<string>, entityId: Option<int>): (e: ActivityLog)
    ensures e.adminId == admin.id && e.adminEmail == admin.email && e.action == action
    ensures e.entityType.None? || (e.entityType == entityType && e.entityType.value != "")
    ensures e.entityId.None? || (e.entityId == entityId && e.entityId.value != 0)
    ensures entityType.Some? && entityType.value != "" ==> e.entityType == entityType
    ensures entityId.Some? && entityId.value != 0 ==> e.entityId == entityId
  {
    ActivityLog(admin.id, admin.email, action,
                if entityType.Some? && entityType.value != "" then entityType else None,
                if entityId.Some? && entityId.value != 0 then entityId else None)
  }
}
