/**
 * The shared schema: the rows of the users, books, wilayas, orders, order_items
 * and activity_logs tables with their column defaults, and the validation rules
 * of the order and registration payloads.
 */
module Schema {
  import opened Wrappers

  /** The `role` column: "user", "employee" or "admin". */
  datatype Role = Customer | Employee | Admin

  function RoleName(r: Role): string {
    match r
    case Customer => "user"
    case Employee => "employee"
    case Admin => "admin"
  }

  /** What `hashPassword` produced from a plain password; hashing itself is not modelled. */
  datatype Secret = Hashed(plain: string)

  datatype User = User(
    id: int, email: string, password: Secret, role: Role,
    name: Option<string>, phone: Option<string>, address: Option<string>, city: Option<string>,
    enabled: bool, points: int)

  /** Prices are whole dinars (DZD). */
  datatype Book = Book(
    id: int, titleAr: string, titleEn: string, author: string,
    descriptionAr: string, descriptionEn: string, price: int,
    category: string, categoryId: Option<int>, image: string, language: string,
    published: bool, isbn: Option<string>, stock: int)

  /** A shipping zone. */
  datatype Wilaya = Wilaya(
    id: int, code: int, nameAr: string, nameEn: string, shippingPrice: int, isActive: bool)

  /** An order line; `unitPrice` is the book's price when the order was placed. */
  datatype OrderItem = OrderItem(bookId: int, quantity: int, unitPrice: int)

  /** An order with its lines. A missing `shipping_price` reads as 0. */
  datatype Order = Order(
    id: int, userId: Option<int>,
    customerName: string, phone: string, address: string, city: string,
    wilayaCode: Option<int>, wilayaName: Option<string>, baladiya: Option<string>,
    shippingPrice: int, status: string, total: int, notes: Option<string>,
    pointsAwarded: bool, pointsUsed: int, items: seq<OrderItem>)

  /** What an activity-log entry records; the wording of the `action` text is abstracted. */
  datatype Action =
    | UpdatedOrderStatus(status: string)
    | AwardedPoints(points: int)
    | UpdatedCustomer
    | DeletedCustomer
    | UpdatedShipping
    | SetDefaultShipping(price: int)

  datatype ActivityLog = ActivityLog(
    adminId: int, adminEmail: string, action: Action,
    entityType: Option<string>, entityId: Option<int>)

  /** The columns a new user row is inserted with; `role` may be left to its default. */
  datatype NewUser = NewUser(
    email: string, password: Secret, role: Option<Role>,
    name: Option<string>, phone: Option<string>, address: Option<string>, city: Option<string>)

  /** A freshly inserted user row: role "user" unless given, enabled, no points. */
  function UserRow(id: int, u: NewUser): (r: User)
    ensures r.id == id && r.email == u.email && r.password == u.password
    ensures r.role == (if u.role.Some? then u.role.value else Customer)
    ensures r.enabled && r.points == 0
    ensures r.name == u.name && r.phone == u.phone && r.address == u.address && r.city == u.city
  {
    User(id, u.email, u.password, u.role.GetOr(Customer),
         u.name, u.phone, u.address, u.city, true, 0)
  }

  /** A freshly inserted order row: status "pending", points not yet awarded, none used. */
  function OrderRow(
    id: int, userId: int, customerName: string, phone: string, address: string, city: string,
    notes: Option<string>, total: int, items: seq<OrderItem>,
    wilayaCode: Option<int>, wilayaName: Option<string>, baladiya: Option<string>, shippingPrice: int
  ): (r: Order)
    ensures r.status == "pending" && !r.pointsAwarded && r.pointsUsed == 0
    ensures r.id == id && r.userId == Some(userId) && r.total == total && r.items == items
    ensures r.shippingPrice == shippingPrice && r.notes == notes
  {
    Order(id, Some(userId), customerName, phone, address, city, wilayaCode, wilayaName, baladiya,
          shippingPrice, "pending", total, notes, false, 0, items)
  }

  // === Order payload ===

  datatype OrderItemInput = OrderItemInput(bookId: int, quantity: int)

  datatype OrderInput = OrderInput(
    customerName: string, phone: string, address: string, city: string,
    wilayaCode: Option<int>, wilayaName: Option<string>, baladiya: Option<string>,
    notes: Option<string>, items: seq<OrderItemInput>)

  /** The checked fields of the order payload, in the order they are checked. */
  datatype OrderField = CustomerName | Phone | Address | City | Items

  function OrderFieldRank(f: OrderField): nat {
    match f
    case CustomerName => 0
    case Phone => 1
    case Address => 2
    case City => 3
    case Items => 4
  }

  /** The rule one field of the order payload must satisfy. */
  predicate OrderRule(input: OrderInput, f: OrderField) {
    match f
    case CustomerName => |input.customerName| >= 2
    case Phone => |input.phone| >= 8
    case Address => |input.address| >= 5
    case City => |input.city| >= 2
    case Items =>
      |input.items| >= 1 && forall k :: 0 <= k < |input.items| ==> input.items[k].quantity >= 1
  }

  /**
   * The field the first validation error is reported for (the error the
   * handlers send back), or None when the payload is accepted.
   */
  function OrderIssue(input: OrderInput): (r: Option<OrderField>)
    ensures r.None? ==> forall f :: OrderRule(input, f)
    ensures r.Some? ==> !OrderRule(input, r.value)
    ensures r.Some? ==> forall f :: OrderFieldRank(f) < OrderFieldRank(r.value) ==> OrderRule(input, f)
  {
    if |input.customerName| < 2 then Some(CustomerName)
    else if |input.phone| < 8 then Some(Phone)
    else if |input.address| < 5 then Some(Address)
    else if |input.city| < 2 then Some(City)
    else if input.items == [] then Some(Items)
    else if exists k :: 0 <= k < |input.items| && input.items[k].quantity < 1 then Some(Items)
    else None
  }

  /** The wilaya, baladiya and notes fields are optional: they never cause a rejection. */
  lemma OptionalOrderFields(
    input: OrderInput, code: Option<int>, wilayaName: Option<string>,
    baladiya: Option<string>, notes: Option<string>)
    ensures OrderIssue(input.(wilayaCode := code, wilayaName := wilayaName,
                              baladiya := baladiya, notes := notes)) == OrderIssue(input)
  {
  }

  // === Registration payload ===

  datatype RegisterInput = RegisterInput(
    email: string, password: string, name: string, phone: Option<string>)

  datatype RegisterField = Email | Password | Name

  function RegisterFieldRank(f: RegisterField): nat {
    match f
    case Email => 0
    case Password => 1
    case Name => 2
  }

  /** The rule one registration field must satisfy; the e-mail format check is a parameter. */
  predicate RegisterRule(input: RegisterInput, isEmail: string -> bool, f: RegisterField) {
    match f
    case Email => isEmail(input.email)
    case Password => |input.password| >= 6
    case Name => |input.name| >= 2
  }

  /** The field of the first registration error, or None when the payload is accepted. */
  function RegisterIssue(input: RegisterInput, isEmail: string -> bool): (r: Option<RegisterField>)
    ensures r.None? ==> forall f :: RegisterRule(input, isEmail, f)
    ensures r.Some? ==> !RegisterRule(input, isEmail, r.value)
    ensures r.Some? ==> forall f :: RegisterFieldRank(f) < RegisterFieldRank(r.value) ==> RegisterRule(input, isEmail, f)
  {
    if !isEmail(input.email) then Some(Email)
    else if |input.password| < 6 then Some(Password)
    else if |input.name| < 2 then Some(Name)
    else None
  }

  /** The phone number is optional at registration. */
  lemma OptionalRegisterPhone(input: RegisterInput, isEmail: string -> bool, phone: Option<string>)
    ensures RegisterIssue(input.(phone := phone), isEmail) == RegisterIssue(input, isEmail)
  {
  }
}
