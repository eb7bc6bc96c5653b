/** The two stored document kinds, Order and Product: their fields, the
    enumerations and defaults of their schemas, the required and unique
    fields, and how a request value is cast into a document when it is
    constructed and saved (Mongoose's casting and validation, as far as the
    handlers depend on it). */
module Records {
  import opened Wrappers
  import opened Json

  // ---------------------------------------------------------------------
  // Enumerations

  datatype OrderStatus = Pending | Processing | Shipped | Delivered | Cancelled

  function StatusName(s: OrderStatus): string {
    match s
    case Pending => "Pending"
    case Processing => "Processing"
    case Shipped => "Shipped"
    case Delivered => "Delivered"
    case Cancelled => "Cancelled"
  }

  /** The status a stored string names, if it is one of the five. */
  function ParseStatus(name: string): (r: Option<OrderStatus>)
    ensures r.Some? ==> StatusName(r.value) == name
    ensures forall s: OrderStatus :: StatusName(s) == name ==> r == Some(s)
  {
    if name == "Pending" then Some(Pending)
    else if name == "Processing" then Some(Processing)
    else if name == "Shipped" then Some(Shipped)
    else if name == "Delivered" then Some(Delivered)
    else if name == "Cancelled" then Some(Cancelled)
    else None
  }

  const DefaultStatus: OrderStatus := Processing

  datatype PaymentStatus = PaymentPending | Paid | PaymentFailed | Refunded

  function PaymentStatusName(s: PaymentStatus): string {
    match s
    case PaymentPending => "pending"
    case Paid => "paid"
    case PaymentFailed => "failed"
    case Refunded => "refunded"
  }

  function ParsePaymentStatus(name: string): (r: Option<PaymentStatus>)
    ensures r.Some? ==> PaymentStatusName(r.value) == name
    ensures forall s: PaymentStatus :: PaymentStatusName(s) == name ==> r == Some(s)
  {
    if name == "pending" then Some(PaymentPending)
    else if name == "paid" then Some(Paid)
    else if name == "failed" then Some(PaymentFailed)
    else if name == "refunded" then Some(Refunded)
    else None
  }

  const DefaultPaymentStatus: PaymentStatus := PaymentPending
  const DefaultShippingMethod := "Standard Shipping"

  // ---------------------------------------------------------------------
  // Documents. `oid` is the store's own `_id`; `createdAt` is in milliseconds.

  datatype Customer = Customer(
    email: Option<string>, firstName: Option<string>, lastName: Option<string>,
    address: Option<string>, apartment: Option<string>, city: Option<string>,
    zipCode: Option<string>, phone: Option<string>)

  datatype OrderItem = OrderItem(
    productId: Option<string>, name: Option<string>, price: Option<int>,
    quantity: Option<int>, image: Option<string>, size: Option<string>)

  datatype Order = Order(
    oid: string,
    orderId: string,
    userId: Option<string>,
    customer: Customer,
    items: seq<OrderItem>,
    totalAmount: int,
    shippingMethod: string,
    paymentMethod: string,
    paymentIntentId: Option<string>,
    paymentStatus: PaymentStatus,
    status: OrderStatus,
    createdAt: int)

  datatype Product = Product(
    oid: string,
    id: int,
    name: string,
    price: int,
    image: string,
    images: seq<string>,
    sizes: seq<string>,
    category: string,
    description: Option<string>,
    isSoldOut: bool,
    createdAt: int)

  // ---------------------------------------------------------------------
  // Unique indexes

  ghost predicate UniqueOrderIds(orders: seq<Order>) {
    forall i, j :: 0 <= i < j < |orders| ==> orders[i].orderId != orders[j].orderId
  }

  ghost predicate UniqueOrderOids(orders: seq<Order>) {
    forall i, j :: 0 <= i < j < |orders| ==> orders[i].oid != orders[j].oid
  }

  ghost predicate UniqueProductIds(products: seq<Product>) {
    forall i, j :: 0 <= i < j < |products| ==> products[i].id != products[j].id
  }

  ghost predicate UniqueProductOids(products: seq<Product>) {
    forall i, j :: 0 <= i < j < |products| ==> products[i].oid != products[j].oid
  }

  // ---------------------------------------------------------------------
  // Casting a request value to a field's type

  datatype SchemaError = Required(path: string) | CastFailed(path: string) | NotInEnum(path: string) | DuplicateKey(path: string)

  /** A field value after casting: not given (undefined or null), a value of
      the field's type, or a value that cannot be cast to it. */
  datatype Field<T> = Absent | Present(value: T) | Invalid

  /** The String cast of a non-null value; arrays and objects do not cast. */
  function CastString(v: Value): Option<string> {
    match v
    case Str(s) => Some(s)
    case Num(n) => Some(IntToString(n))
    case Bool(b) => Some(if b then "true" else "false")
    case _ => None
  }

  function StringField(v: Value): Field<string> {
    if IsNullish(v) then Absent
    else match CastString(v)
      case Some(s) => Present(s)
      case None => Invalid
  }

  /** The Number cast: the empty string counts as not given. */
  function NumberField(v: Value): Field<int> {
    if IsNullish(v) || v == Str("") then Absent
    else if v.Arr? || v.Obj? then Invalid
    else match JsNumber(v)
      case Some(n) => Present(n)
      case None => Invalid
  }

  /** The Boolean cast: true, 'true', 1, '1', 'yes' and false, 'false', 0, '0', 'no'. */
  function BooleanField(v: Value): Field<bool> {
    if IsNullish(v) then Absent
    else if v == Bool(true) || v == Str("true") || v == Num(1) || v == Str("1") || v == Str("yes") then Present(true)
    else if v == Bool(false) || v == Str("false") || v == Num(0) || v == Str("0") || v == Str("no") then Present(false)
    else Invalid
  }

  function CastStrings(xs: seq<Value>): (r: Option<seq<string>>)
    ensures r.Some? ==> |r.value| == |xs|
  {
    if xs == [] then Some([])
    else if IsNullish(xs[0]) then None
    else match (CastString(xs[0]), CastStrings(xs[1..]))
      case (Some(s), Some(rest)) => Some([s] + rest)
      case _ => None
  }

  /** A `[String]` path: an array casts element by element, a single scalar
      becomes a one-element array. */
  function StringArrayField(v: Value): Field<seq<string>> {
    if IsNullish(v) then Absent
    else if v.Arr? then
      match CastStrings(v.items)
      case Some(ss) => Present(ss)
      case None => Invalid
    else match CastString(v)
      case Some(s) => Present([s])
      case None => Invalid
  }

  function RequiredString(path: string, v: Value): Result<string, SchemaError> {
    match StringField(v)
    case Absent => Failure(Required(path))
    case Invalid => Failure(CastFailed(path))
    case Present(s) => if s == "" then Failure(Required(path)) else Success(s)
  }

  function OptionalString(path: string, v: Value): Result<Option<string>, SchemaError> {
    match StringField(v)
    case Absent => Success(None)
    case Invalid => Failure(CastFailed(path))
    case Present(s) => Success(Some(s))
  }

  function StringWithDefault(path: string, v: Value, default: string): Result<string, SchemaError> {
    match StringField(v)
    case Absent => Success(default)
    case Invalid => Failure(CastFailed(path))
    case Present(s) => Success(s)
  }

  function RequiredNumber(path: string, v: Value): Result<int, SchemaError> {
    match NumberField(v)
    case Absent => Failure(Required(path))
    case Invalid => Failure(CastFailed(path))
    case Present(n) => Success(n)
  }

  function OptionalNumber(path: string, v: Value): Result<Option<int>, SchemaError> {
    match NumberField(v)
    case Absent => Success(None)
    case Invalid => Failure(CastFailed(path))
    case Present(n) => Success(Some(n))
  }

  function BooleanWithDefault(path: string, v: Value, default: bool): Result<bool, SchemaError> {
    match BooleanField(v)
    case Absent => Success(default)
    case Invalid => Failure(CastFailed(path))
    case Present(b) => Success(b)
  }

  /** Array paths default to the empty array. */
  function StringList(path: string, v: Value): Result<seq<string>, SchemaError> {
    match StringArrayField(v)
    case Absent => Success([])
    case Invalid => Failure(CastFailed(path))
    case Present(ss) => Success(ss)
  }

  /** A Date path defaulting to the time of construction (`Date.now`). */
  function DateWithDefault(path: string, v: Value, now: int): Result<int, SchemaError> {
    if IsNullish(v) then Success(now)
    else if v.Num? then Success(v.n)
    else Failure(CastFailed(path))
  }

  function StatusWithDefault(v: Value): Result<OrderStatus, SchemaError> {
    match StringField(v)
    case Absent => Success(DefaultStatus)
    case Invalid => Failure(CastFailed("status"))
    case Present(s) =>
      match ParseStatus(s)
      case Some(st) => Success(st)
      case None => Failure(NotInEnum("status"))
  }

  function PaymentStatusWithDefault(v: Value): Result<PaymentStatus, SchemaError> {
    match StringField(v)
    case Absent => Success(DefaultPaymentStatus)
    case Invalid => Failure(CastFailed("paymentStatus"))
    case Present(s) =>
      match ParsePaymentStatus(s)
      case Some(st) => Success(st)
      case None => Failure(NotInEnum("paymentStatus"))
  }

  // ---------------------------------------------------------------------
  // Constructing documents

  /** The nested `customer` path: every sub-field is an optional string. */
  function DecodeCustomer(v: Value): Result<Customer, SchemaError> {
    if IsNullish(v) then Success(Customer(None, None, None, None, None, None, None, None))
    else if !v.Obj? then Failure(CastFailed("customer"))
    else DecodeCustomerFields(Get(v, "email"), Get(v, "firstName"), Get(v, "lastName"), Get(v, "address"),
                              Get(v, "apartment"), Get(v, "city"), Get(v, "zipCode"), Get(v, "phone"))
  }

  function DecodeCustomerFields(email: Value, firstName: Value, lastName: Value, address: Value,
                                apartment: Value, city: Value, zipCode: Value, phone: Value): Result<Customer, SchemaError>
  {
    var email :- OptionalString("customer.email", email);
    var firstName :- OptionalString("customer.firstName", firstName);
    var lastName :- OptionalString("customer.lastName", lastName);
    var address :- OptionalString("customer.address", address);
    var apartment :- OptionalString("customer.apartment", apartment);
    var city :- OptionalString("customer.city", city);
    var zipCode :- OptionalString("customer.zipCode", zipCode);
    var phone :- OptionalString("customer.phone", phone);
    Success(Customer(email, firstName, lastName, address, apartment, city, zipCode, phone))
  }

  function DecodeItem(v: Value): Result<OrderItem, SchemaError> {
    if !v.Obj? then Failure(CastFailed("items"))
    else DecodeItemFields(Get(v, "productId"), Get(v, "name"), Get(v, "price"),
                          Get(v, "quantity"), Get(v, "image"), Get(v, "size"))
  }

  function DecodeItemFields(productId: Value, name: Value, price: Value,
                            quantity: Value, image: Value, size: Value): Result<OrderItem, SchemaError>
  {
    var productId :- OptionalString("items.productId", productId);
    var name :- OptionalString("items.name", name);
    var price :- OptionalNumber("items.price", price);
    var quantity :- OptionalNumber("items.quantity", quantity);
    var image :- OptionalString("items.image", image);
    var size :- OptionalString("items.size", size);
    Success(OrderItem(productId, name, price, quantity, image, size))
  }

  function DecodeItems(xs: seq<Value>): (r: Result<seq<OrderItem>, SchemaError>)
    ensures r.Success? ==> |r.value| == |xs|
  {
    if xs == [] then Success([])
    else
      var first :- DecodeItem(xs[0]);
      var rest :- DecodeItems(xs[1..]);
      Success([first] + rest)
  }

  function DecodeItemList(v: Value): Result<seq<OrderItem>, SchemaError> {
    if IsNullish(v) then Success([])
    else if v.Arr? then DecodeItems(v.items)
    else Failure(CastFailed("items"))
  }

  /** `new Order(doc)` followed by validation, at time `now`: the known
      paths are cast, defaults filled in, required and enum rules checked;
      other keys of `doc` are dropped. */
  function DecodeOrder(doc: Value, oid: string, now: int): (r: Result<Order, SchemaError>)
    ensures r.Success? ==> r.value.oid == oid && r.value.orderId != "" && r.value.paymentMethod != ""
    ensures RequiredString("orderId", Get(doc, "orderId")).Failure? ==> r.Failure?
    ensures RequiredString("paymentMethod", Get(doc, "paymentMethod")).Failure? ==> r.Failure?
    ensures !NumberField(Get(doc, "totalAmount")).Present? ==> r.Failure?
    ensures r.Success? && IsNullish(Get(doc, "status")) ==> r.value.status == Processing
    ensures r.Success? && IsNullish(Get(doc, "paymentStatus")) ==> r.value.paymentStatus == PaymentPending
    ensures r.Success? && IsNullish(Get(doc, "shippingMethod")) ==> r.value.shippingMethod == DefaultShippingMethod
    ensures r.Success? && IsNullish(Get(doc, "createdAt")) ==> r.value.createdAt == now
    ensures Get(doc, "status").Str? && ParseStatus(Get(doc, "status").s).None? ==> r.Failure?
    ensures Get(doc, "paymentStatus").Str? && ParsePaymentStatus(Get(doc, "paymentStatus").s).None? ==> r.Failure?
    ensures r.Success? && Get(doc, "paymentStatus").Str? ==> PaymentStatusName(r.value.paymentStatus) == Get(doc, "paymentStatus").s
    ensures r.Success? ==> NumberField(Get(doc, "totalAmount")) == Present(r.value.totalAmount)
    ensures r.Success? ==> RequiredString("paymentMethod", Get(doc, "paymentMethod")) == Success(r.value.paymentMethod)
    ensures r.Success? && Get(doc, "status").Str? ==> StatusName(r.value.status) == Get(doc, "status").s
    ensures r.Success? ==> RequiredString("orderId", Get(doc, "orderId")) == Success(r.value.orderId)
    ensures r.Success? ==> OptionalString("userId", Get(doc, "userId")) == Success(r.value.userId)
    ensures r.Success? ==> DecodeCustomer(Get(doc, "customer")) == Success(r.value.customer)
  {
    DecodeOrderFields(Get(doc, "orderId"), Get(doc, "userId"), Get(doc, "customer"), Get(doc, "items"),
                      Get(doc, "totalAmount"), Get(doc, "shippingMethod"), Get(doc, "paymentMethod"),
                      Get(doc, "paymentIntentId"), Get(doc, "paymentStatus"), Get(doc, "status"),
                      Get(doc, "createdAt"), oid, now)
  }

  function DecodeOrderFields(orderId: Value, userId: Value, customer: Value, items: Value,
                             totalAmount: Value, shippingMethod: Value, paymentMethod: Value,
                             paymentIntentId: Value, paymentStatus: Value, status: Value,
                             createdAt: Value, oid: string, now: int): Result<Order, SchemaError>
  {
    var orderId :- RequiredString("orderId", orderId);
    var userId :- OptionalString("userId", userId);
    var customer :- DecodeCustomer(customer);
    var items :- DecodeItemList(items);
    var totalAmount :- RequiredNumber("totalAmount", totalAmount);
    var shippingMethod :- StringWithDefault("shippingMethod", shippingMethod, DefaultShippingMethod);
    DecodeOrderPayment(oid, orderId, userId, customer, items, totalAmount, shippingMethod,
                       paymentMethod, paymentIntentId, paymentStatus, status, createdAt, now)
  }

  /** The payment, status and date paths of an order, once the others are decoded. */
  function DecodeOrderPayment(oid: string, orderId: string, userId: Option<string>, customer: Customer,
                              items: seq<OrderItem>, totalAmount: int, shippingMethod: string,
                              paymentMethod: Value, paymentIntentId: Value, paymentStatus: Value,
                              status: Value, createdAt: Value, now: int): Result<Order, SchemaError>
  {
    var paymentMethod :- RequiredString("paymentMethod", paymentMethod);
    var paymentIntentId :- OptionalString("paymentIntentId", paymentIntentId);
    var paymentStatus :- PaymentStatusWithDefault(paymentStatus);
    var status :- StatusWithDefault(status);
    var createdAt :- DateWithDefault("createdAt", createdAt, now);
    Success(Order(oid, orderId, userId, customer, items, totalAmount, shippingMethod,
                  paymentMethod, paymentIntentId, paymentStatus, status, createdAt))
  }

  /** `new Product(doc)` followed by validation, at time `now`. */
  function DecodeProduct(doc: Value, oid: string, now: int): (r: Result<Product, SchemaError>)
    ensures r.Success? ==> r.value.oid == oid && r.value.name != "" && r.value.image != "" && r.value.category != ""
    ensures !NumberField(Get(doc, "id")).Present? ==> r.Failure?
    ensures r.Success? ==> NumberField(Get(doc, "id")) == Present(r.value.id)
    ensures !NumberField(Get(doc, "price")).Present? ==> r.Failure?
    ensures r.Success? ==> NumberField(Get(doc, "price")) == Present(r.value.price)
    ensures r.Success? ==> StringField(Get(doc, "image")) == Present(r.value.image)
    ensures r.Success? && IsNullish(Get(doc, "createdAt")) ==> r.value.createdAt == now
    ensures r.Success? && IsNullish(Get(doc, "isSoldOut")) ==> !r.value.isSoldOut
    ensures r.Success? && IsNullish(Get(doc, "images")) ==> r.value.images == []
    ensures r.Success? && IsNullish(Get(doc, "sizes")) ==> r.value.sizes == []
    ensures r.Success? && IsNullish(Get(doc, "description")) ==> r.value.description == None
    ensures r.Success? ==> StringField(Get(doc, "name")) == Present(r.value.name)
    ensures r.Success? ==> StringField(Get(doc, "category")) == Present(r.value.category)
  {
    DecodeProductFields(Get(doc, "id"), Get(doc, "name"), Get(doc, "price"), Get(doc, "image"),
                        Get(doc, "images"), Get(doc, "sizes"), Get(doc, "category"),
                        Get(doc, "description"), Get(doc, "isSoldOut"), Get(doc, "createdAt"), oid, now)
  }

  function DecodeProductFields(id: Value, name: Value, price: Value, image: Value, images: Value,
                               sizes: Value, category: Value, description: Value, isSoldOut: Value,
                               createdAt: Value, oid: string, now: int): Result<Product, SchemaError>
  {
    var id :- RequiredNumber("id", id);
    var name :- RequiredString("name", name);
    var price :- RequiredNumber("price", price);
    var image :- RequiredString("image", image);
    var images :- StringList("images", images);
    var sizes :- StringList("sizes", sizes);
    var category :- RequiredString("category", category);
    var description :- OptionalString("description", description);
    var isSoldOut :- BooleanWithDefault("isSoldOut", isSoldOut, false);
    var createdAt :- DateWithDefault("createdAt", createdAt, now);
    Success(Product(oid, id, name, price, image, images, sizes, category, description, isSoldOut, createdAt))
  }

  // ---------------------------------------------------------------------
  // Writing documents back out, and reading them in again

  function OptStr(o: Option<string>): Value {
    match o
    case None => Undefined
    case Some(s) => Str(s)
  }

  function OptNum(o: Option<int>): Value {
    match o
    case None => Undefined
    case Some(n) => Num(n)
  }

  function StrList(ss: seq<string>): (r: seq<Value>)
    ensures |r| == |ss|
    ensures forall i :: 0 <= i < |ss| ==> r[i] == Str(ss[i])
  {
    if ss == [] then [] else [Str(ss[0])] + StrList(ss[1..])
  }

  function EncodeCustomer(c: Customer): Value {
    Obj(map["email" := OptStr(c.email), "firstName" := OptStr(c.firstName),
            "lastName" := OptStr(c.lastName), "address" := OptStr(c.address),
            "apartment" := OptStr(c.apartment), "city" := OptStr(c.city),
            "zipCode" := OptStr(c.zipCode), "phone" := OptStr(c.phone)])
  }

  function EncodeItem(it: OrderItem): Value {
    Obj(map["productId" := OptStr(it.productId), "name" := OptStr(it.name),
            "price" := OptNum(it.price), "quantity" := OptNum(it.quantity),
            "image" := OptStr(it.image), "size" := OptStr(it.size)])
  }

  function EncodeItems(items: seq<OrderItem>): (r: seq<Value>)
    ensures |r| == |items|
  {
    if items == [] then [] else [EncodeItem(items[0])] + EncodeItems(items[1..])
  }

  /** The order as a JSON document (its `_id` is kept apart). */
  function EncodeOrder(o: Order): Value {
    Obj(map[
      "orderId" := Str(o.orderId),
      "userId" := OptStr(o.userId),
      "customer" := EncodeCustomer(o.customer),
      "items" := Arr(EncodeItems(o.items)),
      "totalAmount" := Num(o.totalAmount),
      "shippingMethod" := Str(o.shippingMethod),
      "paymentMethod" := Str(o.paymentMethod),
      "paymentIntentId" := OptStr(o.paymentIntentId),
      "paymentStatus" := Str(PaymentStatusName(o.paymentStatus)),
      "status" := Str(StatusName(o.status)),
      "createdAt" := Num(o.createdAt)])
  }

  function EncodeProduct(p: Product): Value {
    Obj(map[
      "id" := Num(p.id),
      "name" := Str(p.name),
      "price" := Num(p.price),
      "image" := Str(p.image),
      "images" := Arr(StrList(p.images)),
      "sizes" := Arr(StrList(p.sizes)),
      "category" := Str(p.category),
      "description" := OptStr(p.description),
      "isSoldOut" := Bool(p.isSoldOut),
      "createdAt" := Num(p.createdAt)])
  }

  /** An order that satisfies the schema (its required strings are non-empty). */
  predicate ValidOrder(o: Order) {
    o.orderId != "" && o.paymentMethod != ""
  }

  predicate ValidProduct(p: Product) {
    p.name != "" && p.image != "" && p.category != ""
  }

  lemma OptionalStringOfEncoding(path: string, o: Option<string>)
    ensures OptionalString(path, OptStr(o)) == Success(o)
  {
  }

  lemma DecodeEncodeCustomer(c: Customer)
    ensures DecodeCustomer(EncodeCustomer(c)) == Success(c)
  {
    var v := EncodeCustomer(c);
    assert Get(v, "email") == OptStr(c.email);
    assert Get(v, "firstName") == OptStr(c.firstName);
    assert Get(v, "lastName") == OptStr(c.lastName);
    assert Get(v, "address") == OptStr(c.address);
    assert Get(v, "apartment") == OptStr(c.apartment);
    assert Get(v, "city") == OptStr(c.city);
    assert Get(v, "zipCode") == OptStr(c.zipCode);
    assert Get(v, "phone") == OptStr(c.phone);
    OptionalStringOfEncoding("customer.email", c.email);
    OptionalStringOfEncoding("customer.firstName", c.firstName);
    OptionalStringOfEncoding("customer.lastName", c.lastName);
    OptionalStringOfEncoding("customer.address", c.address);
    OptionalStringOfEncoding("customer.apartment", c.apartment);
    OptionalStringOfEncoding("customer.city", c.city);
    OptionalStringOfEncoding("customer.zipCode", c.zipCode);
    OptionalStringOfEncoding("customer.phone", c.phone);
  }

  lemma OptionalNumberOfEncoding(path: string, o: Option<int>)
    ensures OptionalNumber(path, OptNum(o)) == Success(o)
  {
  }

  lemma DecodeEncodeItem(it: OrderItem)
    ensures DecodeItem(EncodeItem(it)) == Success(it)
  {
    var v := EncodeItem(it);
    assert Get(v, "productId") == OptStr(it.productId);
    assert Get(v, "name") == OptStr(it.name);
    assert Get(v, "price") == OptNum(it.price);
    assert Get(v, "quantity") == OptNum(it.quantity);
    assert Get(v, "image") == OptStr(it.image);
    assert Get(v, "size") == OptStr(it.size);
    OptionalStringOfEncoding("items.productId", it.productId);
    OptionalStringOfEncoding("items.name", it.name);
    OptionalNumberOfEncoding("items.price", it.price);
    OptionalNumberOfEncoding("items.quantity", it.quantity);
    OptionalStringOfEncoding("items.image", it.image);
    OptionalStringOfEncoding("items.size", it.size);
  }

  lemma {:induction false} DecodeEncodeItems(items: seq<OrderItem>)
    ensures DecodeItems(EncodeItems(items)) == Success(items)
  {
    if items != [] {
      var enc := EncodeItems(items);
      assert enc[0] == EncodeItem(items[0]) && enc[1..] == EncodeItems(items[1..]);
      DecodeEncodeItem(items[0]);
      DecodeEncodeItems(items[1..]);
      assert [items[0]] + items[1..] == items;
    }
  }

  lemma {:induction false} CastStringsOfEncoding(ss: seq<string>)
    ensures CastStrings(StrList(ss)) == Some(ss)
  {
    if ss != [] {
      var enc := StrList(ss);
      assert enc[1..] == StrList(ss[1..]);
      CastStringsOfEncoding(ss[1..]);
      assert [ss[0]] + ss[1..] == ss;
    }
  }

  /** Order paths that each decode to the order's field decode to the order. */
  lemma OrderFieldsDecode(o: Order, now: int, orderId: Value, userId: Value, customer: Value,
                          items: Value, totalAmount: Value, shippingMethod: Value)
    requires RequiredString("orderId", orderId) == Success(o.orderId)
    requires OptionalString("userId", userId) == Success(o.userId)
    requires DecodeCustomer(customer) == Success(o.customer)
    requires DecodeItemList(items) == Success(o.items)
    requires RequiredNumber("totalAmount", totalAmount) == Success(o.totalAmount)
    requires StringWithDefault("shippingMethod", shippingMethod, DefaultShippingMethod) == Success(o.shippingMethod)
    requires ValidOrder(o)
    ensures DecodeOrderFields(orderId, userId, customer, items, totalAmount, shippingMethod,
                              Str(o.paymentMethod), OptStr(o.paymentIntentId),
                              Str(PaymentStatusName(o.paymentStatus)), Str(StatusName(o.status)),
                              Num(o.createdAt), o.oid, now) == Success(o)
  {
    OrderPaymentOfEncoding(o, now);
  }

  lemma OrderFieldsOfEncoding(o: Order, now: int)
    requires ValidOrder(o)
    ensures DecodeOrderFields(Str(o.orderId), OptStr(o.userId), EncodeCustomer(o.customer),
                              Arr(EncodeItems(o.items)), Num(o.totalAmount), Str(o.shippingMethod),
                              Str(o.paymentMethod), OptStr(o.paymentIntentId),
                              Str(PaymentStatusName(o.paymentStatus)), Str(StatusName(o.status)),
                              Num(o.createdAt), o.oid, now) == Success(o)
  {
    OptionalStringOfEncoding("userId", o.userId);
    DecodeEncodeCustomer(o.customer);
    DecodeEncodeItemList(o.items);
    OrderHeadOfEncoding(o);
    OrderFieldsDecode(o, now, Str(o.orderId), OptStr(o.userId), EncodeCustomer(o.customer),
                      Arr(EncodeItems(o.items)), Num(o.totalAmount), Str(o.shippingMethod));
  }

  lemma DecodeEncodeItemList(items: seq<OrderItem>)
    ensures DecodeItemList(Arr(EncodeItems(items))) == Success(items)
  {
    DecodeEncodeItems(items);
  }

  lemma OrderHeadOfEncoding(o: Order)
    requires ValidOrder(o)
    ensures RequiredString("orderId", Str(o.orderId)) == Success(o.orderId)
    ensures RequiredNumber("totalAmount", Num(o.totalAmount)) == Success(o.totalAmount)
    ensures StringWithDefault("shippingMethod", Str(o.shippingMethod), DefaultShippingMethod) == Success(o.shippingMethod)
  {
  }

  lemma OrderPaymentOfEncoding(o: Order, now: int)
    requires ValidOrder(o)
    ensures DecodeOrderPayment(o.oid, o.orderId, o.userId, o.customer, o.items, o.totalAmount, o.shippingMethod,
                               Str(o.paymentMethod), OptStr(o.paymentIntentId),
                               Str(PaymentStatusName(o.paymentStatus)), Str(StatusName(o.status)),
                               Num(o.createdAt), now) == Success(o)
  {
    assert RequiredString("paymentMethod", Str(o.paymentMethod)) == Success(o.paymentMethod);
    OptionalStringOfEncoding("paymentIntentId", o.paymentIntentId);
    assert DateWithDefault("createdAt", Num(o.createdAt), now) == Success(o.createdAt);
    PaymentStatusOfEncoding(o.paymentStatus);
    StatusOfEncoding(o.status);
  }

  lemma StatusOfEncoding(st: OrderStatus)
    ensures StatusWithDefault(Str(StatusName(st))) == Success(st)
  {
  }

  lemma PaymentStatusOfEncoding(st: PaymentStatus)
    ensures PaymentStatusWithDefault(Str(PaymentStatusName(st))) == Success(st)
  {
  }

  lemma OrderEncodingLookups(o: Order)
    ensures var doc := EncodeOrder(o);
      && Get(doc, "orderId") == Str(o.orderId)
      && Get(doc, "userId") == OptStr(o.userId)
      && Get(doc, "customer") == EncodeCustomer(o.customer)
      && Get(doc, "items") == Arr(EncodeItems(o.items))
      && Get(doc, "totalAmount") == Num(o.totalAmount)
      && Get(doc, "shippingMethod") == Str(o.shippingMethod)
  {
  }

  lemma OrderEncodingLookupsRest(o: Order)
    ensures var doc := EncodeOrder(o);
      && Get(doc, "paymentMethod") == Str(o.paymentMethod)
      && Get(doc, "paymentIntentId") == OptStr(o.paymentIntentId)
      && Get(doc, "paymentStatus") == Str(PaymentStatusName(o.paymentStatus))
      && Get(doc, "status") == Str(StatusName(o.status))
      && Get(doc, "createdAt") == Num(o.createdAt)
  {
  }

  /** A schema-valid order, written out and constructed again, is the same order. */
  lemma DecodeEncodeOrder(o: Order, now: int)
    requires ValidOrder(o)
    ensures DecodeOrder(EncodeOrder(o), o.oid, now) == Success(o)
  {
    OrderEncodingLookups(o);
    OrderEncodingLookupsRest(o);
    OrderFieldsOfEncoding(o, now);
  }

  /** Product paths that each decode to the product's field decode to the product. */
  lemma ProductFieldsDecode(p: Product, now: int, id: Value, name: Value, price: Value, image: Value,
                            images: Value, sizes: Value, category: Value, description: Value,
                            isSoldOut: Value, createdAt: Value)
    requires RequiredNumber("id", id) == Success(p.id)
    requires RequiredString("name", name) == Success(p.name)
    requires RequiredNumber("price", price) == Success(p.price)
    requires RequiredString("image", image) == Success(p.image)
    requires StringList("images", images) == Success(p.images)
    requires StringList("sizes", sizes) == Success(p.sizes)
    requires RequiredString("category", category) == Success(p.category)
    requires OptionalString("description", description) == Success(p.description)
    requires BooleanWithDefault("isSoldOut", isSoldOut, false) == Success(p.isSoldOut)
    requires DateWithDefault("createdAt", createdAt, now) == Success(p.createdAt)
    ensures DecodeProductFields(id, name, price, image, images, sizes, category, description,
                                isSoldOut, createdAt, p.oid, now) == Success(p)
  {
  }

  lemma StringListOfEncoding(path: string, ss: seq<string>)
    ensures StringList(path, Arr(StrList(ss))) == Success(ss)
  {
    CastStringsOfEncoding(ss);
  }

  lemma ProductHeadOfEncoding(p: Product, now: int)
    requires ValidProduct(p)
    ensures RequiredNumber("id", Num(p.id)) == Success(p.id)
    ensures RequiredString("name", Str(p.name)) == Success(p.name)
    ensures RequiredNumber("price", Num(p.price)) == Success(p.price)
    ensures RequiredString("image", Str(p.image)) == Success(p.image)
    ensures RequiredString("category", Str(p.category)) == Success(p.category)
    ensures BooleanWithDefault("isSoldOut", Bool(p.isSoldOut), false) == Success(p.isSoldOut)
    ensures DateWithDefault("createdAt", Num(p.createdAt), now) == Success(p.createdAt)
  {
  }

  lemma ProductFieldsOfEncoding(p: Product, now: int)
    requires ValidProduct(p)
    ensures DecodeProductFields(Num(p.id), Str(p.name), Num(p.price), Str(p.image),
                                Arr(StrList(p.images)), Arr(StrList(p.sizes)), Str(p.category),
                                OptStr(p.description), Bool(p.isSoldOut), Num(p.createdAt),
                                p.oid, now) == Success(p)
  {
    StringListOfEncoding("images", p.images);
    StringListOfEncoding("sizes", p.sizes);
    OptionalStringOfEncoding("description", p.description);
    ProductHeadOfEncoding(p, now);
    ProductFieldsDecode(p, now, Num(p.id), Str(p.name), Num(p.price), Str(p.image),
                        Arr(StrList(p.images)), Arr(StrList(p.sizes)), Str(p.category),
                        OptStr(p.description), Bool(p.isSoldOut), Num(p.createdAt));
  }

  lemma ProductEncodingLookups(p: Product)
    ensures var doc := EncodeProduct(p);
      && Get(doc, "id") == Num(p.id)
      && Get(doc, "name") == Str(p.name)
      && Get(doc, "price") == Num(p.price)
      && Get(doc, "image") == Str(p.image)
      && Get(doc, "images") == Arr(StrList(p.images))
      && Get(doc, "sizes") == Arr(StrList(p.sizes))
      && Get(doc, "category") == Str(p.category)
      && Get(doc, "description") == OptStr(p.description)
      && Get(doc, "isSoldOut") == Bool(p.isSoldOut)
      && Get(doc, "createdAt") == Num(p.createdAt)
  {
  }

  /** A schema-valid product, written out and constructed again, is the same product. */
  lemma DecodeEncodeProduct(p: Product, now: int)
    requires ValidProduct(p)
    ensures DecodeProduct(EncodeProduct(p), p.oid, now) == Success(p)
  {
    ProductEncodingLookups(p);
    ProductFieldsOfEncoding(p, now);
  }

  /** Decoding yields only schema-valid documents. */
  lemma DecodedOrderIsValid(doc: Value, oid: string, now: int)
    requires DecodeOrder(doc, oid, now).Success?
    ensures ValidOrder(DecodeOrder(doc, oid, now).value)
  {
  }
}
