/** The storefront routes: products (fetch one, create, update) and orders
    (create, the customer's own list, the list by order numbers, status
    change and cancellation). The two collections live in a `Store`; a
    handler that changes a document fetches it, assigns its fields and
    saves it back. */
module Storefront {
  import opened Wrappers
  import opened Seqs
  import opened Json
  import opened Records
  import opened Escaping
  import opened Tokens

  // ---------------------------------------------------------------------
  // Responses

  datatype Payload =
    | Message(text: string)
    | ProductDoc(product: Product)
    | OrderDoc(order: Order)
    | OrderList(list: seq<Order>)
    | CancelledOrder(text: string, order: Order)
    | OrderError(text: string, error: SchemaError)

  datatype Reply = Reply(status: nat, payload: Payload)

  const ProductNotFound := "商品が見つかりません"
  const ServerFailure := "サーバーエラーが発生しました"
  const ProductAddFailed := "商品の追加に失敗しました"
  const ProductUpdateFailed := "商品の更新に失敗しました"
  const OrderCreateFailed := "注文の作成に失敗しました: "
  const NoToken := "認証トークンがありません"
  const HistoryFailed := "注文履歴の取得に失敗しました"
  const InvalidStatus := "無効なステータスです"
  const OrderNotFound := "注文が見つかりません"
  const StatusUpdateFailed := "ステータスの更新に失敗しました"
  const NotCancellable := "この注文はキャンセルできません（発送済みまたは完了済み）"
  const CancelWindowPassed := "注文から24時間が経過しているためキャンセルできません"
  const OrderCancelled := "注文をキャンセルしました"

  /** The cancellation window, 24 hours in milliseconds. */
  const CancelWindowMs := 24 * 60 * 60 * 1000

  // ---------------------------------------------------------------------
  // Document ids

  /** `/^[0-9a-fA-F]{24}$/`. */
  predicate IsObjectIdText(s: string) {
    |s| == 24 && forall i :: 0 <= i < |s| ==> IsHexDigit(s[i])
  }

  function LowerHex(c: char): char {
    if 'A' <= c <= 'F' then (c as int - 'A' as int + 'a' as int) as char else c
  }

  /** Casting a route parameter to an ObjectId; stored ids are written in
      lower-case hexadecimal. */
  function CastObjectId(s: string): (r: Option<string>)
    ensures r.Some? <==> IsObjectIdText(s)
    ensures r.Some? ==> |r.value| == 24
  {
    if IsObjectIdText(s) then Some(seq(24, i requires 0 <= i < 24 => LowerHex(s[i]))) else None
  }

  function ProductWithOid(products: seq<Product>, oid: string): Option<nat> {
    FindFirst(products, (p: Product) => p.oid == oid)
  }

  function ProductWithId(products: seq<Product>, id: int): Option<nat> {
    FindFirst(products, (p: Product) => p.id == id)
  }

  function OrderWithOid(orders: seq<Order>, oid: string): Option<nat> {
    FindFirst(orders, (o: Order) => o.oid == oid)
  }

  function OrderWithOrderId(orders: seq<Order>, orderId: string): Option<nat> {
    FindFirst(orders, (o: Order) => o.orderId == orderId)
  }

  // ---------------------------------------------------------------------
  // Products

  /** GET /products/:id: a 24-digit hexadecimal parameter is the document id,
      anything else goes through `parseInt` to the numeric id; a parameter
      with no leading number cannot be cast to a Number query (500). */
  function GetProduct(products: seq<Product>, param: string): (r: Reply)
    ensures r.status == 200 ==> r.payload.ProductDoc? && r.payload.product in products
    ensures IsObjectIdText(param) ==>
      (r.status == 200 <==> exists i :: 0 <= i < |products| && products[i].oid == CastObjectId(param).value)
    ensures IsObjectIdText(param) && r.status == 200 ==> r.payload.product.oid == CastObjectId(param).value
    ensures !IsObjectIdText(param) && ParseInt(param).None? ==> r == Reply(500, Message(ServerFailure))
    ensures !IsObjectIdText(param) && ParseInt(param).Some? ==>
      (r.status == 200 <==> exists i :: 0 <= i < |products| && products[i].id == ParseInt(param).value)
    ensures !IsObjectIdText(param) && r.status == 200 ==> Some(r.payload.product.id) == ParseInt(param)
    ensures r.status in {200, 404, 500}
  {
    if IsObjectIdText(param) then
      match ProductWithOid(products, CastObjectId(param).value)
      case None => Reply(404, Message(ProductNotFound))
      case Some(i) => Reply(200, ProductDoc(products[i]))
    else
      match ParseInt(param)
      case None => Reply(500, Message(ServerFailure))
      case Some(n) =>
        match ProductWithId(products, n)
        case None => Reply(404, Message(ProductNotFound))
        case Some(i) => Reply(200, ProductDoc(products[i]))
  }

  /** A `0x` parameter is never a document id, and `parseInt` reads it as
      hexadecimal: GET /products/0x1a asks for product 26. */
  lemma HexParamLooksUpHexId(products: seq<Product>, h: string)
    requires h != [] && AllHexDigits(h)
    ensures GetProduct(products, "0x" + h).status == 200 <==>
      exists i :: 0 <= i < |products| && products[i].id == HexValue(h) as int
  {
    var param := "0x" + h;
    assert !IsHexDigit(param[1]);
    ParseIntOfHex(h);
  }

  /** The largest stored numeric id (`findOne().sort({ id: -1 })`). */
  function MaxId(products: seq<Product>): (m: int)
    requires |products| > 0
    ensures forall i :: 0 <= i < |products| ==> products[i].id <= m
    ensures exists i :: 0 <= i < |products| && products[i].id == m
  {
    if |products| == 1 then products[0].id
    else
      var rest := MaxId(products[1..]);
      if products[0].id >= rest then products[0].id else rest
  }

  /** The id a new product receives: 1 in an empty store, else one more than the largest. */
  function NextProductId(products: seq<Product>): (n: int)
    ensures products == [] ==> n == 1
    ensures forall i :: 0 <= i < |products| ==> products[i].id < n
    ensures products != [] ==> exists i :: 0 <= i < |products| && products[i].id == n - 1
  {
    if products == [] then 1 else MaxId(products) + 1
  }

  /** `{ id: newId, ...sanitizeProduct(req.body) }`. */
  function NewProductDocument(body: Value, id: int): (doc: Value)
    ensures Get(doc, "id") == Num(id)
    ensures forall k :: k in ProductInputKeys ==> Get(doc, k) == Get(SanitizeProduct(body), k)
  {
    Obj(map["id" := Num(id)] + SanitizeProduct(body).fields)
  }

  /** A required text field of the update: replaced by the sanitized value when truthy. */
  function MergedText(path: string, v: Value, current: string): (r: Result<string, SchemaError>)
    ensures r.Success? && !Truthy(v) ==> r.value == current
    ensures r.Success? && v.Str? && v.s != "" ==> r.value == Escape(v.s)
    ensures r.Success? && current != "" ==> r.value != ""
    ensures current != "" ==> (r.Success? <==> !Truthy(v) || CastString(v).Some?)
  {
    if Truthy(v) && v.Str? then
      assert Escape(v.s) != [] by { assert Escape(v.s) == EntityOf(v.s[0]) + Escape(v.s[1..]); }
      RequiredString(path, Sanitize(v))
    else if Truthy(v) then RequiredString(path, Sanitize(v)) else Success(current)
  }

  function MergedOptionalText(path: string, v: Value, current: Option<string>): (r: Result<Option<string>, SchemaError>)
    ensures r.Success? && !Truthy(v) ==> r.value == current
    ensures r.Success? && v.Str? && v.s != "" ==> r.value == Some(Escape(v.s))
    ensures r.Success? <==> !Truthy(v) || CastString(v).Some?
  {
    if Truthy(v) then OptionalString(path, Sanitize(v)) else Success(current)
  }

  /** The image URL is stored as given, without sanitizing. */
  function MergedUrl(v: Value, current: string): (r: Result<string, SchemaError>)
    ensures r.Success? && !Truthy(v) ==> r.value == current
    ensures r.Success? && v.Str? && v.s != "" ==> r.value == v.s
    ensures r.Success? && current != "" ==> r.value != ""
    ensures current != "" ==> (r.Success? <==> !Truthy(v) || CastString(v).Some?)
  {
    if Truthy(v) then RequiredString("image", v) else Success(current)
  }

  function MergedList(path: string, v: Value, current: seq<string>): (r: Result<seq<string>, SchemaError>)
    ensures r.Success? && !Truthy(v) ==> r.value == current
    ensures r.Success? && Truthy(v) ==> StringArrayField(v) == Present(r.value)
    ensures r.Success? <==> !Truthy(v) || StringArrayField(v).Present?
  {
    if Truthy(v) then StringList(path, v) else Success(current)
  }

  /** `isSoldOut` is assigned whenever it is not undefined; null saves as false. */
  function MergedFlag(v: Value, current: bool): (r: Result<bool, SchemaError>)
    ensures r.Success? && v.Undefined? ==> r.value == current
    ensures v.Bool? ==> r == Success(v.b)
    ensures v.Null? ==> r == Success(false)
    ensures r.Success? <==> v.Undefined? || !BooleanField(v).Invalid?
  {
    if v.Undefined? then Success(current) else BooleanWithDefault("isSoldOut", v, false)
  }

  /** `Number(req.body.price) || product.price`, applied only when the price is truthy. */
  function MergedPrice(v: Value, current: int): (r: int)
    ensures Truthy(v) && JsNumber(v).Some? && JsNumber(v).value != 0 ==> r == JsNumber(v).value
    ensures !(Truthy(v) && JsNumber(v).Some? && JsNumber(v).value != 0) ==> r == current
  {
    if Truthy(v) then
      match JsNumber(v)
      case Some(n) => if n != 0 then n else current
      case None => current
    else current
  }

  /** The field assignments of PUT /products/:id followed by the save's
      casting: a truthy field replaces the stored one (text sanitized), a
      price replaces it only when `Number(price)` is a non-zero number, and
      `isSoldOut` is assigned whenever it is present at all; nothing else
      changes. */
  function MergeProduct(p: Product, body: Value): (r: Result<Product, SchemaError>)
    ensures r.Success? ==> r.value.oid == p.oid && r.value.id == p.id && r.value.createdAt == p.createdAt
    ensures r.Success? ==> r.value.price == MergedPrice(Get(body, "price"), p.price)
    ensures r.Success? && !Truthy(Get(body, "name")) ==> r.value.name == p.name
    ensures r.Success? && Get(body, "name").Str? && Get(body, "name").s != "" ==> r.value.name == Escape(Get(body, "name").s)
    ensures r.Success? && !Truthy(Get(body, "category")) ==> r.value.category == p.category
    ensures r.Success? && Get(body, "category").Str? && Get(body, "category").s != "" ==> r.value.category == Escape(Get(body, "category").s)
    ensures r.Success? && !Truthy(Get(body, "description")) ==> r.value.description == p.description
    ensures r.Success? && Get(body, "description").Str? && Get(body, "description").s != "" ==> r.value.description == Some(Escape(Get(body, "description").s))
    ensures r.Success? && !Truthy(Get(body, "image")) ==> r.value.image == p.image
    ensures r.Success? && Get(body, "image").Str? && Get(body, "image").s != "" ==> r.value.image == Get(body, "image").s
    ensures r.Success? && !Truthy(Get(body, "images")) ==> r.value.images == p.images
    ensures r.Success? && !Truthy(Get(body, "sizes")) ==> r.value.sizes == p.sizes
    ensures r.Success? && Truthy(Get(body, "images")) ==> StringArrayField(Get(body, "images")) == Present(r.value.images)
    ensures r.Success? && Truthy(Get(body, "sizes")) ==> StringArrayField(Get(body, "sizes")) == Present(r.value.sizes)
    ensures r.Success? && Get(body, "isSoldOut").Undefined? ==> r.value.isSoldOut == p.isSoldOut
    ensures r.Success? && Get(body, "isSoldOut").Bool? ==> r.value.isSoldOut == Get(body, "isSoldOut").b
    ensures ValidProduct(p) && r.Success? ==> ValidProduct(r.value)
  {
    var name :- MergedText("name", Get(body, "name"), p.name);
    var price := MergedPrice(Get(body, "price"), p.price);
    var category :- MergedText("category", Get(body, "category"), p.category);
    var description :- MergedOptionalText("description", Get(body, "description"), p.description);
    var images :- MergedList("images", Get(body, "images"), p.images);
    var image :- MergedUrl(Get(body, "image"), p.image);
    var sizes :- MergedList("sizes", Get(body, "sizes"), p.sizes);
    var isSoldOut :- MergedFlag(Get(body, "isSoldOut"), p.isSoldOut);
    Success(p.(name := name, price := price, category := category, description := description,
               images := images, image := image, sizes := sizes, isSoldOut := isSoldOut))
  }

  /** When an update saves: exactly when every field it sends casts to the
      field's type (texts and the image URL to String, the lists to
      `[String]`, isSoldOut to Boolean). A stored valid product keeps its
      non-empty name, category and image, so those never fail as empty. */
  lemma MergeSucceedsIff(p: Product, body: Value)
    requires ValidProduct(p)
    ensures MergeProduct(p, body).Success? <==>
      && (!Truthy(Get(body, "name")) || CastString(Get(body, "name")).Some?)
      && (!Truthy(Get(body, "category")) || CastString(Get(body, "category")).Some?)
      && (!Truthy(Get(body, "description")) || CastString(Get(body, "description")).Some?)
      && (!Truthy(Get(body, "image")) || CastString(Get(body, "image")).Some?)
      && (!Truthy(Get(body, "images")) || StringArrayField(Get(body, "images")).Present?)
      && (!Truthy(Get(body, "sizes")) || StringArrayField(Get(body, "sizes")).Present?)
      && (Get(body, "isSoldOut").Undefined? || !BooleanField(Get(body, "isSoldOut")).Invalid?)
  {
  }

  /** An update with an empty body saves the product unchanged. */
  lemma MergeEmptyBody(p: Product)
    ensures MergeProduct(p, Obj(map[])) == Success(p)
  {
  }

  /** Sending the same update twice has the effect of sending it once. */
  lemma MergeIdempotent(p: Product, body: Value)
    requires MergeProduct(p, body).Success?
    ensures MergeProduct(MergeProduct(p, body).value, body) == MergeProduct(p, body)
  {
    var q := MergeProduct(p, body).value;
    MergedFields(p, body);
    MergedTextSettles("name", Get(body, "name"), p.name);
    MergedTextSettles("category", Get(body, "category"), p.category);
    MergedOptionalTextSettles("description", Get(body, "description"), p.description);
    MergedListSettles("images", Get(body, "images"), p.images);
    MergedUrlSettles(Get(body, "image"), p.image);
    MergedListSettles("sizes", Get(body, "sizes"), p.sizes);
    MergedFlagSettles(Get(body, "isSoldOut"), p.isSoldOut);
    MergedPriceSettles(Get(body, "price"), p.price);
    MergeSettled(q, body);
  }

  /** The merged product field by field. */
  lemma MergedFields(p: Product, body: Value)
    requires MergeProduct(p, body).Success?
    ensures var q := MergeProduct(p, body).value;
      && MergedText("name", Get(body, "name"), p.name) == Success(q.name)
      && MergedText("category", Get(body, "category"), p.category) == Success(q.category)
      && MergedOptionalText("description", Get(body, "description"), p.description) == Success(q.description)
      && MergedList("images", Get(body, "images"), p.images) == Success(q.images)
      && MergedUrl(Get(body, "image"), p.image) == Success(q.image)
      && MergedList("sizes", Get(body, "sizes"), p.sizes) == Success(q.sizes)
      && MergedFlag(Get(body, "isSoldOut"), p.isSoldOut) == Success(q.isSoldOut)
      && MergedPrice(Get(body, "price"), p.price) == q.price
  {
  }

  lemma MergedTextSettles(path: string, v: Value, current: string)
    requires MergedText(path, v, current).Success?
    ensures MergedText(path, v, MergedText(path, v, current).value) == MergedText(path, v, current)
  {
  }

  lemma MergedOptionalTextSettles(path: string, v: Value, current: Option<string>)
    requires MergedOptionalText(path, v, current).Success?
    ensures MergedOptionalText(path, v, MergedOptionalText(path, v, current).value) == MergedOptionalText(path, v, current)
  {
  }

  lemma MergedListSettles(path: string, v: Value, current: seq<string>)
    requires MergedList(path, v, current).Success?
    ensures MergedList(path, v, MergedList(path, v, current).value) == MergedList(path, v, current)
  {
  }

  lemma MergedUrlSettles(v: Value, current: string)
    requires MergedUrl(v, current).Success?
    ensures MergedUrl(v, MergedUrl(v, current).value) == MergedUrl(v, current)
  {
  }

  lemma MergedFlagSettles(v: Value, current: bool)
    requires MergedFlag(v, current).Success?
    ensures MergedFlag(v, MergedFlag(v, current).value) == MergedFlag(v, current)
  {
  }

  lemma MergedPriceSettles(v: Value, current: int)
    ensures MergedPrice(v, MergedPrice(v, current)) == MergedPrice(v, current)
  {
  }

  /** An update each of whose fields would keep the stored value saves the product unchanged. */
  lemma MergeSettled(q: Product, body: Value)
    requires MergedText("name", Get(body, "name"), q.name) == Success(q.name)
    requires MergedPrice(Get(body, "price"), q.price) == q.price
    requires MergedText("category", Get(body, "category"), q.category) == Success(q.category)
    requires MergedOptionalText("description", Get(body, "description"), q.description) == Success(q.description)
    requires MergedList("images", Get(body, "images"), q.images) == Success(q.images)
    requires MergedUrl(Get(body, "image"), q.image) == Success(q.image)
    requires MergedList("sizes", Get(body, "sizes"), q.sizes) == Success(q.sizes)
    requires MergedFlag(Get(body, "isSoldOut"), q.isSoldOut) == Success(q.isSoldOut)
    ensures MergeProduct(q, body) == Success(q)
  {
  }

  // ---------------------------------------------------------------------
  // Orders: pure parts

  /** `userId` of a new order: the id of a bearer token that verifies, and
      nothing otherwise (a bad token is ignored, the order is a guest order). */
  function TokenUser(header: Option<string>, signed: Option<Claims>, nowMs: nat): (u: Option<string>)
    ensures u.Some? <==> HasToken(header) && Verify(signed, nowMs).Some?
    ensures u.Some? ==> u.value == signed.value.id
  {
    if HasToken(header) then
      match Verify(signed, nowMs)
      case Some(c) => Some(c.id)
      case None => None
    else None
  }

  /** `ORD-${Date.now()}-${Math.floor(Math.random() * 1000)}`. */
  function GeneratedOrderId(nowMs: nat, random: nat): string
    requires random < 1000
  {
    "ORD-" + IntToString(nowMs) + "-" + IntToString(random)
  }

  function BodyFields(body: Value): map<string, Value> {
    if body.Obj? then body.fields else map[]
  }

  /** `{ ...req.body, userId, orderId: req.body.orderId || generated, customer: sanitizeCustomer(req.body.customer) }`. */
  function NewOrderDocument(body: Value, userId: Option<string>, generated: string): (doc: Value)
    ensures Get(doc, "userId") == OptStr(userId)
    ensures Get(doc, "orderId") == Or(Get(body, "orderId"), Str(generated))
    ensures Get(doc, "customer") == SanitizeCustomer(Get(body, "customer"))
  {
    Obj(BodyFields(body)["userId" := OptStr(userId)]
                        ["orderId" := Or(Get(body, "orderId"), Str(generated))]
                        ["customer" := SanitizeCustomer(Get(body, "customer"))])
  }

  /** Every other field of the request body is saved as sent. */
  lemma NewOrderDocumentKeepsBody(body: Value, userId: Option<string>, generated: string, k: string)
    requires k != "userId" && k != "orderId" && k != "customer"
    ensures Get(NewOrderDocument(body, userId, generated), k) == Get(body, k)
  {
  }

  /** Every contact field of a created order is present, and a field sent as
      text is stored escaped. */
  lemma SanitizedCustomerDecodes(raw: Value, c: Customer)
    requires DecodeCustomer(SanitizeCustomer(raw)) == Success(c)
    ensures c.email.Some? && c.firstName.Some? && c.lastName.Some? && c.address.Some?
    ensures c.apartment.Some? && c.city.Some? && c.zipCode.Some? && c.phone.Some?
    ensures Get(raw, "email").Str? ==> c.email == Some(Escape(Get(raw, "email").s))
    ensures Get(raw, "firstName").Str? ==> c.firstName == Some(Escape(Get(raw, "firstName").s))
    ensures Get(raw, "lastName").Str? ==> c.lastName == Some(Escape(Get(raw, "lastName").s))
    ensures Get(raw, "address").Str? ==> c.address == Some(Escape(Get(raw, "address").s))
    ensures Get(raw, "apartment").Str? ==> c.apartment == Some(Escape(Get(raw, "apartment").s))
    ensures Get(raw, "city").Str? ==> c.city == Some(Escape(Get(raw, "city").s))
    ensures Get(raw, "zipCode").Str? ==> c.zipCode == Some(Escape(Get(raw, "zipCode").s))
    ensures Get(raw, "phone").Str? ==> c.phone == Some(Escape(Get(raw, "phone").s))
  {
    var v := SanitizeCustomer(raw);
    DecodedCustomerFields(v, c);
    SanitizedContact(raw, "email", "customer.email", c.email);
    SanitizedContact(raw, "firstName", "customer.firstName", c.firstName);
    SanitizedContact(raw, "lastName", "customer.lastName", c.lastName);
    SanitizedContact(raw, "address", "customer.address", c.address);
    SanitizedContact(raw, "apartment", "customer.apartment", c.apartment);
    SanitizedContact(raw, "city", "customer.city", c.city);
    SanitizedContact(raw, "zipCode", "customer.zipCode", c.zipCode);
    SanitizedContact(raw, "phone", "customer.phone", c.phone);
  }

  /** A decoded contact object holds, field by field, the cast of each key. */
  lemma DecodedCustomerFields(v: Value, c: Customer)
    requires v.Obj? && DecodeCustomer(v) == Success(c)
    ensures OptionalString("customer.email", Get(v, "email")) == Success(c.email)
    ensures OptionalString("customer.firstName", Get(v, "firstName")) == Success(c.firstName)
    ensures OptionalString("customer.lastName", Get(v, "lastName")) == Success(c.lastName)
    ensures OptionalString("customer.address", Get(v, "address")) == Success(c.address)
    ensures OptionalString("customer.apartment", Get(v, "apartment")) == Success(c.apartment)
    ensures OptionalString("customer.city", Get(v, "city")) == Success(c.city)
    ensures OptionalString("customer.zipCode", Get(v, "zipCode")) == Success(c.zipCode)
    ensures OptionalString("customer.phone", Get(v, "phone")) == Success(c.phone)
  {
  }

  /** A sanitized contact field is never missing, and text comes out escaped. */
  lemma SanitizedContact(raw: Value, k: string, path: string, f: Option<string>)
    requires k in CustomerKeys
    requires OptionalString(path, Get(SanitizeCustomer(raw), k)) == Success(f)
    ensures f.Some?
    ensures Get(raw, k).Str? ==> f == Some(Escape(Get(raw, k).s))
  {
    var x := Or(Get(raw, k), Str(""));
    assert Get(SanitizeCustomer(raw), k) == Sanitize(x);
  }

  /** GET /orders/me: the orders whose `userId` is the verified token's id. */
  function OrdersMe(orders: seq<Order>, header: Option<string>, signed: Option<Claims>, nowMs: nat): (r: Reply)
    ensures !HasToken(header) ==> r == Reply(401, Message(NoToken))
    ensures HasToken(header) && Verify(signed, nowMs).None? ==> r == Reply(500, Message(HistoryFailed))
    ensures HasToken(header) && Verify(signed, nowMs).Some? ==>
      && r.status == 200 && r.payload.OrderList?
      && (forall i :: 0 <= i < |r.payload.list| ==> r.payload.list[i] in orders && r.payload.list[i].userId == Some(signed.value.id))
      && (forall i :: 0 <= i < |orders| && orders[i].userId == Some(signed.value.id) ==> orders[i] in r.payload.list)
      && (forall o :: multiset(r.payload.list)[o] == if o.userId == Some(signed.value.id) then multiset(orders)[o] else 0)
  {
    if !HasToken(header) then Reply(401, Message(NoToken))
    else match Verify(signed, nowMs)
      case None => Reply(500, Message(HistoryFailed))
      case Some(c) => Reply(200, OrderList(Filter(orders, (o: Order) => o.userId == Some(c.id))))
  }

  /** `s` is the String cast of some non-null entry of `xs`. */
  ghost predicate CastFromEntry(xs: seq<Value>, s: string) {
    exists i :: 0 <= i < |xs| && !IsNullish(xs[i]) && CastString(xs[i]) == Some(s)
  }

  /** The `$in` operand cast to strings: null and undefined entries match no
      stored order number and are dropped; objects and arrays do not cast. */
  function QueryStrings(xs: seq<Value>): (r: Option<seq<string>>)
    ensures r.Some? <==> forall i :: 0 <= i < |xs| ==> IsNullish(xs[i]) || CastString(xs[i]).Some?
    ensures r.Some? ==> forall i :: 0 <= i < |xs| && !IsNullish(xs[i]) ==> CastString(xs[i]).value in r.value
    ensures r.Some? ==> forall j :: 0 <= j < |r.value| ==> CastFromEntry(xs, r.value[j])
  {
    if xs == [] then Some([])
    else
      match QueryStrings(xs[1..])
      case None => None
      case Some(rest) =>
        QueryStringsShift(xs, rest);
        if IsNullish(xs[0]) then Some(rest)
        else match CastString(xs[0])
          case None => None
          case Some(s) =>
            assert CastFromEntry(xs, s) by { assert 0 < |xs| && !IsNullish(xs[0]) && CastString(xs[0]) == Some(s); }
            Some([s] + rest)
  }

  /** Each string the tail cast gives comes from an entry of the whole list. */
  lemma QueryStringsShift(xs: seq<Value>, rest: seq<string>)
    requires xs != []
    requires forall j :: 0 <= j < |rest| ==> CastFromEntry(xs[1..], rest[j])
    ensures forall j :: 0 <= j < |rest| ==> CastFromEntry(xs, rest[j])
  {
    forall j | 0 <= j < |rest|
      ensures CastFromEntry(xs, rest[j])
    {
      var i :| 0 <= i < |xs[1..]| && !IsNullish(xs[1..][i]) && CastString(xs[1..][i]) == Some(rest[j]);
      assert xs[i + 1] == xs[1..][i];
      assert 0 <= i + 1 < |xs| && !IsNullish(xs[i + 1]) && CastString(xs[i + 1]) == Some(rest[j]);
    }
  }

  /** `Order.find({ orderId: { $in: wanted } })`: each stored order whose number is wanted, once. */
  function OrdersNumbered(orders: seq<Order>, wanted: seq<string>): (found: seq<Order>)
    ensures forall i :: 0 <= i < |found| ==> found[i] in orders && found[i].orderId in wanted
    ensures forall i :: 0 <= i < |orders| && orders[i].orderId in wanted ==> orders[i] in found
    ensures forall o :: multiset(found)[o] == if o.orderId in wanted then multiset(orders)[o] else 0
  {
    Filter(orders, (o: Order) => o.orderId in wanted)
  }

  /** POST /my-orders: `[]` unless `orderIds` is a non-empty array, else the
      orders whose order number is listed. */
  function MyOrders(orders: seq<Order>, body: Value): (r: Reply)
    ensures !Get(body, "orderIds").Arr? || Get(body, "orderIds").items == [] ==> r == Reply(200, OrderList([]))
    ensures r.status == 200 || r == Reply(500, Message(HistoryFailed))
    ensures r.status == 200 ==> r.payload.OrderList? && forall i :: 0 <= i < |r.payload.list| ==> r.payload.list[i] in orders
    ensures r.status == 200 && Get(body, "orderIds").Arr? ==>
      forall i :: 0 <= i < |orders| && Str(orders[i].orderId) in Get(body, "orderIds").items ==> orders[i] in r.payload.list
    ensures r.status == 200 && Get(body, "orderIds").Arr? && QueryStrings(Get(body, "orderIds").items).Some? ==>
      forall i :: 0 <= i < |r.payload.list| ==> r.payload.list[i].orderId in QueryStrings(Get(body, "orderIds").items).value
    ensures Get(body, "orderIds").Arr? && Get(body, "orderIds").items != [] ==>
      (r.status == 200 <==> QueryStrings(Get(body, "orderIds").items).Some?)
    ensures r.status == 200 && Get(body, "orderIds").Arr? && QueryStrings(Get(body, "orderIds").items).Some? ==>
      forall i :: 0 <= i < |orders| && orders[i].orderId in QueryStrings(Get(body, "orderIds").items).value ==> orders[i] in r.payload.list
    ensures r.status == 200 && Get(body, "orderIds").Arr? && QueryStrings(Get(body, "orderIds").items).Some? ==>
      forall o :: multiset(r.payload.list)[o] ==
        if o.orderId in QueryStrings(Get(body, "orderIds").items).value then multiset(orders)[o] else 0
  {
    var ids := Get(body, "orderIds");
    if !ids.Arr? || ids.items == [] then Reply(200, OrderList([]))
    else match QueryStrings(ids.items)
      case None => Reply(500, Message(HistoryFailed))
      case Some(wanted) =>
        var found := OrdersNumbered(orders, wanted);
        assert forall i :: 0 <= i < |orders| && Str(orders[i].orderId) in ids.items ==> orders[i].orderId in wanted by {
          forall i | 0 <= i < |orders| && Str(orders[i].orderId) in ids.items
            ensures orders[i].orderId in wanted
          {
            var j :| 0 <= j < |ids.items| && ids.items[j] == Str(orders[i].orderId);
          }
        }
        Reply(200, OrderList(found))
  }

  /** The status whitelist of PUT /orders/:id/status: exactly the five names. */
  function WhitelistedStatus(v: Value): (r: Option<OrderStatus>)
    ensures r.Some? <==> v.Str? && v.s in {"Pending", "Processing", "Shipped", "Delivered", "Cancelled"}
    ensures r.Some? ==> StatusName(r.value) == v.s
  {
    if v.Str? then ParseStatus(v.s) else None
  }

  /** The cancellation rule: still Pending or Processing, and no more than
      24 hours since the order was placed (`diffHours > 24` refuses). */
  predicate Cancellable(o: Order, nowMs: int) {
    (o.status == Pending || o.status == Processing) && nowMs - o.createdAt <= CancelWindowMs
  }

  /** What a created order keeps of its request: the token's user, the
      client's order number or else the generated one, escaped contact details. */
  lemma CreatedOrderFacts(body: Value, userId: Option<string>, generated: string, oid: string, nowMs: int)
    requires DecodeOrder(NewOrderDocument(body, userId, generated), oid, nowMs).Success?
    ensures var o := DecodeOrder(NewOrderDocument(body, userId, generated), oid, nowMs).value;
      && o.userId == userId
      && (Get(body, "orderId").Str? && Get(body, "orderId").s != "" ==> o.orderId == Get(body, "orderId").s)
      && (!Truthy(Get(body, "orderId")) ==> o.orderId == generated)
      && (Get(Get(body, "customer"), "email").Str? ==> o.customer.email == Some(Escape(Get(Get(body, "customer"), "email").s)))
  {
    var doc := NewOrderDocument(body, userId, generated);
    var o := DecodeOrder(doc, oid, nowMs).value;
    OptionalStringOfEncoding("userId", userId);
    SanitizedCustomerDecodes(Get(body, "customer"), o.customer);
  }

  /** The invariant of the order collection: order numbers and database ids
      are unique (the unique index and `_id`) and every order is schema-valid. */
  ghost predicate OrdersValid(orders: seq<Order>) {
    && UniqueOrderIds(orders) && UniqueOrderOids(orders)
    && (forall i :: 0 <= i < |orders| ==> ValidOrder(orders[i]))
  }

  /** The same for the catalogue: numeric ids and database ids are unique. */
  ghost predicate ProductsValid(products: seq<Product>) {
    && UniqueProductIds(products) && UniqueProductOids(products)
    && (forall i :: 0 <= i < |products| ==> ValidProduct(products[i]))
  }

  /** Appending a valid order whose number and database id are new keeps the invariant. */
  lemma AppendedOrderUnique(orders: seq<Order>, o: Order)
    requires OrdersValid(orders) && ValidOrder(o)
    requires OrderWithOrderId(orders, o.orderId).None?
    requires forall i :: 0 <= i < |orders| ==> orders[i].oid != o.oid
    ensures OrdersValid(orders + [o])
  {
  }

  /** Appending a valid product with a larger id and a new database id keeps the invariant. */
  lemma AppendedProductUnique(products: seq<Product>, p: Product)
    requires ProductsValid(products) && ValidProduct(p)
    requires forall i :: 0 <= i < |products| ==> products[i].id < p.id && products[i].oid != p.oid
    ensures ProductsValid(products + [p])
  {
  }


  /** A created product carries the next id and its name escaped. */
  lemma CreatedProductFacts(body: Value, id: int, oid: string, nowMs: int)
    requires DecodeProduct(NewProductDocument(body, id), oid, nowMs).Success?
    ensures var p := DecodeProduct(NewProductDocument(body, id), oid, nowMs).value;
      && p.id == id && p.oid == oid
      && (Get(body, "name").Str? ==> p.name == Escape(Get(body, "name").s))
  {
    var doc := NewProductDocument(body, id);
    assert NumberField(Num(id)) == Present(id);
    assert Get(doc, "name") == Get(SanitizeProduct(body), "name");
  }

  // ---------------------------------------------------------------------
  // The store

  class Store {
    var products: seq<Product>
    var orders: seq<Order>

    ghost predicate Valid()
      reads this
    {
      ProductsValid(products) && OrdersValid(orders)
    }

    constructor()
      ensures Valid() && products == [] && orders == []
    {
      products := [];
      orders := [];
    }

    /** POST /products. `oid` is the id the database assigns, `nowMs` the clock. */
    method CreateProduct(body: Value, oid: string, nowMs: int) returns (r: Reply)
      requires Valid()
      requires forall i :: 0 <= i < |products| ==> products[i].oid != oid
      modifies this
      ensures Valid() && orders == old(orders)
      ensures match DecodeProduct(NewProductDocument(body, NextProductId(old(products))), oid, nowMs)
        case Failure(_) => r == Reply(400, Message(ProductAddFailed)) && products == old(products)
        case Success(p) => r == Reply(201, ProductDoc(p)) && products == old(products) + [p]
      ensures r.status == 201 ==> r.payload.product.id == NextProductId(old(products)) && r.payload.product.oid == oid
      ensures r.status == 201 && Get(body, "name").Str? ==> r.payload.product.name == Escape(Get(body, "name").s)
    {
      var newId := NextProductId(products);
      var doc := NewProductDocument(body, newId);
      match DecodeProduct(doc, oid, nowMs)
      case Failure(_) =>
        r := Reply(400, Message(ProductAddFailed));
      case Success(p) =>
        CreatedProductFacts(body, newId, oid, nowMs);
        AppendedProductUnique(products, p);
        products := products + [p];
        r := Reply(201, ProductDoc(p));
    }

    /** PUT /products/:id: a parameter that is not an ObjectId fails the
        lookup's cast (400), a missing product is 404, a failed save is 400. */
    method UpdateProduct(param: string, body: Value) returns (r: Reply)
      requires Valid()
      modifies this
      ensures Valid() && orders == old(orders)
      ensures CastObjectId(param).None? ==> r == Reply(400, Message(ProductUpdateFailed)) && products == old(products)
      ensures CastObjectId(param).Some? ==>
        var k := ProductWithOid(old(products), CastObjectId(param).value);
        if k.None? then r == Reply(404, Message(ProductNotFound)) && products == old(products)
        else match MergeProduct(old(products)[k.value], body)
          case Failure(_) => r == Reply(400, Message(ProductUpdateFailed)) && products == old(products)
          case Success(q) => r == Reply(200, ProductDoc(q)) && products == old(products)[k.value := q]
    {
      var id := CastObjectId(param);
      if id.None? {
        return Reply(400, Message(ProductUpdateFailed));
      }
      var k := ProductWithOid(products, id.value);
      if k.None? {
        return Reply(404, Message(ProductNotFound));
      }
      var i := k.value;
      match MergeProduct(products[i], body)
      case Failure(_) =>
        r := Reply(400, Message(ProductUpdateFailed));
      case Success(q) =>
        products := products[i := q];
        r := Reply(200, ProductDoc(q));
    }

    /** POST /orders: the document is the request body with `userId` taken
        from the token alone, a generated order number when none is given,
        and sanitized contact details. A duplicate order number is refused
        by the unique index. */
    method CreateOrder(header: Option<string>, signed: Option<Claims>, body: Value,
                       oid: string, nowMs: nat, random: nat) returns (r: Reply)
      requires Valid()
      requires random < 1000
      requires forall i :: 0 <= i < |orders| ==> orders[i].oid != oid
      modifies this
      ensures Valid() && products == old(products)
      ensures var doc := NewOrderDocument(body, TokenUser(header, signed, nowMs), GeneratedOrderId(nowMs, random));
        match DecodeOrder(doc, oid, nowMs)
        case Failure(e) => r == Reply(400, OrderError(OrderCreateFailed, e)) && orders == old(orders)
        case Success(o) =>
          if OrderWithOrderId(old(orders), o.orderId).Some? then
            r == Reply(400, OrderError(OrderCreateFailed, DuplicateKey("orderId"))) && orders == old(orders)
          else
            r == Reply(201, OrderDoc(o)) && orders == old(orders) + [o]
      ensures r.status == 201 ==> r.payload.order.userId == TokenUser(header, signed, nowMs)
      ensures r.status == 201 && Get(body, "orderId").Str? && Get(body, "orderId").s != "" ==>
        r.payload.order.orderId == Get(body, "orderId").s
      ensures r.status == 201 && !Truthy(Get(body, "orderId")) ==> r.payload.order.orderId == GeneratedOrderId(nowMs, random)
      ensures r.status == 201 && Get(Get(body, "customer"), "email").Str? ==>
        r.payload.order.customer.email == Some(Escape(Get(Get(body, "customer"), "email").s))
    {
      var userId := TokenUser(header, signed, nowMs);
      var generated := GeneratedOrderId(nowMs, random);
      var doc := NewOrderDocument(body, userId, generated);
      match DecodeOrder(doc, oid, nowMs)
      case Failure(e) =>
        r := Reply(400, OrderError(OrderCreateFailed, e));
      case Success(o) =>
        if OrderWithOrderId(orders, o.orderId).Some? {
          r := Reply(400, OrderError(OrderCreateFailed, DuplicateKey("orderId")));
        } else {
          CreatedOrderFacts(body, userId, generated, oid, nowMs);
          DecodedOrderIsValid(doc, oid, nowMs);
          AppendedOrderUnique(orders, o);
          orders := orders + [o];
          r := Reply(201, OrderDoc(o));
        }
    }

    /** PUT /orders/:id/status: the whitelist is checked first, then the lookup. */
    method UpdateOrderStatus(param: string, body: Value) returns (r: Reply)
      requires Valid()
      modifies this
      ensures Valid() && products == old(products)
      ensures WhitelistedStatus(Get(body, "status")).None? ==> r == Reply(400, Message(InvalidStatus)) && orders == old(orders)
      ensures WhitelistedStatus(Get(body, "status")).Some? ==>
        if CastObjectId(param).None? then r == Reply(400, Message(StatusUpdateFailed)) && orders == old(orders)
        else
          var k := OrderWithOid(old(orders), CastObjectId(param).value);
          if k.None? then r == Reply(404, Message(OrderNotFound)) && orders == old(orders)
          else
            var o := old(orders)[k.value].(status := WhitelistedStatus(Get(body, "status")).value);
            r == Reply(200, OrderDoc(o)) && orders == old(orders)[k.value := o]
    {
      var status := WhitelistedStatus(Get(body, "status"));
      if status.None? {
        return Reply(400, Message(InvalidStatus));
      }
      var id := CastObjectId(param);
      if id.None? {
        return Reply(400, Message(StatusUpdateFailed));
      }
      var k := OrderWithOid(orders, id.value);
      if k.None? {
        return Reply(404, Message(OrderNotFound));
      }
      var o := orders[k.value].(status := status.value);
      orders := orders[k.value := o];
      r := Reply(200, OrderDoc(o));
    }

    /** POST /orders/:id/cancel, looked up by order number. */
    method CancelOrder(orderId: string, nowMs: int) returns (r: Reply)
      requires Valid()
      modifies this
      ensures Valid() && products == old(products)
      ensures var k := OrderWithOrderId(old(orders), orderId);
        if k.None? then r == Reply(404, Message(OrderNotFound)) && orders == old(orders)
        else
          var o := old(orders)[k.value];
          if o.status != Pending && o.status != Processing then
            r == Reply(400, Message(NotCancellable)) && orders == old(orders)
          else if nowMs - o.createdAt > CancelWindowMs then
            r == Reply(400, Message(CancelWindowPassed)) && orders == old(orders)
          else
            r == Reply(200, CancelledOrder(OrderCancelled, o.(status := Cancelled)))
            && orders == old(orders)[k.value := o.(status := Cancelled)]
      ensures orders != old(orders) <==>
        exists i :: 0 <= i < |old(orders)| && old(orders)[i].orderId == orderId && Cancellable(old(orders)[i], nowMs)
               && old(orders)[i].status != Cancelled
    {
      var k := OrderWithOrderId(orders, orderId);
      if k.None? {
        return Reply(404, Message(OrderNotFound));
      }
      var i := k.value;
      var o := orders[i];
      if o.status != Pending && o.status != Processing {
        return Reply(400, Message(NotCancellable));
      }
      if nowMs - o.createdAt > CancelWindowMs {
        return Reply(400, Message(CancelWindowPassed));
      }
      orders := orders[i := o.(status := Cancelled)];
      assert orders[i] != old(orders)[i];
      r := Reply(200, CancelledOrder(OrderCancelled, o.(status := Cancelled)));
    }
  }

  /** With unique order numbers, the lookup by order number finds the one
      order that carries it. */
  lemma OrderNumberLookup(orders: seq<Order>, k: nat)
    requires UniqueOrderIds(orders)
    requires k < |orders|
    ensures OrderWithOrderId(orders, orders[k].orderId) == Some(k)
  {
  }
}
