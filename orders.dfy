/** The order-to-shipment workflow: the order record `getShopifyOrder`
    resolves to, the mapping from an order to shipment data, and the two
    entry points that create a shipment, `POST /apps/complete-inpost-order`
    and the order-creation webhook with `createAtlasShipment`. The Shopify
    lookup and the carrier's reply are inputs; `now` stands for `Date.now()`. */
module Orders {
  import opened Wrappers
  import opened Text
  import opened Arrays
  import opened Shopify
  import opened Classifier
  import opened Weight
  import opened Shipment

  /** The record `getShopifyOrder` resolves to. */
  datatype OrderRecord = OrderRecord(
    orderNumber: Option<string>,
    email: Option<string>,
    totalPrice: Option<real>,
    currency: Option<string>,
    shippingAddress: ShippingAddress,
    shippingLines: seq<ShippingLine>,
    lineItems: seq<LineItem>)

  /** An address every field of which is a string. */
  predicate IsComplete(a: ShippingAddress) {
    && a.firstName.Some? && a.lastName.Some? && a.address1.Some? && a.address2.Some?
    && a.city.Some? && a.zip.Some? && a.phone.Some? && a.countryCode.Some?
    && a.province.Some? && a.company.Some?
  }

  /** What optional chaining (`x?.f`) reads from a missing object. */
  const NoAddress := ShippingAddress(None, None, None, None, None, None, None, None, None, None)
  const NoCustomer := Customer(None, None, None)

  /** `r` is `primary || fallback`: the primary value when it is a
      non-empty string, the fallback otherwise. */
  predicate FallsBackTo(r: Option<string>, primary: Option<string>, fallback: string) {
    (Truthy(primary) ==> r == primary) && (!Truthy(primary) ==> r == Some(fallback))
  }

  /** `r` is `primary || secondary || fallback`. */
  predicate FallsBackTwice(r: Option<string>, primary: Option<string>, secondary: Option<string>, fallback: string) {
    && (Truthy(primary) ==> r == primary)
    && (!Truthy(primary) && Truthy(secondary) ==> r == secondary)
    && (!Truthy(primary) && !Truthy(secondary) ==> r == Some(fallback))
  }

  /** The fields `getShopifyOrder` copies from a Shopify order, with its
      defaults: the first name falls back to the customer's and then to
      "Customer", the last name and phone to the customer's and then to "",
      the country code to "FR", every other address field to "". A missing
      shipping address or customer reads as one whose fields are all
      missing. */
  function NormalizeOrder(o: Order): (r: OrderRecord)
    ensures IsComplete(r.shippingAddress)
    ensures Truthy(r.shippingAddress.firstName) && Truthy(r.shippingAddress.countryCode)
    ensures var s, c, a := o.shippingAddress.GetOr(NoAddress), o.customer.GetOr(NoCustomer), r.shippingAddress;
      && FallsBackTwice(a.firstName, s.firstName, c.firstName, "Customer")
      && FallsBackTwice(a.lastName, s.lastName, c.lastName, "")
      && FallsBackTwice(a.phone, s.phone, c.phone, "")
      && FallsBackTo(a.countryCode, s.countryCode, "FR")
      && FallsBackTo(a.address1, s.address1, "") && FallsBackTo(a.address2, s.address2, "")
      && FallsBackTo(a.city, s.city, "") && FallsBackTo(a.zip, s.zip, "")
      && FallsBackTo(a.province, s.province, "") && FallsBackTo(a.company, s.company, "")
    ensures Truthy(o.orderNumber) ==> r.orderNumber == o.orderNumber
    ensures !Truthy(o.orderNumber) ==> r.orderNumber == o.name
    ensures r.shippingLines == Lines(o.shippingLines)
    ensures r.lineItems == o.lineItems.GetOr([])
    ensures r.email == o.email && r.totalPrice == o.totalPrice && r.currency == o.currency
  {
    var s := o.shippingAddress.GetOr(NoAddress);
    var c := o.customer.GetOr(NoCustomer);
    OrderRecord(
      if Truthy(o.orderNumber) then o.orderNumber else o.name,
      o.email,
      o.totalPrice,
      o.currency,
      ShippingAddress(
        Some(OrElse(s.firstName, OrElse(c.firstName, "Customer"))),
        Some(OrElse(s.lastName, OrElse(c.lastName, ""))),
        Some(OrElse(s.address1, "")),
        Some(OrElse(s.address2, "")),
        Some(OrElse(s.city, "")),
        Some(OrElse(s.zip, "")),
        Some(OrElse(s.phone, OrElse(c.phone, ""))),
        Some(OrElse(s.countryCode, "FR")),
        Some(OrElse(s.province, "")),
        Some(OrElse(s.company, ""))),
      Lines(o.shippingLines),
      o.lineItems.GetOr([]))
  }

  const MockShippingTitle := "Points de retrait en France (choix du lieu par e-mail)"

  /** The placeholder record `getShopifyOrder` falls back to: the requested
      number, a complete address in Paris, FR, a 50 EUR total, and one
      500 g product. */
  function MockOrder(orderNumber: string): (r: OrderRecord)
    ensures r.orderNumber == Some(orderNumber)
    ensures IsComplete(r.shippingAddress) && r.shippingAddress.countryCode == Some("FR")
    ensures r.shippingAddress.city == Some("Paris") && r.shippingAddress.zip == Some("75001")
    ensures r.totalPrice == Some(50.0) && r.currency == Some("EUR")
    ensures |r.shippingLines| == 1 && |r.lineItems| == 1
    ensures ShippedWeight(r.lineItems) == 0.5
  {
    OrderRecord(
      Some(orderNumber),
      Some("customer@example.com"),
      Some(50.0),
      Some("EUR"),
      ShippingAddress(Some("Test"), Some("Customer"), Some("123 Test Street"), Some(""), Some("Paris"),
        Some("75001"), Some("+33123456789"), Some("FR"), Some(""), Some("")),
      [ShippingLine(Some(MockShippingTitle))],
      [LineItem(Some("Test Product"), 1, Some(45.0), 500, Some("TEST-001"))])
  }

  /** `getShopifyOrder(orderNumber)`. `lookup` is the first order the Admin
      API returned, or None when the lookup failed in any way (credentials
      missing, a non-OK status, no order found, a network error); a failed
      lookup resolves to the placeholder record, so a record always comes
      back. */
  function FetchOrder(orderNumber: string, lookup: Option<Order>): (r: OrderRecord)
    ensures IsComplete(r.shippingAddress)
    ensures lookup.None? ==> r == MockOrder(orderNumber)
    ensures lookup.Some? ==> r == NormalizeOrder(lookup.value)
  {
    match lookup
    case None => MockOrder(orderNumber)
    case Some(o) => NormalizeOrder(o)
  }

  /** The sender: the business's fixed consignor address. */
  const SpringConsignor := AddressInput(
    Some("Spring GDS"), Some("Spring GDS"), Some("Avenida Fuentemar 21"), Some(""), Some(""),
    Some("MADRID"), Some("28880"), Some("ES"), Some("971756727"), Some("info@andypola.com"),
    Some(DefaultVat), Some(DefaultVat))

  /** The consignee both builders derive from an order's shipping address:
      the name is `${first_name} ${last_name}` trimmed, the optional fields
      fall back to "", and the country is the one chosen for the shipment. */
  function ConsigneeFor(s: ShippingAddress, country: string, email: Option<string>): (a: AddressInput)
    ensures a.name == Some(Trim(Interpolate(s.firstName) + " " + Interpolate(s.lastName)))
    ensures a.countryCode == Some(country)
    ensures a.company == Some(OrElse(s.company, "")) && a.mobile == Some(OrElse(s.phone, ""))
    ensures a.address2 == Some(OrElse(s.address2, "")) && a.state == Some(OrElse(s.province, ""))
    ensures a.address1 == s.address1 && a.city == s.city && a.zip == s.zip && a.email == email
    ensures a.vat == None && a.eori == None
  {
    AddressInput(
      Some(Trim(Interpolate(s.firstName) + " " + Interpolate(s.lastName))),
      Some(OrElse(s.company, "")),
      s.address1,
      Some(OrElse(s.address2, "")),
      s.city,
      Some(OrElse(s.province, "")),
      s.zip,
      Some(country),
      Some(OrElse(s.phone, "")),
      email,
      None,
      None)
  }

  function ProductFor(item: LineItem): ProductInput {
    ProductInput(item.title, Some(OrElse(item.sku, "")), Some(DefaultHsCode),
      Num(item.quantity as real), Num(item.price.GetOr(0.0)))
  }

  /** `lineItems.map(...)`: one product per line item, in order, with the
      cosmetics HS code and a price that is 0 when it does not parse. */
  function ProductsFor(items: seq<LineItem>): (ps: seq<ProductInput>)
    ensures |ps| == |items|
    ensures forall i :: 0 <= i < |items| ==>
      && ps[i].description == items[i].title
      && ps[i].sku == Some(OrElse(items[i].sku, ""))
      && ps[i].hsCode == Some(DefaultHsCode)
      && ps[i].quantity == Num(items[i].quantity as real)
      && ps[i].value == Num(items[i].price.GetOr(0.0))
      && ProductReadable(ps[i])
    decreases |items|
  {
    if |items| == 0 then [] else [ProductFor(items[0])] + ProductsFor(items[1..])
  }

  /** `parseFloat(total_price)`: NaN when the price does not parse. */
  function ParsedValue(p: Option<real>): Numeric {
    if p.Some? then Num(p.value) else NaN
  }

  /** The shipment data both builders pass to `createXBSShipment`. */
  function ShipmentDataFor(reference: string, items: seq<LineItem>, totalPrice: Option<real>,
                           currency: Option<string>, pudo: string, shipping: ShippingAddress,
                           country: string, email: Option<string>): (d: ShipmentData)
    ensures HasRequiredFields(d) && d.weight == Num(ShippedWeight(items)) && d.weight.value >= MinimumKg
    ensures d.shipperReference == Some(reference) && d.service == None && d.pudoLocationId == Some(pudo)
    ensures totalPrice.Some? ==> d.value == Num(totalPrice.value)
    ensures totalPrice.None? ==> d.value == NaN
    ensures d.currency == currency
    ensures d.consignorAddress == Some(SpringConsignor)
    ensures d.consigneeAddress == Some(ConsigneeFor(shipping, country, email))
    ensures d.products == Some(ProductsFor(items))
  {
    ShipmentData(Some(reference), None, Num(ShippedWeight(items)), ParsedValue(totalPrice), currency,
      Some(pudo), Some(SpringConsignor), Some(ConsigneeFor(shipping, country, email)),
      Some(ProductsFor(items)))
  }

  /** Shipment data built from an order passes `createXBSShipment`'s checks
      exactly when a pickup point is given, and the request it sends carries
      that point at both levels, the chosen country, the reference, the
      floored weight and one product per line item. */
  lemma ShipmentDataAccepted(apikey: Option<string>, now: int, reference: string, items: seq<LineItem>,
                             totalPrice: Option<real>, currency: Option<string>, pudo: string,
                             shipping: ShippingAddress, country: string, email: Option<string>)
    requires reference != ""
    ensures var r := BuildOrderShipment(apikey, now,
      ShipmentDataFor(reference, items, totalPrice, currency, pudo, shipping, country, email));
      && (r.Ok? <==> pudo != "")
      && (r.Err? ==> r.error == ValidationError(PudoRequiredMessage))
      && (r.Ok? ==>
      && r.value.shipment.pudoLocationId == pudo
      && r.value.shipment.consigneeAddress.pudoLocationId == pudo
      && r.value.shipment.consigneeAddress.country == Some(country)
      && r.value.shipment.shipperReference == reference
      && r.value.shipment.weight == ShippedWeight(items) >= MinimumKg
      && |r.value.shipment.products| == |items|)
  {
    var d := ShipmentDataFor(reference, items, totalPrice, currency, pudo, shipping, country, email);
    assert ShippedWeight(items) >= MinimumKg;
    assert HasRequiredFields(d);
    assert d.value != Undefined && d.consignorAddress.Some?;
    assert forall i :: 0 <= i < |d.products.value| ==> ProductReadable(d.products.value[i]);
  }

  /** `explicit || getInPostCountry(order) || fallback`. */
  function ChooseCountry(explicit: Option<string>, shippingLines: Option<seq<ShippingLine>>, fallback: string): string {
    if Truthy(explicit) then explicit.value
    else match InPostCountry(shippingLines)
      case Some(c) => c
      case None => fallback
  }

  /** The chosen country is the explicit one when given; otherwise "PL" or
      "FR" as the first Spanish- or French-labelled line says; otherwise the
      fallback, which is what an order whose only label is "Punkty odbioru
      InPost" gets. */
  lemma ChooseCountrySpec(explicit: Option<string>, shippingLines: Option<seq<ShippingLine>>, fallback: string)
    ensures Truthy(explicit) ==> ChooseCountry(explicit, shippingLines, fallback) == explicit.value
    ensures !Truthy(explicit) && InPostCountry(shippingLines).Some? ==>
      ChooseCountry(explicit, shippingLines, fallback) == InPostCountry(shippingLines).value
    ensures !Truthy(explicit) ==>
      ChooseCountry(explicit, shippingLines, fallback) in {"PL", "FR", fallback}
    ensures !Truthy(explicit) && (forall j :: 0 <= j < |Lines(shippingLines)| ==> !IsCountryLine(Lines(shippingLines)[j])) ==>
      ChooseCountry(explicit, shippingLines, fallback) == fallback
  {
    InPostCountryNone(shippingLines);
  }

  /** An order whose only label is "Punkty odbioru InPost" gets no country
      from its shipping method, so it ships to the caller's fallback: "PL"
      from the webhook, "FR" from the order-completion endpoint. */
  lemma PolishPointsFallback(explicit: Option<string>)
    requires !Truthy(explicit)
    ensures ChooseCountry(explicit, Some([ShippingLine(Some(PolishPointsLabel))]), "PL") == "PL"
    ensures ChooseCountry(explicit, Some([ShippingLine(Some(PolishPointsLabel))]), "FR") == "FR"
  {
    PolishPointsExample();
  }

  /** Without an explicit country, the first line labelled "InPost z
      Hiszpanii" or "France-Continent (Point Pack et Locker)" decides: PL for
      the Spanish label, FR otherwise, whatever the fallback. */
  lemma ChooseCountryFirstLine(explicit: Option<string>, shippingLines: Option<seq<ShippingLine>>,
                               fallback: string, i: nat)
    requires !Truthy(explicit)
    requires IsFirstAt(Lines(shippingLines), IsCountryLine, i)
    ensures Contains(TitleOf(Lines(shippingLines)[i]), SpainLabel) ==>
      ChooseCountry(explicit, shippingLines, fallback) == "PL"
    ensures !Contains(TitleOf(Lines(shippingLines)[i]), SpainLabel) ==>
      ChooseCountry(explicit, shippingLines, fallback) == "FR"
  {
    InPostCountryFirstLine(shippingLines, i);
  }

  datatype CompleteBody = CompleteBody(
    orderId: Option<string>,
    orderNumber: Option<string>,
    pudoLocationId: Option<string>,
    country: Option<string>)

  /** The answers of `/apps/complete-inpost-order`. The 404 "Order not found"
      branch of the source has no counterpart: the lookup always yields a
      record. */
  datatype CompleteResponse =
    | MissingOrderNumber(error: string)
    | MissingPudoLocation(error: string)
    | Completed(trackingNumber: Option<string>, carrier: Option<string>, country: string, pudoLocationId: string)
    | CompletionFailed(error: string)

  const OrderNumberRequiredMessage := "Order number is required"
  const PudoSelectionMessage := "PUDO location must be selected"

  function CompleteStatus(r: CompleteResponse): int {
    match r
    case MissingOrderNumber(_) => 400
    case MissingPudoLocation(_) => 400
    case Completed(_, _, _, _) => 200
    case CompletionFailed(_) => 500
  }

  /** What a handler sent to the carrier, if anything, and what it answered. */
  datatype Handled<R> = Handled(sent: Option<OrderShipmentRequest>, response: R)

  /** `POST /apps/complete-inpost-order`. */
  function CompleteInPostOrder(apikey: Option<string>, now: int, body: CompleteBody,
                               lookup: Option<Order>, reply: ShipmentReply): (h: Handled<CompleteResponse>)
    ensures !Truthy(body.orderNumber) ==>
      h == Handled(None, MissingOrderNumber(OrderNumberRequiredMessage))
    ensures Truthy(body.orderNumber) && !Truthy(body.pudoLocationId) ==>
      h == Handled(None, MissingPudoLocation(PudoSelectionMessage))
    ensures Truthy(body.orderNumber) && Truthy(body.pudoLocationId) ==>
      var record := FetchOrder(body.orderNumber.value, lookup);
      var country := ChooseCountry(body.country, Some(record.shippingLines), "FR");
      var pudo := body.pudoLocationId.value;
      var reference := "SHOP-" + body.orderNumber.value + "-" + IntToString(now);
      var data := ShipmentDataFor(reference, record.lineItems, record.totalPrice, record.currency,
                                  pudo, record.shippingAddress, country, record.email);
      && BuildOrderShipment(apikey, now, data).Ok?
      && h.sent == Some(BuildOrderShipment(apikey, now, data).value)
      && h.sent.value.shipment.pudoLocationId == pudo
      && h.sent.value.shipment.consigneeAddress.pudoLocationId == pudo
      && h.sent.value.shipment.consigneeAddress.country == Some(country)
      && h.sent.value.shipment.shipperReference == reference
      && (h.response.Completed? <==> ClassifyReply(reply).Ok?)
      && (h.response.Completed? ==>
            && h.response.trackingNumber == ClassifyReply(reply).value.trackingNumber
            && h.response.carrier == ClassifyReply(reply).value.carrier
            && h.response.country == country && h.response.pudoLocationId == pudo)
      && (!h.response.Completed? ==> h.response == CompletionFailed(ErrorMessage(ClassifyReply(reply).error)))
  {
    if !Truthy(body.orderNumber) then Handled(None, MissingOrderNumber(OrderNumberRequiredMessage))
    else if !Truthy(body.pudoLocationId) then Handled(None, MissingPudoLocation(PudoSelectionMessage))
    else
      var orderNumber, pudo := body.orderNumber.value, body.pudoLocationId.value;
      var record := FetchOrder(orderNumber, lookup);
      var country := ChooseCountry(body.country, Some(record.shippingLines), "FR");
      var reference := "SHOP-" + orderNumber + "-" + IntToString(now);
      var data := ShipmentDataFor(reference, record.lineItems, record.totalPrice, record.currency,
        pudo, record.shippingAddress, country, record.email);
      ShipmentDataAccepted(apikey, now, reference, record.lineItems, record.totalPrice, record.currency,
        pudo, record.shippingAddress, country, record.email);
      var a := CreateXbsShipment(apikey, now, data, reply);
      match a.result
      case Ok(res) => Handled(a.sent, Completed(res.trackingNumber, res.carrier, country, pudo))
      case Err(e) => Handled(a.sent, CompletionFailed(ErrorMessage(e)))
  }

  /** The request the endpoint sends is built from the order record: the
      floored weight of its line items, its parsed total price, its currency
      or EUR, its shipping address as the consignee, and one product per
      line item. */
  lemma CompleteRequestFromRecord(apikey: Option<string>, now: int, body: CompleteBody,
                                  lookup: Option<Order>, reply: ShipmentReply)
    requires Truthy(body.orderNumber) && Truthy(body.pudoLocationId)
    ensures var record := FetchOrder(body.orderNumber.value, lookup);
      var country := ChooseCountry(body.country, Some(record.shippingLines), "FR");
      var h := CompleteInPostOrder(apikey, now, body, lookup, reply);
      && h.sent.Some?
      && h.sent.value.shipment.weight == ShippedWeight(record.lineItems) >= MinimumKg
      && h.sent.value.shipment.value == ParsedValue(record.totalPrice)
      && h.sent.value.shipment.currency == record.currency.GetOr("EUR")
      && h.sent.value.shipment.consigneeAddress
         == Consignee(ConsigneeFor(record.shippingAddress, country, record.email), body.pudoLocationId.value)
      && |h.sent.value.shipment.products| == |record.lineItems|
  {
  }

  /** The endpoint answers 400 exactly when the order number or the PUDO
      location is missing, 200 exactly when the carrier accepted the
      shipment, and 500 otherwise. */
  lemma CompleteStatusSpec(apikey: Option<string>, now: int, body: CompleteBody,
                           lookup: Option<Order>, reply: ShipmentReply)
    ensures var status := CompleteStatus(CompleteInPostOrder(apikey, now, body, lookup, reply).response);
      && (status == 400 <==> !Truthy(body.orderNumber) || !Truthy(body.pudoLocationId))
      && (status == 200 <==> Truthy(body.orderNumber) && Truthy(body.pudoLocationId) && ClassifyReply(reply).Ok?)
      && status in {200, 400, 500}
  {
    if !Truthy(body.orderNumber) || !Truthy(body.pudoLocationId) {
      RejectedStatus(apikey, now, body, lookup, reply);
    } else if ClassifyReply(reply).Ok? {
      AcceptedStatus(apikey, now, body, lookup, reply);
    } else {
      FailedStatus(apikey, now, body, lookup, reply);
    }
  }

  /** A request without an order number or a PUDO location gets a 400. */
  lemma RejectedStatus(apikey: Option<string>, now: int, body: CompleteBody,
                       lookup: Option<Order>, reply: ShipmentReply)
    requires !Truthy(body.orderNumber) || !Truthy(body.pudoLocationId)
    ensures CompleteStatus(CompleteInPostOrder(apikey, now, body, lookup, reply).response) == 400
  {
  }

  /** A request with both gets a 200 when the carrier's reply classifies as
      a success. */
  lemma AcceptedStatus(apikey: Option<string>, now: int, body: CompleteBody,
                       lookup: Option<Order>, reply: ShipmentReply)
    requires Truthy(body.orderNumber) && Truthy(body.pudoLocationId) && ClassifyReply(reply).Ok?
    ensures CompleteStatus(CompleteInPostOrder(apikey, now, body, lookup, reply).response) == 200
  {
  }

  /** A request with both gets a 500 when the carrier's reply classifies as
      an error. */
  lemma FailedStatus(apikey: Option<string>, now: int, body: CompleteBody,
                     lookup: Option<Order>, reply: ShipmentReply)
    requires Truthy(body.orderNumber) && Truthy(body.pudoLocationId) && ClassifyReply(reply).Err?
    ensures CompleteStatus(CompleteInPostOrder(apikey, now, body, lookup, reply).response) == 500
  {
  }

  /** The pickup point the checkout recorded in the order's note attributes. */
  datatype AtlasPoint = AtlasPoint(code: string, name: string, address: string, city: string,
                                   postalCode: string, country: string)

  /** `(attr) => attr.name === key`. */
  function Named(key: string): NoteAttribute -> bool {
    (a: NoteAttribute) => a.name == Some(key)
  }

  /** `attrs.find((attr) => attr.name === key)?.value`: the value of the first
      attribute with that name, even when that value is empty and a later one
      is not. */
  function AttributeValue(attrs: seq<NoteAttribute>, key: string): (v: Option<string>)
    ensures forall i: nat :: IsFirstAt(attrs, Named(key), i) ==> v == attrs[i].value
    ensures (forall i :: 0 <= i < |attrs| ==> attrs[i].name != Some(key)) ==> v == None
  {
    match FirstIndex(attrs, Named(key))
    case None => None
    case Some(i) => attrs[i].value
  }

  /** Only the first `point_code` attribute counts: when it is empty the
      order waits for a pickup point, even if a later `point_code` attribute
      has a value. */
  lemma EmptyFirstPointCodeWaits(apikey: Option<string>, now: int, order: Order, reply: ShipmentReply,
                                 attrs: seq<NoteAttribute>, i: nat, j: nat)
    requires IsInPostOrder(order.shippingLines)
    requires order.noteAttributes == Some(attrs)
    requires IsFirstAt(attrs, Named("point_code"), i) && !Truthy(attrs[i].value)
    requires i < j < |attrs| && attrs[j].name == Some("point_code") && Truthy(attrs[j].value)
    ensures OrdersCreateWebhook(apikey, now, order, reply) == Handled(None, WebhookAck(200, "OK - No PUDO yet", None))
  {
    assert AttributeValue(attrs, "point_code") == attrs[i].value;
  }

  /** `createAtlasShipment(order, atlasData, country)`: a missing shipping
      address fails before anything is sent; otherwise the order's fields go
      to `createXBSShipment` with the recorded point as the pickup location.
      The follow-up note on the Shopify order is not modelled. */
  function CreateAtlasShipment(apikey: Option<string>, now: int, order: Order, atlas: AtlasPoint,
                               country: string, reply: ShipmentReply): (a: Attempt)
    ensures order.shippingAddress.None? ==> a == Attempt(None, Err(TypeError("first_name")))
    ensures order.shippingAddress.Some? && atlas.code == "" ==>
      a == Attempt(None, Err(ValidationError(PudoRequiredMessage)))
    ensures order.shippingAddress.Some? && atlas.code != "" ==>
      && a.sent.Some?
      && a.sent.value.shipment.pudoLocationId == atlas.code
      && a.sent.value.shipment.consigneeAddress.pudoLocationId == atlas.code
      && a.sent.value.shipment.consigneeAddress.country == Some(country)
      && a.sent.value.shipment.shipperReference
         == "SHOP-" + Interpolate(order.name) + "-" + IntToString(now)
      && a.sent.value.shipment.weight == ShippedWeight(order.lineItems.GetOr([]))
      && |a.sent.value.shipment.products| == |order.lineItems.GetOr([])|
      && BuildOrderShipment(apikey, now, ShipmentDataFor(
           "SHOP-" + Interpolate(order.name) + "-" + IntToString(now), order.lineItems.GetOr([]),
           order.totalPrice, order.currency, atlas.code, order.shippingAddress.value, country,
           order.email)).Ok?
      && a.sent == Some(BuildOrderShipment(apikey, now, ShipmentDataFor(
           "SHOP-" + Interpolate(order.name) + "-" + IntToString(now), order.lineItems.GetOr([]),
           order.totalPrice, order.currency, atlas.code, order.shippingAddress.value, country,
           order.email)).value)
      && a.result == ClassifyReply(reply)
  {
    match order.shippingAddress
    case None => Attempt(None, Err(TypeError("first_name")))
    case Some(shipping) =>
      var items := order.lineItems.GetOr([]);
      var reference := "SHOP-" + Interpolate(order.name) + "-" + IntToString(now);
      ShipmentDataAccepted(apikey, now, reference, items, order.totalPrice, order.currency,
        atlas.code, shipping, country, order.email);
      CreateXbsShipment(apikey, now,
        ShipmentDataFor(reference, items, order.totalPrice, order.currency, atlas.code, shipping,
          country, order.email),
        reply)
  }

  /** The webhook's acknowledgement. */
  datatype WebhookAck = WebhookAck(status: int, message: string, error: Option<string>)

  /** `attrs.find((attr) => attr.name === key)?.value || ""`: `v` is the
      value of the first attribute with that name, or "" when that value is
      missing or empty or no attribute has the name. */
  ghost predicate AttributeOrEmpty(attrs: seq<NoteAttribute>, key: string, v: string) {
    && (forall i: nat :: IsFirstAt(attrs, Named(key), i) ==> v == OrElse(attrs[i].value, ""))
    && ((forall i :: 0 <= i < |attrs| ==> attrs[i].name != Some(key)) ==> v == "")
  }

  /** The pickup point the checkout recorded in the attributes: each field is
      the first attribute of its name, or "". */
  function AtlasPointOf(attrs: seq<NoteAttribute>): (p: AtlasPoint)
    ensures AttributeOrEmpty(attrs, "point_code", p.code)
    ensures AttributeOrEmpty(attrs, "point_name", p.name)
    ensures AttributeOrEmpty(attrs, "point_address", p.address)
    ensures AttributeOrEmpty(attrs, "point_city", p.city)
    ensures AttributeOrEmpty(attrs, "point_postal_code", p.postalCode)
    ensures AttributeOrEmpty(attrs, "point_country", p.country)
  {
    AtlasPoint(
      OrElse(AttributeValue(attrs, "point_code"), ""),
      OrElse(AttributeValue(attrs, "point_name"), ""),
      OrElse(AttributeValue(attrs, "point_address"), ""),
      OrElse(AttributeValue(attrs, "point_city"), ""),
      OrElse(AttributeValue(attrs, "point_postal_code"), ""),
      OrElse(AttributeValue(attrs, "point_country"), ""))
  }

  /** `POST /api/webhooks/orders-create`. Every outcome, a caught error
      included, is acknowledged with 200. An order `isInPostOrder` rejects,
      and an InPost order whose first `point_code` attribute is missing or
      empty, are acknowledged without a shipment. Otherwise the shipment goes
      to the recorded point, for the country of `point_country`, else the
      one the shipping method implies, else "PL". */
  function OrdersCreateWebhook(apikey: Option<string>, now: int, order: Order, reply: ShipmentReply): (h: Handled<WebhookAck>)
    ensures h.response.status == 200
    ensures !IsInPostOrder(order.shippingLines) ==>
      h == Handled(None, WebhookAck(200, "OK - Not InPost", None))
    ensures IsInPostOrder(order.shippingLines)
            && !Truthy(AttributeValue(order.noteAttributes.GetOr([]), "point_code")) ==>
      h == Handled(None, WebhookAck(200, "OK - No PUDO yet", None))
    ensures var attrs := order.noteAttributes.GetOr([]);
      var code := AttributeValue(attrs, "point_code");
      IsInPostOrder(order.shippingLines) && Truthy(code) && order.shippingAddress.Some? ==>
        var country := ChooseCountry(AttributeValue(attrs, "point_country"), order.shippingLines, "PL");
        && h.sent == CreateAtlasShipment(apikey, now, order, AtlasPointOf(attrs), country, reply).sent
        && h.sent.Some?
        && h.sent.value.shipment.pudoLocationId == code.value
        && h.sent.value.shipment.consigneeAddress.country == Some(country)
        && h.sent.value.shipment.shipperReference == "SHOP-" + Interpolate(order.name) + "-" + IntToString(now)
        && h.sent.value.shipment.weight == ShippedWeight(order.lineItems.GetOr([]))
        && h.response == (if ClassifyReply(reply).Ok? then WebhookAck(200, "OK - Shipment created", None)
                          else WebhookAck(200, "OK - Error logged", Some(ErrorMessage(ClassifyReply(reply).error))))
    ensures IsInPostOrder(order.shippingLines)
            && Truthy(AttributeValue(order.noteAttributes.GetOr([]), "point_code"))
            && order.shippingAddress.None? ==>
      h == Handled(None, WebhookAck(200, "OK - Error logged", Some(ErrorMessage(TypeError("first_name")))))
  {
    if !IsInPostOrder(order.shippingLines) then
      Handled(None, WebhookAck(200, "OK - Not InPost", None))
    else
      var attrs := order.noteAttributes.GetOr([]);
      var code := AttributeValue(attrs, "point_code");
      if !Truthy(code) then
        Handled(None, WebhookAck(200, "OK - No PUDO yet", None))
      else
        var atlas := AtlasPointOf(attrs);
        var country := ChooseCountry(Some(atlas.country), order.shippingLines, "PL");
        assert OrElse(Some(atlas.country), "") == atlas.country;
        var a := CreateAtlasShipment(apikey, now, order, atlas, country, reply);
        match a.result
        case Ok(_) => Handled(a.sent, WebhookAck(200, "OK - Shipment created", None))
        case Err(e) => Handled(a.sent, WebhookAck(200, "OK - Error logged", Some(ErrorMessage(e))))
  }

  /** The webhook does not deduplicate: the same InPost order with a recorded
      point, delivered at two different times, sends two requests with
      distinct shipper references. */
  lemma RedeliveryCreatesDistinctShipments(apikey: Option<string>, now1: nat, now2: nat, order: Order,
                                           reply1: ShipmentReply, reply2: ShipmentReply)
    requires now1 != now2
    requires IsInPostOrder(order.shippingLines) && order.shippingAddress.Some?
    requires Truthy(AttributeValue(order.noteAttributes.GetOr([]), "point_code"))
    ensures OrdersCreateWebhook(apikey, now1, order, reply1).sent.Some?
    ensures OrdersCreateWebhook(apikey, now2, order, reply2).sent.Some?
    ensures OrdersCreateWebhook(apikey, now1, order, reply1).sent.value.shipment.shipperReference
         != OrdersCreateWebhook(apikey, now2, order, reply2).sent.value.shipment.shipperReference
  {
    var head := "SHOP-" + Interpolate(order.name) + "-";
    var r1, r2 := head + IntToString(now1), head + IntToString(now2);
    assert OrdersCreateWebhook(apikey, now1, order, reply1).sent.value.shipment.shipperReference == r1;
    assert OrdersCreateWebhook(apikey, now2, order, reply2).sent.value.shipment.shipperReference == r2;
    if r1 == r2 {
      assert r1[|head|..] == IntToString(now1) && r2[|head|..] == IntToString(now2);
      NatToStringInjective(now1, now2);
    }
  }
}
