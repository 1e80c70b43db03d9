/** `createXBSShipment`: the validation of the shipment data, the OrderShipment
    payload sent to the carrier, and the classification of the carrier's
    reply. The reply is an input; `now` stands for `Date.now()`. */
module Shipment {
  import opened Wrappers
  import opened Text

  /** A JavaScript number as the payload code sees it: absent, NaN, or a value.
      Its rendering by `toString` is not modelled. */
  datatype Numeric = Undefined | NaN | Num(value: real)

  /** JavaScript truthiness of a number. */
  predicate NumTruthy(n: Numeric) {
    n.Num? && n.value != 0.0
  }

  /** An address as the callers hand it in. */
  datatype AddressInput = AddressInput(
    name: Option<string>,
    company: Option<string>,
    address1: Option<string>,
    address2: Option<string>,
    city: Option<string>,
    state: Option<string>,
    zip: Option<string>,
    countryCode: Option<string>,
    mobile: Option<string>,
    email: Option<string>,
    vat: Option<string>,
    eori: Option<string>)

  datatype ProductInput = ProductInput(
    description: Option<string>,
    sku: Option<string>,
    hsCode: Option<string>,
    quantity: Numeric,
    value: Numeric)

  /** The argument of `createXBSShipment`. `products` is an array, so any
      present list, even an empty one, passes the required-field check. */
  datatype ShipmentData = ShipmentData(
    shipperReference: Option<string>,
    service: Option<string>,
    weight: Numeric,
    value: Numeric,
    currency: Option<string>,
    pudoLocationId: Option<string>,
    consignorAddress: Option<AddressInput>,
    consigneeAddress: Option<AddressInput>,
    products: Option<seq<ProductInput>>)

  /** `Shipment.ConsignorAddress` of the payload (field names in the payload
      are the PascalCase forms of these). */
  datatype ConsignorAddress = ConsignorAddress(
    name: Option<string>,
    company: string,
    addressLine1: Option<string>,
    addressLine2: string,
    addressLine3: string,
    city: Option<string>,
    state: string,
    zip: Option<string>,
    country: Option<string>,
    phone: string,
    email: string,
    vat: string,
    eori: string,
    nlVat: string,
    euEori: string,
    ioss: string,
    gbEori: string,
    auGst: string,
    art23: string)

  /** `Shipment.ConsigneeAddress`, which carries the pickup point a second
      time. */
  datatype ConsigneeAddress = ConsigneeAddress(
    name: Option<string>,
    company: string,
    addressLine1: Option<string>,
    addressLine2: string,
    addressLine3: string,
    city: Option<string>,
    state: string,
    zip: Option<string>,
    country: Option<string>,
    phone: string,
    email: string,
    vat: string,
    pudoLocationId: string)

  datatype Product = Product(
    description: Option<string>,
    sku: string,
    hsCode: string,
    originCountry: string,
    purchaseUrl: string,
    quantity: Numeric,
    value: Numeric)

  datatype ShipmentPayload = ShipmentPayload(
    labelFormat: string,
    shipperReference: string,
    displayId: string,
    invoiceNumber: string,
    service: string,
    weight: real,
    weightUnit: string,
    length: string,
    width: string,
    height: string,
    dimUnit: string,
    value: Numeric,
    shippingValue: string,
    currency: string,
    customsDuty: string,
    description: string,
    declarationType: string,
    dangerousGoods: string,
    exportCarrierName: string,
    exportAwb: string,
    pudoLocationId: string,
    consignorAddress: ConsignorAddress,
    consigneeAddress: ConsigneeAddress,
    products: seq<Product>)

  datatype OrderShipmentRequest = OrderShipmentRequest(apikey: Option<string>, command: string, shipment: ShipmentPayload)

  /** The errors `createXBSShipment` throws. `TypeError` is reading the named
      property of a missing value. */
  datatype ShipmentError =
    | ValidationError(message: string)
    | HttpStatusError(status: int, text: string)
    | CarrierApiError(level: Option<int>, carrierError: Option<string>)
    | TypeError(reading: string)

  const MissingFieldsMessage := "Missing required fields: consigneeAddress, products, weight"
  const PudoRequiredMessage := "PudoLocationId is required for CLLCT service"
  /** The generic cosmetics harmonized-system code. */
  const DefaultHsCode := "3304990000"
  const DefaultVat := "ESB57818197"
  /** The only service the payload ever requests: delivery to a pickup point. */
  const PickupService := "CLLCT"

  /** `err.message` as the handlers report it. A validation message is
      reported as it is; an HTTP failure names the status and ends with the
      carrier's text; a carrier error names the level and ends with the
      carrier's own error text, verbatim, or with "Unknown error" when there
      is none. */
  function ErrorMessage(e: ShipmentError): (m: string)
    ensures e.ValidationError? ==> m == e.message
    ensures e.HttpStatusError? ==>
      && m == "XBS API responded with status " + IntToString(e.status) + ": " + e.text
      && IsPrefix("XBS API responded with status ", m) && IsSuffix(e.text, m)
    ensures e.CarrierApiError? ==>
      && IsPrefix("XBS API Error (Level ", m)
      && IsSuffix("): " + OrElse(e.carrierError, "Unknown error"), m)
    ensures e.CarrierApiError? ==>
      m == "XBS API Error (Level " + (if e.level.Some? then IntToString(e.level.value) else "undefined")
           + "): " + OrElse(e.carrierError, "Unknown error")
    ensures e.TypeError? ==>
      && m == "Cannot read properties of undefined (reading '" + e.reading + "')"
      && IsPrefix("Cannot read properties of undefined (reading '", m)
  {
    match e
    case ValidationError(m) => m
    case HttpStatusError(status, text) =>
      ConcatThree("XBS API responded with status ", IntToString(status) + ": ", text);
      "XBS API responded with status " + IntToString(status) + ": " + text
    case CarrierApiError(level, carrierError) =>
      var shown := if level.Some? then IntToString(level.value) else "undefined";
      ConcatFour("XBS API Error (Level ", shown, "): ", OrElse(carrierError, "Unknown error"));
      "XBS API Error (Level " + shown + "): " + OrElse(carrierError, "Unknown error")
    case TypeError(reading) =>
      ConcatThree("Cannot read properties of undefined (reading '", reading, "')");
      "Cannot read properties of undefined (reading '" + reading + "')"
  }

  /** The required-field check: consignee address, products and a truthy
      weight (zero and NaN fail). */
  predicate HasRequiredFields(d: ShipmentData) {
    d.consigneeAddress.Some? && d.products.Some? && NumTruthy(d.weight)
  }

  /** The input a product needs for its `toString` calls not to fail. */
  predicate ProductReadable(p: ProductInput) {
    p.quantity != Undefined && p.value != Undefined
  }

  function ToProduct(p: ProductInput): Product
    requires ProductReadable(p)
  {
    Product(p.description, OrElse(p.sku, ""), OrElse(p.hsCode, DefaultHsCode), "", "", p.quantity, p.value)
  }

  /** `products.map(...)`: one payload product per input product, in order,
      with Sku defaulting to "" and HsCode to the cosmetics code. */
  function ToProducts(ps: seq<ProductInput>): (r: seq<Product>)
    requires forall i :: 0 <= i < |ps| ==> ProductReadable(ps[i])
    ensures |r| == |ps|
    ensures forall i :: 0 <= i < |ps| ==>
      && r[i].description == ps[i].description
      && r[i].sku == OrElse(ps[i].sku, "")
      && r[i].hsCode == OrElse(ps[i].hsCode, DefaultHsCode)
      && r[i].originCountry == "" && r[i].purchaseUrl == ""
      && r[i].quantity == ps[i].quantity
      && r[i].value == ps[i].value
    decreases |ps|
  {
    if |ps| == 0 then [] else [ToProduct(ps[0])] + ToProducts(ps[1..])
  }

  /** `products.map((p) => p.Description)`, with a missing description
      joined as "". */
  function Descriptions(ps: seq<ProductInput>): (r: seq<string>)
    ensures |r| == |ps|
    ensures forall i :: 0 <= i < |ps| ==> r[i] == ps[i].description.GetOr("")
    decreases |ps|
  {
    if |ps| == 0 then [] else [ps[0].description.GetOr("")] + Descriptions(ps[1..])
  }

  /** The payload's consignor: the optional fields fall back to "", the VAT
      and EORI numbers to the business's own, and the fields the source sets
      to literals are "". */
  function Consignor(a: AddressInput): (c: ConsignorAddress)
    ensures c.name == a.name && c.addressLine1 == a.address1 && c.city == a.city
    ensures c.zip == a.zip && c.country == a.countryCode
    ensures c.company == OrElse(a.company, "") && c.addressLine2 == OrElse(a.address2, "")
    ensures c.state == OrElse(a.state, "") && c.phone == OrElse(a.mobile, "")
    ensures c.email == OrElse(a.email, "")
    ensures c.vat == OrElse(a.vat, DefaultVat) && c.eori == OrElse(a.eori, DefaultVat)
    ensures c.addressLine3 == c.nlVat == c.euEori == c.ioss == c.gbEori == c.auGst == c.art23 == ""
  {
    ConsignorAddress(a.name, OrElse(a.company, ""), a.address1, OrElse(a.address2, ""), "",
      a.city, OrElse(a.state, ""), a.zip, a.countryCode, OrElse(a.mobile, ""), OrElse(a.email, ""),
      OrElse(a.vat, DefaultVat), OrElse(a.eori, DefaultVat), "", "", "", "", "", "")
  }

  /** The payload's consignee: the optional fields fall back to "", the VAT
      number is always "", and the pickup point is carried a second time. */
  function Consignee(a: AddressInput, pudo: string): (c: ConsigneeAddress)
    ensures c.name == a.name && c.addressLine1 == a.address1 && c.city == a.city
    ensures c.zip == a.zip && c.country == a.countryCode
    ensures c.company == OrElse(a.company, "") && c.addressLine2 == OrElse(a.address2, "")
    ensures c.state == OrElse(a.state, "") && c.phone == OrElse(a.mobile, "")
    ensures c.email == OrElse(a.email, "")
    ensures c.addressLine3 == c.vat == ""
    ensures c.pudoLocationId == pudo
  {
    ConsigneeAddress(a.name, OrElse(a.company, ""), a.address1, OrElse(a.address2, ""), "",
      a.city, OrElse(a.state, ""), a.zip, a.countryCode, OrElse(a.mobile, ""), OrElse(a.email, ""),
      "", pudo)
  }

  /** The part of `createXBSShipment` before the network call: the two
      validation steps, then the OrderShipment payload. Building the payload
      reads `value`, then the consignor address, then each product's Quantity
      and Value, and fails with a TypeError on the first that is missing. */
  function BuildOrderShipment(apikey: Option<string>, now: int, d: ShipmentData): (r: Result<OrderShipmentRequest, ShipmentError>)
    ensures !HasRequiredFields(d) ==> r == Err(ValidationError(MissingFieldsMessage))
    ensures HasRequiredFields(d) && !Truthy(d.pudoLocationId) ==> r == Err(ValidationError(PudoRequiredMessage))
    ensures r.Err? && r.error.ValidationError? ==> !HasRequiredFields(d) || !Truthy(d.pudoLocationId)
    ensures HasRequiredFields(d) && Truthy(d.pudoLocationId) && d.value == Undefined ==>
      r == Err(TypeError("toString"))
    ensures HasRequiredFields(d) && Truthy(d.pudoLocationId) && d.value != Undefined
            && d.consignorAddress.None? ==>
      r == Err(TypeError("Name"))
    ensures HasRequiredFields(d) && Truthy(d.pudoLocationId) && d.value != Undefined
            && d.consignorAddress.Some?
            && (exists i :: 0 <= i < |d.products.value| && !ProductReadable(d.products.value[i])) ==>
      r == Err(TypeError("toString"))
    ensures r.Ok? <==>
      && HasRequiredFields(d) && Truthy(d.pudoLocationId)
      && d.value != Undefined && d.consignorAddress.Some?
      && forall i :: 0 <= i < |d.products.value| ==> ProductReadable(d.products.value[i])
    ensures r.Ok? ==>
      var s := r.value.shipment;
      && r.value.apikey == apikey
      && r.value.command == "OrderShipment"
      && s.labelFormat == "ZPL200"
      && s.displayId == "" && s.invoiceNumber == ""
      && s.service == PickupService
      && s.weightUnit == "kg"
      && s.length == "16" && s.width == "12" && s.height == "20" && s.dimUnit == "cm"
      && s.shippingValue == "" && s.customsDuty == "DDU"
      && s.declarationType == "" && s.dangerousGoods == "N"
      && s.exportCarrierName == "" && s.exportAwb == ""
      && s.pudoLocationId == s.consigneeAddress.pudoLocationId == d.pudoLocationId.value
      && s.weight == d.weight.value
      && s.value == d.value
      && s.currency == d.currency.GetOr("EUR")
      && s.shipperReference == (if Truthy(d.shipperReference) then d.shipperReference.value
                                else "SHOP-" + IntToString(now))
      && s.description == Join(Descriptions(d.products.value), ", ")
      && s.consignorAddress == Consignor(d.consignorAddress.value)
      && s.consigneeAddress == Consignee(d.consigneeAddress.value, d.pudoLocationId.value)
      && |s.products| == |d.products.value|
      && forall i :: 0 <= i < |s.products| ==>
        && s.products[i].description == d.products.value[i].description
        && s.products[i].sku == OrElse(d.products.value[i].sku, "")
        && s.products[i].hsCode == OrElse(d.products.value[i].hsCode, DefaultHsCode)
        && s.products[i].originCountry == "" && s.products[i].purchaseUrl == ""
        && s.products[i].quantity == d.products.value[i].quantity
        && s.products[i].value == d.products.value[i].value
  {
    if !HasRequiredFields(d) then Err(ValidationError(MissingFieldsMessage))
    else if !Truthy(d.pudoLocationId) then Err(ValidationError(PudoRequiredMessage))
    else if d.value == Undefined then Err(TypeError("toString"))
    else if d.consignorAddress.None? then Err(TypeError("Name"))
    else
      var products := d.products.value;
      if !forall i :: 0 <= i < |products| ==> ProductReadable(products[i]) then
        Err(TypeError("toString"))
      else
        var pudo := d.pudoLocationId.value;
        Ok(OrderShipmentRequest(apikey, "OrderShipment", ShipmentPayload(
          "ZPL200",
          if Truthy(d.shipperReference) then d.shipperReference.value else "SHOP-" + IntToString(now),
          "", "",
          PickupService,
          d.weight.value, "kg",
          "16", "12", "20", "cm",
          d.value, "",
          d.currency.GetOr("EUR"),
          "DDU",
          Join(Descriptions(products), ", "),
          "", "N", "", "",
          pudo,
          Consignor(d.consignorAddress.value),
          Consignee(d.consigneeAddress.value, pudo),
          ToProducts(products))))
  }

  /** The `Shipment` part of the carrier's JSON reply. */
  datatype ShipmentInfo = ShipmentInfo(
    trackingNumber: Option<string>,
    shipperReference: Option<string>,
    carrier: Option<string>,
    labelImage: Option<string>,
    labelFormat: Option<string>)

  datatype ShipmentReply =
    | ShipmentHttpError(status: int, text: string)
    | ShipmentBody(shipment: Option<ShipmentInfo>, errorLevel: Option<int>, error: Option<string>)

  /** What `createXBSShipment` resolves to (its `success` is always true). */
  datatype ShipmentResult = ShipmentResult(
    trackingNumber: Option<string>,
    shipperReference: Option<string>,
    carrier: Option<string>,
    labelImage: Option<string>,
    labelFormat: Option<string>,
    warning: Option<string>)

  predicate HasTrackingNumber(reply: ShipmentReply) {
    reply.ShipmentBody? && reply.shipment.Some? && Truthy(reply.shipment.value.trackingNumber)
  }

  /** The result a successful reply resolves to: the reply's Shipment fields,
      copied as they are, and the warning. */
  function ResultOf(s: ShipmentInfo, warning: Option<string>): ShipmentResult {
    ShipmentResult(s.trackingNumber, s.shipperReference, s.carrier, s.labelImage, s.labelFormat, warning)
  }

  /** The classification of the carrier's reply: a non-OK status is an error
      carrying the status and the body text; a tracking number means success,
      with the carrier's Error as a warning, whatever ErrorLevel says;
      otherwise a non-zero (or missing) ErrorLevel is a carrier error; a zero
      level without `Shipment` fails reading it; and a zero level with a
      `Shipment` lacking a tracking number still resolves, without warning. */
  function ClassifyReply(reply: ShipmentReply): (r: Result<ShipmentResult, ShipmentError>)
    ensures reply.ShipmentHttpError? ==> r == Err(HttpStatusError(reply.status, reply.text))
    ensures HasTrackingNumber(reply) ==>
      && r == Ok(ResultOf(reply.shipment.value, reply.error))
      && r.value.trackingNumber == reply.shipment.value.trackingNumber
      && r.value.carrier == reply.shipment.value.carrier
      && r.value.warning == reply.error
    ensures reply.ShipmentBody? && !HasTrackingNumber(reply) && reply.errorLevel != Some(0) ==>
      r == Err(CarrierApiError(reply.errorLevel, reply.error))
    ensures reply.ShipmentBody? && !HasTrackingNumber(reply) && reply.errorLevel == Some(0) ==>
      if reply.shipment.None? then r == Err(TypeError("TrackingNumber"))
      else r == Ok(ResultOf(reply.shipment.value, None)) && !Truthy(r.value.trackingNumber)
    ensures r.Ok? ==> reply.ShipmentBody? && reply.shipment.Some?
  {
    match reply
    case ShipmentHttpError(status, text) => Err(HttpStatusError(status, text))
    case ShipmentBody(shipment, errorLevel, error) =>
      if shipment.Some? && Truthy(shipment.value.trackingNumber) then
        Ok(ResultOf(shipment.value, error))
      else if errorLevel != Some(0) then
        Err(CarrierApiError(errorLevel, error))
      else if shipment.None? then
        Err(TypeError("TrackingNumber"))
      else
        Ok(ResultOf(shipment.value, None))
  }

  /** One call of `createXBSShipment`: the request it sends, if it gets that
      far, and what it resolves or throws. */
  datatype Attempt = Attempt(sent: Option<OrderShipmentRequest>, result: Result<ShipmentResult, ShipmentError>)

  /** `createXBSShipment(data)` against the carrier answering `reply`: a
      request that fails to build is never sent and its error is the result,
      whatever the carrier would have said; a sent request's result is the
      classification of the reply. */
  function CreateXbsShipment(apikey: Option<string>, now: int, d: ShipmentData, reply: ShipmentReply): (a: Attempt)
    ensures a.sent.None? <==> BuildOrderShipment(apikey, now, d).Err?
    ensures a.sent.None? ==> a.result == Err(BuildOrderShipment(apikey, now, d).error)
    ensures a.sent.Some? ==> a.sent == Some(BuildOrderShipment(apikey, now, d).value) && a.result == ClassifyReply(reply)
  {
    match BuildOrderShipment(apikey, now, d)
    case Err(e) => Attempt(None, Err(e))
    case Ok(req) => Attempt(Some(req), ClassifyReply(reply))
  }

  /** A rejected shipment never reaches the carrier: its outcome does not
      depend on the reply. */
  lemma RejectedIgnoresReply(apikey: Option<string>, now: int, d: ShipmentData, r1: ShipmentReply, r2: ShipmentReply)
    requires !HasRequiredFields(d) || !Truthy(d.pudoLocationId)
    ensures CreateXbsShipment(apikey, now, d, r1) == CreateXbsShipment(apikey, now, d, r2)
    ensures CreateXbsShipment(apikey, now, d, r1).sent == None
    ensures CreateXbsShipment(apikey, now, d, r1).result.error.ValidationError?
  {
  }

  /** The payload never depends on the `service` the caller asks for. */
  lemma ServiceIgnored(apikey: Option<string>, now: int, d: ShipmentData, service: Option<string>)
    ensures BuildOrderShipment(apikey, now, d) == BuildOrderShipment(apikey, now, d.(service := service))
  {
  }

  /** The answer of `POST /apps/xbs-shipment`: 200 with the result, or 500
      with the error's message. */
  datatype DirectResponse = Shipped(result: ShipmentResult) | ShipmentFailed(error: string)

  function XbsShipmentEndpoint(apikey: Option<string>, now: int, body: ShipmentData, reply: ShipmentReply): (r: DirectResponse)
    ensures var a := CreateXbsShipment(apikey, now, body, reply);
      && (r.Shipped? <==> a.result.Ok?)
      && (r.Shipped? ==> r.result == a.result.value)
      && (r.ShipmentFailed? ==> r.error == ErrorMessage(a.result.error))
  {
    match CreateXbsShipment(apikey, now, body, reply).result
    case Ok(res) => Shipped(res)
    case Err(e) => ShipmentFailed(ErrorMessage(e))
  }
}
