/** The parts of a Shopify order that the server reads. Every JSON field that
    may be absent is an `Option`; `null` and a missing key are both `None`.
    Prices are the numbers `parseFloat` reads from Shopify's price strings:
    `None` stands for `NaN`. */
module Shopify {
  import opened Wrappers

  datatype ShippingLine = ShippingLine(title: Option<string>)

  datatype LineItem = LineItem(
    title: Option<string>,
    quantity: int,
    price: Option<real>,
    grams: int,
    sku: Option<string>)

  /** A key/value pair of `note_attributes`: the side channel through which the
      checkout stores the chosen pickup point. */
  datatype NoteAttribute = NoteAttribute(name: Option<string>, value: Option<string>)

  datatype Customer = Customer(
    firstName: Option<string>,
    lastName: Option<string>,
    phone: Option<string>)

  datatype ShippingAddress = ShippingAddress(
    firstName: Option<string>,
    lastName: Option<string>,
    address1: Option<string>,
    address2: Option<string>,
    city: Option<string>,
    zip: Option<string>,
    phone: Option<string>,
    countryCode: Option<string>,
    province: Option<string>,
    company: Option<string>)

  /** An order as Shopify delivers it, in the order-creation webhook or in the
      Admin API's order list. */
  datatype Order = Order(
    id: Option<string>,
    name: Option<string>,
    orderNumber: Option<string>,
    email: Option<string>,
    totalPrice: Option<real>,
    currency: Option<string>,
    shippingAddress: Option<ShippingAddress>,
    customer: Option<Customer>,
    shippingLines: Option<seq<ShippingLine>>,
    lineItems: Option<seq<LineItem>>,
    noteAttributes: Option<seq<NoteAttribute>>)
}
