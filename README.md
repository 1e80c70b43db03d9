# InPost / Spring pickup-point shipping — a Dafny model

This project models the core of the Express server in `server.js`. The
server connects a Shopify store to the Spring (XBS) carrier API and ships
orders to InPost or Colis Privé pickup points ("PUDO" locations). The model
covers:

- the shipping-method classifier. `isInPostOrder` decides whether an order
  uses a pickup-point method. `getInPostCountry` derives the destination
  country from the method's title.
- `calculateWeight` and the 0.1 kg floor that both shipment builders apply.
- `GET /apps/xbs-pudo`. It builds the GetLocations request from the query
  string, classifies the carrier's reply, and filters the locations by
  carrier: Colis Privé for FR, InPost for PL, every location elsewhere.
- `createXBSShipment`. This covers its two validation steps, the
  OrderShipment payload it sends, and the classification of the carrier's
  reply into a result or a thrown error.
- `getShopifyOrder`. It normalizes a Shopify order into the server's record,
  and falls back to a placeholder order when the lookup fails.
- the orchestration in `POST /apps/complete-inpost-order`,
  `POST /apps/xbs-shipment`, `POST /api/webhooks/orders-create` and
  `createAtlasShipment`.

The model is made of values. The server's handlers compute one answer from
their inputs and the carrier's reply, so each handler is a function. Its
result pairs the request it sent to the carrier, if any, with what it
answered. The one handler that builds its request by changing an object
field by field, `/apps/xbs-pudo`, is a method.

JavaScript semantics are written out explicitly:

- A value that may be `undefined` is an `Option`.
- `x || d` is `Text.OrElse`. A string is truthy when it is present and
  non-empty (`Text.Truthy`).
- A missing value rendered in a template literal reads "undefined"
  (`Text.Interpolate`).
- A number that may be `undefined` or `NaN` is `Shipment.Numeric`.
- A `TypeError` from reading a property of `undefined` is an error value
  that names the property.

Modules:

- `Wrappers`: `Option` and `Result`.
- `Text`: substring search, ECMAScript `trim`, ASCII case mapping, `join`
  and decimal rendering.
- `Arrays`: `Array.prototype.find` and subsequences.
- `Shopify`: the order as the Shopify API delivers it.
- `Classifier`: the shipping-method classifier.
- `Weight`: parcel weight.
- `Locations`: the pickup-point search.
- `Shipment`: `createXBSShipment` and `/apps/xbs-shipment`.
- `Orders`: order lookup and the two shipment workflows.

`getInPostCountry` (server.js:39-52) never tests the "Punkty odbioru
InPost" label, so an order whose only pickup-point label is that one gets
`null` and the caller's fallback decides.
`Classifier.PolishPointsOnlyGivesNoCountry` and `Orders.PolishPointsFallback`
state the consequence: such an order ships to PL from the webhook and to FR
from the order-completion endpoint.

## Model

| member | source | states |
|---|---|---|
| Classifier.IsInPostOrderIff | server.js:24-34 | an order is an InPost order exactly when some shipping line's title (a missing title read as "") contains one of the three pickup-point labels; a missing `shipping_lines` counts as none |
| Classifier.AnyPickupLineIff | server.js:26-33 | the `some` over the lines holds exactly when at least one line carries a pickup-point label |
| Classifier.InPostCountryNone | server.js:37-53 | `getInPostCountry` gives no country exactly when no line contains the Spain or the France-Continent label |
| Classifier.InPostCountry | server.js:37-53 | `getInPostCountry` answers "PL", "FR" or null, nothing else |
| Classifier.FirstCountryLineDecides | server.js:48-50 | the title of a line that carries a country label contains "InPost z Hiszpanii" or "France-Continent", so one of the two tests at server.js:48-49 always returns for the line `find` picks |
| Classifier.InPostCountryFirstLine | server.js:39-52 | the country comes from the first line with a country label alone, whatever later lines say |
| Classifier.CountryImpliesInPost | server.js:24-53 | every order that gets a country is an InPost order |
| Classifier.PolishPointsOnlyGivesNoCountry | server.js:37-53 | an order whose lines carry only the "Punkty odbioru InPost" label is an InPost order but gets no country |
| Classifier.PolishPointsLine | server.js:26-45 | a line titled "Punkty odbioru InPost" passes the `some` test of `isInPostOrder` and fails the `find` test of `getInPostCountry` |
| Classifier.PolishPointsExample | server.js:24-53 | the single line "Punkty odbioru InPost" is InPost and gets no country |
| Classifier.FranceLine | server.js:39-50 | a line titled "France-Continent (Point Pack et Locker)" passes the `find` test of `getInPostCountry` and does not contain "InPost z Hiszpanii" |
| Classifier.FranceExample | server.js:24-53 | the single line "France-Continent (Point Pack et Locker)" is InPost and gets FR |
| Weight.CalculateWeight | server.js:17-21 | the reduce yields the sum over the items of grams × quantity / 1000, and 0 for no items |
| Weight.AccumulateAdds | server.js:18-20 | reducing from a running total adds that total to the sum of the remaining items |
| Weight.ShippedWeight | server.js:518 | `Math.max(0.1, weight)` is never below 0.1, is the weight when that reaches 0.1, and is 0.1 otherwise |
| Weight.TotalKgAppend | server.js:17-21 | the weight of two item lists together is the sum of their weights |
| Weight.TotalKgNonNegative | server.js:17-21 | items with non-negative grams and quantities weigh at least 0 |
| Weight.WeightExamples | server.js:1913 | one 500 g item weighs 0.5 kg; an empty order ships at the 0.1 kg floor |
| Locations.XbsPudo | server.js:347-457 | without a country the endpoint answers 400 with "Country query param is required, e.g. ?country=FR" and sends nothing, and that is the only 400; otherwise it sends GetLocations with the upper-cased country, the zip exactly when one was given, and the city exactly when one was given and the country is IT; its answer is the search outcome for that country: 200 whenever the carrier answers with ErrorLevel 0, even with no locations, and 500 otherwise |
| Locations.SearchOutcome | server.js:386-456 | a non-OK status and a non-zero or missing ErrorLevel give 500 with the message the source throws; otherwise it answers with the upper-cased country, the number of locations found, and the filtered locations and their count, which is never more than the number found |
| Locations.FilterByCarrier | server.js:409-421 | the kept locations are exactly those whose lower-cased carrier contains "colis prive" (FR) or "inpost" (PL), each kept as often as it occurs and in the original order; other countries keep every location |
| Locations.LocatedCarriers | server.js:409-446 | a reply with ErrorLevel 0 is answered with its filtered locations, and every point a French answer reports is a Colis Privé location, and every point a Polish answer reports is an InPost location |
| Locations.ToPickupPoints | server.js:427-440 | one reported point per kept location, in order, with `address2` and `businessHours` defaulting to "" |
| Shipment.BuildOrderShipment | server.js:56-153 | a missing consignee, products or weight, or a zero weight, is rejected first; a missing PUDO id is rejected next; the payload is built exactly when both checks pass and `value`, the consignor and every product's quantity and value are present; otherwise a missing `value` fails with the TypeError reading `toString`, then a missing consignor with the one reading `Name`, then an unreadable product quantity or value with the one reading `toString`; the payload always asks for CLLCT with label format ZPL200, 16×12×20 cm, weight in kg, duty DDU, DangerousGoods N and the empty DisplayId, InvoiceNumber, ShippingValue, DeclarationType and export fields and carries the PUDO id at both levels, the weight, value and currency (EUR when missing), the reference (or SHOP-now), the description join, the consignor and consignee as `Consignor` and `Consignee` map them, and the product defaults, with empty OriginCountry and PurchaseUrl |
| Shipment.ToProducts | server.js:144-152 | one payload product per input product, in order, with Sku defaulting to "" and HsCode to 3304990000, and OriginCountry and PurchaseUrl always "" |
| Shipment.Descriptions | server.js:102 | the description list has one entry per product, in order |
| Shipment.Consignor | server.js:108-128 | the payload consignor copies name, first address line, city, zip and country; company, second line, state, phone and email fall back to ""; Vat and Eori fall back to ESB57818197; the other fields are "" |
| Shipment.Consignee | server.js:129-143 | the payload consignee copies name, first address line, city, zip and country; company, second line, state, phone and email fall back to ""; Vat is ""; PudoLocationId is the pickup point |
| Shipment.ServiceIgnored | server.js:59-91 | the payload never depends on the `service` the caller passes |
| Shipment.ClassifyReply | server.js:178-223 | a non-OK status is an error with that status and text; a reply whose Shipment has a tracking number succeeds with the Shipment's tracking number, reference, carrier and label copied and the carrier's Error as the warning, whatever ErrorLevel says; otherwise a non-zero or missing ErrorLevel is a carrier error with that level and Error; otherwise a reply without Shipment fails reading TrackingNumber, and one with Shipment succeeds with its fields copied and no warning |
| Shipment.ErrorMessage | server.js:56-224 | the `err.message` of each error `createXBSShipment` throws: a validation message as it is; an HTTP failure's "XBS API responded with status N: " followed by the body text; a carrier error is exactly "XBS API Error (Level L): E", where L is the ErrorLevel or "undefined" and E the carrier's Error text verbatim or "Unknown error"; a TypeError is exactly "Cannot read properties of undefined (reading 'p')" for the property p read |
| Shipment.CreateXbsShipment | server.js:56-224 | a request is sent exactly when it builds; an unbuilt request's error is the result; a sent request's result is the classification of the reply |
| Shipment.RejectedIgnoresReply | server.js:69-77 | a rejected shipment never reaches the carrier, so its outcome is the same whatever the carrier would have said |
| Shipment.XbsShipmentEndpoint | server.js:460-471 | the endpoint answers the shipment result when `createXBSShipment` succeeds, and 500 with its error message otherwise |
| Orders.NormalizeOrder | server.js:266-296 | every address field of the record is present; the first name is the address's, else the customer's, else "Customer"; the last name and phone are the address's, else the customer's, else ""; the country code is the address's, else "FR"; every other address field is the address's, else ""; a missing address or customer reads as one with every field missing; the order number is `order_number`, else `name`; the shipping lines and line items default to [] |
| Orders.FetchOrder | server.js:227-336 | a failed lookup yields the placeholder record for the requested number; a found order yields its normalized record, with the defaults `Orders.NormalizeOrder` states; every address field is present either way |
| Orders.MockOrder | server.js:302-334 | the placeholder carries the requested order number, a complete address in Paris, zip 75001, country FR, a 50 EUR total, one shipping line and one line item that ships at 0.5 kg |
| Orders.ConsigneeFor | server.js:536-547 | the consignee's name is first and last name joined by a space and trimmed; company, second address line, state (the province) and phone default to ""; the first address line, city and zip are copied; the email is the order's; the country is the one chosen for the shipment; no VAT or EORI is given |
| Orders.ProductsFor | server.js:548-554 | one product per line item, in order, with its title, its sku or "", the cosmetics HS code, its quantity, and its price or 0 when that does not parse; quantity and value are always readable |
| Orders.ShipmentDataFor | server.js:516-555 | the shipment data both builders pass on always has its required fields, a weight that is the floored line-item weight (at least 0.1 kg), the reference, no service, the PUDO id, the parsed total price (NaN when it does not parse), the currency, the fixed consignor, the consignee `ConsigneeFor` maps and the products `ProductsFor` maps |
| Orders.ShipmentDataAccepted | server.js:516-555 | shipment data built from an order passes `createXBSShipment`'s checks exactly when a PUDO id is given; the request then carries that id at both levels, the chosen country, the reference, a weight of at least 0.1 kg and one product per line item |
| Orders.ChooseCountrySpec | server.js:510 | an explicit country wins; otherwise the country `getInPostCountry` finds wins; otherwise the fallback; so the result is always the explicit country, PL, FR or the fallback, and it is the fallback when no line carries a country label |
| Orders.ChooseCountryFirstLine | server.js:1888 | without an explicit country, the first line with the Spain or France label decides: PL when it carries the Spain label, FR otherwise, whatever the fallback |
| Orders.PolishPointsFallback | server.js:1888 | a Punkty-only order ships to PL from the webhook and to FR from the order-completion endpoint |
| Orders.CompleteInPostOrder | server.js:474-586 | a missing order number ("Order number is required"), and then a missing PUDO location ("PUDO location must be selected"), are answered without sending anything; otherwise the request sent is exactly the one `createXBSShipment` builds from the shipment data of the fetched record, with the PUDO id at both levels, the chosen country and the reference SHOP-number-now; the answer succeeds exactly when the carrier's reply does, with its tracking number, carrier, the country and the PUDO id, and is otherwise the failure carrying the error message |
| Orders.CompleteRequestFromRecord | server.js:516-555 | the request the endpoint sends carries the floored weight of the record's line items (at least 0.1 kg), its parsed total price, its currency or EUR, its shipping address as consignee, and one product per line item |
| Orders.CompleteStatusSpec | server.js:487-586 | the endpoint answers 400 exactly when the order number or the PUDO location is missing, 200 exactly when both are given and the carrier accepted the shipment, and 500 otherwise |
| Orders.RejectedStatus | server.js:487-499 | a missing order number or PUDO location is answered with 400 |
| Orders.AcceptedStatus | server.js:563-576 | with both given, a reply that classifies as a success is answered with 200 |
| Orders.FailedStatus | server.js:580-585 | with both given, a reply that classifies as an error is answered with 500 |
| Orders.AttributeValue | server.js:1866 | the value is that of the first note attribute with that name, whatever later attributes with the same name hold; there is none when no attribute has that name |
| Orders.EmptyFirstPointCodeWaits | server.js:1865-1871 | when the first `point_code` attribute is empty, the webhook answers "OK - No PUDO yet" and sends nothing, even if a later `point_code` attribute has a value |
| Orders.CreateAtlasShipment | server.js:1903-1974 | an order without a shipping address fails before anything is sent with the TypeError of reading `first_name`; with an address but an empty point code nothing is sent and the result is the "PudoLocationId is required for CLLCT service" validation error; otherwise the request sent is exactly the one `createXBSShipment` builds from the shipment data of the order, with the recorded point at both levels, the country, the reference SHOP-name-now, the floored weight of `line_items` or [] and one product per line item, and the result is the classification of the reply |
| Orders.AtlasPointOf | server.js:1876-1883 | each field of the recorded point (the code is only read once the first `point_code` is known to be non-empty) is the value of the first note attribute with its name, or "" when that value is missing or empty or there is no such attribute |
| Orders.OrdersCreateWebhook | server.js:1847-1900 | every outcome is acknowledged with 200; an order that is not InPost, or whose first `point_code` is missing or empty, is acknowledged without a shipment; otherwise the request is the one `createAtlasShipment` sends for the webhook's own order and recorded point: the point's code, the country of `point_country`, else the method's country, else PL, the reference SHOP-name-now and the floored weight of the order's line items; the acknowledgement is "OK - Shipment created" with no error when the carrier succeeded and "OK - Error logged" with the error's message otherwise; an InPost order with a point but no shipping address sends nothing and is acknowledged "OK - Error logged" with the message of the TypeError reading `first_name` |
| Orders.RedeliveryCreatesDistinctShipments | server.js:1912 | the webhook does not deduplicate: the same order delivered at two different times sends two requests with distinct shipper references |
| Text.Trim | server.js:537 | `trim` removes exactly the leading and trailing ECMAScript white space |
| Text.Join | server.js:102 | `join` gives "" for no parts and the part itself for one part; otherwise it starts with the first part and ends with the last |
| Text.JoinLength | server.js:102 | the joined text is as long as all parts plus one separator between each two neighbours |
| Text.JoinAppend | server.js:102 | joining two non-empty lists one after the other is joining each and putting one separator between the two results |
| Text.NatToStringInjective | server.js:517 | distinct timestamps render as distinct decimal strings |
| Arrays.FirstIndex | server.js:1866 | `find` yields the first matching element, and nothing exactly when no element matches |

## Left out

- Network I/O. The Shopify Admin API, the Spring API at mtapi.net and their HTTP transport are not modelled. Their answers are inputs: the order lookup is an `Option<Order>` (None for any failure), and the carrier's reply is a `LocationsReply` or `ShipmentReply`.
- `Date.now()` is the parameter `now`. `process.env.XBS_APIKEY` is the parameter `apikey`.
- A reply body that is not valid JSON is not modelled. In the source, `apiRes.json()` would throw.
- Floating point. Weights and prices are reals, and `toString` does not render numbers into the payload. `Weight`, `Quantity` and `Value` stay numbers, because the carrier's decimal format is outside the model.
- `parseFloat` is not modelled. Its result is an input: a price is `Option<real>`, with None for NaN.
- `null` is not told apart from `undefined`. A TypeError message always says "undefined".
- `Text.AsciiLower` and `Text.AsciiUpper` map ASCII letters only, so accented carrier names are compared as written.
- Passthrough values the server only copies are kept as optional strings: coordinates, label image, opening hours.
- Line-item `grams` and `quantity` are always present integers.
- Orders.FetchOrder: the model does not prove that the placeholder's shipping line "Points de retrait en France (choix du lieu par e-mail)" carries no pickup-point label. Proving it over that literal costs more than the solver allows.
- The 404 "Order not found" branch of `/apps/complete-inpost-order` (server.js:503-508) has no counterpart, because the lookup always yields a record.
- `updateShopifyOrderTracking` (server.js:1977-2026) is not modelled. It writes a note on the Shopify order and sets its tags to "atlas-pudo, ready-to-print". It catches all its own errors, so it never changes the webhook's answer.
- The HMAC header of the webhook is read but never checked (server.js:1849). It is not modelled.
- The Express router, CORS, body parsing and logging are not modelled.
- The test endpoints (server.js:590-807) are outside this model.
- `/apps/check-inpost-order` (server.js:810-825) is outside this model.
- `/apps/xbs-services` and `/apps/xbs-track` (server.js:828-905) are outside this model.
- The HTML pages `/pudo-selection` and `/operator-pudo` (server.js:908-1841) are outside this model.
- The checkout extension `BlockExtension.jsx` is not part of this model.
