# Invoice cart of the billing client

This project models the invoice page of a browser-based billing front end. The page composes a bill on the client before anything is sent to the backend:

- the user picks a product and a quantity;
- `addToCart` is a guarded insert;
- `removeFromCart` filters the cart by product;
- a preview shows the grand total (line totals plus GST) and the amount payable after the discount;
- `handleGenerateInvoice` posts `{customerId, items: [{productId, quantity}], discount}` and resets the page after a success.

Files:

- `cart.dfy`, module `InvoiceCart`: the pure part. It holds the records (product, customer, invoice, cart line, request body) and the `Array.find` lookups. It also holds the cart filter, the `reduce` that gives the grand total, the final payable amount and the `map` that builds the request. It ends with the lemmas about them.
- `invoice_page.dfy`, module `InvoicePage`: the page's state as the class `InvoicePageState`. Each React state variable is a field, and each handler is a method that reassigns the fields the handler's `setX` calls change. The class invariant `Valid()` says two things. The cart holds at most one line per product, and every line's `total`/`tax` agree with its price, quantity and GST rate.
- `quantity_input.dfy`, module `QuantityInput`: how the page handles a fractional quantity (see "## Findings").

Modelling choices:

- Money is `real`, not an IEEE double.
- Quantities are integers that are already parsed.
- An empty selection (`""` in the page's select boxes) is `None`.
- The network is not modelled. The outcome of `createInvoice` is a `bool` parameter. The result of `loadData` is an `Option<Snapshot>` parameter: `None` when any of its three fetches failed.

## Model

| member | source | states |
|---|---|---|
| `InvoiceCart.Find` | src/pages/InvoicePage.jsx:44 | returns the first element satisfying the predicate, or None exactly when no element satisfies it |
| `InvoiceCart.FindProduct` | src/pages/InvoicePage.jsx:44 | the product found has the selected id and is the first such product; None exactly when no product has that id |
| `InvoiceCart.FindLine` | src/pages/InvoicePage.jsx:53-54 | finds a cart line of that product exactly when one exists |
| `InvoiceCart.NewLine` | src/pages/InvoicePage.jsx:59-70 | the appended line carries the product's id, name, price and GST rate and the quantity, with total = price × quantity and tax = total × gst / 100, so total + tax = price × quantity × (1 + gst/100) |
| `InvoiceCart.AppendKeepsInvariants` | src/pages/InvoicePage.jsx:53-72 | appending a line for a product not yet in the cart keeps product ids distinct and lines consistent |
| `InvoiceCart.WithoutProduct` | src/pages/InvoicePage.jsx:79-81 | no line of the removed product remains, the cart never grows, and removing an absent product leaves the cart unchanged |
| `InvoiceCart.WithoutProductMembers` | src/pages/InvoicePage.jsx:80 | a line is kept exactly when it was in the cart and belongs to another product |
| `InvoiceCart.WithoutProductConcat` | src/pages/InvoicePage.jsx:80 | the filter distributes over concatenation, so kept lines keep their relative order |
| `InvoiceCart.WithoutProductKeepsDistinct` | src/pages/InvoicePage.jsx:79-81 | removal keeps product ids distinct |
| `InvoiceCart.WithoutProductKeepsConsistent` | src/pages/InvoicePage.jsx:79-81 | removal keeps every remaining line's amounts consistent |
| `InvoiceCart.WithoutProductKeepsInvariants` | src/pages/InvoicePage.jsx:79-81 | removal keeps product ids distinct and lines consistent |
| `InvoiceCart.WithoutPresentProductLength` | src/pages/InvoicePage.jsx:80 | in a cart with distinct products, removing a present product drops exactly one line |
| `InvoiceCart.OnlyLineOfProduct` | src/pages/InvoicePage.jsx:53-57 | in a cart with distinct products, no line before or after line i has its product |
| `InvoiceCart.WithoutProductSplit` | src/pages/InvoicePage.jsx:80 | removing the product of a line, when nothing around it is removed, leaves exactly the lines around it |
| `InvoiceCart.WithoutProductAt` | src/pages/InvoicePage.jsx:80 | in a cart with distinct products, removing the product of line i leaves exactly the lines before and after it |
| `InvoiceCart.RemoveUndoesAdd` | src/pages/InvoicePage.jsx:72-80 | removing a product right after adding it gives back the earlier cart |
| `InvoiceCart.SumFrom` | src/pages/InvoicePage.jsx:115 | the reducer `(acc, item) => acc + item.total + item.tax` folded from the left over the lines; its properties are stated in SumFromIsSum, GrandTotalIsSum, GrandTotalAppend and GrandTotalRemove |
| `InvoiceCart.GrandTotal` | src/pages/InvoicePage.jsx:115 | the `reduce` of the cart: the left fold of total + tax from 0; its properties are stated in GrandTotalIsSum, GrandTotalAppend and GrandTotalRemove |
| `InvoiceCart.SumFromIsSum` | src/pages/InvoicePage.jsx:115 | the left fold from an accumulator equals the accumulator plus the reference sum of total + tax |
| `InvoiceCart.GrandTotalIsSum` | src/pages/InvoicePage.jsx:115 | the grand total is the sum of total + tax over all lines, and 0 for an empty cart |
| `InvoiceCart.GrandTotalAppend` | src/pages/InvoicePage.jsx:72-115 | adding a line raises the grand total by that line's total + tax |
| `InvoiceCart.GrandTotalRemove` | src/pages/InvoicePage.jsx:80-115 | removing a product from a cart with distinct products lowers the grand total by exactly that product's line amount |
| `InvoiceCart.FinalPayable` | src/pages/InvoicePage.jsx:116 | equals the grand total when the discount is 0, and is at most the grand total exactly when the discount is not negative |
| `InvoiceCart.Items` | src/pages/InvoicePage.jsx:93-96 | the items list the cart's (productId, quantity) pairs, one per line, in cart order |
| `InvoiceCart.BuildRequest` | src/pages/InvoicePage.jsx:91-98 | the request carries the customer id and the discount, and one item per cart line in cart order |
| `InvoiceCart.RequestProductsDistinct` | src/pages/InvoicePage.jsx:91-98 | a cart with distinct products yields a request naming each product once |
| `InvoiceCart.MouseLineExample` | src/pages/InvoicePage.jsx:59-60 | 2 units at 500 with 18% GST give total 1000, tax 180, 1180 with tax, and 1130 payable after a discount of 50 |
| `InvoiceCart.RequestExample` | src/pages/InvoicePage.jsx:91-98 | customer 1 with 2 units of product 7 and discount 50 gives the body {1, [{7, 2}], 50} |
| `InvoicePage.InvoicePageState.constructor` | src/pages/InvoicePage.jsx:12-20 | the initial state: empty lists and cart, no selections, discount 0, quantity 1 |
| `InvoicePage.InvoicePageState.LoadData` | src/pages/InvoicePage.jsx:28-39 | customers, products and invoices are replaced together when all fetches succeed; on a failure nothing changes |
| `InvoicePage.InvoicePageState.AddToCart` | src/pages/InvoicePage.jsx:41-77 | no-op without a selection or with quantity ≤ 0. Otherwise it refuses with the stock left when stock < quantity, and refuses a product already in the cart; on every refusal cart and selection are unchanged. If neither refusal applies, it appends exactly the new line and resets the selection to none and the quantity to 1. The invariant is kept throughout |
| `InvoicePage.InvoicePageState.RemoveFromCart` | src/pages/InvoicePage.jsx:79-81 | the new cart is the old cart without that product's lines, and the invariant is kept |
| `InvoicePage.InvoicePageState.GenerateInvoice` | src/pages/InvoicePage.jsx:84-112 | refuses, sends nothing and changes nothing without a customer or with an empty cart. Otherwise it sends exactly the request built from the customer, the cart and the discount. On a failed call nothing changes. On success the cart is emptied, the customer cleared, the discount reset to 0 and the lists reloaded |
| `InvoicePage.InvoicePageState.Preview` | src/pages/InvoicePage.jsx:115-116 | the grand total shown is the sum of total + tax over the cart, and the payable amount is that minus the discount |
| `QuantityInput.ParseInt` | src/pages/InvoicePage.jsx:67 | `parseInt` of the plain decimal text of a non-negative number is its integer part |
| `QuantityInput.LineAsWritten` | src/pages/InvoicePage.jsx:59-70 | the line as written prices the raw quantity but records its integer part |
| `QuantityInput.AsWrittenPricesUnsentUnits` | src/pages/InvoicePage.jsx:59-67 | quantity 2.5 at price 500 yields a line priced 1250 whose recorded (and sent) quantity is 2 |
| `QuantityInput.AsWrittenAddsZeroQuantity` | src/pages/InvoicePage.jsx:42-67 | quantity 0.5 passes the guard and yields a line of quantity 0 priced 250 |
| `QuantityInput.LineFromInput` | src/pages/InvoicePage.jsx:59-70 | the corrected line parses first: it refuses a parsed quantity of 0 and otherwise prices exactly the quantity it records |
| `QuantityInput.AsWrittenAgreesOnWholeNumbers` | src/pages/InvoicePage.jsx:59-67 | for a product with a non-zero price, the line as written equals the corrected one exactly when the typed quantity is a whole number |

## Findings

| source | as written | input that shows it | evidently intended | confidence | as-written member | corrected member |
|---|---|---|---|---|---|---|
| src/pages/InvoicePage.jsx:59-67 | `total` is `price * quantity` on the raw input value. The line's `quantity` is `parseInt(quantity)`, and only that integer is sent to the backend | quantity typed as 2.5 (or 0.5) in the number box, price 500 | the line is priced for the quantity it records and sends, and a quantity that parses to 0 is refused | medium; not executed | `QuantityInput.AsWrittenPricesUnsentUnits` | `QuantityInput.LineFromInput` |

The rest of the model (`InvoicePage.InvoicePageState.AddToCart`) uses the corrected behaviour. Its quantity is an already-parsed integer greater than 0, and the line it appends is `InvoiceCart.NewLine` of that integer.

## Left out

- `loadData`, `createInvoice`: the HTTP calls are replaced by their outcomes, given as parameters. The `loadData` that `handleGenerateInvoice` fires without awaiting is applied right after the reset. Interleavings with other handlers, and stale closures over `cart`, are not modelled.
- `handleDownload` (PDF blob and DOM link) and `handleEmail` (`window.confirm` and the email call): no client-side logic beyond the foreign calls.
- Rendering, `toFixed` formatting and date display: presentation only. This includes the select box disabling products with no stock.
- The `onChange` handlers that set the selections, the quantity and the discount from form input: these are direct writes to the class's public fields.
- IEEE floating-point rounding of `price * quantity` and `gst / 100`: money is exact `real`.
- JavaScript string-to-number coercion of `quantity` and `discount` (`parseFloat(discount)` included): both are already-parsed numbers. The one exception is the fractional quantity shown under Findings.
- `InvoicePage.InvoicePageState.AddToCart`: a selected product id that matches no product is a precondition, not modelled behaviour (the page would throw a TypeError reading `stockQuantity` of `undefined`).
- QuantityInput.ParseInt: models `parseInt` only on plain decimal text. A number box can also hold exponent forms such as "1e3" (which `parseInt` reads as 1) and a leading-dot form such as ".5" (which gives NaN); neither is modelled.
- The alert texts are represented by the `AddOutcome` and `GenerateOutcome` values, not by strings.
- The product, customer and login pages, the routing and navigation, and the HTTP client wrapper: fetch-and-render glue, a remote login probe and browser storage, with no cart logic.
