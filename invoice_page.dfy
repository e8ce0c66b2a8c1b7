/** The state of the invoice page and the handlers that update it step by step.

    Each React state variable is a field; each `setX` call is an assignment to
    that field. An empty selection ("" in the page's select boxes) is `None`.
    The network calls are not modelled: their outcomes arrive as parameters. */
module InvoicePage {
  import opened InvoiceCart

  /** What the add button reports to the user; `Ignored` is the silent return
      taken without a selected product or with a quantity of 0 or less. */
  datatype AddOutcome = Ignored | NotEnoughStock(left: int) | AlreadyInCart | Added

  /** What the generate button reports to the user. */
  datatype GenerateOutcome = MissingCustomerOrItems | CreateFailed | Created

  /** The three lists the page fetches on load. */
  datatype Snapshot = Snapshot(customers: seq<Customer>, products: seq<Product>, invoices: seq<Invoice>)

  class InvoicePageState {
    var customers: seq<Customer>
    var products: seq<Product>
    var selectedCustomerId: Option<int>
    var cart: seq<CartLine>
    var discount: real
    var selectedProductId: Option<int>
    var quantity: int
    var invoices: seq<Invoice>

    /** The cart holds at most one line per product, and each line's amounts
        agree with its price, quantity and GST rate. */
    ghost predicate Valid()
      reads this
    {
      DistinctProducts(cart) && LinesConsistent(cart)
    }

    /** The initial state of every `useState`. */
    constructor ()
      ensures Valid()
      ensures customers == [] && products == [] && invoices == []
      ensures selectedCustomerId == None && cart == [] && discount == 0.0
      ensures selectedProductId == None && quantity == 1
    {
      customers, products, invoices := [], [], [];
      selectedCustomerId, cart, discount := None, [], 0.0;
      selectedProductId, quantity := None, 1;
    }

    /** `loadData`: the three lists are replaced only when all three fetches
        succeeded; on any failure nothing changes. */
    method LoadData(fetched: Option<Snapshot>)
      requires Valid()
      modifies this`customers, this`products, this`invoices
      ensures Valid()
      ensures fetched.Some? ==> customers == fetched.value.customers &&
                                products == fetched.value.products &&
                                invoices == fetched.value.invoices
      ensures fetched.None? ==> customers == old(customers) && products == old(products) &&
                                invoices == old(invoices)
    {
      if fetched.Some? {
        customers := fetched.value.customers;
        products := fetched.value.products;
        invoices := fetched.value.invoices;
      }
    }

    /** `addToCart`: a guarded insert of the selected product. */
    method AddToCart() returns (outcome: AddOutcome)
      requires Valid()
      requires selectedProductId.Some? && quantity > 0 ==> FindProduct(products, selectedProductId.value).Some?
      modifies this`cart, this`selectedProductId, this`quantity
      ensures Valid()
      ensures outcome == Ignored <==> old(selectedProductId).None? || old(quantity) <= 0
      ensures !outcome.Added? ==> cart == old(cart) && selectedProductId == old(selectedProductId) &&
                                  quantity == old(quantity)
      ensures old(selectedProductId).Some? && old(quantity) > 0 ==>
        var p := FindProduct(products, old(selectedProductId).value).value;
        if p.stockQuantity < old(quantity) then
          outcome == NotEnoughStock(p.stockQuantity)
        else if FindLine(old(cart), p.id).Some? then
          outcome == AlreadyInCart
        else
          outcome == Added &&
          cart == old(cart) + [NewLine(p, old(quantity))] &&
          selectedProductId == None && quantity == 1
    {
      if selectedProductId.None? || quantity <= 0 {
        return Ignored;
      }
      var product := FindProduct(products, selectedProductId.value).value;
      if product.stockQuantity < quantity {
        return NotEnoughStock(product.stockQuantity);
      }
      var existingItem := FindLine(cart, product.id);
      if existingItem.Some? {
        return AlreadyInCart;
      }
      var newItem := NewLine(product, quantity);
      AppendKeepsInvariants(cart, newItem);
      cart := cart + [newItem];
      selectedProductId := None;
      quantity := 1;
      outcome := Added;
    }

    /** `removeFromCart`: keeps every line of another product, in order. */
    method RemoveFromCart(productId: int)
      requires Valid()
      modifies this`cart
      ensures Valid()
      ensures cart == WithoutProduct(old(cart), productId)
    {
      WithoutProductKeepsInvariants(cart, productId);
      cart := WithoutProduct(cart, productId);
    }

    /** `handleGenerateInvoice`. `request` is the body posted to the invoice
        endpoint (None when the guard refuses and nothing is sent);
        `createSucceeded` is the outcome of that call and `reloaded` the
        outcome of the `loadData` issued after a success. */
    method GenerateInvoice(createSucceeded: bool, reloaded: Option<Snapshot>)
      returns (request: Option<InvoiceRequest>, outcome: GenerateOutcome)
      requires Valid()
      modifies this
      ensures Valid()
      ensures outcome == MissingCustomerOrItems <==> old(selectedCustomerId).None? || old(cart) == []
      ensures request.None? <==> outcome == MissingCustomerOrItems
      ensures request.Some? ==>
        request.value == BuildRequest(old(selectedCustomerId).value, old(cart), old(discount))
      ensures !outcome.Created? ==> unchanged(this)
      ensures outcome.Created? <==> request.Some? && createSucceeded
      ensures outcome.Created? ==>
        cart == [] && selectedCustomerId == None && discount == 0.0 &&
        selectedProductId == old(selectedProductId) && quantity == old(quantity) &&
        (reloaded.Some? ==> customers == reloaded.value.customers &&
                            products == reloaded.value.products &&
                            invoices == reloaded.value.invoices) &&
        (reloaded.None? ==> customers == old(customers) && products == old(products) &&
                            invoices == old(invoices))
    {
      if selectedCustomerId.None? || |cart| == 0 {
        return None, MissingCustomerOrItems;
      }
      var invoiceRequest := BuildRequest(selectedCustomerId.value, cart, discount);
      request := Some(invoiceRequest);
      if !createSucceeded {
        return request, CreateFailed;
      }
      cart := [];
      selectedCustomerId := None;
      discount := 0.0;
      LoadData(reloaded);
      outcome := Created;
    }

    /** The preview shown under the cart: `grandTotal` and `finalPayable`. */
    method Preview() returns (grandTotal: real, finalPayable: real)
      requires Valid()
      ensures grandTotal == Sum(cart)
      ensures finalPayable == grandTotal - discount
    {
      grandTotal := GrandTotal(cart);
      GrandTotalIsSum(cart);
      finalPayable := FinalPayable(cart, discount);
    }
  }
}
