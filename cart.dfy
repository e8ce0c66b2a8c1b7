/** The pure part of the invoice page: the records the page works with, the
    lookups it performs with Array.find, the cart filter, the preview totals
    (a reduce over the lines) and the request body built with map.

    Money is modelled with `real`, not with IEEE doubles; quantities are
    already-parsed integers. */
module InvoiceCart {

  datatype Option<T> = None | Some(value: T)

  /** A product as last fetched from the backend. */
  datatype Product = Product(id: int, name: string, price: real, stockQuantity: int, gstPercentage: real)

  datatype Customer = Customer(id: int, name: string, phone: string, email: string, address: string)

  /** An invoice of the history table; only displayed by the page. */
  datatype Invoice = Invoice(id: int, customer: Customer, invoiceDate: string, finalAmount: real)

  /** One line of the client-side cart. */
  datatype CartLine = CartLine(productId: int, name: string, price: real, gst: real,
                               quantity: int, total: real, tax: real)

  /** The body posted to the invoice endpoint. */
  datatype ItemRequest = ItemRequest(productId: int, quantity: int)
  datatype InvoiceRequest = InvoiceRequest(customerId: int, items: seq<ItemRequest>, discount: real)

  // ---------------------------------------------------------------------------
  // Array.prototype.find

  /** The first element of `s` that satisfies `matches`, as Array.find returns it. */
  function Find<T>(s: seq<T>, matches: T -> bool): (r: Option<T>)
    ensures r.None? <==> forall i :: 0 <= i < |s| ==> !matches(s[i])
    ensures r.Some? ==> exists i :: 0 <= i < |s| && s[i] == r.value && matches(s[i]) &&
                                    forall j :: 0 <= j < i ==> !matches(s[j])
  {
    if s == [] then None
    else if matches(s[0]) then Some(s[0])
    else
      var r := Find(s[1..], matches);
      if r.Some? then
        ghost var i :| 0 <= i < |s[1..]| && s[1..][i] == r.value && matches(s[1..][i]) &&
                       forall j :: 0 <= j < i ==> !matches(s[1..][j]);
        assert s[i + 1] == r.value;
        assert forall j :: 1 <= j < i + 1 ==> s[j] == s[1..][j - 1];
        r
      else
        r
  }

  /** `products.find(p => p.id === id)`. */
  function FindProduct(products: seq<Product>, id: int): (r: Option<Product>)
    ensures r.None? <==> forall i :: 0 <= i < |products| ==> products[i].id != id
    ensures r.Some? ==> r.value.id == id && r.value in products
    ensures r.Some? ==> exists i :: 0 <= i < |products| && products[i] == r.value &&
                                    forall j :: 0 <= j < i ==> products[j].id != id
  {
    Find(products, (p: Product) => p.id == id)
  }

  /** `cart.find(item => item.productId === id)`. */
  function FindLine(cart: seq<CartLine>, id: int): (r: Option<CartLine>)
    ensures r.None? <==> forall i :: 0 <= i < |cart| ==> cart[i].productId != id
    ensures r.Some? ==> r.value.productId == id && r.value in cart
  {
    Find(cart, (l: CartLine) => l.productId == id)
  }

  // ---------------------------------------------------------------------------
  // Cart invariants

  /** At most one line per product. */
  ghost predicate DistinctProducts(cart: seq<CartLine>)
  {
    forall i, j :: 0 <= i < j < |cart| ==> cart[i].productId != cart[j].productId
  }

  /** A line's amounts agree with its price, quantity and GST rate. */
  ghost predicate LineConsistent(l: CartLine)
  {
    l.quantity > 0 && l.total == l.price * l.quantity as real && l.tax == l.total * (l.gst / 100.0)
  }

  ghost predicate LinesConsistent(cart: seq<CartLine>)
  {
    forall i :: 0 <= i < |cart| ==> LineConsistent(cart[i])
  }

  // ---------------------------------------------------------------------------
  // A new line

  /** The line that adding `quantity` units of `p` appends to the cart. */
  function NewLine(p: Product, quantity: int): (l: CartLine)
    requires quantity > 0
    ensures LineConsistent(l)
    ensures l.productId == p.id && l.name == p.name && l.price == p.price && l.gst == p.gstPercentage
    ensures l.quantity == quantity
    ensures l.tax * 100.0 == l.total * p.gstPercentage
    ensures l.total + l.tax == p.price * quantity as real * (1.0 + p.gstPercentage / 100.0)
  {
    var total := p.price * quantity as real;
    var tax := total * (p.gstPercentage / 100.0);
    CartLine(p.id, p.name, p.price, p.gstPercentage, quantity, total, tax)
  }

  /** Appending a line for a product not yet in the cart keeps the cart's invariants. */
  lemma AppendKeepsInvariants(cart: seq<CartLine>, l: CartLine)
    requires DistinctProducts(cart) && LinesConsistent(cart)
    requires FindLine(cart, l.productId).None? && LineConsistent(l)
    ensures DistinctProducts(cart + [l]) && LinesConsistent(cart + [l])
  {
  }

  // ---------------------------------------------------------------------------
  // Removal: cart.filter(item => item.productId !== id)

  function WithoutProduct(cart: seq<CartLine>, id: int): (r: seq<CartLine>)
    ensures |r| <= |cart|
    ensures forall i :: 0 <= i < |r| ==> r[i].productId != id
    ensures FindLine(cart, id).None? ==> r == cart
  {
    if cart == [] then []
    else if cart[0].productId == id then WithoutProduct(cart[1..], id)
    else [cart[0]] + WithoutProduct(cart[1..], id)
  }

  /** Exactly the lines of other products are kept. */
  lemma {:induction false} WithoutProductMembers(cart: seq<CartLine>, id: int)
    ensures forall l :: l in WithoutProduct(cart, id) <==> l in cart && l.productId != id
  {
    if cart != [] {
      WithoutProductMembers(cart[1..], id);
      assert cart == [cart[0]] + cart[1..];
    }
  }

  /** Filtering distributes over concatenation: the kept lines stay in their relative order. */
  lemma {:induction false} WithoutProductConcat(a: seq<CartLine>, b: seq<CartLine>, id: int)
    ensures WithoutProduct(a + b, id) == WithoutProduct(a, id) + WithoutProduct(b, id)
  {
    if a == [] {
      assert a + b == b;
    } else {
      assert (a + b)[1..] == a[1..] + b;
      WithoutProductConcat(a[1..], b, id);
    }
  }

  /** Putting a line in front of distinct lines of other products keeps them distinct. */
  lemma DistinctCons(l: CartLine, rest: seq<CartLine>)
    requires DistinctProducts(rest)
    requires forall k :: 0 <= k < |rest| ==> rest[k].productId != l.productId
    ensures DistinctProducts([l] + rest)
  {
    var s := [l] + rest;
    forall i, j | 0 <= i < j < |s| ensures s[i].productId != s[j].productId {
      if i == 0 {
        assert s[j] == rest[j - 1];
      } else {
        assert s[i] == rest[i - 1] && s[j] == rest[j - 1];
      }
    }
  }

  /** Removing a product keeps the other products' lines distinct. */
  lemma {:induction false} WithoutProductKeepsDistinct(cart: seq<CartLine>, id: int)
    requires DistinctProducts(cart)
    ensures DistinctProducts(WithoutProduct(cart, id))
  {
    if cart != [] {
      var tail := cart[1..];
      var rest := WithoutProduct(tail, id);
      assert DistinctProducts(tail) by {
        forall i, j | 0 <= i < j < |tail| ensures tail[i].productId != tail[j].productId {
          assert tail[i] == cart[i + 1] && tail[j] == cart[j + 1];
        }
      }
      WithoutProductKeepsDistinct(tail, id);
      if cart[0].productId != id {
        WithoutProductMembers(tail, id);
        forall k | 0 <= k < |rest|
          ensures rest[k].productId != cart[0].productId
        {
          assert rest[k] in tail;
          var j :| 0 <= j < |tail| && tail[j] == rest[k];
          assert cart[j + 1] == rest[k];
        }
        DistinctCons(cart[0], rest);
      }
    }
  }

  /** Removing a product keeps every remaining line consistent. */
  lemma WithoutProductKeepsConsistent(cart: seq<CartLine>, id: int)
    requires LinesConsistent(cart)
    ensures LinesConsistent(WithoutProduct(cart, id))
  {
    var r := WithoutProduct(cart, id);
    WithoutProductMembers(cart, id);
    forall k | 0 <= k < |r| ensures LineConsistent(r[k]) {
      assert r[k] in cart;
    }
  }

  /** Removing keeps the cart's invariants. */
  lemma WithoutProductKeepsInvariants(cart: seq<CartLine>, id: int)
    requires DistinctProducts(cart) && LinesConsistent(cart)
    ensures DistinctProducts(WithoutProduct(cart, id)) && LinesConsistent(WithoutProduct(cart, id))
  {
    WithoutProductKeepsDistinct(cart, id);
    WithoutProductKeepsConsistent(cart, id);
  }

  /** In a cart with distinct products, removing a present product drops exactly one line. */
  lemma {:induction false} WithoutPresentProductLength(cart: seq<CartLine>, id: int)
    requires DistinctProducts(cart) && FindLine(cart, id).Some?
    ensures |WithoutProduct(cart, id)| == |cart| - 1
  {
    if cart[0].productId == id {
      assert FindLine(cart[1..], id).None? by {
        forall i | 0 <= i < |cart[1..]| ensures cart[1..][i].productId != id {
          assert cart[1..][i] == cart[i + 1];
        }
      }
    } else {
      WithoutPresentProductLength(cart[1..], id);
    }
  }

  /** Removing a product that was just added gives back the cart it was added to. */
  lemma RemoveUndoesAdd(cart: seq<CartLine>, l: CartLine)
    requires FindLine(cart, l.productId).None?
    ensures WithoutProduct(cart + [l], l.productId) == cart
  {
    WithoutProductConcat(cart, [l], l.productId);
  }

  // ---------------------------------------------------------------------------
  // Preview totals

  /** What one line adds to the grand total: its total plus its tax. */
  function LineAmount(l: CartLine): real
  {
    l.total + l.tax
  }

  /** The reduce step `(acc, item) => acc + item.total + item.tax`, folded from the left. */
  function SumFrom(acc: real, lines: seq<CartLine>): real
    decreases lines
  {
    if lines == [] then acc else SumFrom(acc + LineAmount(lines[0]), lines[1..])
  }

  /** `cart.reduce((acc, item) => acc + item.total + item.tax, 0)`. */
  function GrandTotal(cart: seq<CartLine>): real
  {
    SumFrom(0.0, cart)
  }

  /** The reference sum of line amounts, independent of the order of folding. */
  ghost function Sum(lines: seq<CartLine>): real
  {
    if lines == [] then 0.0 else LineAmount(lines[0]) + Sum(lines[1..])
  }

  lemma {:induction false} SumFromIsSum(acc: real, lines: seq<CartLine>)
    ensures SumFrom(acc, lines) == acc + Sum(lines)
    decreases lines
  {
    if lines != [] {
      SumFromIsSum(acc + LineAmount(lines[0]), lines[1..]);
    }
  }

  lemma {:induction false} SumConcat(a: seq<CartLine>, b: seq<CartLine>)
    ensures Sum(a + b) == Sum(a) + Sum(b)
  {
    if a == [] {
      assert a + b == b;
    } else {
      assert (a + b)[1..] == a[1..] + b;
      SumConcat(a[1..], b);
    }
  }

  /** The grand total is the sum of `total + tax` over the lines, 0 for an empty cart. */
  lemma GrandTotalIsSum(cart: seq<CartLine>)
    ensures GrandTotal(cart) == Sum(cart)
    ensures cart == [] ==> GrandTotal(cart) == 0.0
  {
    SumFromIsSum(0.0, cart);
  }

  /** Appending a line raises the grand total by that line's amount. */
  lemma GrandTotalAppend(cart: seq<CartLine>, l: CartLine)
    ensures GrandTotal(cart + [l]) == GrandTotal(cart) + LineAmount(l)
  {
    GrandTotalIsSum(cart);
    GrandTotalIsSum(cart + [l]);
    SumConcat(cart, [l]);
    assert [l][1..] == [];
  }

  /** In a cart with distinct products, no line before or after line `i` has its product. */
  lemma OnlyLineOfProduct(cart: seq<CartLine>, i: int)
    requires DistinctProducts(cart) && 0 <= i < |cart|
    ensures FindLine(cart[..i], cart[i].productId).None?
    ensures FindLine(cart[i + 1..], cart[i].productId).None?
  {
    var pre, post := cart[..i], cart[i + 1..];
    forall k | 0 <= k < |pre| ensures pre[k].productId != cart[i].productId {
      assert pre[k] == cart[k];
    }
    forall k | 0 <= k < |post| ensures post[k].productId != cart[i].productId {
      assert post[k] == cart[i + 1 + k];
    }
  }

  /** Removing the product of a line from around which nothing else is removed
      leaves the lines around it. */
  lemma WithoutProductSplit(pre: seq<CartLine>, l: CartLine, post: seq<CartLine>)
    requires WithoutProduct(pre, l.productId) == pre && WithoutProduct(post, l.productId) == post
    ensures WithoutProduct(pre + [l] + post, l.productId) == pre + post
  {
    var id := l.productId;
    assert WithoutProduct([l], id) == [] by {
      assert [l][1..] == [];
    }
    WithoutProductConcat(pre, [l], id);
    assert WithoutProduct(pre + [l], id) == pre;
    WithoutProductConcat(pre + [l], post, id);
  }

  /** In a cart with distinct products, removing the product of line `i` leaves
      exactly the lines before and after it. */
  lemma WithoutProductAt(cart: seq<CartLine>, i: int)
    requires DistinctProducts(cart) && 0 <= i < |cart|
    ensures WithoutProduct(cart, cart[i].productId) == cart[..i] + cart[i + 1..]
  {
    var pre, l, post := cart[..i], cart[i], cart[i + 1..];
    OnlyLineOfProduct(cart, i);
    calc {
      WithoutProduct(cart, l.productId);
      { assert cart == pre + [l] + post; }
      WithoutProduct(pre + [l] + post, l.productId);
      { WithoutProductSplit(pre, l, post); }
      pre + post;
    }
  }

  lemma SumAround(pre: seq<CartLine>, l: CartLine, post: seq<CartLine>)
    ensures Sum(pre + [l] + post) == Sum(pre + post) + LineAmount(l)
  {
    SumConcat(pre + [l], post);
    SumConcat(pre, [l]);
    SumConcat(pre, post);
    assert Sum([l]) == LineAmount(l) by {
      assert [l][1..] == [];
    }
  }

  /** Removing the line of product `cart[i].productId` from a cart with distinct
      products lowers the grand total by exactly that line's amount. */
  lemma GrandTotalRemove(cart: seq<CartLine>, i: int)
    requires DistinctProducts(cart) && 0 <= i < |cart|
    ensures GrandTotal(WithoutProduct(cart, cart[i].productId)) == GrandTotal(cart) - LineAmount(cart[i])
  {
    var pre, l, post := cart[..i], cart[i], cart[i + 1..];
    WithoutProductAt(cart, i);
    assert cart == pre + [l] + post;
    GrandTotalIsSum(cart);
    GrandTotalIsSum(pre + post);
    SumAround(pre, l, post);
  }

  /** `grandTotal - discount`. */
  function FinalPayable(cart: seq<CartLine>, discount: real): (r: real)
    ensures discount == 0.0 ==> r == GrandTotal(cart)
    ensures r <= GrandTotal(cart) <==> discount >= 0.0
  {
    GrandTotal(cart) - discount
  }

  // ---------------------------------------------------------------------------
  // Request body

  /** `cart.map(item => ({productId: item.productId, quantity: item.quantity}))`. */
  function Items(cart: seq<CartLine>): (r: seq<ItemRequest>)
    ensures |r| == |cart|
    ensures forall i :: 0 <= i < |r| ==> r[i].productId == cart[i].productId && r[i].quantity == cart[i].quantity
  {
    if cart == [] then [] else [ItemRequest(cart[0].productId, cart[0].quantity)] + Items(cart[1..])
  }

  function BuildRequest(customerId: int, cart: seq<CartLine>, discount: real): (r: InvoiceRequest)
    ensures r.customerId == customerId && r.discount == discount
    ensures |r.items| == |cart|
    ensures forall i :: 0 <= i < |cart| ==> r.items[i] == ItemRequest(cart[i].productId, cart[i].quantity)
  {
    InvoiceRequest(customerId, Items(cart), discount)
  }

  /** A cart with distinct products yields a request naming each product once. */
  lemma RequestProductsDistinct(customerId: int, cart: seq<CartLine>, discount: real)
    requires DistinctProducts(cart)
    ensures var items := BuildRequest(customerId, cart, discount).items;
            forall i, j :: 0 <= i < j < |items| ==> items[i].productId != items[j].productId
  {
  }

  // ---------------------------------------------------------------------------
  // Worked examples

  /** 2 units of a product priced 500 with 18% GST: total 1000, tax 180, 1180 with tax. */
  lemma MouseLineExample()
    ensures var l := NewLine(Product(7, "Mouse", 500.0, 10, 18.0), 2);
            l.total == 1000.0 && l.tax == 180.0 && LineAmount(l) == 1180.0 &&
            GrandTotal([l]) == 1180.0 && FinalPayable([l], 50.0) == 1130.0
  {
    var l := NewLine(Product(7, "Mouse", 500.0, 10, 18.0), 2);
    assert [l][1..] == [];
  }

  /** The body for customer 1, two units of product 7 and a discount of 50. */
  lemma RequestExample()
    ensures var l := NewLine(Product(7, "Mouse", 500.0, 10, 18.0), 2);
            BuildRequest(1, [l], 50.0) == InvoiceRequest(1, [ItemRequest(7, 2)], 50.0)
  {
    var l := NewLine(Product(7, "Mouse", 500.0, 10, 18.0), 2);
    assert [l][1..] == [];
  }
}
