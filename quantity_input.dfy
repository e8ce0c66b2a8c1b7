/** The quantity box of the invoice page holds whatever number the user typed,
    fractions included. `addToCart` prices the line with that raw number but
    records `parseInt` of it as the line's quantity, and only that integer
    quantity is sent to the backend. This module states both versions. */
module QuantityInput {
  import opened InvoiceCart

  /** `parseInt` of the decimal text of a non-negative number: the digits
      before the point. */
  function ParseInt(raw: real): (n: int)
    requires raw >= 0.0
    ensures 0 <= n && n as real <= raw < n as real + 1.0
  {
    raw.Floor
  }

  /** The line built as the page writes it: `total` uses the raw quantity,
      `quantity` its integer part. */
  function LineAsWritten(p: Product, raw: real): (l: CartLine)
    requires raw > 0.0
    ensures l.quantity == ParseInt(raw) && l.total == p.price * raw
  {
    var total := p.price * raw;
    CartLine(p.id, p.name, p.price, p.gstPercentage, ParseInt(raw), total, total * (p.gstPercentage / 100.0))
  }

  /** 2.5 units of a product priced 500: the line is priced for 2.5 units
      (1250) but records and sends quantity 2 (worth 1000). */
  lemma AsWrittenPricesUnsentUnits()
    ensures var l := LineAsWritten(Product(7, "Mouse", 500.0, 10, 18.0), 2.5);
            l.quantity == 2 && l.total == 1250.0 && l.total != l.price * l.quantity as real &&
            !LineConsistent(l)
  {
    assert ParseInt(2.5) == 2;
  }

  /** A typed quantity between 0 and 1 passes the page's `quantity <= 0` guard
      and yields a line of quantity 0 priced for the fraction. */
  lemma AsWrittenAddsZeroQuantity()
    ensures var l := LineAsWritten(Product(7, "Mouse", 500.0, 10, 18.0), 0.5);
            l.quantity == 0 && l.total == 250.0 && !LineConsistent(l)
  {
    assert ParseInt(0.5) == 0;
  }

  /** The intended behaviour: parse the quantity first, refuse a parsed
      quantity of 0, and price exactly what is recorded and sent. */
  function LineFromInput(p: Product, raw: real): (r: Option<CartLine>)
    requires raw > 0.0
    ensures r.None? <==> raw < 1.0
    ensures r.Some? ==> LineConsistent(r.value) && r.value.quantity == ParseInt(raw) &&
                        r.value.total == p.price * ParseInt(raw) as real
  {
    var q := ParseInt(raw);
    if q <= 0 then None else Some(NewLine(p, q))
  }

  /** The page's line agrees with the intended one exactly when the typed
      quantity is a whole number. */
  lemma AsWrittenAgreesOnWholeNumbers(p: Product, raw: real)
    requires raw > 0.0 && p.price != 0.0
    ensures LineFromInput(p, raw) == Some(LineAsWritten(p, raw)) <==> raw == ParseInt(raw) as real
  {
    var n := ParseInt(raw);
    if raw == n as real {
      assert n > 0;
      assert LineFromInput(p, raw) == Some(NewLine(p, n));
      assert NewLine(p, n) == LineAsWritten(p, raw);
    } else if n > 0 {
      assert raw - n as real > 0.0;
      NonZeroProduct(p.price, raw - n as real);
      assert LineFromInput(p, raw).value.total != LineAsWritten(p, raw).total;
    }
  }

  lemma NonZeroProduct(a: real, b: real)
    requires a != 0.0 && b != 0.0
    ensures a * b != 0.0
  {
  }
}
