/** The SORTOI order document: net prices, tax codes and freight, and how SYSPRO's answer is read. */
module Sortoi {
  import opened Wrappers
  import opened Sums
  import opened Shopify
  import opened Store

  // ---------------------------------------------------------------- the document

  /** price is in pence per unit. */
  datatype StockLine = StockLine(poLine: int, stockCode: string, warehouse: string, quantity: int, price: int, taxCode: string)

  datatype Header = Header(
    poNumber: string, customer: string, orderDate: int, email: string, shippingInstrs: string, shippingInstrsCod: string,
    address1: string, address2: string, city: string, province: string, country: string, postcode: string)

  datatype Document = Document(header: Header, lines: seq<StockLine>, freight: Option<int>)

  datatype Config = Config(warehouse: string, taxCodes: map<real, string>)

  function Truncate(s: string, n: nat): string {
    if |s| <= n then s else s[..n]
  }

  // ---------------------------------------------------------------- reading the raw payload

  function TaxTotal(ts: seq<TaxLine>): int {
    if ts == [] then 0 else TaxTotal(ts[..|ts| - 1]) + ts[|ts| - 1].price.OrZero()
  }

  function ShippingTax(sls: seq<ShippingLine>): int {
    if sls == [] then 0 else ShippingTax(sls[..|sls| - 1]) + TaxTotal(sls[|sls| - 1].taxLines)
  }

  /** The i-th tax line's amount: the pence of its price, and nothing if that does not parse. */
  function TaxAt(ts: seq<TaxLine>): int -> int {
    i => if 0 <= i < |ts| && ts[i].price.Pence? then ts[i].price.pence else 0
  }

  /** All the tax on the i-th shipping line. */
  ghost function ShippingTaxAt(sls: seq<ShippingLine>): int -> int {
    i => if 0 <= i < |sls| then Sum(Below(|sls[i].taxLines|), TaxAt(sls[i].taxLines)) else 0
  }

  lemma {:induction false} TaxTotalIsSum(ts: seq<TaxLine>, n: nat)
    requires n <= |ts|
    ensures TaxTotal(ts[..n]) == Sum(Below(n), TaxAt(ts))
    decreases n
  {
    if n > 0 {
      TaxTotalIsSum(ts, n - 1);
      OneMoreTaxLine(ts, n - 1);
      SumBelow(n - 1, TaxAt(ts));
    }
  }

  lemma {:induction false} ShippingTaxIsSum(sls: seq<ShippingLine>, n: nat)
    requires n <= |sls|
    ensures ShippingTax(sls[..n]) == Sum(Below(n), ShippingTaxAt(sls))
    decreases n
  {
    if n > 0 {
      ShippingTaxIsSum(sls, n - 1);
      OneMoreShippingLine(sls, n - 1);
      SumBelow(n - 1, ShippingTaxAt(sls));
    }
  }

  lemma OneMoreTaxLine(ts: seq<TaxLine>, n: nat)
    requires n < |ts|
    ensures TaxTotal(ts[..n + 1]) == TaxTotal(ts[..n]) + TaxAt(ts)(n)
  {
    assert ts[..n + 1][..n] == ts[..n];
  }

  lemma OneMoreShippingLine(sls: seq<ShippingLine>, n: nat)
    requires n < |sls|
    ensures ShippingTax(sls[..n + 1]) == ShippingTax(sls[..n]) + ShippingTaxAt(sls)(n)
  {
    assert sls[..n + 1][..n] == sls[..n];
    var ts := sls[n].taxLines;
    TaxTotalIsSum(ts, |ts|);
    assert ts[..|ts|] == ts;
  }

  /** Every parsable amount of every tax line of every shipping line, once. */
  method ExtractShippingTax(raw: Payload) returns (total: int)
    ensures total == ShippingTax(raw.shippingLines)
    ensures total == Sum(Below(|raw.shippingLines|), ShippingTaxAt(raw.shippingLines))
  {
    total := 0;
    var sls := raw.shippingLines;
    for i := 0 to |sls|
      invariant total == ShippingTax(sls[..i])
    {
      var ts := sls[i].taxLines;
      for j := 0 to |ts|
        invariant total == ShippingTax(sls[..i]) + TaxTotal(ts[..j])
      {
        if ts[j].price.Pence? {
          total := total + ts[j].price.pence;
        }
        assert ts[..j + 1][..j] == ts[..j];
      }
      assert ts[..|ts|] == ts;
      assert sls[..i + 1][..i] == sls[..i];
    }
    assert sls[..|sls|] == sls;
    ShippingTaxIsSum(sls, |sls|);
  }

  /** The rate of the first tax line of each item; an item without tax lines has no entry. */
  method ExtractLineRates(raw: Payload) returns (rates: map<int, real>)
    ensures forall i :: i in rates <==> 0 <= i < |raw.lineItems| && raw.lineItems[i].taxLines != []
    ensures forall i :: i in rates ==> rates[i] == raw.lineItems[i].taxLines[0].rate
  {
    rates := map[];
    for i := 0 to |raw.lineItems|
      invariant forall j :: j in rates <==> 0 <= j < i && raw.lineItems[j].taxLines != []
      invariant forall j :: j in rates ==> rates[j] == raw.lineItems[j].taxLines[0].rate
    {
      if |raw.lineItems[i].taxLines| > 0 {
        rates := rates[i := raw.lineItems[i].taxLines[0].rate];
      }
    }
  }

  /** lineRates[i]: a missing entry reads as 0. */
  function LineRate(raw: Payload, i: int): real {
    if 0 <= i < |raw.lineItems| && raw.lineItems[i].taxLines != [] then raw.lineItems[i].taxLines[0].rate else 0.0
  }

  function TaxCode(rate: real, codes: map<real, string>): string {
    if rate in codes then codes[rate]
    else if 0.195 <= rate <= 0.205 then "A"
    else if 0.045 <= rate <= 0.055 then "B"
    else if rate < 0.005 then "Z"
    else ""
  }

  function ShippingTitle(raw: Payload): string {
    if raw.shippingLines == [] then "" else raw.shippingLines[0].title
  }

  function ShippingCode(raw: Payload): string {
    if raw.shippingLines == [] then ""
    else if raw.shippingLines[0].carrierIdentifier != "" then raw.shippingLines[0].carrierIdentifier
    else raw.shippingLines[0].code
  }

  // ---------------------------------------------------------------- prices

  /** num/den to the nearest integer, ties to even: the %.2f of an exact amount of pence. */
  function Rounded(num: int, den: int): int
    requires den > 0
  {
    var q, r := num / den, num % den;
    if 2 * r < den || (2 * r == den && q % 2 == 0) then q else q + 1
  }

  /** Rounded is a nearest integer, an even one when two are as near, and it is exact exactly when den divides num. */
  lemma RoundedIsNearest(num: int, den: int)
    requires den > 0
    ensures -den <= 2 * (den * Rounded(num, den) - num) <= den
    ensures 2 * (den * Rounded(num, den) - num) in {-den, den} ==> Rounded(num, den) % 2 == 0
    ensures den * Rounded(num, den) == num <==> num % den == 0
  {
    var q, r := num / den, num % den;
    assert num == den * q + r;
    assert den * (q + 1) == den * q + den;
  }

  /** What a unit costs net: a line without units carries no deduction. */
  function NetPrice(l: Line, taxesIncluded: bool): int {
    if l.quantity <= 0 then l.unitPrice
    else
      Rounded(
        l.quantity * l.unitPrice - (if l.discount > 0 then l.discount else 0) - (if taxesIncluded && l.tax > 0 then l.tax else 0), l.quantity)
  }

  /** t is s, or as much of its beginning as n characters hold. */
  predicate CutTo(t: string, s: string, n: nat) {
    t <= s && |t| <= n && (t == s || |t| == n)
  }

  function HeaderOf(order: OrderData): Header {
    Header(
      Truncate(order.orderNumber, 30), order.account, order.orderDate, Truncate(order.email, 80),
      Truncate(ShippingTitle(order.raw), 30), Truncate(ShippingCode(order.raw), 10),
      Truncate(order.address.address1, 40), Truncate(order.address.address2, 40), Truncate(order.address.city, 40),
      Truncate(order.address.province, 40), Truncate(order.address.country, 40), Truncate(order.address.zip, 15))
  }

  function LineOf(order: OrderData, ls: seq<Line>, i: int, config: Config): StockLine
    requires 0 <= i < |ls|
  {
    StockLine(i + 1, ls[i].sku, config.warehouse, ls[i].quantity, NetPrice(ls[i], order.raw.taxesIncluded),
              TaxCode(LineRate(order.raw, i), config.taxCodes))
  }

  function FreightOf(order: OrderData): Option<int> {
    if order.shippingAmount <= 0 then None
    else if order.raw.taxesIncluded then Some(order.shippingAmount - ShippingTax(order.raw.shippingLines))
    else Some(order.shippingAmount)
  }

  function DocumentOf(order: OrderData, ls: seq<Line>, config: Config): Document {
    Document(HeaderOf(order), seq(|ls|, i requires 0 <= i < |ls| => LineOf(order, ls, i, config)), FreightOf(order))
  }

  /**
   On the columns of the order: line i is line i of the order, at a price per unit that is within half a penny of its value
   less its discount and, if the shop's prices include it, its tax; its tax code is the configured one of the rate of the
   payload's item i, else the standard one; header fields are cut to SYSPRO's lengths.
   */
  method BuildSORTOI(order: OrderData, ls: seq<Line>, config: Config) returns (doc: Document)
    ensures doc == DocumentOf(order, ls, config)
    ensures |doc.lines| == |ls|
    ensures forall i :: 0 <= i < |ls| ==>
      var l, line := ls[i], doc.lines[i];
      && line.poLine == i + 1 && line.stockCode == l.sku && line.warehouse == config.warehouse && line.quantity == l.quantity
      && (l.quantity <= 0 ==> line.price == l.unitPrice)
    ensures forall i :: 0 <= i < |ls| && ls[i].quantity > 0 ==> PriceIsNear(ls[i], order.raw.taxesIncluded, doc.lines[i].price)
    ensures forall i :: 0 <= i < |ls| ==>
      var items, code := order.raw.lineItems, doc.lines[i].taxCode;
      var rate := if i < |items| && items[i].taxLines != [] then items[i].taxLines[0].rate else 0.0;
      if rate in config.taxCodes then code == config.taxCodes[rate]
      else
        && (code == "A" <==> 0.195 <= rate <= 0.205) && (code == "B" <==> 0.045 <= rate <= 0.055)
        && (code == "Z" <==> rate < 0.005) && code in {"A", "B", "Z", ""}
    ensures var h, a := doc.header, order.address;
      && h.customer == order.account && h.orderDate == order.orderDate
      && CutTo(h.poNumber, order.orderNumber, 30) && CutTo(h.email, order.email, 80)
      && CutTo(h.address1, a.address1, 40) && CutTo(h.address2, a.address2, 40) && CutTo(h.city, a.city, 40)
      && CutTo(h.province, a.province, 40) && CutTo(h.country, a.country, 40) && CutTo(h.postcode, a.zip, 15)
    ensures var h, sls := doc.header, order.raw.shippingLines;
      if sls == [] then h.shippingInstrs == "" && h.shippingInstrsCod == ""
      else
        && CutTo(h.shippingInstrs, sls[0].title, 30)
        && CutTo(h.shippingInstrsCod, if sls[0].carrierIdentifier != "" then sls[0].carrierIdentifier else sls[0].code, 10)
  {
    var stockLines := BuildLines(order, ls, config);
    var freight := None;
    if order.shippingAmount > 0 {
      var freightNet := order.shippingAmount;
      if order.raw.taxesIncluded {
        var tax := ExtractShippingTax(order.raw);
        freightNet := freightNet - tax;
      }
      freight := Some(freightNet);
    }
    doc := Document(HeaderOf(order), stockLines, freight);
    PricesAreNear(order, ls, config);
  }

  /** The loop over the lines. */
  method BuildLines(order: OrderData, ls: seq<Line>, config: Config) returns (stockLines: seq<StockLine>)
    ensures stockLines == DocumentOf(order, ls, config).lines
  {
    var taxesIncluded := order.raw.taxesIncluded;
    var lineRates := ExtractLineRates(order.raw);
    stockLines := [];
    for i := 0 to |ls|
      invariant |stockLines| == i && forall k :: 0 <= k < i ==> stockLines[k] == LineOf(order, ls, k, config)
    {
      var l := ls[i];
      // netPrice is the exact fraction num/den.
      var den := if l.quantity > 0 then l.quantity else 1;
      var num := den * l.unitPrice;
      if l.discount > 0 && l.quantity > 0 {
        num := num - l.discount;
      }
      if taxesIncluded && l.tax > 0 && l.quantity > 0 {
        num := num - l.tax;
      }
      var price := Rounded(num, den);
      if l.quantity <= 0 {
        RoundedIsNearest(num, den);
      }
      var rate := if i in lineRates then lineRates[i] else 0.0;
      stockLines := stockLines + [StockLine(i + 1, l.sku, config.warehouse, l.quantity, price, TaxCode(rate, config.taxCodes))];
    }
  }

  /** The units of one SKU that a document orders. */
  function OrderedUnits(lines: seq<StockLine>, sku: string): int {
    if lines == [] then 0
    else OrderedUnits(lines[..|lines| - 1], sku) + (if lines[|lines| - 1].stockCode == sku then lines[|lines| - 1].quantity else 0)
  }

  /** A document orders what the order's lines order, SKU by SKU. */
  lemma {:induction false} DocumentOrdersItsLines(order: OrderData, ls: seq<Line>, config: Config, sku: string)
    ensures OrderedUnits(DocumentOf(order, ls, config).lines, sku) == QuantityOf(ls, sku)
    decreases |ls|
  {
    if ls != [] {
      var n := |ls| - 1;
      DocumentOrdersItsLines(order, ls[..n], config, sku);
      assert DocumentOf(order, ls, config).lines[..n] == DocumentOf(order, ls[..n], config).lines;
    }
  }

  // ---------------------------------------------------------------- the money bound

  /** What SYSPRO charges for the document's lines: quantity times price. */
  function Charged(lines: seq<StockLine>): int {
    if lines == [] then 0 else Charged(lines[..|lines| - 1]) + lines[|lines| - 1].quantity * lines[|lines| - 1].price
  }

  /** What the lines come to: each line's gross value less its discount and its tax, where prices include it. */
  function Owed(ls: seq<Line>, taxesIncluded: bool): int {
    if ls == [] then 0
    else
      var l := ls[|ls| - 1];
      Owed(ls[..|ls| - 1], taxesIncluded) + l.quantity * l.unitPrice
        - (if l.quantity > 0 && l.discount > 0 then l.discount else 0)
        - (if l.quantity > 0 && l.tax > 0 && taxesIncluded then l.tax else 0)
  }

  function Units(ls: seq<Line>): int {
    if ls == [] then 0 else Units(ls[..|ls| - 1]) + (if ls[|ls| - 1].quantity > 0 then ls[|ls| - 1].quantity else 0)
  }

  /** Within half a penny a unit, and exact exactly when the quantity divides the deduction. */
  predicate PriceIsNear(l: Line, taxesIncluded: bool, price: int)
    requires l.quantity > 0
  {
    var off := (if l.discount > 0 then l.discount else 0) + (if taxesIncluded && l.tax > 0 then l.tax else 0);
    && -l.quantity <= 2 * (l.quantity * price - (l.quantity * l.unitPrice - off)) <= l.quantity
    && (l.quantity * price == l.quantity * l.unitPrice - off <==> off % l.quantity == 0)
  }

  /**
   Line i of the document, on the order's columns: it is off by at most half a penny a unit, and it is exact exactly when its
   quantity divides what is taken off.
   */
  lemma LineError(order: OrderData, ls: seq<Line>, config: Config, i: int)
    requires 0 <= i < |ls|
    ensures var l, q, price := ls[i], ls[i].quantity, DocumentOf(order, ls, config).lines[i].price;
      var off := (if l.discount > 0 then l.discount else 0) + (if order.raw.taxesIncluded && l.tax > 0 then l.tax else 0);
      if q > 0 then
        && -q <= 2 * (q * price - (q * l.unitPrice - off)) <= q
        && (q * price == q * l.unitPrice - off <==> off % q == 0)
      else price == l.unitPrice
  {
    var l := ls[i];
    if l.quantity > 0 {
      var off := (if l.discount > 0 then l.discount else 0) + (if order.raw.taxesIncluded && l.tax > 0 then l.tax else 0);
      RoundedIsNearest(l.quantity * l.unitPrice - off, l.quantity);
      RemainderOfDifference(l.unitPrice, off, l.quantity);
    }
  }

  lemma PricesAreNear(order: OrderData, ls: seq<Line>, config: Config)
    ensures forall i :: 0 <= i < |ls| && ls[i].quantity > 0 ==>
      PriceIsNear(ls[i], order.raw.taxesIncluded, DocumentOf(order, ls, config).lines[i].price)
  {
    forall i | 0 <= i < |ls| && ls[i].quantity > 0
      ensures PriceIsNear(ls[i], order.raw.taxesIncluded, DocumentOf(order, ls, config).lines[i].price)
    {
      LineError(order, ls, config, i);
    }
  }

  lemma RemainderOfDifference(u: int, d: int, q: int)
    requires q > 0
    ensures (q * u - d) % q == 0 <==> d % q == 0
  {
    var a := d / q;
    assert d == q * a + d % q;
    if d % q == 0 {
      MultipleHasNoRemainder(u - a, q);
      assert q * u - d == q * (u - a) by { Distribute(q, u, a); }
    }
    if (q * u - d) % q == 0 {
      var b := (q * u - d) / q;
      assert q * u - d == q * b;
      MultipleHasNoRemainder(u - b, q);
      assert d == q * (u - b) by { Distribute(q, u, b); }
    }
  }

  lemma Distribute(q: int, x: int, y: int)
    ensures q * (x - y) == q * x - q * y
  {
  }

  lemma MultipleHasNoRemainder(k: int, q: int)
    requires q > 0
    ensures (q * k) % q == 0
  {
    var r, m := (q * k) % q, (q * k) / q;
    assert q * k == q * m + r;
    assert r == q * (k - m) by { Distribute(q, k, m); }
    MultipleIsLarge(k - m, q);
  }

  lemma MultipleIsLarge(x: int, q: int)
    requires q > 0
    ensures x >= 1 ==> q * x >= q
    ensures x <= -1 ==> q * x <= -q
  {
  }

  /** The quantity divides what is taken off the line. */
  predicate ComesOut(l: Line, taxesIncluded: bool) {
    l.quantity > 0 ==>
      ((if l.discount > 0 then l.discount else 0) + (if taxesIncluded && l.tax > 0 then l.tax else 0)) % l.quantity == 0
  }

  /**
   Over any order, what SYSPRO charges differs from what the lines come to by at most half a penny per unit, it does not
   differ when every quantity divides its deduction, and the freight is the exact shipping amount net of included tax.
   */
  lemma MoneyBound(order: OrderData, ls: seq<Line>, config: Config)
    ensures var t := order.raw.taxesIncluded;
      && -Units(ls) <= 2 * (Charged(DocumentOf(order, ls, config).lines) - Owed(ls, t)) <= Units(ls)
      && ((forall l :: l in ls ==> ComesOut(l, t)) ==> Charged(DocumentOf(order, ls, config).lines) == Owed(ls, t))
    ensures DocumentOf(order, ls, config).freight.Some? <==> order.shippingAmount > 0
    ensures DocumentOf(order, ls, config).freight.Some? ==>
      DocumentOf(order, ls, config).freight.value
        + (if order.raw.taxesIncluded then Sum(Below(|order.raw.shippingLines|), ShippingTaxAt(order.raw.shippingLines)) else 0)
        == order.shippingAmount
  {
    LinesBound(order, ls, config);
    var sls := order.raw.shippingLines;
    ShippingTaxIsSum(sls, |sls|);
    assert sls[..|sls|] == sls;
  }

  lemma {:induction false} LinesBound(order: OrderData, ls: seq<Line>, config: Config)
    ensures var t := order.raw.taxesIncluded;
      && -Units(ls) <= 2 * (Charged(DocumentOf(order, ls, config).lines) - Owed(ls, t)) <= Units(ls)
      && ((forall l :: l in ls ==> ComesOut(l, t)) ==> Charged(DocumentOf(order, ls, config).lines) == Owed(ls, t))
    decreases |ls|
  {
    if ls != [] {
      var n := |ls| - 1;
      LinesBound(order, ls[..n], config);
      LineError(order, ls, config, n);
      var whole, init := DocumentOf(order, ls, config).lines, DocumentOf(order, ls[..n], config).lines;
      assert whole[..n] == init;
      assert ls[n] in ls;
    }
  }

  // ---------------------------------------------------------------- the answer

  /** The decoded response of a SORTOI import, or text that is not XML. */
  datatype Response =
    | Malformed
    | Response(salesOrder: string, customerPoNumber: string, itemsProcessed: string, itemsInvalid: string)

  /** How the batch processor sees one submission. InfraError is a Go error, Rejected a business error. */
  datatype Reply = InfraError(message: string) | Rejected(message: string) | Accepted(number: string)

  function ParseResponse(r: Response): Reply {
    match r
    case Malformed => InfraError("parsing SORTOI response XML")
    case Response(number, po, processed, invalid) =>
      if number != "" then Accepted(number)
      else if po != "" then Rejected("SYSPRO import failed: order rejected (processed: " + processed + ", invalid: " + invalid + ")")
      else if processed != "" && processed != "000000" then Accepted("")
      else Rejected("SYSPRO import failed: no items processed (processed: " + processed + ")")
  }

  /** An order counts as accepted without a number exactly for a clean import: no Order element and some items processed. */
  lemma AcceptedWithoutNumber(r: Response)
    ensures ParseResponse(r) == Accepted("") <==>
      r.Response? && r.salesOrder == "" && r.customerPoNumber == "" && r.itemsProcessed !in {"", "000000"}
    ensures ParseResponse(r).InfraError? <==> r.Malformed?
  {
  }
}
