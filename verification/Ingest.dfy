/** The orders/create webhook: the paid gate, the mapping and the handler. */
module Ingest {
  import opened Wrappers
  import opened Sums
  import opened Shopify
  import opened Store
  import opened Sortoi

  // ---------------------------------------------------------------- the paid gate

  predicate IsSpace(c: char) {
    c in {' ', '\t', '\n', '\r'}
  }

  function Trim(s: string): string {
    if s != "" && IsSpace(s[0]) then Trim(s[1..])
    else if s != "" && IsSpace(s[|s| - 1]) then Trim(s[..|s| - 1])
    else s
  }

  function Lower(s: string): string {
    seq(|s|, i requires 0 <= i < |s| => if 'A' <= s[i] <= 'Z' then ((s[i] as int) + 32) as char else s[i])
  }

  predicate IsPaid(status: string) {
    Lower(Trim(status)) in {"paid", "partially_paid"}
  }

  /** m is w, up to the case of its letters. */
  predicate SameLetters(m: string, w: string) {
    |m| == |w| && forall k :: 0 <= k < |m| ==> m[k] == w[k] || ('A' <= m[k] <= 'Z' && (m[k] as int) + 32 == w[k] as int)
  }

  /** Between its i-th and its j-th character s holds w, and around them only space. */
  predicate Pads(s: string, i: int, j: int, w: string) {
    && 0 <= i <= j <= |s| && SameLetters(s[i..j], w)
    && (forall k :: 0 <= k < i ==> s[k] in {' ', '\t', '\n', '\r'}) && (forall k :: j <= k < |s| ==> s[k] in {' ', '\t', '\n', '\r'})
  }

  /** Trimming and lowering make w of a text exactly when the text is w, in any case, with space around it. */
  lemma {:induction false} TrimmedIs(s: string, w: string)
    requires w != "" && (forall k :: 0 <= k < |w| ==> !IsSpace(w[k]) && !('A' <= w[k] <= 'Z'))
    ensures Lower(Trim(s)) == w <==> exists i, j :: Pads(s, i, j, w)
    decreases |s|
  {
    if s != "" && IsSpace(s[0]) {
      TrimmedIs(s[1..], w);
      PadsLeft(s, w);
    } else if s != "" && IsSpace(s[|s| - 1]) {
      TrimmedIs(s[..|s| - 1], w);
      PadsRight(s, s[..|s| - 1], w);
    } else {
      if Lower(s) == w {
        assert s[0..|s|] == s;
        assert forall k :: 0 <= k < |s| ==> Lower(s)[k] == w[k];
        assert Pads(s, 0, |s|, w);
      }
      if exists i, j :: Pads(s, i, j, w) {
        var i, j :| Pads(s, i, j, w);
        assert i == 0 && j == |s| && s[i..j] == s;
        assert Lower(s) == w;
      }
    }
  }

  lemma PadsLeft(s: string, w: string)
    requires s != "" && IsSpace(s[0]) && w != "" && !IsSpace(w[0])
    ensures (exists i, j :: Pads(s[1..], i, j, w)) <==> exists i, j :: Pads(s, i, j, w)
  {
    if i, j :| Pads(s[1..], i, j, w) {
      assert s[1..][i..j] == s[i + 1..j + 1];
      assert Pads(s, i + 1, j + 1, w);
    }
    if i, j :| Pads(s, i, j, w) {
      assert i > 0;
      assert s[1..][i - 1..j - 1] == s[i..j];
      assert Pads(s[1..], i - 1, j - 1, w);
    }
  }

  lemma PadsRight(s: string, init: string, w: string)
    requires s != "" && IsSpace(s[|s| - 1]) && w != "" && !IsSpace(w[|w| - 1]) && init == s[..|s| - 1]
    ensures (exists i, j :: Pads(init, i, j, w)) <==> exists i, j :: Pads(s, i, j, w)
  {
    if i, j :| Pads(init, i, j, w) {
      assert init[i..j] == s[i..j];
      assert Pads(s, i, j, w);
    }
    if i, j :| Pads(s, i, j, w) {
      assert j < |s|;
      assert init[i..j] == s[i..j];
      assert Pads(init, i, j, w);
    }
  }

  /** Paid and partially paid orders pass, whatever the case of the status and the space around it, and no other. */
  lemma PaidMeans(status: string)
    ensures IsPaid(status) <==> exists i, j :: Pads(status, i, j, "paid") || Pads(status, i, j, "partially_paid")
  {
    TrimmedIs(status, "paid");
    TrimmedIs(status, "partially_paid");
  }

  // ---------------------------------------------------------------- mapping

  function Joined(names: seq<string>): string {
    if names == [] then "" else if |names| == 1 then names[0] else names[0] + ", " + Joined(names[1..])
  }

  function ShippingTotal(sls: seq<ShippingLine>): int {
    if sls == [] then 0 else ShippingTotal(sls[..|sls| - 1]) + sls[|sls| - 1].price.OrZero()
  }

  function LineFrom(li: LineItem): Line {
    Line(li.sku, li.quantity, li.price.OrZero(), li.totalDiscount.OrZero(), TaxTotal(li.taxLines))
  }

  function LinesFrom(p: Payload): seq<Line> {
    seq(|p.lineItems|, i requires 0 <= i < |p.lineItems| => LineFrom(p.lineItems[i]))
  }

  function OrderFrom(p: Payload, raw: Payload, now: int): OrderData {
    OrderData(
      p.id, p.name, "WEBS01", p.email, if p.shippingAddress.Some? then p.shippingAddress.value else NO_ADDRESS,
      if p.gateway != "" then p.gateway else Joined(p.gatewayNames), p.totalPrice.OrZero(), ShippingTotal(p.shippingLines),
      raw, if p.createdAt.Some? then p.createdAt.value else now)
  }

  /** The price of the i-th shipping line in pence, and nothing if it does not parse. */
  function ShippingPriceAt(sls: seq<ShippingLine>): int -> int {
    i => if 0 <= i < |sls| && sls[i].price.Pence? then sls[i].price.pence else 0
  }

  lemma {:induction false} ShippingTotalIsSum(sls: seq<ShippingLine>, n: nat)
    requires n <= |sls|
    ensures ShippingTotal(sls[..n]) == Sum(Below(n), ShippingPriceAt(sls))
    decreases n
  {
    if n > 0 {
      ShippingTotalIsSum(sls, n - 1);
      OneMorePrice(sls, n - 1);
      SumBelow(n - 1, ShippingPriceAt(sls));
    }
  }

  lemma OneMorePrice(sls: seq<ShippingLine>, n: nat)
    requires n < |sls|
    ensures ShippingTotal(sls[..n + 1]) == ShippingTotal(sls[..n]) + ShippingPriceAt(sls)(n)
  {
    assert sls[..n + 1][..n] == sls[..n];
  }

  /** Names are separated by a comma and a space, however the list is divided. */
  lemma {:induction false} JoinedParts(p: seq<string>, q: seq<string>)
    requires p != [] && q != []
    ensures Joined(p + q) == Joined(p) + ", " + Joined(q)
    ensures |p| == 1 ==> Joined(p) == p[0]
    decreases |p|
  {
    assert (p + q)[0] == p[0];
    if |p| == 1 {
      assert (p + q)[1..] == q;
    } else {
      assert (p + q)[1..] == p[1..] + q;
      JoinedParts(p[1..], q);
    }
  }

  /** What mapItem keeps of a line item, column by column. */
  predicate Mapped(li: LineItem, l: Line, tax: int) {
    && l.sku == li.sku && l.quantity == li.quantity && l.tax == tax
    && l.unitPrice == (if li.price.Pence? then li.price.pence else 0)
    && l.discount == (if li.totalDiscount.Pence? then li.totalDiscount.pence else 0)
  }

  /**
   raw is the payload kept for buildSORTOI: the request body on the webhook path. Amounts are the payload's own, in pence, and
   0 where one does not parse; a line's tax is the sum of its tax lines, and the shipping amount that of the shipping lines.
   */
  method MapOrder(p: Payload, raw: Payload, now: int) returns (order: OrderData, ls: seq<Line>)
    ensures order == OrderFrom(p, raw, now)
    ensures ls == LinesFrom(p)
    ensures |ls| == |p.lineItems| && forall i :: 0 <= i < |ls| ==>
      Mapped(p.lineItems[i], ls[i], Sum(Below(|p.lineItems[i].taxLines|), TaxAt(p.lineItems[i].taxLines)))
    ensures order.shopifyId == p.id && order.orderNumber == p.name && order.account == "WEBS01" && order.email == p.email && order.raw == raw
    ensures p.shippingAddress.Some? ==> order.address == p.shippingAddress.value
    ensures p.gateway != "" ==> order.paymentReference == p.gateway
    ensures p.gateway == "" && |p.gatewayNames| == 1 ==> order.paymentReference == p.gatewayNames[0]
    ensures order.paymentAmount == if p.totalPrice.Pence? then p.totalPrice.pence else 0
    ensures order.shippingAmount == Sum(Below(|p.shippingLines|), ShippingPriceAt(p.shippingLines))
    ensures order.orderDate == if p.createdAt.Some? then p.createdAt.value else now
  {
    ShippingTotalIsSum(p.shippingLines, |p.shippingLines|);
    LinesAreMapped(p);
    var shippingAmount := 0;
    for i := 0 to |p.shippingLines|
      invariant shippingAmount == ShippingTotal(p.shippingLines[..i])
    {
      if p.shippingLines[i].price.Pence? {
        shippingAmount := shippingAmount + p.shippingLines[i].price.pence;
      }
      assert p.shippingLines[..i + 1][..i] == p.shippingLines[..i];
    }
    assert p.shippingLines[..|p.shippingLines|] == p.shippingLines;
    var address := if p.shippingAddress.Some? then p.shippingAddress.value else NO_ADDRESS;
    var reference := if p.gateway != "" then p.gateway else Joined(p.gatewayNames);
    var date := if p.createdAt.Some? then p.createdAt.value else now;
    order := OrderData(p.id, p.name, "WEBS01", p.email, address, reference, p.totalPrice.OrZero(), shippingAmount, raw, date);
    ls := [];
    for i := 0 to |p.lineItems|
      invariant |ls| == i && forall k :: 0 <= k < i ==> ls[k] == LineFrom(p.lineItems[k])
    {
      var tax := SumTax(p.lineItems[i].taxLines);
      var li := p.lineItems[i];
      ls := ls + [Line(li.sku, li.quantity, li.price.OrZero(), li.totalDiscount.OrZero(), tax)];
    }
  }

  lemma LinesAreMapped(p: Payload)
    ensures forall i :: 0 <= i < |p.lineItems| ==>
      Mapped(p.lineItems[i], LinesFrom(p)[i], Sum(Below(|p.lineItems[i].taxLines|), TaxAt(p.lineItems[i].taxLines)))
  {
    forall i | 0 <= i < |p.lineItems|
      ensures Mapped(p.lineItems[i], LinesFrom(p)[i], Sum(Below(|p.lineItems[i].taxLines|), TaxAt(p.lineItems[i].taxLines)))
    {
      var ts := p.lineItems[i].taxLines;
      TaxTotalIsSum(ts, |ts|);
      assert ts[..|ts|] == ts;
    }
  }

  method SumTax(ts: seq<TaxLine>) returns (total: int)
    ensures total == TaxTotal(ts)
  {
    total := 0;
    for j := 0 to |ts|
      invariant total == TaxTotal(ts[..j])
    {
      if ts[j].price.Pence? {
        total := total + ts[j].price.pence;
      }
      assert ts[..j + 1][..j] == ts[..j];
    }
    assert ts[..|ts|] == ts;
  }

  // ---------------------------------------------------------------- the document of a staged order

  /** Line i of the document carries the SKU and the tax rate of line item i of the payload. */
  lemma RatesBelongToTheirLines(p: Payload, now: int, config: Config, i: int)
    requires 0 <= i < |p.lineItems|
    ensures var line := DocumentOf(OrderFrom(p, p, now), LinesFrom(p), config).lines[i];
      && line.stockCode == p.lineItems[i].sku && line.quantity == p.lineItems[i].quantity
      && line.taxCode == TaxCode(if p.lineItems[i].taxLines == [] then 0.0 else p.lineItems[i].taxLines[0].rate, config.taxCodes)
  {
  }

  /** Through the database as well: whatever the tables hold, the lines read back build the document of the lines staged. */
  lemma StagedOrdersBuildTheirDocument(
      t: Tables, webhookId: WebhookId, topic: string, order: OrderData, ls: seq<Line>, now: int, gap: nat -> nat,
      back: seq<Line>, config: Config)
    requires ValidTables(t)
    requires LinesOf(Inserted(t, webhookId, topic, order, ls, now, gap).lines, t.nextRow, back)
    ensures var row := Inserted(t, webhookId, topic, order, ls, now, gap).rows[t.nextRow];
      DocumentOf(row.order, back, config) == DocumentOf(order, ls, config)
  {
    LinesRoundTrip(t, webhookId, topic, order, ls, now, gap, back);
  }

  // ---------------------------------------------------------------- the webhook handler

  datatype Answer =
    | Ok200 | DuplicateOrder200 | SkippedUnpaid200
    | BadRequest400 | Unauthorized401 | Unprocessable422 | Internal500

  /** A request: its signature check, its webhook id header if present, and its body if it decodes. */
  datatype Request = Request(signed: bool, header: Option<string>, body: Option<Payload>)

  predicate GoodItem(li: LineItem) {
    li.sku != "" && li.quantity > 0 && !(li.price.Pence? && li.price.pence < 0)
  }

  /** The answer given before the webhook id is looked up. */
  function Refused(r: Request): Option<Answer> {
    if !r.signed then Some(Unauthorized401) else if r.header.None? || r.header.value == "" then Some(BadRequest400) else None
  }

  /** The answer that the body earns once its webhook id is known to be new; None means it is to be staged. */
  function Screened(body: Option<Payload>): Option<Answer> {
    if body.None? then Some(BadRequest400)
    else if body.value.id == 0 || body.value.lineItems == [] then Some(Unprocessable422)
    else if !IsPaid(body.value.financialStatus) then Some(SkippedUnpaid200)
    else if exists i :: 0 <= i < |body.value.lineItems| && !GoodItem(body.value.lineItems[i]) then Some(Unprocessable422)
    else None
  }

  function CreateAnswer(r: Result<int, DbError>): Answer {
    match r
    case Ok(_) => Ok200
    case Err(DuplicateWebhook) => Ok200
    case Err(DuplicateOrder) => DuplicateOrder200
    case Err(_) => Internal500
  }

  method Screen(body: Option<Payload>) returns (r: Option<Answer>)
    ensures r == Screened(body)
  {
    if body.None? {
      return Some(BadRequest400);
    }
    var p := body.value;
    if p.id == 0 || |p.lineItems| == 0 {
      return Some(Unprocessable422);
    }
    if !IsPaid(p.financialStatus) {
      return Some(SkippedUnpaid200);
    }
    for i := 0 to |p.lineItems|
      invariant forall k :: 0 <= k < i ==> GoodItem(p.lineItems[k])
    {
      var li := p.lineItems[i];
      if li.sku == "" || li.quantity <= 0 || (li.price.Pence? && li.price.pence < 0) {
        return Some(Unprocessable422);
      }
    }
    r := None;
  }

  /** The request gets as far as CreateOrder. */
  predicate Reaches(r: Request, checkFault: Fault, events: map<WebhookId, string>) {
    Refused(r).None? && checkFault.NoFault? && Delivered(r.header.value) !in events && Screened(r.body).None?
  }

  /** The answer of a request that does not get there. */
  function EarlyAnswer(r: Request, checkFault: Fault, events: map<WebhookId, string>): Answer
    requires !Reaches(r, checkFault, events)
  {
    if Refused(r).Some? then Refused(r).value
    else if !checkFault.NoFault? then Internal500
    else if Delivered(r.header.value) in events then Ok200
    else Screened(r.body).value
  }

  /**
   What one delivery does to the tables and the trigger channel, and what it answers. A request that does not reach
   CreateOrder changes nothing. One that does stages the order unless it is staged already; it answers 200 and sends
   exactly when it saw its own commit.
   */
  ghost predicate Handled(
      t: Tables, token: bool, r: Request, now: int, gap: nat -> nat, checkFault: Fault, createFault: Fault,
      t': Tables, token': bool, answer: Answer) {
    if !Reaches(r, checkFault, t.events) then t' == t && token' == token && answer == EarlyAnswer(r, checkFault, t.events)
    else if createFault.Lost? then t' == t && token' == token && answer == Internal500
    else if Staged(t.rows, r.body.value.id) then
      t' == t.(nextRow := t.nextRow + 1) && token' == token && answer == DuplicateOrder200
    else
      && t' == Inserted(t, Delivered(r.header.value), "orders/create", OrderFrom(r.body.value, r.body.value, now), LinesFrom(r.body.value), now, gap)
      && (if createFault.NoFault? then answer == Ok200 && token' else answer == Internal500 && token' == token)
  }

  /**
   What becomes of a decoded payload under a new webhook id, on its fields. Without an order id or items, or with an item that
   lacks a SKU, has no units or a negative price, it is refused; before the items are looked at, an unpaid order is skipped;
   and what is left is staged with its own content, unless the order is there already or the database fails.
   */
  ghost predicate Weighed(t: Tables, token: bool, p: Payload, fault: Fault, t': Tables, token': bool, answer: Answer) {
    if p.id == 0 || p.lineItems == [] then t' == t && token' == token && answer == Unprocessable422
    else if !IsPaid(p.financialStatus) then t' == t && token' == token && answer == SkippedUnpaid200
    else if exists li :: li in p.lineItems && (li.sku == "" || li.quantity <= 0 || (li.price.Pence? && li.price.pence < 0)) then
      t' == t && token' == token && answer == Unprocessable422
    else if fault.Lost? then t' == t && token' == token && answer == Internal500
    else if exists id :: id in t.rows && t.rows[id].order.shopifyId == p.id then
      && t'.rows == t.rows && t'.lines == t.lines && t'.events == t.events && token' == token && answer == DuplicateOrder200
    else
      && t.nextRow in t'.rows && t'.rows[t.nextRow].order.shopifyId == p.id && t'.rows[t.nextRow].status.Pending?
      && t'.rows == t.rows[t.nextRow := t'.rows[t.nextRow]]
      && (if fault.NoFault? then answer == Ok200 && token' else answer == Internal500 && token' == token)
  }

  lemma EarlyOnFields(r: Request, checkFault: Fault, events: map<WebhookId, string>)
    ensures !r.signed || r.header.None? || r.header.value == "" || !checkFault.NoFault? || Delivered(r.header.value) in events || r.body.None? ==>
      && !Reaches(r, checkFault, events)
      && EarlyAnswer(r, checkFault, events) ==
           if !r.signed then Unauthorized401
           else if r.header.None? || r.header.value == "" then BadRequest400
           else if !checkFault.NoFault? then Internal500
           else if Delivered(r.header.value) in events then Ok200
           else BadRequest400
  {
  }

  lemma HandledOnFields(
      t: Tables, token: bool, r: Request, now: int, gap: nat -> nat, checkFault: Fault, createFault: Fault,
      t': Tables, token': bool, answer: Answer)
    requires Handled(t, token, r, now, gap, checkFault, createFault, t', token', answer)
    requires r.signed && r.header.Some? && r.header.value != "" && checkFault.NoFault? && Delivered(r.header.value) !in t.events && r.body.Some?
    ensures Weighed(t, token, r.body.value, createFault, t', token', answer)
  {
  }

  /** token is the one-slot trigger channel shared with the stock syncer. */
  class Handler {
    const db: Db
    var token: bool

    constructor (db: Db)
      ensures this.db == db && !token
    {
      this.db, token := db, false;
    }

    method HandleOrderCreate(r: Request, now: int, gap: nat -> nat, checkFault: Fault, createFault: Fault) returns (answer: Answer)
      modifies db, this`token
      ensures Handled(old(db.View()), old(token), r, now, gap, checkFault, createFault, db.View(), token, answer)
      ensures !r.signed ==> answer == Unauthorized401 && db.View() == old(db.View()) && token == old(token)
      ensures r.signed && (r.header.None? || r.header.value == "") ==>
        answer == BadRequest400 && db.View() == old(db.View()) && token == old(token)
      ensures r.signed && r.header.Some? && r.header.value != "" ==>
        if !checkFault.NoFault? then answer == Internal500 && db.View() == old(db.View()) && token == old(token)
        else if Delivered(r.header.value) in old(db.events) then
          answer == Ok200 && db.View() == old(db.View()) && token == old(token)
        else if r.body.None? then answer == BadRequest400 && db.View() == old(db.View()) && token == old(token)
        else Weighed(old(db.View()), old(token), r.body.value, createFault, db.View(), token, answer)
    {
      EarlyOnFields(r, checkFault, db.events);
      if Refused(r).Some? {
        return Refused(r).value;
      }
      var webhookId := Delivered(r.header.value);
      var known := db.WebhookExists(webhookId, checkFault);
      if known.Err? {
        return Internal500;
      }
      if known.value {
        return Ok200;
      }
      answer := HandleNew(r, now, gap, checkFault, createFault);
      if r.body.Some? {
        HandledOnFields(old(db.View()), old(token), r, now, gap, checkFault, createFault, db.View(), token, answer);
      }
    }

    /** A request that has not been seen before: screen it, and stage it. */
    method HandleNew(r: Request, now: int, gap: nat -> nat, ghost checkFault: Fault, createFault: Fault) returns (answer: Answer)
      requires Refused(r).None? && checkFault.NoFault? && Delivered(r.header.value) !in db.events
      modifies db, this`token
      ensures Handled(old(db.View()), old(token), r, now, gap, checkFault, createFault, db.View(), token, answer)
    {
      var webhookId := Delivered(r.header.value);
      var screened := Screen(r.body);
      if screened.Some? {
        return screened.value;
      }
      var order, ls := MapOrder(r.body.value, r.body.value, now);
      var created := db.CreateOrder(webhookId, "orders/create", order, ls, now, gap, createFault);
      answer := CreateAnswer(created);
      if created.Ok? {
        // The send does not block: a token already in the channel is enough.
        token := true;
      }
    }
  }
}
