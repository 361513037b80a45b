/** The reconciliation sweeper: its own decoding and mapping of listed orders, and the sweep. */
module Reconcile {
  import opened Wrappers
  import opened Sums
  import opened Shopify
  import opened Store
  import opened Sortoi
  import opened Ingest

  // ---------------------------------------------------------------- decoding

  datatype SweptItem = SweptItem(sku: string, quantity: int, price: Money, totalDiscount: Money, taxLines: seq<TaxLine>)

  /** Shopify's code and carrier identifier have no field here. */
  datatype SweptShipping = SweptShipping(title: string, price: Money, taxLines: seq<TaxLine>)

  datatype SweptOrder = SweptOrder(
    id: int, name: string, email: string, createdAt: Option<int>, totalPrice: Money,
    financialStatus: string, taxesIncluded: bool, gateway: string, gatewayNames: seq<string>,
    shippingAddress: Option<Address>, lineItems: seq<SweptItem>, shippingLines: seq<SweptShipping>)

  /** What the sweeper keeps of an order that orders.json lists. */
  function Decoded(p: Payload): SweptOrder {
    SweptOrder(
      p.id, p.name, p.email, p.createdAt, p.totalPrice, p.financialStatus, p.taxesIncluded, p.gateway, p.gatewayNames, p.shippingAddress,
      seq(|p.lineItems|, i requires 0 <= i < |p.lineItems| =>
        SweptItem(p.lineItems[i].sku, p.lineItems[i].quantity, p.lineItems[i].price, p.lineItems[i].totalDiscount, p.lineItems[i].taxLines)),
      seq(|p.shippingLines|, i requires 0 <= i < |p.shippingLines| =>
        SweptShipping(p.shippingLines[i].title, p.shippingLines[i].price, p.shippingLines[i].taxLines)))
  }

  /** The raw payload that toDomain marshals, as the SORTOI builder reads it back: a field it does not have reads as empty. */
  function Reencoded(so: SweptOrder): Payload {
    Payload(
      so.id, so.name, so.email, so.createdAt, so.totalPrice, so.financialStatus, so.taxesIncluded, so.gateway, so.gatewayNames, so.shippingAddress,
      seq(|so.lineItems|, i requires 0 <= i < |so.lineItems| =>
        LineItem(so.lineItems[i].sku, so.lineItems[i].quantity, so.lineItems[i].price, so.lineItems[i].totalDiscount, so.lineItems[i].taxLines)),
      seq(|so.shippingLines|, i requires 0 <= i < |so.shippingLines| =>
        ShippingLine(so.shippingLines[i].title, "", "", so.shippingLines[i].price, so.shippingLines[i].taxLines)))
  }

  // ---------------------------------------------------------------- mapping

  function SweptShippingTotal(sls: seq<SweptShipping>): int {
    if sls == [] then 0 else SweptShippingTotal(sls[..|sls| - 1]) + sls[|sls| - 1].price.OrZero()
  }

  function SweptLine(li: SweptItem): Line {
    Line(li.sku, li.quantity, li.price.OrZero(), li.totalDiscount.OrZero(), TaxTotal(li.taxLines))
  }

  function SweptLines(so: SweptOrder): seq<Line> {
    seq(|so.lineItems|, i requires 0 <= i < |so.lineItems| => SweptLine(so.lineItems[i]))
  }

  function SweptData(so: SweptOrder, now: int): OrderData {
    OrderData(
      so.id, so.name, "WEBS01", so.email, if so.shippingAddress.Some? then so.shippingAddress.value else NO_ADDRESS,
      if so.gateway != "" then so.gateway else Joined(so.gatewayNames), so.totalPrice.OrZero(), SweptShippingTotal(so.shippingLines),
      Reencoded(so), if so.createdAt.Some? then so.createdAt.value else now)
  }

  method ToDomain(so: SweptOrder, now: int) returns (order: OrderData, ls: seq<Line>)
    ensures order == SweptData(so, now) && ls == SweptLines(so)
  {
    var raw := Reencoded(so);
    var reference := "";
    if so.gateway != "" {
      reference := so.gateway;
    } else if |so.gatewayNames| > 0 {
      reference := Joined(so.gatewayNames);
    }
    var amount := 0;
    if so.totalPrice.Pence? {
      amount := so.totalPrice.pence;
    }
    var date := now;
    if so.createdAt.Some? {
      date := so.createdAt.value;
    }
    var address := NO_ADDRESS;
    if so.shippingAddress.Some? {
      address := so.shippingAddress.value;
    }
    var shippingAmount := 0;
    for i := 0 to |so.shippingLines|
      invariant shippingAmount == SweptShippingTotal(so.shippingLines[..i])
    {
      assert so.shippingLines[..i + 1][..i] == so.shippingLines[..i];
      if so.shippingLines[i].price.Pence? {
        shippingAmount := shippingAmount + so.shippingLines[i].price.pence;
      }
    }
    assert so.shippingLines[..|so.shippingLines|] == so.shippingLines;
    order := OrderData(so.id, so.name, "WEBS01", so.email, address, reference, amount, shippingAmount, raw, date);
    ls := MapItems(so.lineItems);
  }

  method MapItems(items: seq<SweptItem>) returns (ls: seq<Line>)
    ensures |ls| == |items| && forall k :: 0 <= k < |items| ==> ls[k] == SweptLine(items[k])
  {
    ls := [];
    for i := 0 to |items|
      invariant |ls| == i && forall k :: 0 <= k < i ==> ls[k] == SweptLine(items[k])
    {
      var line := Line(items[i].sku, items[i].quantity, 0, 0, 0);
      if items[i].price.Pence? {
        line := line.(unitPrice := items[i].price.pence);
      }
      if items[i].totalDiscount.Pence? {
        line := line.(discount := items[i].totalDiscount.pence);
      }
      var ts := items[i].taxLines;
      for j := 0 to |ts|
        invariant line == Line(items[i].sku, items[i].quantity, items[i].price.OrZero(), items[i].totalDiscount.OrZero(), TaxTotal(ts[..j]))
      {
        assert ts[..j + 1][..j] == ts[..j];
        if ts[j].price.Pence? {
          line := line.(tax := line.tax + ts[j].price.pence);
        }
      }
      assert ts[..|ts|] == ts;
      ls := ls + [line];
    }
  }

  // ---------------------------------------------------------------- the two paths agree

  lemma {:induction false} ShippingTotalsAgree(p: Payload, n: nat)
    requires n <= |p.shippingLines|
    ensures SweptShippingTotal(Decoded(p).shippingLines[..n]) == ShippingTotal(p.shippingLines[..n])
    ensures ShippingTax(Reencoded(Decoded(p)).shippingLines[..n]) == ShippingTax(p.shippingLines[..n])
    decreases n
  {
    if n > 0 {
      ShippingTotalsAgree(p, n - 1);
      var swept, raw := Decoded(p).shippingLines, Reencoded(Decoded(p)).shippingLines;
      assert swept[..n][..n - 1] == swept[..n - 1] && raw[..n][..n - 1] == raw[..n - 1];
      assert p.shippingLines[..n][..n - 1] == p.shippingLines[..n - 1];
    }
  }

  lemma RatesAgree(p: Payload, i: int)
    ensures LineRate(Reencoded(Decoded(p)), i) == LineRate(p, i)
  {
  }

  /** The same lines are stored on both paths, and rows that differ only in the raw payload and in a clock fallback for the date. */
  lemma PathsStageTheSameOrder(p: Payload, webhookNow: int, sweepNow: int)
    ensures SweptLines(Decoded(p)) == LinesFrom(p)
    ensures var w, s := OrderFrom(p, p, webhookNow), SweptData(Decoded(p), sweepNow);
      && s == w.(raw := s.raw, orderDate := s.orderDate)
      && (s.orderDate == w.orderDate <==> p.createdAt.Some? || webhookNow == sweepNow)
  {
    ShippingTotalsAgree(p, |p.shippingLines|);
    var swept := Decoded(p).shippingLines;
    assert p.shippingLines[..|p.shippingLines|] == p.shippingLines && swept[..|swept|] == swept;
  }

  /**
   For every payload, staging through the sweeper and building SORTOI gives the same stock lines, prices, tax codes and
   freight as staging through the webhook. The headers agree too exactly when the order names no carrier code, because the
   sweeper has no field for it, and when the order date does not fall back to two different clock readings.
   */
  lemma PathsBuildTheSameDocument(p: Payload, webhookNow: int, sweepNow: int, config: Config)
    ensures var w := DocumentOf(OrderFrom(p, p, webhookNow), LinesFrom(p), config);
      var s := DocumentOf(SweptData(Decoded(p), sweepNow), SweptLines(Decoded(p)), config);
      && w.lines == s.lines && w.freight == s.freight
      && (w.header == s.header <==> ShippingCode(p) == "" && (p.createdAt.Some? || webhookNow == sweepNow))
      && s.header == w.header.(shippingInstrsCod := "", orderDate := s.header.orderDate)
  {
    var raw := Reencoded(Decoded(p));
    PathsStageTheSameOrder(p, webhookNow, sweepNow);
    ShippingTotalsAgree(p, |p.shippingLines|);
    assert p.shippingLines[..|p.shippingLines|] == p.shippingLines && raw.shippingLines[..|raw.shippingLines|] == raw.shippingLines;
    assert ShippingTitle(raw) == ShippingTitle(p) && ShippingCode(raw) == "";
    assert Truncate(ShippingCode(p), 10) == "" <==> ShippingCode(p) == "";
    forall i ensures LineRate(raw, i) == LineRate(p, i) {
      RatesAgree(p, i);
    }
  }

  /** What the webhook demands of a paid order before it stages it. The sweeper demands none of it. */
  predicate Acceptable(p: Payload) {
    p.id != 0 && p.lineItems != [] && forall i :: 0 <= i < |p.lineItems| ==> GoodItem(p.lineItems[i])
  }

  /**
   Where the paths part: for a paid listed order that is missing, a sweep stages it in any tables, whereas its webhook
   stages it if and only if the order has an id and items, and every item has a SKU, a positive quantity and no negative price.
   */
  lemma SweepStagesWhatTheWebhookRefuses(t: Tables, p: Payload, e: SweepEnv, header: string, webhookNow: int)
    requires IsPaid(p.financialStatus) && e.fault.NoFault? && !Staged(t.rows, p.id)
    requires Reconciled(p.id, e.second) !in t.events && Delivered(header) !in t.events && header != ""
    ensures Staged(AfterStaging(t, Decoded(p), e).rows, p.id)
    ensures Reaches(Request(true, Some(header), Some(p)), NoFault, t.events) <==> Acceptable(p)
    ensures !Acceptable(p) ==> Screened(Some(p)) == Some(Unprocessable422)
  {
    var t' := AfterStaging(t, Decoded(p), e);
    assert t'.rows[t.nextRow].order.shopifyId == p.id;
  }

  // ---------------------------------------------------------------- the sweep

  /** What happens while one listed order is staged. */
  datatype SweepEnv = SweepEnv(now: int, second: int, gap: nat -> nat, fault: Fault)

  datatype Counts = Counts(alreadyPresent: nat, skippedUnpaid: nat, staged: nat)

  /** What staging one order does to the tables. */
  ghost function AfterStaging(t: Tables, p: SweptOrder, e: SweepEnv): Tables {
    Created(t, Reconciled(p.id, e.second), "orders/reconcile", SweptData(p, e.now), SweptLines(p), e.now, e.gap, e.fault)
  }

  ghost predicate Missing(p: SweptOrder, known: set<int>) {
    p.id !in known && IsPaid(p.financialStatus)
  }

  /** The listed ids that are staged before the sweep. */
  ghost function Known(t: Tables, orders: seq<SweptOrder>): set<int> {
    set p | p in orders && Staged(t.rows, p.id) :: p.id
  }

  /** The tables after the first n listed orders. */
  ghost function Swept(t: Tables, orders: seq<SweptOrder>, known: set<int>, envs: int -> SweepEnv, n: nat): Tables
    requires n <= |orders|
  {
    if n == 0 then t
    else
      var before := Swept(t, orders, known, envs, n - 1);
      if Missing(orders[n - 1], known) then AfterStaging(before, orders[n - 1], envs(n - 1)) else before
  }

  ghost function StagedOk(t: Tables, p: SweptOrder, e: SweepEnv): bool {
    CreateResult(t, Reconciled(p.id, e.second), p.id, e.fault).Ok?
  }

  /** The counters after the first n listed orders. */
  ghost function Tallied(t: Tables, orders: seq<SweptOrder>, known: set<int>, envs: int -> SweepEnv, n: nat): Counts
    requires n <= |orders|
  {
    if n == 0 then Counts(0, 0, 0)
    else
      var p, c := orders[n - 1], Tallied(t, orders, known, envs, n - 1);
      if p.id in known then c.(alreadyPresent := c.alreadyPresent + 1)
      else if !IsPaid(p.financialStatus) then c.(skippedUnpaid := c.skippedUnpaid + 1)
      else if StagedOk(Swept(t, orders, known, envs, n - 1), p, envs(n - 1)) then c.(staged := c.staged + 1)
      else c
  }

  /** Whether the i-th listed order was there already. */
  function PresentAt(orders: seq<SweptOrder>, known: set<int>): int -> int {
    i => if 0 <= i < |orders| && orders[i].id in known then 1 else 0
  }

  /** Whether the i-th listed order is missing and unpaid. */
  function UnpaidAt(orders: seq<SweptOrder>, known: set<int>): int -> int {
    i => if 0 <= i < |orders| && orders[i].id !in known && !IsPaid(orders[i].financialStatus) then 1 else 0
  }

  lemma {:induction false} CountsAre(t: Tables, orders: seq<SweptOrder>, known: set<int>, envs: int -> SweepEnv, n: nat)
    requires n <= |orders|
    ensures var c := Tallied(t, orders, known, envs, n);
      c.alreadyPresent == Sum(Below(n), PresentAt(orders, known)) && c.skippedUnpaid == Sum(Below(n), UnpaidAt(orders, known))
    decreases n
  {
    if n > 0 {
      CountsAre(t, orders, known, envs, n - 1);
      SumBelow(n - 1, PresentAt(orders, known));
      SumBelow(n - 1, UnpaidAt(orders, known));
    }
  }

  class Sweeper {
    const db: Db

    constructor (db: Db)
      ensures this.db == db
    {
      this.db := db;
    }

    /** Stage one order under its reconcile id. */
    method StageOrder(p: SweptOrder, e: SweepEnv) returns (ok: bool)
      modifies db
      ensures db.View() == AfterStaging(old(db.View()), p, e)
      ensures ok == StagedOk(old(db.View()), p, e)
    {
      var order, ls := ToDomain(p, e.now);
      var created := db.CreateOrder(Reconciled(p.id, e.second), "orders/reconcile", order, ls, e.now, e.gap, e.fault);
      ok := created.Ok?;
    }

    /** Diff against the database, stage the gaps; a failure on one order does not stop the others. */
    method Sweep(listed: Result<seq<SweptOrder>, string>, existsFault: Fault, envs: int -> SweepEnv) returns (ok: bool, counts: Counts)
      modifies db
      ensures ok <==> listed.Ok? && (listed.value == [] || existsFault.NoFault?)
      ensures !ok ==> db.View() == old(db.View())
      ensures ok ==>
        db.View() == Swept(old(db.View()), listed.value, Known(old(db.View()), listed.value), envs, |listed.value|)
      ensures ok ==> counts == Tallied(old(db.View()), listed.value, Known(old(db.View()), listed.value), envs, |listed.value|)
      ensures ok ==>
        var orders, known := listed.value, Known(old(db.View()), listed.value);
        counts.alreadyPresent == Sum(Below(|orders|), PresentAt(orders, known)) && counts.skippedUnpaid == Sum(Below(|orders|), UnpaidAt(orders, known))
    {
      counts := Counts(0, 0, 0);
      if listed.Err? {
        return false, counts;
      }
      var orders := listed.value;
      if |orders| == 0 {
        return true, counts;
      }
      var ids := seq(|orders|, i requires 0 <= i < |orders| => orders[i].id);
      var existing := db.ShopifyOrdersExist(ids, existsFault);
      if existing.Err? {
        return false, counts;
      }
      ghost var t, known := db.View(), Known(db.View(), orders);
      for i := 0 to |orders|
        invariant db.View() == Swept(t, orders, known, envs, i)
        invariant counts == Tallied(t, orders, known, envs, i)
      {
        assert orders[i] in orders && ids[i] == orders[i].id;
        if orders[i].id in existing.value {
          counts := counts.(alreadyPresent := counts.alreadyPresent + 1);
        } else if !IsPaid(orders[i].financialStatus) {
          counts := counts.(skippedUnpaid := counts.skippedUnpaid + 1);
        } else {
          var staged := StageOrder(orders[i], envs(i));
          if staged {
            counts := counts.(staged := counts.staged + 1);
          }
        }
      }
      ok := true;
      CountsAre(t, orders, known, envs, |orders|);
    }
  }

  // ---------------------------------------------------------------- what a sweep achieves

  /** Rows of t are in t' unchanged, and their lines too. */
  ghost predicate Preserves(t: Tables, t': Tables) {
    && (forall id :: id in t.rows ==> id in t'.rows && t'.rows[id] == t.rows[id])
    && (forall id, ls :: id in t.rows && LinesOf(t.lines, id, ls) ==> LinesOf(t'.lines, id, ls))
  }

  /** Row id holds the k-th listed order, which is paid, with that order's lines. */
  ghost predicate SweptFrom(orders: seq<SweptOrder>, k: int, date: int, t: Tables, id: int) {
    && 0 <= k < |orders| && IsPaid(orders[k].financialStatus) && id in t.rows
    && t.rows[id] == NewRow(SweptData(orders[k], date), t.rows[id].createdAt)
    && LinesOf(t.lines, id, SweptLines(orders[k]))
  }

  ghost predicate NewRowsAreListed(t: Tables, orders: seq<SweptOrder>, t': Tables) {
    forall id :: id in t'.rows && id !in t.rows ==> exists k, date :: SweptFrom(orders, k, date, t', id)
  }

  /** Of the first n listed orders, the paid ones whose staging met no fault are staged, unless their reconcile id was taken. */
  ghost predicate GapsFilled(orders: seq<SweptOrder>, envs: int -> SweepEnv, n: nat, t: Tables, events: map<WebhookId, string>)
    requires n <= |orders|
  {
    forall k :: 0 <= k < n && IsPaid(orders[k].financialStatus) && envs(k).fault.NoFault? ==>
      Staged(t.rows, orders[k].id) || Reconciled(orders[k].id, envs(k).second) in events
  }

  /** Events beyond the ones known before the sweep belong to orders that are now staged. */
  ghost predicate NewEventsStaged(events: map<WebhookId, string>, t: Tables) {
    forall e :: e in t.events && e !in events ==> e.Reconciled? && Staged(t.rows, e.order)
  }

  /** Staging p leads from t to t': nothing is lost, and at most one row comes in, with p's lines, under p's reconcile id. */
  ghost predicate StagesOnly(t: Tables, p: SweptOrder, e: SweepEnv, t': Tables) {
    && ValidTables(t') && Preserves(t, t')
    && (forall id :: id in t'.rows && id !in t.rows ==> NewlySwept(t', p, e, id))
    && (forall w :: w in t'.events && w !in t.events ==> w == Reconciled(p.id, e.second) && Staged(t'.rows, p.id))
    && (e.fault.NoFault? ==> Staged(t'.rows, p.id) || Reconciled(p.id, e.second) in t.events)
  }

  ghost predicate NewlySwept(t: Tables, p: SweptOrder, e: SweepEnv, id: int) {
    && id in t.rows && t.rows[id] == NewRow(SweptData(p, e.now), e.now)
    && LinesOf(t.lines, id, SweptLines(p))
  }

  lemma InsertPreserves(t: Tables, w: WebhookId, order: OrderData, ls: seq<Line>, now: int, gap: nat -> nat)
    requires ValidTables(t)
    ensures Preserves(t, Inserted(t, w, "orders/reconcile", order, ls, now, gap))
  {
    var t' := Inserted(t, w, "orders/reconcile", order, ls, now, gap);
    forall id, back | id in t.rows && LinesOf(t.lines, id, back) ensures LinesOf(t'.lines, id, back) {
      OtherLinesKept(t, w, "orders/reconcile", order, ls, now, gap, id, back);
    }
  }

  lemma StagingStep(t: Tables, p: SweptOrder, e: SweepEnv)
    requires ValidTables(t)
    ensures StagesOnly(t, p, e, AfterStaging(t, p, e))
  {
    var w, order, ls := Reconciled(p.id, e.second), SweptData(p, e.now), SweptLines(p);
    if Inserts(t, w, p.id, e.fault) {
      var t' := Inserted(t, w, "orders/reconcile", order, ls, e.now, e.gap);
      InsertedIsValid(t, w, "orders/reconcile", order, ls, e.now, e.gap);
      LinesInserted(t, w, "orders/reconcile", order, ls, e.now, e.gap);
      InsertPreserves(t, w, order, ls, e.now, e.gap);
      assert t'.rows[t.nextRow].order.shopifyId == p.id;
    }
  }

  lemma StagingGrows(t: Tables, p: SweptOrder, e: SweepEnv)
    requires ValidTables(t)
    ensures e.fault.NoFault? ==> |AfterStaging(t, p, e).rows| == |t.rows| + (if StagedOk(t, p, e) then 1 else 0)
  {
    assert t.nextRow !in t.rows;
  }

  lemma StagedKept(t: Tables, t': Tables)
    requires Preserves(t, t')
    ensures forall sid :: Staged(t.rows, sid) ==> Staged(t'.rows, sid)
  {
    forall sid | Staged(t.rows, sid) ensures Staged(t'.rows, sid) {
      var id :| id in t.rows && t.rows[id].order.shopifyId == sid;
      assert id in t'.rows && t'.rows[id].order.shopifyId == sid;
    }
  }

  lemma RowsStayListed(t: Tables, orders: seq<SweptOrder>, i: nat, e: SweepEnv, before: Tables, after: Tables)
    requires i < |orders| && IsPaid(orders[i].financialStatus)
    requires NewRowsAreListed(t, orders, before) && StagesOnly(before, orders[i], e, after)
    ensures NewRowsAreListed(t, orders, after)
  {
    forall id | id in after.rows && id !in t.rows ensures exists k, date :: SweptFrom(orders, k, date, after, id) {
      if id in before.rows {
        var k, date :| SweptFrom(orders, k, date, before, id);
        assert SweptFrom(orders, k, date, after, id);
      } else {
        assert NewlySwept(after, orders[i], e, id);
        assert SweptFrom(orders, i, e.now, after, id);
      }
    }
  }

  lemma GapsStayFilled(orders: seq<SweptOrder>, envs: int -> SweepEnv, n: nat, before: Tables, after: Tables, events: map<WebhookId, string>)
    requires n < |orders| && StagesOnly(before, orders[n], envs(n), after)
    requires NewEventsStaged(events, before) && GapsFilled(orders, envs, n, before, events)
    ensures NewEventsStaged(events, after) && GapsFilled(orders, envs, n + 1, after, events)
  {
    StagedKept(before, after);
  }

  lemma PreservesChain(t: Tables, before: Tables, after: Tables)
    requires Preserves(t, before) && Preserves(before, after)
    ensures Preserves(t, after)
  {
  }

  lemma {:induction false} SweptIsValid(t: Tables, orders: seq<SweptOrder>, known: set<int>, envs: int -> SweepEnv, n: nat)
    requires ValidTables(t) && n <= |orders|
    ensures ValidTables(Swept(t, orders, known, envs, n))
    decreases n
  {
    if n > 0 {
      SweptIsValid(t, orders, known, envs, n - 1);
      StagingStep(Swept(t, orders, known, envs, n - 1), orders[n - 1], envs(n - 1));
    }
  }

  /** One turn of the loop: a missing order is staged, any other is passed over. */
  ghost predicate Turn(p: SweptOrder, known: set<int>, e: SweepEnv, before: Tables, after: Tables) {
    if Missing(p, known) then StagesOnly(before, p, e, after) else after == before
  }

  /** ts are the tables before each turn and after the last. */
  ghost predicate Turns(ts: seq<Tables>, orders: seq<SweptOrder>, known: set<int>, envs: int -> SweepEnv) {
    |ts| == |orders| + 1 && forall k :: 0 <= k < |orders| ==> Turn(orders[k], known, envs(k), ts[k], ts[k + 1])
  }

  lemma SweepIsTurns(t: Tables, orders: seq<SweptOrder>, envs: int -> SweepEnv) returns (ts: seq<Tables>)
    requires ValidTables(t)
    ensures Turns(ts, orders, Known(t, orders), envs) && ts[0] == t
    ensures ts[|orders|] == Swept(t, orders, Known(t, orders), envs, |orders|)
  {
    ts := seq(|orders| + 1, k requires 0 <= k <= |orders| => Swept(t, orders, Known(t, orders), envs, k));
    forall k | 0 <= k < |orders| ensures Turn(orders[k], Known(t, orders), envs(k), ts[k], ts[k + 1]) {
      SweptIsValid(t, orders, Known(t, orders), envs, k);
      StagingStep(Swept(t, orders, Known(t, orders), envs, k), orders[k], envs(k));
    }
  }

  lemma {:induction false} TurnsPreserve(ts: seq<Tables>, orders: seq<SweptOrder>, known: set<int>, envs: int -> SweepEnv, n: nat)
    requires Turns(ts, orders, known, envs) && n <= |orders|
    ensures Preserves(ts[0], ts[n])
    decreases n
  {
    if n > 0 {
      TurnsPreserve(ts, orders, known, envs, n - 1);
      assert Turn(orders[n - 1], known, envs(n - 1), ts[n - 1], ts[n - 1 + 1]);
      PreservesChain(ts[0], ts[n - 1], ts[n]);
    }
  }

  lemma {:induction false} TurnsList(ts: seq<Tables>, orders: seq<SweptOrder>, known: set<int>, envs: int -> SweepEnv, n: nat)
    requires Turns(ts, orders, known, envs) && n <= |orders|
    ensures NewRowsAreListed(ts[0], orders, ts[n])
    decreases n
  {
    if n > 0 {
      TurnsList(ts, orders, known, envs, n - 1);
      assert Turn(orders[n - 1], known, envs(n - 1), ts[n - 1], ts[n - 1 + 1]);
      if Missing(orders[n - 1], known) {
        RowsStayListed(ts[0], orders, n - 1, envs(n - 1), ts[n - 1], ts[n]);
      }
    }
  }

  lemma {:induction false} TurnsFillGaps(ts: seq<Tables>, orders: seq<SweptOrder>, envs: int -> SweepEnv, n: nat)
    requires |ts| > 0 && Turns(ts, orders, Known(ts[0], orders), envs) && n <= |orders|
    ensures NewEventsStaged(ts[0].events, ts[n]) && GapsFilled(orders, envs, n, ts[n], ts[0].events)
    decreases n
  {
    if n > 0 {
      TurnsFillGaps(ts, orders, envs, n - 1);
      assert Turn(orders[n - 1], Known(ts[0], orders), envs(n - 1), ts[n - 1], ts[n - 1 + 1]);
      if Missing(orders[n - 1], Known(ts[0], orders)) {
        GapsStayFilled(orders, envs, n - 1, ts[n - 1], ts[n], ts[0].events);
      } else {
        TurnsPreserve(ts, orders, Known(ts[0], orders), envs, n - 1);
        PassingFillsGaps(ts[0], orders, envs, n - 1, ts[n - 1]);
      }
    }
  }

  lemma PassingFillsGaps(t: Tables, orders: seq<SweptOrder>, envs: int -> SweepEnv, n: nat, before: Tables)
    requires n < |orders| && Preserves(t, before) && GapsFilled(orders, envs, n, before, t.events)
    requires !Missing(orders[n], Known(t, orders))
    ensures GapsFilled(orders, envs, n + 1, before, t.events)
  {
    StagedKept(t, before);
    assert orders[n] in orders;
  }

  /**
   A sweep keeps every row and its lines, every new row is a listed paid order with that order's lines, and each listed
   paid order whose own staging met no fault ends up staged, unless its reconcile id had been used before.
   */
  lemma SweepFillsTheGaps(t: Tables, orders: seq<SweptOrder>, envs: int -> SweepEnv)
    requires ValidTables(t)
    ensures var t' := Swept(t, orders, Known(t, orders), envs, |orders|);
      && ValidTables(t') && Preserves(t, t') && NewRowsAreListed(t, orders, t')
      && GapsFilled(orders, envs, |orders|, t', t.events)
  {
    SweptIsValid(t, orders, Known(t, orders), envs, |orders|);
    var ts := SweepIsTurns(t, orders, envs);
    TurnsPreserve(ts, orders, Known(t, orders), envs, |orders|);
    TurnsList(ts, orders, Known(t, orders), envs, |orders|);
    TurnsFillGaps(ts, orders, envs, |orders|);
  }

  /** Without faults the staged count is the growth of the table, and no listed order is counted twice. */
  lemma {:induction false} CountsAddUp(t: Tables, orders: seq<SweptOrder>, known: set<int>, envs: int -> SweepEnv, n: nat)
    requires ValidTables(t) && n <= |orders| && forall k :: 0 <= k < n ==> envs(k).fault.NoFault?
    ensures var c := Tallied(t, orders, known, envs, n);
      && |Swept(t, orders, known, envs, n).rows| == |t.rows| + c.staged
      && c.alreadyPresent + c.skippedUnpaid + c.staged <= n
    decreases n
  {
    if n > 0 {
      CountsAddUp(t, orders, known, envs, n - 1);
      NextGrows(t, orders, known, envs, n - 1);
    }
  }

  lemma NextGrows(t: Tables, orders: seq<SweptOrder>, known: set<int>, envs: int -> SweepEnv, n: nat)
    requires ValidTables(t) && n < |orders| && envs(n).fault.NoFault?
    ensures var before := Swept(t, orders, known, envs, n);
      |AfterStaging(before, orders[n], envs(n)).rows| == |before.rows| + (if StagedOk(before, orders[n], envs(n)) then 1 else 0)
  {
    SweptIsValid(t, orders, known, envs, n);
    StagingGrows(Swept(t, orders, known, envs, n), orders[n], envs(n));
  }
}
