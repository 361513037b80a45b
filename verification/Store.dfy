/**
 The orders, order_lines and webhook_events tables. Each SQL statement is a function
 on the rows, and each method of Db runs one statement or one transaction under a Fault.
 */
module Store {
  import opened Wrappers
  import opened Sums
  import opened Shopify

  datatype Status = Pending | Processing | Submitted | Fulfilled | Failed | DeadLetter | Cancelled

  datatype Line = Line(sku: string, quantity: int, unitPrice: int, discount: int, tax: int)

  datatype LineRow = LineRow(orderId: int, line: Line)

  /** The columns written once, by CreateOrder. Money is in pence. */
  datatype OrderData = OrderData(
    shopifyId: int, orderNumber: string, account: string, email: string, address: Address,
    paymentReference: string, paymentAmount: int, shippingAmount: int, raw: Payload, orderDate: int)

  datatype Row = Row(
    order: OrderData, status: Status, attempts: int, sysproNumber: string, lastError: string,
    createdAt: int, updatedAt: int, fulfilledAt: Option<int>, fulfilmentId: string)

  type Rows = map<int, Row>

  type LineRows = map<int, LineRow>

  /** A webhook id: Shopify's header value, or the sweeper's reconcile-<order>-<second>. */
  datatype WebhookId = Delivered(header: string) | Reconciled(order: int, second: int)

  datatype Tables = Tables(rows: Rows, lines: LineRows, events: map<WebhookId, string>, nextRow: int, nextLine: int)

  datatype DbError = DuplicateWebhook | DuplicateOrder | NotFound | Unavailable

  /** What goes wrong with one call: nothing, it never takes effect, or only its answer is lost. */
  datatype Fault = NoFault | Lost | AnswerLost

  // ---------------------------------------------------------------- statements

  function Claimed(rows: Rows, id: int, now: int): Rows {
    if id in rows && rows[id].status.Pending? then
      rows[id := rows[id].(status := Processing, updatedAt := now)]
    else rows
  }

  function WithSubmitted(rows: Rows, id: int, number: string, attempts: int, now: int): Rows {
    if id in rows then
      rows[id := rows[id].(status := Submitted, sysproNumber := number, attempts := attempts, lastError := "", updatedAt := now)]
    else rows
  }

  function WithStatus(rows: Rows, id: int, status: Status, attempts: int, lastError: string, now: int): Rows {
    if id in rows then
      rows[id := rows[id].(status := status, attempts := attempts, lastError := lastError, updatedAt := now)]
    else rows
  }

  predicate Retryable(rows: Rows, id: int) {
    id in rows && (rows[id].status.Failed? || rows[id].status.DeadLetter?)
  }

  function Retried(rows: Rows, id: int, now: int): Rows {
    if Retryable(rows, id) then
      rows[id := rows[id].(status := Pending, attempts := 0, lastError := "", updatedAt := now)]
    else rows
  }

  predicate Stale(row: Row, now: int, olderThan: int) {
    row.status.Processing? && row.updatedAt < now - olderThan
  }

  function StaleReset(rows: Rows, now: int, olderThan: int): Rows {
    map id | id in rows ::
      if Stale(rows[id], now, olderThan) then
        rows[id].(status := Pending, attempts := rows[id].attempts + 1, updatedAt := now)
      else rows[id]
  }

  function WithFulfilled(rows: Rows, id: int, fulfilmentId: string, now: int): Rows {
    if id in rows then
      rows[id := rows[id].(status := Fulfilled, fulfilledAt := Some(now), fulfilmentId := fulfilmentId, updatedAt := now)]
    else rows
  }

  predicate AwaitsSubmission(row: Row) {
    row.status.Pending?
  }

  predicate AwaitsFulfilment(row: Row) {
    row.status.Submitted? && row.fulfilledAt.None? && row.sysproNumber != ""
  }

  /** The content written by CreateOrder is the same in both tables, row by row. */
  ghost predicate SameContent(rows: Rows, rows': Rows) {
    rows.Keys == rows'.Keys && forall id :: id in rows ==>
      rows'[id].order == rows[id].order && rows'[id].createdAt == rows[id].createdAt
  }

  lemma StaleResetKeepsContent(rows: Rows, now: int, olderThan: int)
    ensures SameContent(rows, StaleReset(rows, now, olderThan))
  {
    assert StaleReset(rows, now, olderThan).Keys == rows.Keys;
  }

  // ---------------------------------------------------------------- CreateOrder

  function NewRow(order: OrderData, now: int): Row {
    Row(order, Pending, 0, "", "", now, now, None, "")
  }

  ghost predicate Staged(rows: Rows, shopifyId: int) {
    exists id :: id in rows && rows[id].order.shopifyId == shopifyId
  }

  /** The id the k-th inserted line draws from the shared sequence; gap(k) ids go to other sessions first. */
  function LineId(start: int, gap: nat -> nat, k: nat): int {
    if k == 0 then start + gap(0) else LineId(start, gap, k - 1) + 1 + gap(k)
  }

  function NewLines(orderId: int, ls: seq<Line>, start: int, gap: nat -> nat): LineRows {
    if ls == [] then map[]
    else
      NewLines(orderId, ls[..|ls| - 1], start, gap)[LineId(start, gap, |ls| - 1) := LineRow(orderId, ls[|ls| - 1])]
  }

  function Inserted(t: Tables, webhookId: WebhookId, topic: string, order: OrderData, ls: seq<Line>, now: int, gap: nat -> nat): Tables {
    Tables(
      t.rows[t.nextRow := NewRow(order, now)],
      t.lines + NewLines(t.nextRow, ls, t.nextLine, gap),
      t.events[webhookId := topic],
      t.nextRow + 1,
      if ls == [] then t.nextLine else LineId(t.nextLine, gap, |ls| - 1) + 1)
  }

  /** The outcome of the CreateOrder transaction: a taken webhook id or order id rolls it back. */
  ghost function CreateResult(t: Tables, webhookId: WebhookId, shopifyId: int, fault: Fault): Result<int, DbError> {
    if fault.Lost? then Err(Unavailable)
    else if webhookId in t.events then Err(DuplicateWebhook)
    else if Staged(t.rows, shopifyId) then Err(DuplicateOrder)
    else if fault.AnswerLost? then Err(Unavailable)
    else Ok(t.nextRow)
  }

  ghost predicate Inserts(t: Tables, webhookId: WebhookId, shopifyId: int, fault: Fault) {
    !fault.Lost? && webhookId !in t.events && !Staged(t.rows, shopifyId)
  }

  /** The tables after CreateOrder; a rolled back order insert has still drawn a row id. */
  ghost function Created(t: Tables, webhookId: WebhookId, topic: string, order: OrderData, ls: seq<Line>, now: int, gap: nat -> nat, fault: Fault): Tables {
    if Inserts(t, webhookId, order.shopifyId, fault) then Inserted(t, webhookId, topic, order, ls, now, gap)
    else if fault.Lost? || webhookId in t.events then t
    else t.(nextRow := t.nextRow + 1)
  }

  ghost predicate ValidTables(t: Tables) {
    && (forall id :: id in t.rows ==> id < t.nextRow)
    && (forall i :: i in t.lines ==> i < t.nextLine && t.lines[i].orderId in t.rows)
    && (forall i, j :: i in t.rows && j in t.rows && t.rows[i].order.shopifyId == t.rows[j].order.shopifyId ==> i == j)
  }

  lemma {:induction false} LineIdIncreases(start: int, gap: nat -> nat, j: nat, k: nat)
    requires j <= k
    ensures start <= LineId(start, gap, j) && LineId(start, gap, j) + (k - j) <= LineId(start, gap, k)
    decreases k
  {
    if j < k {
      LineIdIncreases(start, gap, j, k - 1);
    } else if j > 0 {
      LineIdIncreases(start, gap, j - 1, j - 1);
    }
  }

  lemma {:induction false} NewLinesAt(orderId: int, ls: seq<Line>, start: int, gap: nat -> nat)
    ensures forall k: nat :: k < |ls| ==>
      LineId(start, gap, k) in NewLines(orderId, ls, start, gap)
      && NewLines(orderId, ls, start, gap)[LineId(start, gap, k)] == LineRow(orderId, ls[k])
    ensures forall i :: i in NewLines(orderId, ls, start, gap) ==>
      exists k: nat :: k < |ls| && i == LineId(start, gap, k)
    decreases |ls|
  {
    if ls != [] {
      var n := |ls| - 1;
      NewLinesAt(orderId, ls[..n], start, gap);
      forall k: nat | k < n ensures LineId(start, gap, k) != LineId(start, gap, n) {
        LineIdIncreases(start, gap, k, n);
      }
    }
  }

  lemma InsertedIsValid(t: Tables, webhookId: WebhookId, topic: string, order: OrderData, ls: seq<Line>, now: int, gap: nat -> nat)
    requires ValidTables(t) && !Staged(t.rows, order.shopifyId)
    ensures ValidTables(Inserted(t, webhookId, topic, order, ls, now, gap))
  {
    var t' := Inserted(t, webhookId, topic, order, ls, now, gap);
    var added := NewLines(t.nextRow, ls, t.nextLine, gap);
    NewLinesAt(t.nextRow, ls, t.nextLine, gap);
    if ls != [] {
      LineIdIncreases(t.nextLine, gap, |ls| - 1, |ls| - 1);
    }
    forall i | i in t'.lines ensures i < t'.nextLine && t'.lines[i].orderId in t'.rows {
      if i in added {
        var k: nat :| k < |ls| && i == LineId(t.nextLine, gap, k);
        LineIdIncreases(t.nextLine, gap, k, |ls| - 1);
      }
    }
  }

  // ---------------------------------------------------------------- reading lines back

  ghost function LineIdsOf(lines: LineRows, orderId: int): set<int> {
    set i | i in lines && lines[i].orderId == orderId
  }

  /** ls is the answer of SELECT ... WHERE order_id = orderId ORDER BY id. */
  ghost predicate LinesOf(lines: LineRows, orderId: int, ls: seq<Line>) {
    exists ids :: LinesAt(lines, orderId, ids, ls)
  }

  ghost predicate LinesAt(lines: LineRows, orderId: int, ids: seq<int>, ls: seq<Line>) {
    && Increasing(ids) && Elements(ids) == LineIdsOf(lines, orderId) && |ids| == |ls|
    && forall k :: 0 <= k < |ids| ==> ids[k] in lines && ls[k] == lines[ids[k]].line
  }

  lemma LinesOfUnique(lines: LineRows, orderId: int, p: seq<Line>, q: seq<Line>)
    requires LinesOf(lines, orderId, p) && LinesOf(lines, orderId, q)
    ensures p == q
  {
    var i :| LinesAt(lines, orderId, i, p);
    var j :| LinesAt(lines, orderId, j, q);
    IncreasingUnique(i, j);
  }

  lemma LinesInserted(t: Tables, webhookId: WebhookId, topic: string, order: OrderData, ls: seq<Line>, now: int, gap: nat -> nat)
    requires ValidTables(t)
    ensures LinesOf(Inserted(t, webhookId, topic, order, ls, now, gap).lines, t.nextRow, ls)
  {
    var lines' := Inserted(t, webhookId, topic, order, ls, now, gap).lines;
    var ids := seq(|ls|, (k: int) requires 0 <= k => LineId(t.nextLine, gap, k));
    NewLinesAt(t.nextRow, ls, t.nextLine, gap);
    forall j: nat, k: nat | j < k < |ls| ensures ids[j] < ids[k] {
      LineIdIncreases(t.nextLine, gap, j, k);
    }
    forall i ensures i in Elements(ids) <==> i in LineIdsOf(lines', t.nextRow) {
      if i in LineIdsOf(lines', t.nextRow) {
        assert i in NewLines(t.nextRow, ls, t.nextLine, gap);
        var k: nat :| k < |ls| && i == LineId(t.nextLine, gap, k);
        assert ids[k] == i;
      }
    }
    assert LinesAt(lines', t.nextRow, ids, ls);
  }

  /** An order's lines come back in the order they were inserted, whatever else draws line ids meanwhile. */
  lemma LinesRoundTrip(t: Tables, webhookId: WebhookId, topic: string, order: OrderData, ls: seq<Line>, now: int, gap: nat -> nat, back: seq<Line>)
    requires ValidTables(t)
    ensures LinesOf(Inserted(t, webhookId, topic, order, ls, now, gap).lines, t.nextRow, back) <==> back == ls
  {
    LinesInserted(t, webhookId, topic, order, ls, now, gap);
    if LinesOf(Inserted(t, webhookId, topic, order, ls, now, gap).lines, t.nextRow, back) {
      LinesOfUnique(Inserted(t, webhookId, topic, order, ls, now, gap).lines, t.nextRow, back, ls);
    }
  }

  /** Staging one order leaves every other order's lines as they were. */
  lemma OtherLinesKept(t: Tables, webhookId: WebhookId, topic: string, order: OrderData, ls: seq<Line>, now: int, gap: nat -> nat, other: int, back: seq<Line>)
    requires ValidTables(t) && other in t.rows
    requires LinesOf(t.lines, other, back)
    ensures LinesOf(Inserted(t, webhookId, topic, order, ls, now, gap).lines, other, back)
  {
    var lines' := Inserted(t, webhookId, topic, order, ls, now, gap).lines;
    var added := NewLines(t.nextRow, ls, t.nextLine, gap);
    NewLinesAt(t.nextRow, ls, t.nextLine, gap);
    forall i | i in added ensures i >= t.nextLine && added[i].orderId == t.nextRow {
      var k: nat :| k < |ls| && i == LineId(t.nextLine, gap, k);
      LineIdIncreases(t.nextLine, gap, k, k);
    }
    var ids :| LinesAt(t.lines, other, ids, back);
    assert LineIdsOf(lines', other) == LineIdsOf(t.lines, other);
    forall k | 0 <= k < |ids| ensures ids[k] in lines' && back[k] == lines'[ids[k]].line {
      assert ids[k] in LineIdsOf(t.lines, other) by { assert ids[k] in Elements(ids); }
      assert ids[k] !in added;
    }
    assert LinesAt(lines', other, ids, back);
  }

  // ---------------------------------------------------------------- reservations

  predicate HoldsStock(row: Row) {
    row.status.Pending? || row.status.Processing?
  }

  /** What one line adds to the reservation of a SKU. */
  function TermAt(rows: Rows, l: LineRow, sku: string): int {
    if l.line.sku == sku && l.orderId in rows && HoldsStock(rows[l.orderId]) then l.line.quantity else 0
  }

  function ReservedTerm(rows: Rows, lines: LineRows, sku: string): int -> int {
    i => if i in lines then TermAt(rows, lines[i], sku) else 0
  }

  function OrderedTerm(lines: LineRows, orderId: int, sku: string): int -> int {
    i => if i in lines && lines[i].line.sku == sku && lines[i].orderId == orderId then lines[i].line.quantity else 0
  }

  /** SUM(quantity) over the lines of pending and processing orders. */
  ghost function Reserved(rows: Rows, lines: LineRows, sku: string): int {
    Sum(lines.Keys, ReservedTerm(rows, lines, sku))
  }

  /** The quantity of one SKU on one order. */
  ghost function Ordered(lines: LineRows, orderId: int, sku: string): int {
    Sum(lines.Keys, OrderedTerm(lines, orderId, sku))
  }

  function Held(rows: Rows, id: int): int {
    if id in rows && HoldsStock(rows[id]) then 1 else 0
  }

  /** Rewriting one row moves the reservation by that order's quantity exactly when it starts or stops holding stock. */
  lemma ReservedAfterRewrite(rows: Rows, lines: LineRows, id: int, row: Row, sku: string)
    requires id in rows
    ensures Reserved(rows[id := row], lines, sku)
         == Reserved(rows, lines, sku) + (Held(rows[id := row], id) - Held(rows, id)) * Ordered(lines, id, sku)
  {
    var before := ReservedTerm(rows, lines, sku);
    var after := ReservedTerm(rows[id := row], lines, sku);
    var own := OrderedTerm(lines, id, sku);
    if Held(rows[id := row], id) == Held(rows, id) {
      SumCongruence(lines.Keys, before, after);
    } else if Held(rows, id) == 1 {
      SumAdd(lines.Keys, after, own, before);
    } else {
      SumAdd(lines.Keys, before, own, after);
    }
  }

  lemma TermsOfInsert(rows: Rows, lines: LineRows, id: int, row: Row, added: LineRows, sku: string)
    requires id !in rows && HoldsStock(row) && lines.Keys !! added.Keys
    requires forall i :: i in lines ==> lines[i].orderId in rows
    requires forall i :: i in added ==> added[i].orderId == id
    ensures forall i :: i in lines ==>
      ReservedTerm(rows[id := row], lines + added, sku)(i) == ReservedTerm(rows, lines, sku)(i) && OrderedTerm(lines + added, id, sku)(i) == 0
    ensures forall i :: i in added ==> ReservedTerm(rows[id := row], lines + added, sku)(i) == OrderedTerm(lines + added, id, sku)(i)
  {
    assert forall i :: i in lines ==> (lines + added)[i] == lines[i];
  }

  lemma ReservedWithNewOrder(rows: Rows, lines: LineRows, id: int, row: Row, added: LineRows, sku: string)
    requires id !in rows && HoldsStock(row) && lines.Keys !! added.Keys
    requires forall i :: i in lines ==> lines[i].orderId in rows
    requires forall i :: i in added ==> added[i].orderId == id
    ensures Reserved(rows[id := row], lines + added, sku) == Reserved(rows, lines, sku) + Ordered(lines + added, id, sku)
  {
    var before, own, after := ReservedTerm(rows, lines, sku), OrderedTerm(lines + added, id, sku), ReservedTerm(rows[id := row], lines + added, sku);
    TermsOfInsert(rows, lines, id, row, added, sku);
    assert (lines + added).Keys == lines.Keys + added.Keys;
    SumDisjoint(lines.Keys, added.Keys, before);
    SumZero(added.Keys, before);
    SumAdd(lines.Keys + added.Keys, before, own, after);
  }

  /** The quantity of one SKU on a list of lines. */
  function QuantityOf(ls: seq<Line>, sku: string): int {
    if ls == [] then 0 else QuantityOf(ls[..|ls| - 1], sku) + (if ls[|ls| - 1].sku == sku then ls[|ls| - 1].quantity else 0)
  }

  lemma {:induction false} OrderedAt(lines: LineRows, orderId: int, ids: seq<int>, ls: seq<Line>, sku: string)
    requires Increasing(ids) && |ids| == |ls|
    requires forall k :: 0 <= k < |ids| ==> ids[k] in lines && lines[ids[k]].orderId == orderId && ls[k] == lines[ids[k]].line
    ensures Sum(Elements(ids), OrderedTerm(lines, orderId, sku)) == QuantityOf(ls, sku)
    decreases |ids|
  {
    if ids == [] {
      assert Elements(ids) == {};
    } else {
      var n := |ids| - 1;
      OrderedAt(lines, orderId, ids[..n], ls[..n], sku);
      assert ids == ids[..n] + [ids[n]];
      assert Elements(ids) - {ids[n]} == Elements(ids[..n]);
      SumRemove(Elements(ids), ids[n], OrderedTerm(lines, orderId, sku));
    }
  }

  /** What an order's rows in the lines table add up to is what its lines say. */
  lemma OrderedIsQuantity(lines: LineRows, orderId: int, ls: seq<Line>, sku: string)
    requires LinesOf(lines, orderId, ls)
    ensures Ordered(lines, orderId, sku) == QuantityOf(ls, sku)
  {
    var ids :| LinesAt(lines, orderId, ids, ls);
    forall k | 0 <= k < |ids| ensures ids[k] in lines && lines[ids[k]].orderId == orderId {
      assert ids[k] in Elements(ids);
    }
    OrderedAt(lines, orderId, ids, ls, sku);
    var own, f := LineIdsOf(lines, orderId), OrderedTerm(lines, orderId, sku);
    assert lines.Keys == own + (lines.Keys - own);
    SumDisjoint(own, lines.Keys - own, f);
    SumZero(lines.Keys - own, f);
  }

  /** A newly staged order reserves exactly what its own lines order. */
  lemma ReservedAfterInsert(t: Tables, webhookId: WebhookId, topic: string, order: OrderData, ls: seq<Line>, now: int, gap: nat -> nat, sku: string)
    requires ValidTables(t)
    ensures var t' := Inserted(t, webhookId, topic, order, ls, now, gap);
      Reserved(t'.rows, t'.lines, sku) == Reserved(t.rows, t.lines, sku) + Ordered(t'.lines, t.nextRow, sku)
  {
    var added := NewLines(t.nextRow, ls, t.nextLine, gap);
    AddedLinesAreNew(t, ls, gap);
    assert t.lines.Keys !! added.Keys by {
      assert forall i :: i in t.lines ==> i < t.nextLine;
      assert forall i :: i in added.Keys ==> i in added;
    }
    ReservedWithNewOrder(t.rows, t.lines, t.nextRow, NewRow(order, now), added, sku);
  }

  lemma AddedLinesAreNew(t: Tables, ls: seq<Line>, gap: nat -> nat)
    ensures forall i :: i in NewLines(t.nextRow, ls, t.nextLine, gap) ==> i >= t.nextLine
    ensures forall i :: i in NewLines(t.nextRow, ls, t.nextLine, gap) ==>
      NewLines(t.nextRow, ls, t.nextLine, gap)[i].orderId == t.nextRow
  {
    var added := NewLines(t.nextRow, ls, t.nextLine, gap);
    NewLinesAt(t.nextRow, ls, t.nextLine, gap);
    forall i | i in added ensures i >= t.nextLine && added[i].orderId == t.nextRow {
      var k: nat :| k < |ls| && i == LineId(t.nextLine, gap, k);
      LineIdIncreases(t.nextLine, gap, k, k);
    }
  }

  // ---------------------------------------------------------------- oldest first

  /** ids answers SELECT ... WHERE p ORDER BY created_at ASC LIMIT limit; ties come in any order. */
  ghost predicate OldestFirst(rows: Rows, p: Row -> bool, limit: nat, ids: seq<int>) {
    && (forall k :: 0 <= k < |ids| ==> ids[k] in rows && p(rows[ids[k]]))
    && (forall j, k :: 0 <= j < k < |ids| ==> ids[j] != ids[k] && rows[ids[j]].createdAt <= rows[ids[k]].createdAt)
    && |ids| <= limit
    && (forall id :: id in rows && p(rows[id]) && id !in ids ==>
      |ids| == limit && forall k :: 0 <= k < |ids| ==> rows[ids[k]].createdAt <= rows[id].createdAt)
  }

  method Oldest(rows: Rows, s: set<int>) returns (id: int)
    requires s != {} && s <= rows.Keys
    ensures id in s && forall j :: j in s ==> rows[id].createdAt <= rows[j].createdAt
  {
    id := Choose(s);
    var rest := s - {id};
    while rest != {}
      invariant rest <= s && id in s
      invariant forall j :: j in s - rest ==> rows[id].createdAt <= rows[j].createdAt
      decreases rest
    {
      var j := Choose(rest);
      if rows[j].createdAt < rows[id].createdAt {
        id := j;
      }
      rest := rest - {j};
    }
  }

  method SelectOldest(rows: Rows, p: Row -> bool, limit: nat) returns (ids: seq<int>)
    ensures OldestFirst(rows, p, limit, ids)
  {
    ids := [];
    var rest := set id | id in rows && p(rows[id]);
    while |ids| < limit && rest != {}
      invariant forall id :: id in rest ==> id in rows && p(rows[id])
      invariant forall k :: 0 <= k < |ids| ==> ids[k] in rows && ids[k] !in rest && p(rows[ids[k]])
      invariant forall j, k :: 0 <= j < k < |ids| ==> ids[j] != ids[k] && rows[ids[j]].createdAt <= rows[ids[k]].createdAt
      invariant |ids| <= limit
      invariant forall id :: id in rows && p(rows[id]) && id !in ids ==> id in rest
      invariant forall id, k :: id in rest && 0 <= k < |ids| ==> rows[ids[k]].createdAt <= rows[id].createdAt
      decreases rest
    {
      var id := Oldest(rows, rest);
      ids := ids + [id];
      rest := rest - {id};
    }
  }

  // ---------------------------------------------------------------- the database

  datatype OrderWithLines = OrderWithLines(id: int, row: Row, lines: seq<Line>)

  /** The snapshots that FetchPendingOrders returns for these ids. */
  ghost predicate SnapshotsOf(rows: Rows, lines: LineRows, ids: seq<int>, orders: seq<OrderWithLines>) {
    && |orders| == |ids|
    && forall k :: 0 <= k < |ids| ==>
      ids[k] in rows && orders[k].id == ids[k] && orders[k].row == rows[ids[k]] && LinesOf(lines, ids[k], orders[k].lines)
  }

  method InsertLines(orderId: int, ls: seq<Line>, start: int, gap: nat -> nat) returns (added: LineRows, next: int)
    ensures added == NewLines(orderId, ls, start, gap)
    ensures next == if ls == [] then start else LineId(start, gap, |ls| - 1) + 1
  {
    added := map[];
    next := start;
    for k := 0 to |ls|
      invariant added == NewLines(orderId, ls[..k], start, gap)
      invariant next == if k == 0 then start else LineId(start, gap, k - 1) + 1
    {
      assert ls[..k + 1][..k] == ls[..k];
      added := added[next + gap(k) := LineRow(orderId, ls[k])];
      next := next + gap(k) + 1;
    }
    assert ls[..|ls|] == ls;
  }

  class Db {
    var rows: Rows
    var lines: LineRows
    var events: map<WebhookId, string>
    var nextRow: int
    var nextLine: int

    constructor ()
      ensures View() == Tables(map[], map[], map[], 1, 1)
    {
      rows, lines, events, nextRow, nextLine := map[], map[], map[], 1, 1;
    }

    function View(): Tables
      reads this
    {
      Tables(rows, lines, events, nextRow, nextLine)
    }

    method WebhookExists(webhookId: WebhookId, fault: Fault) returns (r: Result<bool, DbError>)
      ensures fault.NoFault? ==> r == Ok(webhookId in events)
      ensures !fault.NoFault? ==> r == Err(Unavailable)
    {
      if !fault.NoFault? {
        return Err(Unavailable);
      }
      r := Ok(webhookId in events);
    }

    /** No query is made for no ids. */
    method ShopifyOrdersExist(shopifyIds: seq<int>, fault: Fault) returns (r: Result<set<int>, DbError>)
      ensures r.Ok? <==> shopifyIds == [] || fault.NoFault?
      ensures r.Err? ==> r == Err(Unavailable)
      ensures r.Ok? ==> forall o :: o in r.value <==> o in shopifyIds && Staged(rows, o)
    {
      if |shopifyIds| == 0 {
        return Ok({});
      }
      if !fault.NoFault? {
        return Err(Unavailable);
      }
      var found := set id | id in rows && rows[id].order.shopifyId in shopifyIds :: rows[id].order.shopifyId;
      r := Ok(found);
    }

    /** One transaction: event, order and lines together, or nothing. */
    method CreateOrder(webhookId: WebhookId, topic: string, order: OrderData, ls: seq<Line>, now: int, gap: nat -> nat, fault: Fault)
      returns (r: Result<int, DbError>)
      modifies this
      ensures r == CreateResult(old(View()), webhookId, order.shopifyId, fault)
      ensures View() == Created(old(View()), webhookId, topic, order, ls, now, gap, fault)
      ensures fault.Lost? || webhookId in old(events) || (exists id :: id in old(rows) && old(rows)[id].order.shopifyId == order.shopifyId) ==>
        r.Err? && rows == old(rows) && lines == old(lines) && events == old(events)
      ensures !fault.Lost? && webhookId !in old(events) && (forall id :: id in old(rows) ==> old(rows)[id].order.shopifyId != order.shopifyId) ==>
        && r == (if fault.NoFault? then Ok(old(nextRow)) else Err(Unavailable))
        && events == old(events)[webhookId := topic]
        && rows == old(rows)[old(nextRow) := Row(order, Pending, 0, "", "", now, now, None, "")]
    {
      if fault.Lost? {
        return Err(Unavailable);
      }
      if webhookId in events {
        return Err(DuplicateWebhook);
      }
      var orderId := nextRow;
      nextRow := nextRow + 1;
      if exists id :: id in rows && rows[id].order.shopifyId == order.shopifyId {
        return Err(DuplicateOrder);
      }
      var added, next := InsertLines(orderId, ls, nextLine, gap);
      events := events[webhookId := topic];
      rows := rows[orderId := NewRow(order, now)];
      lines := lines + added;
      nextLine := next;
      r := if fault.NoFault? then Ok(orderId) else Err(Unavailable);
    }

    method ResetStaleProcessing(now: int, olderThan: int, fault: Fault) returns (r: Result<(), DbError>)
      modifies this`rows
      ensures rows == if fault.Lost? then old(rows) else StaleReset(old(rows), now, olderThan)
      ensures r.Ok? <==> fault.NoFault?
      ensures rows.Keys == old(rows).Keys && forall id :: id in rows ==>
        var was := old(rows)[id];
        rows[id] == if !fault.Lost? && was.status == Processing && was.updatedAt < now - olderThan
                    then was.(status := Pending, attempts := was.attempts + 1, updatedAt := now) else was
    {
      if !fault.Lost? {
        rows := map id | id in rows ::
          if Stale(rows[id], now, olderThan) then
            rows[id].(status := Pending, attempts := rows[id].attempts + 1, updatedAt := now)
          else rows[id];
      }
      r := if fault.NoFault? then Ok(()) else Err(Unavailable);
    }

    method MarkOrderProcessing(id: int, now: int, fault: Fault) returns (r: Result<bool, DbError>)
      modifies this`rows
      ensures rows == if fault.Lost? then old(rows) else Claimed(old(rows), id, now)
      ensures rows == if !fault.Lost? && id in old(rows) && old(rows)[id].status == Pending
                      then old(rows)[id := old(rows)[id].(status := Processing, updatedAt := now)] else old(rows)
      ensures fault.NoFault? ==> r == Ok(id in old(rows) && old(rows)[id].status.Pending?)
      ensures !fault.NoFault? ==> r == Err(Unavailable)
    {
      var hit := id in rows && rows[id].status == Pending;
      if hit && !fault.Lost? {
        rows := rows[id := rows[id].(status := Processing, updatedAt := now)];
      }
      r := if fault.NoFault? then Ok(hit) else Err(Unavailable);
    }

    method UpdateOrderSubmitted(id: int, number: string, attempts: int, now: int, fault: Fault) returns (r: Result<(), DbError>)
      modifies this`rows
      ensures rows == if fault.Lost? then old(rows) else WithSubmitted(old(rows), id, number, attempts, now)
      ensures !fault.Lost? && id in old(rows) ==> rows == old(rows)[id := old(rows)[id].(
        status := Submitted, sysproNumber := number, attempts := attempts, lastError := "", updatedAt := now)]
      ensures r == if !fault.NoFault? then Err(Unavailable) else if id in old(rows) then Ok(()) else Err(NotFound)
    {
      r := if !fault.NoFault? then Err(Unavailable) else if id in rows then Ok(()) else Err(NotFound);
      if !fault.Lost? && id in rows {
        rows := rows[id := rows[id].(status := Submitted, sysproNumber := number, attempts := attempts, lastError := "", updatedAt := now)];
      }
    }

    method UpdateOrderStatus(id: int, status: Status, attempts: int, lastError: string, now: int, fault: Fault) returns (r: Result<(), DbError>)
      modifies this`rows
      ensures rows == if fault.Lost? then old(rows) else WithStatus(old(rows), id, status, attempts, lastError, now)
      ensures !fault.Lost? && id in old(rows) ==> rows == old(rows)[id := old(rows)[id].(
        status := status, attempts := attempts, lastError := lastError, updatedAt := now)]
      ensures r == if !fault.NoFault? then Err(Unavailable) else if id in old(rows) then Ok(()) else Err(NotFound)
    {
      r := if !fault.NoFault? then Err(Unavailable) else if id in rows then Ok(()) else Err(NotFound);
      if !fault.Lost? && id in rows {
        rows := rows[id := rows[id].(status := status, attempts := attempts, lastError := lastError, updatedAt := now)];
      }
    }

    method RetryOrder(id: int, now: int, fault: Fault) returns (r: Result<(), DbError>)
      modifies this`rows
      ensures rows == if fault.Lost? then old(rows) else Retried(old(rows), id, now)
      ensures r == if !fault.NoFault? then Err(Unavailable) else if Retryable(old(rows), id) then Ok(()) else Err(NotFound)
      ensures r.Ok? <==> fault.NoFault? && id in old(rows) && old(rows)[id].status in {Failed, DeadLetter}
      ensures rows == if !fault.Lost? && id in old(rows) && old(rows)[id].status in {Failed, DeadLetter}
                      then old(rows)[id := old(rows)[id].(status := Pending, attempts := 0, lastError := "", updatedAt := now)] else old(rows)
    {
      var hit := id in rows && rows[id].status in {Failed, DeadLetter};
      r := if !fault.NoFault? then Err(Unavailable) else if hit then Ok(()) else Err(NotFound);
      if hit && !fault.Lost? {
        rows := rows[id := rows[id].(status := Pending, attempts := 0, lastError := "", updatedAt := now)];
      }
    }

    method FetchOrderLines(orderId: int) returns (ls: seq<Line>)
      ensures LinesOf(lines, orderId, ls)
    {
      var ids := Sort(set i | i in lines && lines[i].orderId == orderId);
      assert forall k :: 0 <= k < |ids| ==> ids[k] in Elements(ids);
      ls := [];
      for k := 0 to |ids|
        invariant |ls| == k && forall j :: 0 <= j < k ==> ls[j] == lines[ids[j]].line
      {
        ls := ls + [lines[ids[k]].line];
      }
      assert LinesAt(lines, orderId, ids, ls);
    }

    method FetchPendingOrders(limit: nat, fault: Fault) returns (r: Result<seq<OrderWithLines>, DbError>, ghost ids: seq<int>)
      ensures !fault.NoFault? ==> r == Err(Unavailable)
      ensures fault.NoFault? ==>
        r.Ok? && OldestFirst(rows, AwaitsSubmission, limit, ids) && SnapshotsOf(rows, lines, ids, r.value)
      ensures fault.NoFault? ==> |r.value| <= limit && forall k :: 0 <= k < |r.value| ==>
        var o := r.value[k];
        && o.id in rows && o.row == rows[o.id] && o.row.status == Pending
        && (forall j :: 0 <= j < k ==> r.value[j].id != o.id && r.value[j].row.createdAt <= o.row.createdAt)
      ensures fault.NoFault? ==> forall id :: id in rows && rows[id].status == Pending && (forall k :: 0 <= k < |r.value| ==> r.value[k].id != id) ==>
        |r.value| == limit && forall k :: 0 <= k < |r.value| ==> r.value[k].row.createdAt <= rows[id].createdAt
    {
      if !fault.NoFault? {
        return Err(Unavailable), [];
      }
      var found := SelectOldest(rows, AwaitsSubmission, limit);
      ids := found;
      var orders: seq<OrderWithLines> := [];
      for k := 0 to |found|
        invariant SnapshotsOf(rows, lines, found[..k], orders)
      {
        var ls := FetchOrderLines(found[k]);
        orders := orders + [OrderWithLines(found[k], rows[found[k]], ls)];
      }
      assert found[..|found|] == found;
      r := Ok(orders);
    }

    method FetchSubmittedOrders(fault: Fault) returns (r: Result<seq<int>, DbError>)
      ensures !fault.NoFault? ==> r == Err(Unavailable)
      ensures fault.NoFault? ==> r.Ok? && OldestFirst(rows, AwaitsFulfilment, |rows|, r.value)
      ensures fault.NoFault? ==> forall id :: id in rows && AwaitsFulfilment(rows[id]) ==> id in r.value
      ensures fault.NoFault? ==>
        && (forall k :: 0 <= k < |r.value| ==> r.value[k] in rows)
        && (forall j, k :: 0 <= j < k < |r.value| ==> rows[r.value[j]].createdAt <= rows[r.value[k]].createdAt)
        && (forall id :: id in rows ==>
              (id in r.value <==> rows[id].status == Submitted && rows[id].fulfilledAt == None && rows[id].sysproNumber != ""))
    {
      if !fault.NoFault? {
        return Err(Unavailable);
      }
      var ids := SelectOldest(rows, AwaitsFulfilment, |rows|);
      AllSelected(rows, AwaitsFulfilment, ids);
      r := Ok(ids);
    }

    method UpdateOrderFulfilled(id: int, fulfilmentId: string, now: int, fault: Fault) returns (r: Result<(), DbError>)
      modifies this`rows
      ensures rows == if fault.Lost? then old(rows) else WithFulfilled(old(rows), id, fulfilmentId, now)
      ensures !fault.Lost? && id in old(rows) ==> rows == old(rows)[id := old(rows)[id].(
        status := Fulfilled, fulfilledAt := Some(now), fulfilmentId := fulfilmentId, updatedAt := now)]
      ensures r == if !fault.NoFault? then Err(Unavailable) else if id in old(rows) then Ok(()) else Err(NotFound)
    {
      r := if !fault.NoFault? then Err(Unavailable) else if id in rows then Ok(()) else Err(NotFound);
      if !fault.Lost? && id in rows {
        rows := rows[id := rows[id].(status := Fulfilled, fulfilledAt := Some(now), fulfilmentId := fulfilmentId, updatedAt := now)];
      }
    }

    /** GROUP BY sku: one entry per SKU that some held line names; an absent entry reads as 0. */
    method FetchReservedQuantities(fault: Fault) returns (r: Result<map<string, int>, DbError>)
      ensures !fault.NoFault? ==> r == Err(Unavailable)
      ensures fault.NoFault? ==> r.Ok? && forall sku :: Lookup(r.value, sku) == Reserved(rows, lines, sku)
    {
      if !fault.NoFault? {
        return Err(Unavailable);
      }
      var sums: map<string, int> := map[];
      var rest := lines.Keys;
      while rest != {}
        invariant rest <= lines.Keys
        invariant forall sku :: Lookup(sums, sku) == Sum(lines.Keys - rest, ReservedTerm(rows, lines, sku))
        decreases rest
      {
        var i := Choose(rest);
        var l := lines[i];
        ghost var before := sums;
        if l.orderId in rows && rows[l.orderId].status in {Pending, Processing} {
          sums := sums[l.line.sku := Lookup(sums, l.line.sku) + l.line.quantity];
        }
        forall sku ensures Lookup(sums, sku) == Sum(lines.Keys - (rest - {i}), ReservedTerm(rows, lines, sku)) {
          SumRemove(lines.Keys - (rest - {i}), i, ReservedTerm(rows, lines, sku));
          assert lines.Keys - (rest - {i}) - {i} == lines.Keys - rest;
          assert Lookup(sums, sku) == Lookup(before, sku) + TermAt(rows, l, sku);
          assert ReservedTerm(rows, lines, sku)(i) == TermAt(rows, l, sku);
        }
        rest := rest - {i};
      }
      assert lines.Keys - rest == lines.Keys;
      r := Ok(sums);
    }
  }

  /** Go's map read: a missing key is 0. */
  function Lookup(m: map<string, int>, sku: string): int {
    if sku in m then m[sku] else 0
  }

  /** A selection whose limit is the table size leaves nothing out. */
  lemma AllSelected(rows: Rows, p: Row -> bool, ids: seq<int>)
    requires OldestFirst(rows, p, |rows|, ids)
    ensures forall id :: id in rows && p(rows[id]) ==> id in ids
  {
    forall id | id in rows && p(rows[id]) ensures id in ids {
      if id !in ids {
        var chosen := set k | k in ids;
        DistinctCount(ids);
        assert chosen < rows.Keys && |chosen| == |rows|;
        StrictSubsetIsSmaller(chosen, rows.Keys);
        assert false;
      }
    }
  }

  lemma {:induction false} DistinctCount(ids: seq<int>)
    requires forall j, k :: 0 <= j < k < |ids| ==> ids[j] != ids[k]
    ensures |set k | k in ids| == |ids|
    decreases |ids|
  {
    if ids != [] {
      var init := ids[..|ids| - 1];
      var last := ids[|ids| - 1];
      DistinctCount(init);
      assert (set k | k in ids) == (set k | k in init) + {last} by {
        assert ids == init + [last];
      }
    }
  }

  lemma StrictSubsetIsSmaller(s: set<int>, t: set<int>)
    requires s < t
    ensures |s| < |t|
  {
    assert t == s + (t - s);
    var x := Pick(t - s);
    assert x in t - s;
  }
}
