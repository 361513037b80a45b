/** The daily cash report: which transactions a window holds, and which days the scheduler reports over restarts. */
module Reports {
  import opened Wrappers
  import opened Sums
  import opened Enet

  // ---------------------------------------------------------------- one report

  /** A transaction as Shopify returns it; an amount that does not parse is None. Amounts are in pence. */
  datatype RawTransaction = RawTransaction(
    id: int, kind: string, status: string, gateway: string, processedAt: int,
    amount: Option<int>, fees: seq<Option<int>>, receiptFee: Option<int>)

  datatype Transaction = Transaction(id: int, orderId: int, gross: int, fee: int, net: int, gateway: string, processedAt: int)

  /** A Shopify order, with the answer to the query for its transactions. */
  datatype Order = Order(id: int, processedAt: int, paid: bool, test: bool, answer: Exchange<seq<RawTransaction>>)

  predicate MoneyIn(t: RawTransaction) {
    t.status == "SUCCESS" && (t.kind == "SALE" || t.kind == "CAPTURE")
  }

  function FeeSum(fees: seq<Option<int>>): int {
    if fees == [] then 0
    else FeeSum(fees[..|fees| - 1]) + (match fees[|fees| - 1] case Some(n) => n case None => 0)
  }

  /** Shopify's own fees when there are any, else the receipt's, else none. */
  function FeeOf(t: RawTransaction): int {
    if t.fees != [] then FeeSum(t.fees) else if t.receiptFee.Some? then t.receiptFee.value else 0
  }

  function Converted(orderId: int, t: RawTransaction): Transaction
    requires t.amount.Some?
  {
    Transaction(t.id, orderId, t.amount.value, FeeOf(t), t.amount.value - FeeOf(t), t.gateway, t.processedAt)
  }

  /** Every payment received has an amount. */
  predicate Readable(ts: seq<RawTransaction>) {
    forall i :: 0 <= i < |ts| && MoneyIn(ts[i]) ==> ts[i].amount.Some?
  }

  function Payments(orderId: int, ts: seq<RawTransaction>): seq<Transaction>
    requires Readable(ts)
  {
    if ts == [] then []
    else
      var t := ts[|ts| - 1];
      Payments(orderId, ts[..|ts| - 1]) + (if MoneyIn(t) then [Converted(orderId, t)] else [])
  }

  /** The order is real and its transactions could be fetched and read. */
  predicate Usable(o: Order) {
    !o.test && o.answer.Answer? && Readable(o.answer.value)
  }

  predicate InWindow(at: int, since: int, until: int) {
    since <= at < until
  }

  predicate Counts(t: Transaction, since: int, until: int) {
    InWindow(t.processedAt, since, until) && t.gateway != "manual"
  }

  function Selected(ts: seq<Transaction>, since: int, until: int): seq<Transaction> {
    if ts == [] then []
    else Selected(ts[..|ts| - 1], since, until) + (if Counts(ts[|ts| - 1], since, until) then [ts[|ts| - 1]] else [])
  }

  /** The transactions of a list of orders that fall in a window, in order. */
  function Report(orders: seq<Order>, since: int, until: int): seq<Transaction> {
    if orders == [] then []
    else
      var o := orders[|orders| - 1];
      Report(orders[..|orders| - 1], since, until) + (if Usable(o) then Selected(Payments(o.id, o.answer.value), since, until) else [])
  }

  /** The orders that orders.json lists for a window: paid ones processed between its bounds, both included. */
  predicate Listed(o: Order, since: int, until: int) {
    o.paid && since <= o.processedAt <= until
  }

  lemma {:induction false} PaymentsAre(orderId: int, ts: seq<RawTransaction>, t: Transaction)
    requires Readable(ts)
    ensures t in Payments(orderId, ts) <==> exists i :: 0 <= i < |ts| && MoneyIn(ts[i]) && t == Converted(orderId, ts[i])
    decreases |ts|
  {
    if ts != [] {
      PaymentsAre(orderId, ts[..|ts| - 1], t);
    }
  }

  lemma {:induction false} SelectedAre(ts: seq<Transaction>, since: int, until: int, t: Transaction)
    ensures t in Selected(ts, since, until) <==> t in ts && Counts(t, since, until)
    decreases |ts|
  {
    if ts != [] {
      SelectedAre(ts[..|ts| - 1], since, until, t);
      assert ts == ts[..|ts| - 1] + [ts[|ts| - 1]];
    }
  }

  /** The i-th fee, and nothing if it does not parse. */
  function FeeAt(fees: seq<Option<int>>): int -> int {
    i => if 0 <= i < |fees| && fees[i].Some? then fees[i].value else 0
  }

  lemma {:induction false} FeeSumIsSum(fees: seq<Option<int>>, n: nat)
    requires n <= |fees|
    ensures FeeSum(fees[..n]) == Sum(Below(n), FeeAt(fees))
    decreases n
  {
    if n > 0 {
      FeeSumIsSum(fees, n - 1);
      OneMoreFee(fees, n - 1);
      SumBelow(n - 1, FeeAt(fees));
    }
  }

  lemma OneMoreFee(fees: seq<Option<int>>, n: nat)
    requires n < |fees|
    ensures FeeSum(fees[..n + 1]) == FeeSum(fees[..n]) + FeeAt(fees)(n)
  {
    assert fees[..n + 1][..n] == fees[..n];
  }

  /** t is what the program makes of raw, a successful sale or capture of an order: what was paid, the fee, and what is left. */
  ghost predicate Reads(orderId: int, raw: RawTransaction, t: Transaction) {
    && raw.status == "SUCCESS" && raw.kind in {"SALE", "CAPTURE"}
    && t.id == raw.id && t.orderId == orderId && t.gateway == raw.gateway && t.processedAt == raw.processedAt
    && raw.amount == Some(t.gross) && t.net == t.gross - t.fee
    && t.fee == if raw.fees != [] then Sum(Below(|raw.fees|), FeeAt(raw.fees)) else if raw.receiptFee.Some? then raw.receiptFee.value else 0
  }

  lemma ConvertedReads(orderId: int, raw: RawTransaction, t: Transaction)
    ensures Reads(orderId, raw, t) <==> MoneyIn(raw) && raw.amount.Some? && t == Converted(orderId, raw)
  {
    FeeSumIsSum(raw.fees, |raw.fees|);
    assert raw.fees[..|raw.fees|] == raw.fees;
  }

  /** Whether the i-th transaction is a payment received. */
  function PaidAt(ts: seq<RawTransaction>): int -> int {
    i => if 0 <= i < |ts| && ts[i].status == "SUCCESS" && ts[i].kind in {"SALE", "CAPTURE"} then 1 else 0
  }

  lemma {:induction false} PaymentsCount(orderId: int, ts: seq<RawTransaction>, n: nat)
    requires Readable(ts) && n <= |ts|
    ensures |Payments(orderId, ts[..n])| == Sum(Below(n), PaidAt(ts))
    decreases n
  {
    if n > 0 {
      PaymentsCount(orderId, ts, n - 1);
      assert ts[..n][..n - 1] == ts[..n - 1];
      SumBelow(n - 1, PaidAt(ts));
    }
  }

  lemma PaymentsRead(orderId: int, ts: seq<RawTransaction>)
    requires Readable(ts)
    ensures forall t :: t in Payments(orderId, ts) <==> exists raw :: raw in ts && Reads(orderId, raw, t)
    ensures |Payments(orderId, ts)| == Sum(Below(|ts|), PaidAt(ts))
  {
    forall t ensures t in Payments(orderId, ts) <==> exists raw :: raw in ts && Reads(orderId, raw, t) {
      PaymentsAre(orderId, ts, t);
      if t in Payments(orderId, ts) {
        var i :| 0 <= i < |ts| && MoneyIn(ts[i]) && t == Converted(orderId, ts[i]);
        ConvertedReads(orderId, ts[i], t);
        assert ts[i] in ts;
      }
      if raw :| raw in ts && Reads(orderId, raw, t) {
        ConvertedReads(orderId, raw, t);
      }
    }
    PaymentsCount(orderId, ts, |ts|);
    assert ts[..|ts|] == ts;
  }

  /** Every successful sale and capture of the order came with an amount that parses. */
  predicate AmountsParse(o: Order) {
    && o.answer.Answer?
    && forall raw :: raw in o.answer.value && raw.status == "SUCCESS" && raw.kind in {"SALE", "CAPTURE"} ==> raw.amount.Some?
  }

  /**
   The report of a day, on the fields: the successful sales and captures processed from midnight to midnight and not made by
   hand, of the orders that are no tests and whose transactions could be had and read.
   */
  lemma ReportOnFields(orders: seq<Order>, day: int, t: Transaction)
    ensures t in ReportFor(orders, day) <==>
      && 86400 * day <= t.processedAt < 86400 * (day + 1) && t.gateway != "manual"
      && exists o :: o in orders && !o.test && AmountsParse(o) && exists raw :: raw in o.answer.value && Reads(o.id, raw, t)
  {
    ReportHolds(orders, 86400 * day, 86400 * (day + 1), t);
    forall o: Order | Usable(o) ensures t in Payments(o.id, o.answer.value) <==> exists raw :: raw in o.answer.value && Reads(o.id, raw, t) {
      PaymentsRead(o.id, o.answer.value);
    }
    forall o: Order ensures Usable(o) <==> !o.test && AmountsParse(o) {
      UsableIs(o);
    }
    if exists i :: 0 <= i < |orders| && Pays(orders[i], t) {
      var i :| 0 <= i < |orders| && Pays(orders[i], t);
      assert orders[i] in orders;
    }
    if o :| o in orders && !o.test && AmountsParse(o) && exists raw :: raw in o.answer.value && Reads(o.id, raw, t) {
      var i :| 0 <= i < |orders| && orders[i] == o;
      assert Pays(orders[i], t);
    }
  }

  /** Whether the i-th transaction is a payment received in the window and not made by hand. */
  function KeptAt(ts: seq<RawTransaction>, since: int, until: int): int -> int {
    i => if 0 <= i < |ts| && ts[i].status == "SUCCESS" && ts[i].kind in {"SALE", "CAPTURE"}
            && since <= ts[i].processedAt < until && ts[i].gateway != "manual" then 1 else 0
  }

  /** How many of the i-th order's payments a report has. */
  ghost function SharedBy(orders: seq<Order>, since: int, until: int): int -> int {
    i => if 0 <= i < |orders| && !orders[i].test && AmountsParse(orders[i])
         then Sum(Below(|orders[i].answer.value|), KeptAt(orders[i].answer.value, since, until)) else 0
  }

  lemma SelectedOneMore(ts: seq<Transaction>, t: Transaction, since: int, until: int)
    ensures Selected(ts + [t], since, until) == Selected(ts, since, until) + (if Counts(t, since, until) then [t] else [])
  {
    assert (ts + [t])[..|ts|] == ts;
  }

  lemma KeptOneMore(orderId: int, ts: seq<RawTransaction>, since: int, until: int, n: nat)
    requires Readable(ts) && n < |ts|
    ensures |Selected(Payments(orderId, ts[..n + 1]), since, until)|
      == |Selected(Payments(orderId, ts[..n]), since, until)| + KeptAt(ts, since, until)(n)
  {
    assert ts[..n + 1][..n] == ts[..n];
    var before, after := Payments(orderId, ts[..n]), Payments(orderId, ts[..n + 1]);
    if MoneyIn(ts[n]) {
      assert after == before + [Converted(orderId, ts[n])];
      SelectedOneMore(before, Converted(orderId, ts[n]), since, until);
    } else {
      assert after == before;
    }
  }

  lemma {:induction false} KeptCount(orderId: int, ts: seq<RawTransaction>, since: int, until: int, n: nat)
    requires Readable(ts) && n <= |ts|
    ensures |Selected(Payments(orderId, ts[..n]), since, until)| == Sum(Below(n), KeptAt(ts, since, until))
    decreases n
  {
    if n > 0 {
      KeptCount(orderId, ts, since, until, n - 1);
      KeptOneMore(orderId, ts, since, until, n - 1);
      SumBelow(n - 1, KeptAt(ts, since, until));
    }
  }

  /** And each of them is in the report once. */
  lemma ReportCount(orders: seq<Order>, since: int, until: int)
    ensures |Report(orders, since, until)| == Sum(Below(|orders|), SharedBy(orders, since, until))
  {
    var count := (k: int) => if 0 <= k <= |orders| then |Report(orders[..k], since, until)| else 0;
    forall k | 0 <= k < |orders| ensures GrowsBy(count, SharedBy(orders, since, until), k) {
      ReportOneMore(orders, since, until, k);
    }
    SumOfSteps(count, SharedBy(orders, since, until), |orders|);
    assert orders[..|orders|] == orders;
  }

  lemma ReportOneMore(orders: seq<Order>, since: int, until: int, n: nat)
    requires n < |orders|
    ensures |Report(orders[..n + 1], since, until)| == |Report(orders[..n], since, until)| + SharedBy(orders, since, until)(n)
  {
    assert orders[..n + 1][..n] == orders[..n];
    var o := orders[n];
    UsableIs(o);
    if Usable(o) {
      KeptCount(o.id, o.answer.value, since, until, |o.answer.value|);
      assert o.answer.value[..|o.answer.value|] == o.answer.value;
    }
  }

  lemma UsableIs(o: Order)
    ensures Usable(o) <==> !o.test && AmountsParse(o)
  {
    if o.answer.Answer? && AmountsParse(o) {
      assert forall i :: 0 <= i < |o.answer.value| ==> o.answer.value[i] in o.answer.value;
    }
  }

  predicate Pays(o: Order, t: Transaction) {
    Usable(o) && t in Payments(o.id, o.answer.value)
  }

  /** A report holds exactly the payments in its window, not made by hand, of the usable orders it was built from. */
  lemma {:induction false} ReportHolds(orders: seq<Order>, since: int, until: int, t: Transaction)
    ensures t in Report(orders, since, until) <==> Counts(t, since, until) && exists i :: 0 <= i < |orders| && Pays(orders[i], t)
    decreases |orders|
  {
    if orders != [] {
      var n := |orders| - 1;
      ReportHolds(orders[..n], since, until, t);
      LastOrder(orders[n], since, until, t);
      assert (exists i :: 0 <= i < |orders| && Pays(orders[i], t)) <==> (exists i :: 0 <= i < n && Pays(orders[..n][i], t)) || Pays(orders[n], t);
    }
  }

  lemma LastOrder(o: Order, since: int, until: int, t: Transaction)
    ensures (Usable(o) && t in Selected(Payments(o.id, o.answer.value), since, until)) <==> Pays(o, t) && Counts(t, since, until)
  {
    if Usable(o) {
      SelectedAre(Payments(o.id, o.answer.value), since, until, t);
    }
  }

  /**
   A payment of a usable order is in the report of the window that holds it if and only if the order itself is listed for
   that window: paid, and processed no earlier than the window opens and no later than it closes.
   */
  lemma PaymentIsReportedIffOrderIsListed(shop: seq<Order>, o: Order, t: Transaction, since: int, until: int, listing: seq<Order>)
    requires forall x :: x in listing <==> x in shop && Listed(x, since, until)
    requires forall i, j :: 0 <= i < |shop| && 0 <= j < |shop| && shop[i].id == shop[j].id ==> shop[i] == shop[j]
    requires o in shop && Pays(o, t) && Counts(t, since, until)
    ensures t in Report(listing, since, until) <==> Listed(o, since, until)
  {
    ReportHolds(listing, since, until, t);
    if t in Report(listing, since, until) {
      var i :| 0 <= i < |listing| && Pays(listing[i], t);
      assert listing[i] in listing;
      PaymentsAre(listing[i].id, listing[i].answer.value, t);
      PaymentsAre(o.id, o.answer.value, t);
      assert listing[i].id == o.id;
    }
  }

  class TransactionsFetcher {
    constructor () {
    }

    method ExtractFee(t: RawTransaction) returns (fee: int)
      ensures fee == FeeOf(t)
      ensures fee == if t.fees != [] then Sum(Below(|t.fees|), FeeAt(t.fees)) else if t.receiptFee.Some? then t.receiptFee.value else 0
    {
      FeeSumIsSum(t.fees, |t.fees|);
      fee := 0;
      if |t.fees| > 0 {
        for i := 0 to |t.fees|
          invariant fee == FeeSum(t.fees[..i])
        {
          assert t.fees[..i + 1][..i] == t.fees[..i];
          if t.fees[i].Some? {
            fee := fee + t.fees[i].value;
          }
        }
        assert t.fees[..|t.fees|] == t.fees;
      } else if t.receiptFee.Some? {
        fee := t.receiptFee.value;
      }
    }

    /** The payments of one order; one unreadable amount gives up the whole order. */
    method FetchForOrder(o: Order) returns (r: Option<seq<Transaction>>)
      ensures r.Some? <==> o.answer.Answer? && Readable(o.answer.value)
      ensures r.Some? ==> r.value == Payments(o.id, o.answer.value)
      ensures r.Some? <==> AmountsParse(o)
      ensures r.Some? ==> forall t :: t in r.value <==> exists raw :: raw in o.answer.value && Reads(o.id, raw, t)
      ensures r.Some? ==> |r.value| == Sum(Below(|o.answer.value|), PaidAt(o.answer.value))
    {
      UsableIs(o.(test := false));
      if o.answer.NoAnswer? {
        return None;
      }
      var ts := o.answer.value;
      var all: seq<Transaction> := [];
      for i := 0 to |ts|
        invariant Readable(ts[..i]) && all == Payments(o.id, ts[..i])
      {
        assert ts[..i + 1][..i] == ts[..i];
        if ts[i].status == "SUCCESS" && (ts[i].kind == "SALE" || ts[i].kind == "CAPTURE") {
          if ts[i].amount.None? {
            return None;
          }
          var gross := ts[i].amount.value;
          var fee := ExtractFee(ts[i]);
          all := all + [Transaction(ts[i].id, o.id, gross, fee, gross - fee, ts[i].gateway, ts[i].processedAt)];
        }
      }
      assert ts[..|ts|] == ts;
      r := Some(all);
      PaymentsRead(o.id, ts);
    }

    /** Only a failed listing fails; test orders and orders that cannot be fetched are passed over. */
    method FetchOrdersInWindow(listing: Exchange<seq<Order>>, since: int, until: int) returns (r: Option<seq<Transaction>>)
      ensures r.Some? <==> listing.Answer?
      ensures r.Some? ==> r.value == Report(listing.value, since, until)
      ensures r.Some? ==> |r.value| == Sum(Below(|listing.value|), SharedBy(listing.value, since, until))
    {
      if listing.NoAnswer? {
        return None;
      }
      var orders := listing.value;
      var all: seq<Transaction> := [];
      for i := 0 to |orders|
        invariant all == Report(orders[..i], since, until)
      {
        assert orders[..i + 1][..i] == orders[..i];
        if orders[i].test {
          continue;
        }
        var fetched := FetchForOrder(orders[i]);
        if fetched.None? {
          continue;
        }
        var kept := Select(fetched.value, since, until);
        all := all + kept;
      }
      assert orders[..|orders|] == orders;
      ReportCount(orders, since, until);
      r := Some(all);
    }

    method Select(ts: seq<Transaction>, since: int, until: int) returns (kept: seq<Transaction>)
      ensures kept == Selected(ts, since, until)
    {
      kept := [];
      for i := 0 to |ts|
        invariant kept == Selected(ts[..i], since, until)
      {
        assert ts[..i + 1][..i] == ts[..i];
        if ts[i].processedAt < since || !(ts[i].processedAt < until) {
          continue;
        }
        if ts[i].gateway == "manual" {
          continue;
        }
        kept := kept + [ts[i]];
      }
      assert ts[..|ts|] == ts;
    }
  }

  // ---------------------------------------------------------------- the scheduler

  const HOUR := 3600

  const DAY := 86400

  /** The day number of the zero time, 1 January of year 1; day 0 is 1 January 1970. */
  const ZERO_DAY := -719162

  function DayOf(now: int): int {
    now / DAY
  }

  /** The report for a day: from midnight up to the next midnight. */
  function ReportFor(orders: seq<Order>, day: int): seq<Transaction> {
    Report(orders, DAY * day, DAY * (day + 1))
  }

  function HourOf(now: int): int {
    now % DAY / HOUR
  }

  /** What writing the state file leaves behind: the new date, the old contents, or a file that does not parse. */
  datatype WriteOutcome = Written | Kept | Torn

  /** Sent means the report went out and the state file is not yet written. */
  datatype Pc = Idle | Sent(day: int)

  /** The scheduler and its state file; sent is the dates it has reported successfully, oldest first. */
  datatype State = State(up: bool, lastSent: int, file: Option<int>, pc: Pc, sent: seq<int>)

  datatype Step = Check(now: int, sends: bool) | Write(outcome: WriteOutcome) | Crash | Restart

  predicate Due(s: State, hour: int, now: int) {
    s.up && s.pc.Idle? && HourOf(now) == hour && s.lastSent < DayOf(now)
  }

  function Loaded(file: Option<int>): int {
    if file.Some? then file.value else ZERO_DAY
  }

  /** One step, with the send hour and whether a state directory is configured. A crash can fall between any two. */
  function Apply(hour: int, keeps: bool, s: State, step: Step): State {
    match step
    case Check(now, sends) =>
      if Due(s, hour, now) && sends then s.(lastSent := DayOf(now), pc := Sent(DayOf(now)), sent := s.sent + [DayOf(now) - 1]) else s
    case Write(outcome) =>
      if s.up && s.pc.Sent? then
        s.(pc := Idle,
           file := if !keeps || outcome.Kept? then s.file else if outcome.Written? then Some(s.pc.day) else None)
      else s
    case Crash => s.(up := false, pc := Idle)
    case Restart => if s.up then s else s.(up := true, lastSent := if keeps then Loaded(s.file) else ZERO_DAY)
  }

  function Run(hour: int, keeps: bool, s: State, steps: seq<Step>): State {
    if steps == [] then s else Apply(hour, keeps, Run(hour, keeps, s, steps[..|steps| - 1]), steps[|steps| - 1])
  }

  ghost predicate StrictlyLater(sent: seq<int>) {
    forall i, j :: 0 <= i < j < |sent| ==> sent[i] < sent[j]
  }

  /** Every write of the state file succeeds, and no crash falls between a send and its write. */
  ghost predicate WritesLand(hour: int, s: State, steps: seq<Step>) {
    forall i :: 0 <= i < |steps| ==>
      && (steps[i].Write? ==> steps[i].outcome.Written?)
      && (steps[i].Crash? ==> Run(hour, true, s, steps[..i]).pc.Idle?)
  }

  /** The scheduler knows, or will know after a restart, the day of its last report. */
  ghost predicate Remembers(s: State) {
    && StrictlyLater(s.sent) && (!s.up ==> s.pc.Idle?)
    && (s.sent != [] ==>
      var last := s.sent[|s.sent| - 1] + 1;
      (s.up ==> s.lastSent == last) && (if s.pc.Idle? then s.file == Some(last) else s.pc.day == last))
  }

  lemma StepRemembers(hour: int, s: State, step: Step)
    requires Remembers(s)
    requires step.Write? ==> step.outcome.Written?
    requires step.Crash? ==> s.pc.Idle?
    ensures Remembers(Apply(hour, true, s, step))
  {
  }

  /** Over any clock readings, failed sends, crashes and restarts, with the state file written, the reported dates strictly increase. */
  lemma {:induction false} ReportedDatesStrictlyIncrease(hour: int, s: State, steps: seq<Step>)
    requires s.sent == [] && s.pc.Idle? && WritesLand(hour, s, steps)
    ensures Remembers(Run(hour, true, s, steps))
    decreases |steps|
  {
    if steps != [] {
      var n := |steps| - 1;
      assert forall i :: 0 <= i < n ==> steps[..n][..i] == steps[..i];
      ReportedDatesStrictlyIncrease(hour, s, steps[..n]);
      StepRemembers(hour, Run(hour, true, s, steps[..n]), steps[n]);
    }
  }

  /** So no payment is in two scheduled reports, whatever Shopify lists for each. */
  lemma NoPaymentIsReportedTwice(hour: int, s: State, steps: seq<Step>, listings: int -> seq<Order>, i: int, j: int, t: Transaction)
    requires s.sent == [] && s.pc.Idle? && WritesLand(hour, s, steps)
    requires 0 <= i < j < |Run(hour, true, s, steps).sent|
    ensures var sent := Run(hour, true, s, steps).sent;
      !(t in ReportFor(listings(i), sent[i]) && t in ReportFor(listings(j), sent[j]))
  {
    ReportedDatesStrictlyIncrease(hour, s, steps);
    var sent := Run(hour, true, s, steps).sent;
    WindowsAreDisjoint(listings(i), sent[i], listings(j), sent[j], t);
  }

  lemma WindowsAreDisjoint(p: seq<Order>, d: int, q: seq<Order>, e: int, t: Transaction)
    requires d < e
    ensures !(t in ReportFor(p, d) && t in ReportFor(q, e))
  {
    ReportHolds(p, DAY * d, DAY * (d + 1), t);
    ReportHolds(q, DAY * e, DAY * (e + 1), t);
  }

  /**
   A scheduler that is up cannot repeat or go back on a date at its next check, whatever the clock says, if and only if
   the day it holds is not before the day of its last report.
   */
  lemma NoRepeatIffDayIsHeld(hour: int, s: State)
    requires 0 <= hour < 24 && s.up && s.pc.Idle? && StrictlyLater(s.sent)
    ensures (forall now, sends :: StrictlyLater(Apply(hour, true, s, Check(now, sends)).sent))
      <==> s.sent == [] || s.sent[|s.sent| - 1] + 1 <= s.lastSent
  {
    if s.sent != [] && s.lastSent < s.sent[|s.sent| - 1] + 1 {
      var n := |s.sent|;
      var now := DAY * (s.sent[n - 1] + 1) + HOUR * hour;
      TimeAt(s.sent[n - 1] + 1, hour);
      var sent := Apply(hour, true, s, Check(now, true)).sent;
      assert sent[n - 1] == sent[n];
    }
  }

  lemma TimeAt(day: int, hour: int)
    requires 0 <= hour < 24
    ensures DayOf(DAY * day + HOUR * hour) == day && HourOf(DAY * day + HOUR * hour) == hour
  {
  }

  /** A failed write and a restart inside the send hour report the same date twice. */
  lemma LostWriteRepeatsAReport(hour: int, day: int)
    requires 0 <= hour < 24 && day > ZERO_DAY
    ensures var s := State(true, ZERO_DAY, None, Idle, []);
      var now := DAY * day + HOUR * hour;
      Run(hour, true, s, [Check(now, true), Write(Kept), Crash, Restart, Check(now, true)]).sent == [day - 1, day - 1]
  {
    TimeAt(day, hour);
    var now := DAY * day + HOUR * hour;
    var s := State(true, ZERO_DAY, None, Idle, []);
    var first := [Check(now, true)];
    OneMoreStep(hour, s, [], first[0]);
    assert [] + first == first;
    OneMoreStep(hour, s, first, Write(Kept));
    OneMoreStep(hour, s, first + [Write(Kept)], Crash);
    OneMoreStep(hour, s, first + [Write(Kept)] + [Crash], Restart);
    OneMoreStep(hour, s, first + [Write(Kept)] + [Crash] + [Restart], first[0]);
    assert first + [Write(Kept)] + [Crash] + [Restart] + first == [Check(now, true), Write(Kept), Crash, Restart, Check(now, true)];
  }

  lemma OneMoreStep(hour: int, s: State, steps: seq<Step>, step: Step)
    ensures Run(hour, true, s, steps + [step]) == Apply(hour, true, Run(hour, true, s, steps), step)
  {
    assert (steps + [step])[..|steps|] == steps;
  }

  // ---------------------------------------------------------------- the reporter

  class StateFile {
    const configured: bool
    var date: Option<int>

    constructor (configured: bool, date: Option<int>)
      ensures this.configured == configured && this.date == date
    {
      this.configured, this.date := configured, date;
    }

    method ReadLastSent() returns (day: int)
      ensures day == if configured then Loaded(date) else ZERO_DAY
    {
      if !configured || date.None? {
        return ZERO_DAY;
      }
      day := date.value;
    }

    method WriteLastSent(day: int, outcome: WriteOutcome)
      modifies this
      ensures date == if !configured || outcome.Kept? then old(date) else if outcome.Written? then Some(day) else None
    {
      if configured && !outcome.Kept? {
        date := if outcome.Written? then Some(day) else None;
      }
    }
  }

  /** A report that was mailed. */
  datatype Mail = Mail(day: int, transactions: seq<Transaction>)

  class DailyReporter {
    const source: TransactionsFetcher
    const file: StateFile
    const hour: int
    var lastSent: int
    ghost var outbox: seq<Mail>
    ghost var deadLetters: seq<Mail>

    /** Starting to run reads the state file. */
    constructor (source: TransactionsFetcher, file: StateFile, hour: int)
      ensures this.source == source && this.file == file && this.hour == hour && outbox == [] && deadLetters == []
      ensures lastSent == if file.configured then Loaded(file.date) else ZERO_DAY
    {
      this.source, this.file, this.hour, outbox, deadLetters := source, file, hour, [], [];
      var day := file.ReadLastSent();
      lastSent := day;
    }

    ghost function View(): State
      reads this, file
    {
      State(true, lastSent, file.date, Idle, seq(|outbox|, i requires 0 <= i < |outbox| reads this => outbox[i].day))
    }

    /** Fetches, then mails; a report that cannot be mailed is kept as a dead letter. */
    method SendForDate(day: int, listing: Exchange<seq<Order>>, mailed: bool) returns (ok: bool)
      modifies this`outbox, this`deadLetters
      ensures ok <==> listing.Answer? && mailed
      ensures outbox == old(outbox) + if ok then [Mail(day, ReportFor(listing.value, day))] else []
      ensures deadLetters ==
        old(deadLetters) + if listing.Answer? && !mailed then [Mail(day, ReportFor(listing.value, day))] else []
    {
      var start := DAY * day;
      var end := start + DAY;
      var txns := source.FetchOrdersInWindow(listing, start, end);
      if txns.None? {
        return false;
      }
      if !mailed {
        deadLetters := deadLetters + [Mail(day, txns.value)];
        return false;
      }
      outbox := outbox + [Mail(day, txns.value)];
      ok := true;
    }

    /** A tick is a Check and a Write of the machine above. */
    method Check(now: int, listing: Exchange<seq<Order>>, mailed: bool, outcome: WriteOutcome)
      modifies this, file
      ensures View() == Run(hour, file.configured, old(View()), [Step.Check(now, listing.Answer? && mailed), Write(outcome)])
      ensures outbox == old(outbox)
        + if Due(old(View()), hour, now) && listing.Answer? && mailed
          then [Mail(DayOf(now) - 1, ReportFor(listing.value, DayOf(now) - 1))] else []
      ensures now % 86400 / 3600 == hour && old(lastSent) < now / 86400 && listing.Answer? && mailed ==>
        && lastSent == now / 86400
        && |outbox| == |old(outbox)| + 1 && outbox[..|old(outbox)|] == old(outbox) && outbox[|old(outbox)|].day == now / 86400 - 1
      ensures !(now % 86400 / 3600 == hour && old(lastSent) < now / 86400 && listing.Answer? && mailed) ==>
        lastSent == old(lastSent) && outbox == old(outbox) && file.date == old(file.date)
    {
      ghost var before := View();
      ghost var a, b := Step.Check(now, listing.Answer? && mailed), Write(outcome);
      assert [a, b][..1] == [a] && [a][..0] == [];
      assert Run(hour, file.configured, before, [a]) == Apply(hour, file.configured, before, a);
      if HourOf(now) != hour {
        return;
      }
      var today := DayOf(now);
      if !(lastSent < today) {
        return;
      }
      var ok := SendForDate(today - 1, listing, mailed);
      if !ok {
        return;
      }
      lastSent := today;
      file.WriteLastSent(today, outcome);
      assert View().sent == before.sent + [today - 1];
    }
  }
}
