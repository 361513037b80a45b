/** The batch processor: one cycle of fetch, open, submit in order, close. */
module Batch {
  import opened Wrappers
  import opened Sums
  import opened Store
  import opened Sortoi
  import opened Session
  import opened Enet
  import Lifecycle

  /** What happens to the k-th order of a batch: a cancellation seen before it, and the outcome of each call for it. */
  datatype OrderEnv = OrderEnv(cancelled: bool, claimFault: Fault, x: Exchange<Response>, recordFault: Fault, now: int)

  type Env = int -> OrderEnv

  function ReplyTo(x: Exchange<Response>): Reply {
    if x.NoAnswer? then InfraError("syspro SORTOI transaction") else ParseResponse(x.value)
  }

  /** No business answer came back: no response, or one that is not XML. */
  predicate Unanswered(x: Exchange<Response>) {
    x.NoAnswer? || x.value.Malformed?
  }

  lemma UnansweredIsInfra(x: Exchange<Response>)
    ensures ReplyTo(x).InfraError? <==> Unanswered(x)
  {
  }

  /** The batch stops after this order: its claim failed, or SYSPRO did not give a business answer. */
  predicate Stops(e: OrderEnv) {
    !e.claimFault.NoFault? || Unanswered(e.x)
  }

  ghost predicate NoStopBefore(env: Env, m: int) {
    forall k :: 0 <= k < m ==> !Stops(env(k))
  }

  /** What becomes of a pending row whose snapshot says attempts. */
  function RowAfter(row: Row, attempts: int, e: OrderEnv): Row {
    var claimed := row.(status := Processing, updatedAt := e.now);
    if e.claimFault.Lost? then row
    else if e.claimFault.AnswerLost? || e.recordFault.Lost? then claimed
    else
      match ReplyTo(e.x)
      case InfraError(message) =>
        claimed.(status := if attempts + 1 >= 3 then DeadLetter else Pending, attempts := attempts + 1, lastError := message)
      case Rejected(message) => claimed.(status := Failed, attempts := attempts, lastError := message)
      case Accepted(number) => claimed.(status := Submitted, sysproNumber := number, attempts := attempts + 1, lastError := "")
  }

  /** The first n of len orders are acted on: the prefix ends at the first stop, the first cancellation, or the end. */
  ghost predicate ActedOn(len: nat, env: Env, n: nat) {
    && n <= len
    && (forall k :: 0 <= k < n ==> !env(k).cancelled)
    && NoStopBefore(env, n - 1)
    && (n == len || env(n).cancelled || (n > 0 && Stops(env(n - 1))))
  }

  /** rows' is rows after the first n orders were acted on; every other row is as it was. */
  ghost predicate BatchResult(rows: Rows, orders: seq<OrderWithLines>, env: Env, n: nat, rows': Rows)
    requires n <= |orders|
  {
    && rows'.Keys == rows.Keys
    && (forall k :: 0 <= k < n ==>
          orders[k].id in rows && rows'[orders[k].id] == RowAfter(rows[orders[k].id], orders[k].row.attempts, env(k)))
    && (forall id :: id in rows && (forall k :: 0 <= k < n ==> orders[k].id != id) ==> rows'[id] == rows[id])
  }

  /** The SORTOI documents sent: one for each order acted on whose claim was answered. */
  function Sent(orders: seq<OrderWithLines>, env: Env, n: nat, config: Config): seq<Body>
    requires n <= |orders|
  {
    if n == 0 then []
    else
      Sent(orders, env, n - 1, config)
        + (if env(n - 1).claimFault.NoFault?
           then [SORTOI(DocumentOf(orders[n - 1].row.order, orders[n - 1].lines, config))] else [])
  }

  /** Fetched orders are pending rows under their snapshots, each once. */
  ghost predicate FreshOrders(rows: Rows, orders: seq<OrderWithLines>) {
    && (forall k :: 0 <= k < |orders| ==>
          orders[k].id in rows && rows[orders[k].id] == orders[k].row && orders[k].row.status.Pending?)
    && (forall j, k :: 0 <= j < k < |orders| ==> orders[j].id != orders[k].id)
  }

  predicate Hits(rows: Rows, id: int) {
    id in rows && rows[id].status.Pending?
  }

  /** The rows after one submitOrder. */
  function AfterSubmit(rows: Rows, o: OrderWithLines, e: OrderEnv): Rows {
    if Hits(rows, o.id) then rows[o.id := RowAfter(rows[o.id], o.row.attempts, e)] else rows
  }

  /** The documents one submitOrder sends. */
  function CallsOf(rows: Rows, o: OrderWithLines, e: OrderEnv, config: Config): seq<Body> {
    if Hits(rows, o.id) && e.claimFault.NoFault? then [SORTOI(DocumentOf(o.row.order, o.lines, config))] else []
  }

  predicate FailsAt(rows: Rows, o: OrderWithLines, e: OrderEnv) {
    !e.claimFault.NoFault? || (Hits(rows, o.id) && Unanswered(e.x))
  }

  /** The order after a batch prefix is still the fetched pending row, so one more submitOrder extends the prefix. */
  lemma OneMoreOrder(rows: Rows, orders: seq<OrderWithLines>, env: Env, n: nat, before: Rows, config: Config)
    requires n < |orders| && FreshOrders(rows, orders) && BatchResult(rows, orders, env, n, before)
    ensures Hits(before, orders[n].id) && before[orders[n].id] == rows[orders[n].id] == orders[n].row
    ensures BatchResult(rows, orders, env, n + 1, AfterSubmit(before, orders[n], env(n)))
    ensures Sent(orders, env, n + 1, config) == Sent(orders, env, n, config) + CallsOf(before, orders[n], env(n), config)
    ensures FailsAt(before, orders[n], env(n)) == Stops(env(n))
  {
  }

  /** The loop has acted on n orders, none after a stop or a cancellation; stop says whether the last one stopped it. */
  ghost predicate Progress(rows: Rows, orders: seq<OrderWithLines>, env: Env, n: nat, stop: bool, rows': Rows) {
    && n <= |orders| && BatchResult(rows, orders, env, n, rows')
    && (forall k :: 0 <= k < n ==> !env(k).cancelled)
    && NoStopBefore(env, if stop then n - 1 else n)
    && (stop ==> n > 0 && Stops(env(n - 1)))
  }

  lemma ProgressStep(rows: Rows, orders: seq<OrderWithLines>, env: Env, n: nat, rows': Rows, config: Config)
    requires n < |orders| && FreshOrders(rows, orders) && Progress(rows, orders, env, n, false, rows') && !env(n).cancelled
    ensures Progress(rows, orders, env, n + 1, FailsAt(rows', orders[n], env(n)), AfterSubmit(rows', orders[n], env(n)))
    ensures Sent(orders, env, n + 1, config) == Sent(orders, env, n, config) + CallsOf(rows', orders[n], env(n), config)
  {
    OneMoreOrder(rows, orders, env, n, rows', config);
    ProgressExtends(rows, orders, env, n, FailsAt(rows', orders[n], env(n)), AfterSubmit(rows', orders[n], env(n)));
  }

  lemma ProgressExtends(rows: Rows, orders: seq<OrderWithLines>, env: Env, n: nat, stop: bool, rows': Rows)
    requires n < |orders| && BatchResult(rows, orders, env, n + 1, rows') && stop == Stops(env(n))
    requires (forall k :: 0 <= k < n ==> !env(k).cancelled) && NoStopBefore(env, n) && !env(n).cancelled
    ensures Progress(rows, orders, env, n + 1, stop, rows')
  {
  }

  lemma FetchedAreFresh(rows: Rows, lines: LineRows, ids: seq<int>, orders: seq<OrderWithLines>, limit: nat)
    requires OldestFirst(rows, AwaitsSubmission, limit, ids) && SnapshotsOf(rows, lines, ids, orders)
    ensures FreshOrders(rows, orders)
  {
  }

  lemma RequestsAppend(log: seq<Event>, guid: int, p: seq<Body>, q: seq<Body>)
    ensures log + Requests(guid, p) + Requests(guid, q) == log + Requests(guid, p + q)
  {
    assert Requests(guid, p + q) == Requests(guid, p) + Requests(guid, q);
  }

  lemma ResultUnique(rows: Rows, orders: seq<OrderWithLines>, env: Env, n: nat, p: Rows, q: Rows)
    requires n <= |orders| && BatchResult(rows, orders, env, n, p) && BatchResult(rows, orders, env, n, q)
    ensures p == q
  {
    forall id | id in rows ensures p[id] == q[id] {
      if k :| 0 <= k < n && orders[k].id == id {
        assert p[orders[k].id] == q[orders[k].id];
      }
    }
  }

  /**
   What an answer makes of a claimed row, on the answer's fields: submitted under its sales order number; failed when it has
   none and there is an Order element or nothing was processed; back in the queue or dead when it is no answer.
   */
  predicate Reflects(row: Row, was: Row, attempts: int, x: Exchange<Response>) {
    if x.NoAnswer? || x.value.Malformed? then
      && row.status == (if attempts >= 2 then DeadLetter else Pending) && row.attempts == attempts + 1
      && row.sysproNumber == was.sysproNumber
    else
      && (x.value.salesOrder != "" ==>
            row.status.Submitted? && row.sysproNumber == x.value.salesOrder && row.attempts == attempts + 1)
      && (row.status.Failed? <==> x.value.salesOrder == "" && (x.value.customerPoNumber != "" || x.value.itemsProcessed in {"", "000000"}))
      && (if row.status.Failed? then row.attempts == attempts && row.sysproNumber == was.sysproNumber
          else row.status.Submitted? && row.attempts == attempts + 1 && row.sysproNumber == x.value.salesOrder)
  }

  /** What one submitOrder does, on the fields: only a pending row is acted on, and no other row changes. */
  ghost predicate SubmitResult(rows: Rows, o: OrderWithLines, e: OrderEnv, rows': Rows, errInfra: bool) {
    if !(o.id in rows && rows[o.id].status.Pending?) then rows' == rows && (errInfra <==> !e.claimFault.NoFault?)
    else
      && rows'.Keys == rows.Keys && (forall id :: id in rows && id != o.id ==> rows'[id] == rows[id])
      && (errInfra <==> !e.claimFault.NoFault? || e.x.NoAnswer? || e.x.value.Malformed?)
      && (e.claimFault.Lost? ==> rows' == rows)
      && (e.claimFault.AnswerLost? || (e.claimFault.NoFault? && e.recordFault.Lost?) ==>
            rows'[o.id] == rows[o.id].(status := Processing, updatedAt := e.now))
      && (e.claimFault.NoFault? && !e.recordFault.Lost? ==> Reflects(rows'[o.id], rows[o.id], o.row.attempts, e.x))
  }

  lemma ClaimAndRecord(rows: Rows, o: OrderWithLines, e: OrderEnv)
    requires Hits(rows, o.id) && e.claimFault.NoFault?
    ensures var claimed := Claimed(rows, o.id, e.now);
      AfterSubmit(rows, o, e) == if e.recordFault.Lost? then claimed else
        Lifecycle.Recorded(claimed, Lifecycle.Snap(o.id, o.row.attempts), ReplyTo(e.x), e.now)
  {
  }

  lemma SubmitOnFields(rows: Rows, o: OrderWithLines, e: OrderEnv)
    ensures SubmitResult(rows, o, e, AfterSubmit(rows, o, e), FailsAt(rows, o, e))
  {
    if Hits(rows, o.id) && e.claimFault.NoFault? && !e.recordFault.Lost? {
      AnswerIsReflected(rows[o.id], o.row.attempts, e);
    }
  }

  lemma AnswerIsReflected(row: Row, attempts: int, e: OrderEnv)
    requires e.claimFault.NoFault? && !e.recordFault.Lost?
    ensures Reflects(RowAfter(row, attempts, e), row, attempts, e.x)
  {
  }

  /** Both writes for the order happened, and SYSPRO gave a business answer. */
  predicate Answered(e: OrderEnv) {
    e.claimFault.NoFault? && !e.recordFault.Lost? && e.x.Answer? && e.x.value.Response?
  }

  /**
   What SYSPRO's answers make of the first n orders, on the answers' fields: submitted under the sales order number that one
   gives, and failed exactly when it gives none and has an Order element or processed nothing.
   */
  ghost predicate AnswersTell(orders: seq<OrderWithLines>, env: Env, n: nat, rows': Rows)
    requires n <= |orders|
  {
    forall k :: 0 <= k < n && Answered(env(k)) ==>
      orders[k].id in rows'
      && var x, row := env(k).x.value, rows'[orders[k].id];
      && (x.salesOrder != "" ==>
            row.status.Submitted? && row.sysproNumber == x.salesOrder && row.attempts == orders[k].row.attempts + 1)
      && (row.status.Failed? <==> x.salesOrder == "" && (x.customerPoNumber != "" || x.itemsProcessed in {"", "000000"}))
  }

  /** The claim was answered and SYSPRO gave a business answer, so the batch goes on. */
  predicate Continues(e: OrderEnv) {
    e.claimFault.NoFault? && e.x.Answer? && e.x.value.Response?
  }

  /** Of len orders a batch acts on n: none was reached cancelled, each but the last let it go on, and something ended it there. */
  ghost predicate EndsThere(len: nat, env: Env, n: nat) {
    && n <= len && (forall k :: 0 <= k < n ==> !env(k).cancelled) && (forall k :: 0 <= k < n - 1 ==> Continues(env(k)))
    && (n == len || env(n).cancelled || (n > 0 && !Continues(env(n - 1))))
  }

  lemma ActedOnMeans(len: nat, env: Env, n: nat)
    ensures ActedOn(len, env, n) <==> EndsThere(len, env, n)
  {
    assert forall k :: Stops(env(k)) <==> !Continues(env(k));
  }

  /** Every order that a batch acted on ends as SYSPRO's answer says. */
  lemma AnswersDecideRows(rows: Rows, orders: seq<OrderWithLines>, env: Env, n: nat, rows': Rows)
    requires n <= |orders| && BatchResult(rows, orders, env, n, rows')
    ensures AnswersTell(orders, env, n, rows')
  {
    forall k | 0 <= k < n && Answered(env(k))
      ensures orders[k].id in rows' && Reflects(rows'[orders[k].id], rows[orders[k].id], orders[k].row.attempts, env(k).x)
    {
      AnswerIsReflected(rows[orders[k].id], orders[k].row.attempts, env(k));
    }
  }

  class Processor {
    const db: Db
    const client: EnetClient
    var running: bool

    constructor (db: Db, client: EnetClient)
      ensures this.db == db && this.client == client && !running
    {
      this.db, this.client, running := db, client, false;
    }

    /**
     Claim, submit, record. Returns true for errInfra. A row that is not pending is passed over. On SYSPRO's answer to a
     claimed one, when both writes happen: a sales order number makes it submitted under that number; an Order element
     without one, or no items processed, makes it failed; neither makes it submitted without a number; no answer, or one that
     is not XML, sends it back to the queue or, at the third time, to the dead letters.
     */
    method SubmitOrder(session: EnetSession, o: OrderWithLines, e: OrderEnv) returns (errInfra: bool)
      requires session.client == client && client.Valid() && client.At() == InSession(session.guid)
      modifies db`rows, client
      ensures client.Valid() && client.At() == InSession(session.guid)
      ensures db.rows == AfterSubmit(old(db.rows), o, e)
      ensures errInfra == FailsAt(old(db.rows), o, e)
      ensures client.log == old(client.log) + Requests(session.guid, CallsOf(old(db.rows), o, e, client.config))
      ensures SubmitResult(old(db.rows), o, e, db.rows, errInfra)
      ensures o.id in old(db.rows) && old(db.rows)[o.id].status.Pending? && e.claimFault.NoFault? ==>
        client.log == old(client.log) + [Request(session.guid, SORTOI(DocumentOf(o.row.order, o.lines, client.config)))]
    {
      SubmitOnFields(db.rows, o, e);
      var ok := db.MarkOrderProcessing(o.id, e.now, e.claimFault);
      if ok.Err? {
        return true;
      }
      if !ok.value {
        return false;
      }
      ClaimAndRecord(old(db.rows), o, e);
      UnansweredIsInfra(e.x);
      var reply := session.SubmitOrder(o.row.order, o.lines, e.x);
      errInfra := RecordReply(o, reply, e.now, e.recordFault);
    }

    /** The write that a reply calls for. */
    method RecordReply(o: OrderWithLines, reply: Reply, now: int, fault: Fault) returns (errInfra: bool)
      modifies db`rows
      ensures db.rows == if fault.Lost? then old(db.rows) else
        Lifecycle.Recorded(old(db.rows), Lifecycle.Snap(o.id, o.row.attempts), reply, now)
      ensures errInfra <==> reply.InfraError?
    {
      match reply {
        case InfraError(message) =>
          var newAttempts := o.row.attempts + 1;
          var status := if newAttempts >= Lifecycle.MAX_ATTEMPTS then DeadLetter else Pending;
          var _ := db.UpdateOrderStatus(o.id, status, newAttempts, message, now, fault);
          return true;
        case Rejected(message) =>
          var _ := db.UpdateOrderStatus(o.id, Failed, o.row.attempts, message, now, fault);
        case Accepted(number) =>
          var _ := db.UpdateOrderSubmitted(o.id, number, o.row.attempts + 1, now, fault);
      }
      errInfra := false;
    }

    /** One turn of the loop: submit the next order. */
    method SubmitNext(session: EnetSession, list: seq<OrderWithLines>, env: Env, n: nat, ghost rows: Rows) returns (errInfra: bool)
      requires session.client == client && client.Valid() && client.At() == InSession(session.guid)
      requires n < |list| && !env(n).cancelled && FreshOrders(rows, list) && Progress(rows, list, env, n, false, db.rows)
      modifies db`rows, client
      ensures client.Valid() && client.At() == InSession(session.guid)
      ensures Progress(rows, list, env, n + 1, errInfra, db.rows)
      ensures forall log :: old(client.log) == log + Requests(session.guid, Sent(list, env, n, client.config)) ==>
        client.log == log + Requests(session.guid, Sent(list, env, n + 1, client.config))
    {
      ProgressStep(rows, list, env, n, db.rows, client.config);
      ghost var calls := CallsOf(db.rows, list[n], env(n), client.config);
      forall log {
        RequestsAppend(log, session.guid, Sent(list, env, n, client.config), calls);
      }
      errInfra := SubmitOrder(session, list[n], env(n));
    }

    /** The loop over the fetched orders: it breaks on cancellation and on errInfra. */
    method SubmitAll(session: EnetSession, list: seq<OrderWithLines>, env: Env) returns (n: nat)
      requires session.client == client && client.Valid() && client.At() == InSession(session.guid)
      requires FreshOrders(db.rows, list)
      modifies db`rows, client
      ensures client.Valid() && client.At() == InSession(session.guid)
      ensures n <= |list| && ActedOn(|list|, env, n) && BatchResult(old(db.rows), list, env, n, db.rows)
      ensures client.log == old(client.log) + Requests(session.guid, Sent(list, env, n, client.config))
    {
      n := 0;
      var stop := false;
      while n < |list| && !stop && !env(n).cancelled
        invariant client.Valid() && client.At() == InSession(session.guid)
        invariant Progress(old(db.rows), list, env, n, stop, db.rows)
        invariant client.log == old(client.log) + Requests(session.guid, Sent(list, env, n, client.config))
      {
        stop := SubmitNext(session, list, env, n, old(db.rows));
        n := n + 1;
      }
    }

    /**
     orders is the fetched list and n the number acted on. Rows past n keep their status and attempts, and the
     session is opened and closed once, around exactly the SORTOI calls of the orders acted on.
     */
    method ProcessBatch(fetchFault: Fault, logon: Logon, env: Env)
      returns (ghost ids: seq<int>, ghost orders: seq<OrderWithLines>, ghost n: nat)
      requires client.Valid() && client.At() == Outside
      modifies db`rows, client
      ensures client.Valid() && client.At() == Outside
      ensures fetchFault.NoFault? ==>
        OldestFirst(old(db.rows), AwaitsSubmission, 100, ids) && SnapshotsOf(old(db.rows), db.lines, ids, orders)
      ensures !fetchFault.NoFault? ==> orders == []
      ensures n <= |orders| && BatchResult(old(db.rows), orders, env, n, db.rows)
      ensures orders == [] ==> client.log == old(client.log)
      ensures orders != [] && logon.Refused? ==> n == 0 && client.log == old(client.log) + Episode(Refused, [])
      ensures orders != [] && logon.Granted? ==>
        ActedOn(|orders|, env, n) && client.log == old(client.log) + Episode(logon, Sent(orders, env, n, client.config))
      ensures AnswersTell(orders, env, n, db.rows)
      ensures orders != [] && logon.Granted? ==> EndsThere(|orders|, env, n)
    {
      var fetched, found := db.FetchPendingOrders(100, fetchFault);
      ids, orders, n := found, [], 0;
      if fetched.Err? {
        return;
      }
      orders := fetched.value;
      if |fetched.value| == 0 {
        return;
      }
      var session := client.OpenSession(logon);
      if session.Err? {
        return;
      }
      FetchedAreFresh(old(db.rows), db.lines, ids, orders, 100);
      var acted := SubmitAndClose(session.value, fetched.value, env);
      n := acted;
      EpisodeParts(logon.guid, Sent(orders, env, n, client.config), old(client.log));
    }

    /** The loop and the deferred close. */
    method SubmitAndClose(session: EnetSession, list: seq<OrderWithLines>, env: Env) returns (n: nat)
      requires session.client == client && client.Valid() && client.At() == InSession(session.guid)
      requires FreshOrders(db.rows, list)
      modifies db`rows, client
      ensures client.Valid() && client.At() == Outside
      ensures n <= |list| && ActedOn(|list|, env, n) && BatchResult(old(db.rows), list, env, n, db.rows)
      ensures AnswersTell(list, env, n, db.rows) && EndsThere(|list|, env, n)
      ensures client.log
        == old(client.log) + Requests(session.guid, Sent(list, env, n, client.config)) + [Logoff(session.guid), Unlock]
    {
      n := SubmitAll(session, list, env);
      AnswersDecideRows(old(db.rows), list, env, n, db.rows);
      ActedOnMeans(|list|, env, n);
      session.Close();
    }

    /** A tick while a batch is running is skipped; the flag is always given back. */
    method Tick(fetchFault: Fault, logon: Logon, env: Env) returns (ghost ids: seq<int>, ghost orders: seq<OrderWithLines>, ghost n: nat)
      requires client.Valid() && client.At() == Outside
      modifies this`running, db`rows, client
      ensures running == old(running)
      ensures client.Valid() && client.At() == Outside
      ensures old(running) ==> orders == []
      ensures !old(running) && fetchFault.NoFault? ==>
        OldestFirst(old(db.rows), AwaitsSubmission, 100, ids) && SnapshotsOf(old(db.rows), db.lines, ids, orders)
      ensures !fetchFault.NoFault? ==> orders == []
      ensures n <= |orders| && BatchResult(old(db.rows), orders, env, n, db.rows)
      ensures orders == [] ==> client.log == old(client.log)
      ensures orders != [] && logon.Refused? ==> n == 0 && client.log == old(client.log) + Episode(Refused, [])
      ensures orders != [] && logon.Granted? ==>
        ActedOn(|orders|, env, n) && client.log == old(client.log) + Episode(logon, Sent(orders, env, n, client.config))
      ensures AnswersTell(orders, env, n, db.rows)
      ensures orders != [] && logon.Granted? ==> EndsThere(|orders|, env, n)
    {
      ids, orders, n := [], [], 0;
      if running {
        return;
      }
      running := true;
      var i, o, k := ProcessBatch(fetchFault, logon, env);
      ids, orders, n := i, o, k;
      running := false;
    }
  }
}
