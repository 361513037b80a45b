/** What batch cycles achieve: the queue drains, and every batch is a run of the Lifecycle machine. */
module BatchTheorems {
  import opened Wrappers
  import opened Sums
  import opened Store
  import opened Sortoi
  import opened Enet
  import opened Batch
  import L = Lifecycle

  // ---------------------------------------------------------------- draining

  /** The infra failures a pending order can still absorb, at least 1. */
  function WorkTerm(rows: Rows): int -> int {
    id => if id in rows && rows[id].status.Pending? then (if rows[id].attempts >= 2 then 1 else 3 - rows[id].attempts) else 0
  }

  ghost function Work(rows: Rows): int {
    Sum(rows.Keys, WorkTerm(rows))
  }

  predicate Clean(e: OrderEnv) {
    !e.cancelled && e.claimFault.NoFault? && e.recordFault.NoFault?
  }

  /** One batch that opened a session on a non-empty queue, with no database error and no cancellation. SYSPRO answers as it likes. */
  ghost predicate Cycled(rows: Rows, rows': Rows, ids: seq<int>, orders: seq<OrderWithLines>, lines: LineRows, env: Env, n: nat) {
    && OldestFirst(rows, AwaitsSubmission, 100, ids) && SnapshotsOf(rows, lines, ids, orders) && orders != []
    && (forall k :: Clean(env(k)))
    && ActedOn(|orders|, env, n) && BatchResult(rows, orders, env, n, rows')
  }

  /** Under a clean environment one order either leaves the queue or has one failure fewer to absorb. */
  lemma OrderLosesWork(row: Row, e: OrderEnv)
    requires row.status.Pending? && Clean(e)
    ensures var after := RowAfter(row, row.attempts, e);
      WorkTerm(map[0 := after])(0) <= WorkTerm(map[0 := row])(0) - 1
  {
  }

  lemma WorkTermAt(rows: Rows, id: int)
    requires id in rows
    ensures WorkTerm(rows)(id) == WorkTerm(map[0 := rows[id]])(0)
  {
  }

  lemma CycleLowersTerms(rows: Rows, rows': Rows, ids: seq<int>, orders: seq<OrderWithLines>, lines: LineRows, env: Env, n: nat)
    requires Cycled(rows, rows', ids, orders, lines, env, n)
    ensures rows'.Keys == rows.Keys && forall id :: id in rows ==> WorkTerm(rows')(id) <= WorkTerm(rows)(id)
    ensures orders[0].id in rows && WorkTerm(rows')(orders[0].id) <= WorkTerm(rows)(orders[0].id) - 1
  {
    FetchedAreFresh(rows, lines, ids, orders, 100);
    assert n > 0 by { assert Clean(env(0)); }
    forall k | 0 <= k < n ensures WorkTerm(rows')(orders[k].id) <= WorkTerm(rows)(orders[k].id) - 1 {
      assert Clean(env(k)) && rows[orders[k].id] == orders[k].row;
      OrderLosesWork(orders[k].row, env(k));
      WorkTermAt(rows, orders[k].id);
      WorkTermAt(rows', orders[k].id);
    }
    forall id | id in rows ensures WorkTerm(rows')(id) <= WorkTerm(rows)(id) {
      if k :| 0 <= k < n && orders[k].id == id {
        assert WorkTerm(rows')(orders[k].id) <= WorkTerm(rows)(orders[k].id) - 1;
      } else {
        assert rows'[id] == rows[id];
      }
    }
  }

  /** Every such cycle strictly decreases the work, wherever the first infra failure stops it. */
  lemma CycleDecreasesWork(rows: Rows, rows': Rows, ids: seq<int>, orders: seq<OrderWithLines>, lines: LineRows, env: Env, n: nat)
    requires Cycled(rows, rows', ids, orders, lines, env, n)
    ensures Work(rows') < Work(rows)
  {
    CycleLowersTerms(rows, rows', ids, orders, lines, env, n);
    var first, before, after := orders[0].id, WorkTerm(rows), WorkTerm(rows');
    SumRemove(rows.Keys, first, before);
    SumRemove(rows'.Keys, first, after);
    SumAtMost(rows.Keys - {first}, after, before);
  }

  predicate Decided(status: Status) {
    status.Submitted? || status.Failed?
  }

  /**
   What a business answer means for the batch, with no database error and no cancellation: an order acted on leaves the
   queue decided exactly when SYSPRO gave one, the batch goes on to the next order exactly as long as SYSPRO does, and the
   order it stopped at is back in the queue, or dead, with one attempt more. The orders after it are as they were fetched.
   */
  lemma SilenceStopsTheBatch(rows: Rows, orders: seq<OrderWithLines>, env: Env, n: nat, rows': Rows)
    requires FreshOrders(rows, orders) && (forall k :: Clean(env(k)))
    requires ActedOn(|orders|, env, n) && BatchResult(rows, orders, env, n, rows')
    ensures forall k :: 0 <= k < n ==> (Decided(rows'[orders[k].id].status) <==> !Unanswered(env(k).x))
    ensures forall k :: 0 <= k < n - 1 ==> Decided(rows'[orders[k].id].status)
    ensures n < |orders| ==>
      && n > 0 && !Decided(rows'[orders[n - 1].id].status)
      && rows'[orders[n - 1].id].attempts == orders[n - 1].row.attempts + 1
    ensures forall k :: n <= k < |orders| ==> rows'[orders[k].id] == orders[k].row
  {
    forall k | 0 <= k < n
      ensures Decided(rows'[orders[k].id].status) <==> !Unanswered(env(k).x)
      ensures Unanswered(env(k).x) ==> rows'[orders[k].id].attempts == orders[k].row.attempts + 1
    {
      assert Clean(env(k)) && rows[orders[k].id] == orders[k].row;
      UnansweredIsInfra(env(k).x);
    }
    assert Clean(env(n)) && Clean(env(n - 1));
    forall k | 0 <= k < n - 1 ensures Decided(rows'[orders[k].id].status) {
      assert !Stops(env(k)) && Clean(env(k));
    }
  }

  ghost predicate QueueEmpty(rows: Rows) {
    forall id :: id in rows ==> !rows[id].status.Pending?
  }

  /** A cycle, or nothing to do. */
  ghost predicate Drains(rows: Rows, rows': Rows) {
    if QueueEmpty(rows) then rows' == rows
    else exists ids, orders, lines, env, n :: Cycled(rows, rows', ids, orders, lines, env, n)
  }

  /** What the fulfilment syncer may do meanwhile: submitted rows become fulfilled, and no other row changes. */
  ghost predicate Fulfilling(rows: Rows, rows': Rows) {
    rows'.Keys == rows.Keys
    && forall id :: id in rows ==> rows'[id] == rows[id] || (rows[id].status.Submitted? && rows'[id].status.Fulfilled?)
  }

  /** A cycle, and any number of fulfilments before and after it. */
  ghost predicate Round(rows: Rows, rows': Rows) {
    exists before: Rows, after: Rows :: Fulfilling(rows, before) && Drains(before, after) && Fulfilling(after, rows')
  }

  lemma FulfillingKeepsWork(rows: Rows, rows': Rows)
    requires Fulfilling(rows, rows')
    ensures Work(rows') == Work(rows)
  {
    SumCongruence(rows.Keys, WorkTerm(rows), WorkTerm(rows'));
  }

  lemma WorkIsPositive(rows: Rows)
    ensures Work(rows) >= 0
    ensures !QueueEmpty(rows) ==> Work(rows) >= 1
  {
    var zero := (id: int) => 0;
    SumZero(rows.Keys, zero);
    SumAtMost(rows.Keys, zero, WorkTerm(rows));
    if id :| id in rows && rows[id].status.Pending? {
      SumRemove(rows.Keys, id, WorkTerm(rows));
      SumZero(rows.Keys - {id}, zero);
      SumAtMost(rows.Keys - {id}, zero, WorkTerm(rows));
    }
  }

  /**
   With no arrivals, retries or faults, the queue is empty after as many cycles as the sum of max(1, 3 - attempts),
   whatever is fulfilled between them.
   */
  lemma {:induction false} TheQueueDrains(run: seq<Rows>, m: nat)
    requires m < |run| && forall i :: 0 <= i < m ==> Round(run[i], run[i + 1])
    ensures Work(run[m]) <= if Work(run[0]) > m then Work(run[0]) - m else 0
    ensures m >= Work(run[0]) ==> QueueEmpty(run[m])
    decreases m
  {
    if m > 0 {
      TheQueueDrains(run, m - 1);
      assert Round(run[m - 1], run[m - 1 + 1]);
      RoundStep(run[m - 1], run[m]);
    }
    WorkIsPositive(run[m]);
  }

  lemma RoundStep(rows: Rows, rows': Rows)
    requires Round(rows, rows')
    ensures Work(rows') <= (if Work(rows) > 1 then Work(rows) - 1 else 0)
  {
    var before: Rows, after: Rows :| Fulfilling(rows, before) && Drains(before, after) && Fulfilling(after, rows');
    FulfillingKeepsWork(rows, before);
    DrainStep(before, after);
    FulfillingKeepsWork(after, rows');
  }

  lemma DrainStep(rows: Rows, rows': Rows)
    requires Drains(rows, rows')
    ensures Work(rows') <= (if Work(rows) > 1 then Work(rows) - 1 else 0)
  {
    WorkIsPositive(rows);
    if QueueEmpty(rows) {
      QueueEmptyMeansNoWork(rows);
    } else {
      var ids, orders, lines, env, n :| Cycled(rows, rows', ids, orders, lines, env, n);
      CycleDecreasesWork(rows, rows', ids, orders, lines, env, n);
    }
  }

  lemma QueueEmptyMeansNoWork(rows: Rows)
    requires QueueEmpty(rows)
    ensures Work(rows) == 0
  {
    SumZero(rows.Keys, WorkTerm(rows));
  }

  // ---------------------------------------------------------------- a batch is a run of the machine

  function SnapOf(o: OrderWithLines): L.Snap {
    L.Snap(o.id, o.row.attempts)
  }

  /** The machine's batch actor is about to take orders[n..]. */
  ghost predicate At(s: L.State, orders: seq<OrderWithLines>, n: nat)
    requires n <= |orders|
  {
    && s.up && s.batch.Looping? && |s.batch.todo| == |orders| - n
    && (forall k :: n <= k < |orders| ==> s.batch.todo[k - n] == SnapOf(orders[k]))
    && s.ledger.Keys == s.rows.Keys
  }

  lemma FailedClaimStep(s: L.State, o: OrderWithLines, e: OrderEnv) returns (s': L.State)
    requires s.up && s.batch.Looping? && s.batch.todo != [] && s.batch.todo[0] == SnapOf(o) && !e.claimFault.NoFault?
    requires o.id in s.rows && s.rows[o.id] == o.row && o.row.status.Pending?
    ensures L.Takes(s, s', L.Claim(e.claimFault, e.now))
    ensures s'.rows == s.rows[o.id := RowAfter(o.row, o.row.attempts, e)] && s'.batch == L.Closing
  {
    s' := s.(rows := if e.claimFault.Lost? then s.rows else Claimed(s.rows, o.id, e.now), batch := L.Closing);
  }

  lemma ClaimAndCallSteps(s: L.State, o: OrderWithLines, e: OrderEnv) returns (s1: L.State, s2: L.State)
    requires s.up && s.batch.Looping? && s.batch.todo != [] && s.batch.todo[0] == SnapOf(o)
    requires o.id in s.rows && s.rows[o.id] == o.row && o.row.status.Pending? && s.ledger.Keys == s.rows.Keys
    ensures L.Takes(s, s1, L.Claim(NoFault, e.now)) && L.Takes(s1, s2, L.Call(ReplyTo(e.x), ReplyTo(e.x).Accepted?))
    ensures s2.up && s2.batch == L.InReply(SnapOf(o), s.batch.todo[1..], ReplyTo(e.x), ReplyTo(e.x).Accepted?)
    ensures s2.rows == s.rows[o.id := o.row.(status := Processing, updatedAt := e.now)] && s2.ledger.Keys == s2.rows.Keys
  {
    var reply := ReplyTo(e.x);
    s1 := s.(rows := Claimed(s.rows, o.id, e.now), batch := L.InClaim(SnapOf(o), s.batch.todo[1..]));
    s2 := s1.(batch := L.InReply(SnapOf(o), s.batch.todo[1..], reply, reply.Accepted?),
              ledger := s1.ledger[o.id := L.Booked(s1.ledger[o.id], reply.Accepted?)]);
  }

  /** One submitOrder is one, or three, steps of the machine. */
  lemma OrderIsSteps(s: L.State, orders: seq<OrderWithLines>, n: nat, e: OrderEnv)
    returns (states: seq<L.State>, steps: seq<L.Step>)
    requires n < |orders| && At(s, orders, n) && orders[n].id in s.rows && s.rows[orders[n].id] == orders[n].row
    requires orders[n].row.status.Pending?
    ensures L.Path(states, steps) && states[0] == s
    ensures var s', id := states[|steps|], orders[n].id;
      && s'.rows == s.rows[id := RowAfter(s.rows[id], orders[n].row.attempts, e)]
      && (if Stops(e) then s'.batch == L.Closing else At(s', orders, n + 1))
  {
    var o := orders[n];
    assert s.batch.todo[0] == SnapOf(o);
    if !e.claimFault.NoFault? {
      var s1 := FailedClaimStep(s, o, e);
      return [s, s1], [L.Claim(e.claimFault, e.now)];
    }
    var s1, s2 := ClaimAndCallSteps(s, o, e);
    var s3 := RecordStep(s2, o, e);
    return [s, s1, s2, s3], [L.Claim(NoFault, e.now), L.Call(ReplyTo(e.x), ReplyTo(e.x).Accepted?), L.RecordReply(e.recordFault, e.now)];
  }

  lemma RecordStep(s: L.State, o: OrderWithLines, e: OrderEnv) returns (s': L.State)
    requires s.up && s.batch.InReply? && s.batch.cur == SnapOf(o) && s.batch.reply == ReplyTo(e.x)
    requires o.id in s.rows && s.ledger.Keys == s.rows.Keys && e.claimFault.NoFault?
    requires s.rows[o.id] == o.row.(status := Processing, updatedAt := e.now)
    ensures L.Takes(s, s', L.RecordReply(e.recordFault, e.now))
    ensures s'.rows == s.rows[o.id := RowAfter(o.row, o.row.attempts, e)]
    ensures s'.batch == if Stops(e) then L.Closing else L.Looping(s.batch.todo)
    ensures s'.up && s'.ledger.Keys == s'.rows.Keys
  {
    var b := s.batch;
    UnansweredIsInfra(e.x);
    var next := if b.reply.InfraError? then L.Closing else L.Looping(b.todo);
    if e.recordFault.Lost? {
      s' := s.(batch := next);
    } else {
      s' := s.(rows := L.Recorded(s.rows, b.cur, b.reply, e.now), batch := next,
               ledger := s.ledger[o.id := L.Noted(s.ledger[o.id], b.reply, b.booked)],
               evidence := if b.reply.Accepted?
                 then s.evidence.(submitted := s.evidence.submitted + {(o.id, b.reply.number)}) else s.evidence);
    }
  }

  /**
   What ProcessBatch does to the rows is what some run of the machine's batch actor does, so every property of machine
   runs holds of it. The first m of the n orders acted on:
   */
  lemma {:induction false} BatchIsARun(s: L.State, orders: seq<OrderWithLines>, env: Env, n: nat, m: nat)
    returns (states: seq<L.State>, steps: seq<L.Step>)
    requires At(s, orders, 0) && FreshOrders(s.rows, orders) && ActedOn(|orders|, env, n) && m <= n
    ensures L.Path(states, steps) && states[0] == s
    ensures BatchResult(s.rows, orders, env, m, states[|steps|].rows)
    ensures if m > 0 && Stops(env(m - 1)) then states[|steps|].batch == L.Closing else At(states[|steps|], orders, m)
    decreases m
  {
    if m == 0 {
      return [s], [];
    }
    var p, a := BatchIsARun(s, orders, env, n, m - 1);
    var mid := p[|a|];
    OneMoreOrder(s.rows, orders, env, m - 1, mid.rows, Config("", map[]));
    assert m > 1 ==> !Stops(env(m - 2));
    var q, b := OrderIsSteps(mid, orders, m - 1, env(m - 1));
    L.PathsJoin(p, a, q, b);
    return p + q[1..], a + b;
  }
}
