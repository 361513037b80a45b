/**
 The life of every order as one state machine: staging, the batch processor, the fulfilment syncer,
 operator retries, lost writes, crashes and restarts. Each step is one database statement or one remote
 call of one actor, so steps of different actors interleave freely and a crash can fall between any two.
 One service process runs at a time.
 */
module Lifecycle {
  import opened Wrappers
  import opened Store
  import opened Sortoi
  import opened FulfilmentClient

  /** The batch snapshot of a row, and the fulfilment snapshot. */
  datatype Snap = Snap(id: int, attempts: int)

  datatype FulSnap = FulSnap(id: int, number: string, order: int)

  /** Where ProcessBatch stands. Fetched waits for a session; Closing still holds it. */
  datatype BatchPc =
    | BatchIdle
    | Fetched(todo: seq<Snap>)
    | Looping(todo: seq<Snap>)
    | InClaim(cur: Snap, todo: seq<Snap>)
    | InReply(cur: Snap, todo: seq<Snap>, reply: Reply, booked: bool)
    | Closing

  /**
   Where processOrders stands. found maps a SYSPRO number to its order status. InLocated holds an open fulfilment order for
   cur; InCreated a success of CreateFulfillment, which made a fulfilment unless Shopify said there was one already.
   */
  datatype FulPc =
    | FulIdle
    | FulFetched(todo: seq<FulSnap>)
    | FulLooping(found: map<string, string>, todo: seq<FulSnap>)
    | InLocated(cur: FulSnap, fulfilmentOrder: string, found: map<string, string>, todo: seq<FulSnap>)
    | InCreated(cur: FulSnap, fulfilmentId: string, made: bool, found: map<string, string>, todo: seq<FulSnap>)

  /** How CreateFulfillment ends: with a success or an error, having made a fulfilment at Shopify or not. */
  datatype Creation = Answered(fulfilmentId: string, made: bool) | Unanswered(made: bool)

  /** Shopify's side of an order: its fulfilment orders, and those of them that are fulfilled. */
  datatype ShopOrder = ShopOrder(orders: seq<FulfilmentOrder>, done: set<string>)

  /**
   Counted per order since it was staged or last retried: SORTOI calls made, infra failures recorded, stale resets,
   orders SYSPRO booked, booked calls that were recorded as infra failures, and stale resets of a row whose booking was
   never recorded. open says that the order's last call was booked and nothing has been recorded of it yet.
   */
  datatype Ledger = Ledger(calls: nat, failures: nat, resets: nat, booked: nat, ambiguous: nat, orphaned: nat, open: bool)

  /** What happened remotely: statuses "9" seen, fulfilments created, numbers recorded; tagged by fulfilment cycle. */
  datatype Evidence = Evidence(
    dispatched: set<(nat, string)>, created: set<(nat, int, string)>, submitted: set<(int, string)>)

  datatype State = State(
    rows: Rows, lines: LineRows, ledger: map<int, Ledger>, batch: BatchPc, ful: FulPc,
    cycle: nat, evidence: Evidence, up: bool, shop: map<int, ShopOrder>)

  const NO_LEDGER := Ledger(0, 0, 0, 0, 0, 0, false)

  const INITIAL := State(map[], map[], map[], BatchIdle, FulIdle, 0, Evidence({}, {}, {}), true, map[])

  const MAX_ATTEMPTS := 3

  datatype Step =
    | Stage(id: int, order: OrderData, added: LineRows, now: int)
    | Retry(id: int, now: int)
    | Fetch(ids: seq<int>)
    | Open(ok: bool)
    | Claim(fault: Fault, now: int)
    | Call(reply: Reply, booked: bool)
    | RecordReply(fault: Fault, now: int)
    | Stop
    | Close
    | FulFetch(ids: seq<int>)
    | FulQuery(ok: bool, found: map<string, string>)
    | FulSkip
    | FulLocate
    | FulCreate(outcome: Creation)
    | FulRecord(fault: Fault, now: int)
    | FulDone
    | Crash
    | Boot(fault: Fault, now: int, olderThan: int)
    | Shop(shopifyId: int, holds: ShopOrder)

  // ---------------------------------------------------------------- steps

  /** The row after submitOrder has recorded a reply, from the attempts in its snapshot. */
  function Recorded(rows: Rows, cur: Snap, reply: Reply, now: int): Rows {
    match reply
    case InfraError(message) =>
      WithStatus(rows, cur.id, if cur.attempts + 1 >= MAX_ATTEMPTS then DeadLetter else Pending, cur.attempts + 1, message, now)
    case Rejected(message) => WithStatus(rows, cur.id, Failed, cur.attempts, message, now)
    case Accepted(number) => WithSubmitted(rows, cur.id, number, cur.attempts + 1, now)
  }

  function Snaps(rows: Rows, ids: seq<int>): seq<Snap>
    requires forall k :: 0 <= k < |ids| ==> ids[k] in rows
  {
    seq(|ids|, k requires 0 <= k < |ids| => Snap(ids[k], rows[ids[k]].attempts))
  }

  function FulSnaps(rows: Rows, ids: seq<int>): seq<FulSnap>
    requires forall k :: 0 <= k < |ids| ==> ids[k] in rows
  {
    seq(|ids|, k requires 0 <= k < |ids| => FulSnap(ids[k], rows[ids[k]].sysproNumber, rows[ids[k]].order.shopifyId))
  }

  function One(hit: bool): nat {
    if hit then 1 else 0
  }

  function Booked(l: Ledger, booked: bool): Ledger {
    l.(calls := l.calls + 1, booked := l.booked + One(booked), open := booked)
  }

  function Noted(l: Ledger, reply: Reply, booked: bool): Ledger {
    if reply.InfraError? then l.(failures := l.failures + 1, ambiguous := l.ambiguous + One(booked), open := false)
    else l.(open := false)
  }

  function Reset(l: Ledger): Ledger {
    l.(resets := l.resets + 1, orphaned := l.orphaned + One(l.open), open := false)
  }

  function WithResets(rows: Rows, ledger: map<int, Ledger>, now: int, olderThan: int): map<int, Ledger> {
    map id | id in ledger :: if id in rows && Stale(rows[id], now, olderThan) then Reset(ledger[id]) else ledger[id]
  }

  ghost predicate StageStep(s: State, s': State, id: int, order: OrderData, added: LineRows, now: int) {
    && id !in s.rows && !Staged(s.rows, order.shopifyId)
    && s.lines.Keys !! added.Keys && (forall i :: i in added ==> added[i].orderId == id)
    && s' == s.(rows := s.rows[id := NewRow(order, now)], lines := s.lines + added, ledger := s.ledger[id := NO_LEDGER])
  }

  ghost predicate RetryStep(s: State, s': State, id: int, now: int) {
    Retryable(s.rows, id) && s' == s.(rows := Retried(s.rows, id, now), ledger := s.ledger[id := NO_LEDGER])
  }

  ghost predicate FetchStep(s: State, s': State, ids: seq<int>) {
    && s.batch.BatchIdle? && OldestFirst(s.rows, AwaitsSubmission, 100, ids) && ids != []
    && s' == s.(batch := Fetched(Snaps(s.rows, ids)))
  }

  ghost predicate OpenStep(s: State, s': State, ok: bool) {
    s.batch.Fetched? && s' == s.(batch := if ok then Looping(s.batch.todo) else BatchIdle)
  }

  /** MarkOrderProcessing on the head of the list: an error stops the batch, a miss skips the order. */
  ghost predicate ClaimStep(s: State, s': State, fault: Fault, now: int) {
    && s.batch.Looping? && s.batch.todo != []
    && var cur, rest := s.batch.todo[0], s.batch.todo[1..];
    var hit := cur.id in s.rows && s.rows[cur.id].status.Pending?;
    s' == s.(rows := if fault.Lost? then s.rows else Claimed(s.rows, cur.id, now),
             batch := if !fault.NoFault? then Closing else if hit then InClaim(cur, rest) else Looping(rest))
  }

  /** The SORTOI call. A success or a rejection tells the truth about the booking; an error may hide one. */
  ghost predicate CallStep(s: State, s': State, reply: Reply, booked: bool) {
    && s.batch.InClaim? && s.batch.cur.id in s.ledger
    && (reply.Accepted? ==> booked) && (reply.Rejected? ==> !booked)
    && var cur := s.batch.cur;
    s' == s.(batch := InReply(cur, s.batch.todo, reply, booked),
             ledger := s.ledger[cur.id := Booked(s.ledger[cur.id], booked)])
  }

  /** The unconditional UPDATE that records the reply. An infra error stops the batch. */
  ghost predicate RecordStep(s: State, s': State, fault: Fault, now: int) {
    && s.batch.InReply? && s.batch.cur.id in s.ledger
    && var b := s.batch;
    var next := if b.reply.InfraError? then Closing else Looping(b.todo);
    if fault.Lost? then s' == s.(batch := next)
    else
      s' == s.(rows := Recorded(s.rows, b.cur, b.reply, now), batch := next,
               ledger := s.ledger[b.cur.id := Noted(s.ledger[b.cur.id], b.reply, b.booked)],
               evidence := if b.reply.Accepted?
                 then s.evidence.(submitted := s.evidence.submitted + {(b.cur.id, b.reply.number)}) else s.evidence)
  }

  ghost predicate StopStep(s: State, s': State) {
    s.batch.Looping? && s' == s.(batch := Closing)
  }

  ghost predicate CloseStep(s: State, s': State) {
    s.batch.Closing? && s' == s.(batch := BatchIdle)
  }

  ghost predicate FulFetchStep(s: State, s': State, ids: seq<int>) {
    && s.ful.FulIdle? && OldestFirst(s.rows, AwaitsFulfilment, |s.rows|, ids) && ids != []
    && s' == s.(ful := FulFetched(FulSnaps(s.rows, ids)), cycle := s.cycle + 1)
  }

  ghost predicate FulQueryStep(s: State, s': State, ok: bool, found: map<string, string>) {
    && s.ful.FulFetched?
    && if !ok then s' == s.(ful := FulIdle)
       else s' == s.(ful := FulLooping(found, s.ful.todo),
                     evidence := s.evidence.(dispatched := s.evidence.dispatched
                       + set n | n in found && found[n] == "9" :: (s.cycle, n)))
  }

  /** Not dispatched, or its fulfilment orders could not be had: the order is passed over and the loop goes on. */
  ghost predicate FulSkipStep(s: State, s': State) {
    s.ful.FulLooping? && s.ful.todo != [] && s' == s.(ful := FulLooping(s.ful.found, s.ful.todo[1..]))
  }

  function ShopOf(shop: map<int, ShopOrder>, order: int): ShopOrder {
    if order in shop then shop[order] else ShopOrder([], {})
  }

  /** The fulfilment order that GetFulfillmentOrderID finds when its query is answered. */
  function Listed(shop: map<int, ShopOrder>, order: int): Option<string> {
    FirstOpen(Page(ShopOf(shop, order).orders))
  }

  /** A fulfilment can be made on a fulfilment order that is there, open and not fulfilled. */
  predicate CanMake(so: ShopOrder, id: string) {
    id !in so.done && exists i :: 0 <= i < |so.orders| && so.orders[i].id == id && Takeable(so.orders[i])
  }

  /** It takes all of it, so the fulfilment order is closed and done. */
  function Made(so: ShopOrder, id: string): ShopOrder {
    ShopOrder(
      seq(|so.orders|, i requires 0 <= i < |so.orders| => if so.orders[i].id == id then so.orders[i].(status := CLOSED) else so.orders[i]),
      so.done + {id})
  }

  /** SYSPRO reports the order complete and Shopify lists an open fulfilment order. */
  ghost predicate FulLocateStep(s: State, s': State) {
    && s.ful.FulLooping? && s.ful.todo != []
    && var cur := s.ful.todo[0];
    && cur.number in s.ful.found && s.ful.found[cur.number] == "9" && Listed(s.shop, cur.order).Some?
    && s' == s.(ful := InLocated(cur, Listed(s.shop, cur.order).value, s.ful.found, s.ful.todo[1..]))
  }

  /** An error passes the order over; an id tells the truth about the fulfilment, everything else may hide one. */
  ghost predicate FulCreateStep(s: State, s': State, outcome: Creation) {
    && s.ful.InLocated?
    && var cur, fo := s.ful.cur, s.ful.fulfilmentOrder;
    && (outcome.made ==> CanMake(ShopOf(s.shop, cur.order), fo))
    && (outcome.Answered? && outcome.fulfilmentId != "" ==> outcome.made)
    && var shop := if outcome.made then s.shop[cur.order := Made(ShopOf(s.shop, cur.order), fo)] else s.shop;
    match outcome
    case Unanswered(_) => s' == s.(shop := shop, ful := FulLooping(s.ful.found, s.ful.todo))
    case Answered(fulfilmentId, made) =>
      s' == s.(shop := shop, ful := InCreated(cur, fulfilmentId, made, s.ful.found, s.ful.todo),
               evidence := s.evidence.(created := s.evidence.created + {(s.cycle, cur.id, fulfilmentId)}))
  }

  ghost predicate FulRecordStep(s: State, s': State, fault: Fault, now: int) {
    && s.ful.InCreated?
    && s' == s.(rows := if fault.Lost? then s.rows else WithFulfilled(s.rows, s.ful.cur.id, s.ful.fulfilmentId, now),
                ful := FulLooping(s.ful.found, s.ful.todo))
  }

  ghost predicate FulDoneStep(s: State, s': State) {
    s.ful.FulLooping? && s.ful.todo == [] && s' == s.(ful := FulIdle)
  }

  ghost predicate CrashStep(s: State, s': State) {
    s' == s.(batch := BatchIdle, ful := FulIdle, up := false)
  }

  /** Boot runs ResetStaleProcessing before any actor starts. */
  ghost predicate BootStep(s: State, s': State, fault: Fault, now: int, olderThan: int) {
    && !s.up && s.batch.BatchIdle? && s.ful.FulIdle?
    && s' == if fault.Lost? then s.(up := true)
             else s.(up := true, rows := StaleReset(s.rows, now, olderThan), ledger := WithResets(s.rows, s.ledger, now, olderThan))
  }

  ghost predicate Takes(s: State, s': State, step: Step) {
    match step
    case Boot(fault, now, olderThan) => BootStep(s, s', fault, now, olderThan)
    case Crash => s.up && CrashStep(s, s')
    case Shop(shopifyId, holds) => s' == s.(shop := s.shop[shopifyId := holds])
    case Stage(id, order, added, now) => s.up && StageStep(s, s', id, order, added, now)
    case Retry(id, now) => s.up && RetryStep(s, s', id, now)
    case Fetch(ids) => s.up && FetchStep(s, s', ids)
    case Open(ok) => s.up && OpenStep(s, s', ok)
    case Claim(fault, now) => s.up && ClaimStep(s, s', fault, now)
    case Call(reply, booked) => s.up && CallStep(s, s', reply, booked)
    case RecordReply(fault, now) => s.up && RecordStep(s, s', fault, now)
    case Stop => s.up && StopStep(s, s')
    case Close => s.up && CloseStep(s, s')
    case FulFetch(ids) => s.up && FulFetchStep(s, s', ids)
    case FulQuery(ok, found) => s.up && FulQueryStep(s, s', ok, found)
    case FulSkip => s.up && FulSkipStep(s, s')
    case FulLocate => s.up && FulLocateStep(s, s')
    case FulCreate(outcome) => s.up && FulCreateStep(s, s', outcome)
    case FulRecord(fault, now) => s.up && FulRecordStep(s, s', fault, now)
    case FulDone => s.up && FulDoneStep(s, s')
  }

  /** steps[i] leads from states[i] to states[i + 1]. */
  ghost predicate Path(states: seq<State>, steps: seq<Step>) {
    |states| == |steps| + 1 && forall i :: 0 <= i < |steps| ==> Takes(states[i], states[i + 1], steps[i])
  }

  /** A run of the service. */
  ghost predicate Behaviour(states: seq<State>, steps: seq<Step>) {
    Path(states, steps) && states[0] == INITIAL
  }

  lemma PathsJoin(p: seq<State>, a: seq<Step>, q: seq<State>, b: seq<Step>)
    requires Path(p, a) && Path(q, b) && p[|a|] == q[0]
    ensures Path(p + q[1..], a + b)
    ensures (p + q[1..])[0] == p[0] && (p + q[1..])[|a + b|] == q[|b|]
  {
    var states, steps := p + q[1..], a + b;
    forall i | 0 <= i < |steps| ensures Takes(states[i], states[i + 1], steps[i]) {
      if i >= |a| {
        assert Takes(q[i - |a|], q[i - |a| + 1], b[i - |a|]);
        assert states[i] == q[i - |a|] && states[i + 1] == q[i - |a| + 1];
      }
    }
  }

  /** A run of the service that ends in s. */
  ghost predicate RunTo(states: seq<State>, steps: seq<Step>, s: State) {
    Behaviour(states, steps) && states[|steps|] == s
  }

  lemma RunExtends(states: seq<State>, steps: seq<Step>, s: State, s': State, step: Step)
    requires RunTo(states, steps, s) && Takes(s, s', step)
    ensures RunTo(states + [s'], steps + [step], s')
  {
  }

  /** Only the service's own actors move: nothing is staged, no operator retries, and Shopify does as it is asked. */
  predicate OwnSteps(steps: seq<Step>) {
    forall k :: 0 <= k < |steps| ==> OwnStep(steps[k])
  }

  predicate OwnStep(step: Step) {
    !step.Stage? && !step.Retry? && !step.Shop?
  }

  /** A path from s to s' of the service's own steps. */
  ghost predicate Leads(states: seq<State>, steps: seq<Step>, s: State, s': State) {
    Path(states, steps) && OwnSteps(steps) && states[0] == s && states[|steps|] == s'
  }

  lemma Then(states: seq<State>, steps: seq<Step>, s: State, mid: State, s': State, step: Step)
    returns (states': seq<State>, steps': seq<Step>)
    requires Leads(states, steps, s, mid) && Takes(mid, s', step) && OwnStep(step)
    ensures Leads(states', steps', s, s')
  {
    PathsJoin(states, steps, [mid, s'], [step]);
    states', steps' := states + [mid, s'][1..], steps + [step];
  }

  lemma Join(p: seq<State>, a: seq<Step>, s: State, mid: State, q: seq<State>, b: seq<Step>, s': State)
    returns (states: seq<State>, steps: seq<Step>)
    requires Leads(p, a, s, mid) && Leads(q, b, mid, s')
    ensures Leads(states, steps, s, s')
  {
    PathsJoin(p, a, q, b);
    states, steps := p + q[1..], a + b;
  }

  // ---------------------------------------------------------------- the invariant

  /** What the batch processor is doing with a row: nothing, about to call, or about to record. */
  datatype Phase = Loose | Calling | Recording(booked: bool)

  function PhaseOf(batch: BatchPc, id: int): Phase {
    match batch
    case InClaim(cur, _) => if cur.id == id then Calling else Loose
    case InReply(cur, _, _, booked) => if cur.id == id then Recording(booked) else Loose
    case _ => Loose
  }

  function Settled(status: Status): nat {
    if status.Submitted? || status.Fulfilled? then 1 else 0
  }

  /** Calls beyond recorded failures and resets. */
  function CallSlack(status: Status, phase: Phase): int {
    match status
    case Pending => 0
    case DeadLetter => 0
    case Processing => if phase.Calling? then 0 else 1
    case _ => 1
  }

  /** What the phase says of the booking: before the call none is open, and between call and record it is open if booked. */
  predicate OpenOk(open: bool, status: Status, phase: Phase) {
    && (open ==> status.Processing?)
    && (phase.Calling? ==> !open)
    && (phase.Recording? ==> open == phase.booked)
  }

  ghost predicate RowOk(row: Row, l: Ledger, phase: Phase) {
    && !row.status.Cancelled?
    && row.attempts == l.failures + l.resets + Settled(row.status)
    && l.failures <= (if row.status.DeadLetter? then 3 else 2)
    && (row.status.DeadLetter? ==> row.attempts >= 3)
    && l.calls <= l.failures + l.resets + CallSlack(row.status, phase)
    && l.booked == l.ambiguous + l.orphaned + Settled(row.status) + One(l.open)
    && l.ambiguous <= l.failures && l.orphaned <= l.resets && OpenOk(l.open, row.status, phase)
    && (!phase.Loose? ==> row.status.Processing?)
    && (row.fulfilledAt.Some? ==> row.status.Fulfilled?)
  }

  ghost predicate Accounted(s: State) {
    s.ledger.Keys == s.rows.Keys && forall id :: id in s.rows ==> RowOk(s.rows[id], s.ledger[id], PhaseOf(s.batch, id))
  }

  ghost predicate Fresh(rows: Rows, todo: seq<Snap>) {
    && (forall k :: 0 <= k < |todo| ==> todo[k].id in rows && rows[todo[k].id].status.Pending? && rows[todo[k].id].attempts == todo[k].attempts)
    && forall j, k :: 0 <= j < k < |todo| ==> todo[j].id != todo[k].id
  }

  /** The row in hand is still the processing row this call claimed, with the snapshot's attempts. */
  ghost predicate InHand(rows: Rows, cur: Snap, todo: seq<Snap>) {
    && cur.id in rows && rows[cur.id].status.Processing? && rows[cur.id].attempts == cur.attempts
    && forall k :: 0 <= k < |todo| ==> todo[k].id != cur.id
  }

  ghost predicate BatchOk(s: State) {
    match s.batch
    case BatchIdle => true
    case Closing => true
    case Fetched(todo) => Fresh(s.rows, todo)
    case Looping(todo) => Fresh(s.rows, todo)
    case InClaim(cur, todo) => Fresh(s.rows, todo) && InHand(s.rows, cur, todo)
    case InReply(cur, todo, reply, booked) =>
      Fresh(s.rows, todo) && InHand(s.rows, cur, todo) && (reply.Accepted? ==> booked) && (reply.Rejected? ==> !booked)
  }

  ghost predicate Waiting(rows: Rows, snap: FulSnap) {
    && snap.id in rows && rows[snap.id].status.Submitted? && rows[snap.id].sysproNumber == snap.number && snap.number != ""
    && rows[snap.id].order.shopifyId == snap.order
  }

  ghost predicate FulFresh(rows: Rows, todo: seq<FulSnap>) {
    && (forall k :: 0 <= k < |todo| ==> Waiting(rows, todo[k]))
    && forall j, k :: 0 <= j < k < |todo| ==> todo[j].id != todo[k].id
  }

  ghost predicate Seen(s: State, found: map<string, string>) {
    forall n :: n in found && found[n] == "9" ==> (s.cycle, n) in s.evidence.dispatched
  }

  ghost predicate FulOk(s: State) {
    match s.ful
    case FulIdle => true
    case FulFetched(todo) => FulFresh(s.rows, todo)
    case FulLooping(found, todo) => FulFresh(s.rows, todo) && Seen(s, found)
    case InLocated(cur, _, found, todo) =>
      && FulFresh(s.rows, todo) && Seen(s, found) && Waiting(s.rows, cur)
      && (forall k :: 0 <= k < |todo| ==> todo[k].id != cur.id)
      && cur.number in found && found[cur.number] == "9"
    case InCreated(cur, fulfilmentId, _, found, todo) =>
      && FulFresh(s.rows, todo) && Seen(s, found) && Waiting(s.rows, cur)
      && (forall k :: 0 <= k < |todo| ==> todo[k].id != cur.id)
      && (s.cycle, cur.number) in s.evidence.dispatched && (s.cycle, cur.id, fulfilmentId) in s.evidence.created
  }

  ghost predicate DispatchedIn(e: Evidence, c: nat, number: string, id: int, fulfilmentId: string) {
    (c, number) in e.dispatched && (c, id, fulfilmentId) in e.created
  }

  ghost predicate Provenance(e: Evidence, id: int, row: Row) {
    && (row.status.Submitted? || row.status.Fulfilled? ==> (id, row.sysproNumber) in e.submitted)
    && (row.status.Fulfilled? ==>
      row.sysproNumber != "" && exists c: nat :: DispatchedIn(e, c, row.sysproNumber, id, row.fulfilmentId))
  }

  ghost predicate Evidenced(s: State) {
    forall id :: id in s.rows ==> Provenance(s.evidence, id, s.rows[id])
  }

  ghost predicate Inv(s: State) {
    Accounted(s) && BatchOk(s) && FulOk(s) && Evidenced(s) && (!s.up ==> s.batch.BatchIdle? && s.ful.FulIdle?)
  }
}
