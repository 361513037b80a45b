/**
 Ingestion as a state machine: any number of webhook deliveries in flight, one sweep, the steps of Lifecycle's actors on
 the same rows, the one-slot trigger channel with the stock syncer's debounce timer, and crashes. CreateOrder is one
 transaction, so it is one step; everything around it interleaves.
 */
module Staging {
  import opened Wrappers
  import opened Shopify
  import opened Store
  import opened Ingest
  import opened Reconcile
  import L = Lifecycle
  import LS = LifecycleSafety

  /** Where one delivery stands in handleOrderCreate. Sending has committed and not yet reached the channel send. */
  datatype HandlerPc = Checking(r: Request) | Creating(r: Request) | Sending(r: Request)

  datatype SweepPc = SweepIdle | Listed(orders: seq<SweptOrder>) | Sweeping(orders: seq<SweptOrder>, existing: set<int>)

  /** The debounce timer: Fired holds a value in debounceCh that the loop has not received. */
  datatype Timer = Off | Armed | Fired

  /** Where the syncer's goroutine stands. Booting is before its first tick. */
  datatype SyncPc = Booting | Selecting | Syncing

  /** Who staged an order first, and with what. */
  datatype First = First(webhookId: WebhookId, row: int, order: OrderData, lines: seq<Line>)

  /**
   origin and first record, for each event and each order, the transaction that wrote it. committed are the orders whose
   commit a webhook handler saw succeed, and synced those of them after whose commit a sync has started. life is what the
   batch and fulfilment actors, the operator and boot do with the same rows.
   */
  datatype State = State(
    tables: Tables, origin: map<WebhookId, int>, first: map<int, First>, handlers: map<int, HandlerPc>, sweep: SweepPc,
    token: bool, timer: Timer, syncer: SyncPc, answers: set<(Request, Answer)>, committed: set<int>, synced: set<int>,
    life: L.State)

  const INITIAL := State(
    Tables(map[], map[], map[], 1, 1), map[], map[], map[], SweepIdle, false, Off, Booting, {}, {}, {}, L.INITIAL)

  datatype Step =
    | Arrive(h: int, r: Request)
    | Check(h: int, fault: Fault)
    | Create(h: int, now: int, gap: nat -> nat, fault: Fault)
    | Send(h: int)
    | SweepList(orders: seq<SweptOrder>)
    | SweepDiff(fault: Fault)
    | SweepStage(now: int, second: int, gap: nat -> nat, fault: Fault)
    | SweepDone
    | Others(step: L.Step)
    | Receive
    | Fire
    | StartSync
    | StartFullSync
    | EndSync
    | Crash

  // ---------------------------------------------------------------- steps

  /** Lifecycle's view after row id was inserted. */
  ghost function AfterInsert(life: L.State, t: Tables, id: int): L.State {
    life.(rows := t.rows, lines := t.lines, ledger := life.ledger[id := L.NO_LEDGER])
  }

  /** One CreateOrder transaction and its bookkeeping. */
  ghost predicate Transaction(s: State, s': State, webhookId: WebhookId, topic: string, order: OrderData, ls: seq<Line>, now: int, gap: nat -> nat, fault: Fault) {
    && s'.tables == Created(s.tables, webhookId, topic, order, ls, now, gap, fault)
    && if Inserts(s.tables, webhookId, order.shopifyId, fault) then
         && s'.origin == s.origin[webhookId := order.shopifyId]
         && s'.first == s.first[order.shopifyId := First(webhookId, s.tables.nextRow, order, ls)]
         && s'.life == AfterInsert(s.life, s'.tables, s.tables.nextRow)
       else s'.origin == s.origin && s'.first == s.first && s'.life == s.life
  }

  ghost predicate ArriveStep(s: State, s': State, h: int, r: Request) {
    && h !in s.handlers
    && s' == if Refused(r).Some? then s.(answers := s.answers + {(r, Refused(r).value)})
             else s.(handlers := s.handlers[h := Checking(r)])
  }

  ghost predicate CheckStep(s: State, s': State, h: int, fault: Fault) {
    && h in s.handlers && s.handlers[h].Checking?
    && var r := s.handlers[h].r;
    && Refused(r).None?
    && var answer :=
         if !fault.NoFault? then Some(Internal500)
         else if Delivered(r.header.value) in s.tables.events then Some(Ok200)
         else Screened(r.body);
    s' == if answer.Some? then s.(answers := s.answers + {(r, answer.value)}, handlers := s.handlers - {h})
          else s.(handlers := s.handlers[h := Creating(r)])
  }

  ghost predicate CreateStep(s: State, s': State, h: int, now: int, gap: nat -> nat, fault: Fault) {
    && h in s.handlers && s.handlers[h].Creating?
    && var r := s.handlers[h].r;
    && Refused(r).None? && Screened(r.body).None?
    && var p, webhookId := r.body.value, Delivered(r.header.value);
    && var result := CreateResult(s.tables, webhookId, p.id, fault);
    && Transaction(s, s', webhookId, "orders/create", OrderFrom(p, p, now), LinesFrom(p), now, gap, fault)
    && s' == s.(tables := s'.tables, origin := s'.origin, first := s'.first, life := s'.life,
                handlers := if result.Ok? then s.handlers[h := Sending(r)] else s.handlers - {h},
                answers := if result.Ok? then s.answers else s.answers + {(r, CreateAnswer(result))},
                committed := if result.Ok? then s.committed + {p.id} else s.committed)
  }

  /** The send does not block: with a token already in the channel it is dropped. */
  ghost predicate SendStep(s: State, s': State, h: int) {
    && h in s.handlers && s.handlers[h].Sending?
    && s' == s.(token := true, handlers := s.handlers - {h}, answers := s.answers + {(s.handlers[h].r, Ok200)})
  }

  ghost predicate SweepStep(s: State, s': State, step: Step) {
    match step
    case SweepList(orders) => s.sweep.SweepIdle? && s' == s.(sweep := Listed(orders))
    case SweepDiff(fault) =>
      && s.sweep.Listed?
      && s' == s.(sweep := if !fault.NoFault? then SweepIdle
                           else Sweeping(s.sweep.orders, Known(s.tables, s.sweep.orders)))
    case SweepStage(now, second, gap, fault) =>
      && s.sweep.Sweeping? && s.sweep.orders != []
      && var p := s.sweep.orders[0];
      && var next := Sweeping(s.sweep.orders[1..], s.sweep.existing);
      if p.id in s.sweep.existing || !IsPaid(p.financialStatus) then s' == s.(sweep := next)
      else
        && Transaction(s, s', Reconciled(p.id, second), "orders/reconcile", SweptData(p, now), SweptLines(p), now, gap, fault)
        && s' == s.(tables := s'.tables, origin := s'.origin, first := s'.first, life := s'.life, sweep := next)
    case SweepDone => s.sweep.Sweeping? && s.sweep.orders == [] && s' == s.(sweep := SweepIdle)
    case _ => false
  }

  ghost predicate SyncStep(s: State, s': State, step: Step) {
    match step
    case Receive => s.syncer.Selecting? && s.token && s' == s.(token := false, timer := Armed)
    case Fire => s.timer.Armed? && s' == s.(timer := Fired)
    case StartSync => s.syncer.Selecting? && s.timer.Fired? && s' == s.(timer := Off, syncer := Syncing, synced := s.committed)
    case StartFullSync =>
      !s.syncer.Syncing? && s' == s.(syncer := Syncing, synced := if s.syncer.Booting? then s.committed else s.synced)
    case EndSync => s.syncer.Syncing? && s' == s.(syncer := Selecting)
    case _ => false
  }

  /** Any step of Lifecycle but staging, which is the handlers' and the sweep's, and the crash, which is everybody's. */
  ghost predicate OthersStep(s: State, s': State, step: L.Step) {
    && !step.Stage? && !step.Crash? && L.Takes(s.life, s'.life, step)
    && s' == s.(life := s'.life, tables := s.tables.(rows := s'.life.rows))
  }

  ghost predicate CrashStep(s: State, s': State) {
    && L.Takes(s.life, s'.life, L.Crash)
    && s' == s.(handlers := map[], sweep := SweepIdle, token := false, timer := Off, syncer := Booting, life := s'.life)
  }

  ghost predicate Takes(s: State, s': State, step: Step) {
    match step
    case Others(inner) => OthersStep(s, s', inner)
    case Crash => CrashStep(s, s')
    case Arrive(h, r) => s.life.up && ArriveStep(s, s', h, r)
    case Check(h, fault) => s.life.up && CheckStep(s, s', h, fault)
    case Create(h, now, gap, fault) => s.life.up && CreateStep(s, s', h, now, gap, fault)
    case Send(h) => s.life.up && SendStep(s, s', h)
    case _ => s.life.up && (SweepStep(s, s', step) || SyncStep(s, s', step))
  }

  /** steps[i] leads from states[i] to states[i + 1]. */
  ghost predicate Path(states: seq<State>, steps: seq<Step>) {
    |states| == |steps| + 1 && forall i :: 0 <= i < |steps| ==> Takes(states[i], states[i + 1], steps[i])
  }

  ghost predicate Behaviour(states: seq<State>, steps: seq<Step>) {
    Path(states, steps) && states[0] == INITIAL
  }

  // ---------------------------------------------------------------- the invariant

  /** Events and orders are in bijection through origin and first. */
  ghost predicate Paired(s: State) {
    && s.origin.Keys == s.tables.events.Keys && |s.tables.events| == |s.tables.rows| && Inverse(s.origin, s.first)
    && s.life.rows == s.tables.rows && s.life.lines == s.tables.lines
  }

  ghost predicate Inverse(origin: map<WebhookId, int>, first: map<int, First>) {
    && (forall w :: w in origin ==> origin[w] in first && first[origin[w]].webhookId == w)
    && (forall o :: o in first ==> first[o].webhookId in origin && origin[first[o].webhookId] == o)
  }

  /** Row id holds the content and the lines of the first writer of its order. */
  ghost predicate Holds(s: State, id: int) {
    && id in s.tables.rows && s.tables.rows[id].order.shopifyId in s.first
    && var f := s.first[s.tables.rows[id].order.shopifyId];
    f.order == s.tables.rows[id].order && LinesOf(s.tables.lines, id, f.lines)
  }

  ghost predicate Faithful(s: State) {
    && ValidTables(s.tables)
    && (forall id :: id in s.tables.rows ==> Holds(s, id))
    && (forall o :: o in s.first ==> s.first[o].row in s.tables.rows && s.tables.rows[s.first[o].row].order.shopifyId == o)
  }

  ghost predicate Truthful(s: State, r: Request, answer: Answer) {
    && (answer.Ok200? ==> r.header.Some? && Delivered(r.header.value) in s.origin)
    && (answer.DuplicateOrder200? ==> r.body.Some? && r.body.value.id in s.first)
  }

  ghost predicate HandlerOk(s: State, pc: HandlerPc) {
    && Refused(pc.r).None?
    && (pc.Sending? ==>
          && pc.r.body.Some? && Delivered(pc.r.header.value) in s.origin
          && s.origin[Delivered(pc.r.header.value)] == pc.r.body.value.id)
  }

  ghost predicate Answered(s: State) {
    && (forall r, a :: (r, a) in s.answers ==> Truthful(s, r, a))
    && (forall h :: h in s.handlers ==> HandlerOk(s, s.handlers[h]))
  }

  ghost predicate AboutToSend(s: State, o: int) {
    exists h :: h in s.handlers && s.handlers[h].Sending? && s.handlers[h].r.body.Some? && s.handlers[h].r.body.value.id == o
  }

  ghost predicate Awake(s: State, o: int) {
    o in s.synced || s.timer != Off || s.token || s.syncer.Booting? || AboutToSend(s, o)
  }

  ghost predicate Inv(s: State) {
    Paired(s) && Faithful(s) && Answered(s) && forall o :: o in s.committed ==> Awake(s, o)
  }

  // ---------------------------------------------------------------- preservation

  /** first knows exactly the staged orders. */
  lemma FirstIsStaged(s: State, o: int)
    requires Faithful(s)
    ensures o in s.first <==> Staged(s.tables.rows, o)
  {
    if Staged(s.tables.rows, o) {
      var id :| id in s.tables.rows && s.tables.rows[id].order.shopifyId == o;
      assert Holds(s, id);
    }
  }

  lemma InverseInsert(origin: map<WebhookId, int>, first: map<int, First>, w: WebhookId, o: int, f: First)
    requires Inverse(origin, first) && w !in origin && o !in first && f.webhookId == w
    ensures Inverse(origin[w := o], first[o := f])
  {
  }

  lemma InsertPairs(s: State, s': State, webhookId: WebhookId, topic: string, order: OrderData, ls: seq<Line>, now: int, gap: nat -> nat)
    requires Paired(s) && ValidTables(s.tables) && Transaction(s, s', webhookId, topic, order, ls, now, gap, NoFault)
    requires webhookId !in s.tables.events && !Staged(s.tables.rows, order.shopifyId) && order.shopifyId !in s.first
    ensures Paired(s')
  {
    InverseInsert(s.origin, s.first, webhookId, order.shopifyId, First(webhookId, s.tables.nextRow, order, ls));
    assert s.tables.nextRow !in s.tables.rows;
    assert s'.tables.rows == s.tables.rows[s.tables.nextRow := NewRow(order, now)];
    assert s'.tables.events == s.tables.events[webhookId := topic];
  }

  lemma InsertHolds(s: State, s': State, webhookId: WebhookId, topic: string, order: OrderData, ls: seq<Line>, now: int, gap: nat -> nat, id: int)
    requires ValidTables(s.tables) && Transaction(s, s', webhookId, topic, order, ls, now, gap, NoFault)
    requires webhookId !in s.tables.events && !Staged(s.tables.rows, order.shopifyId)
    requires id in s'.tables.rows && (id in s.tables.rows ==> Holds(s, id))
    ensures Holds(s', id)
  {
    if id == s.tables.nextRow {
      LinesInserted(s.tables, webhookId, topic, order, ls, now, gap);
    } else {
      assert s.tables.rows[id].order.shopifyId != order.shopifyId;
      OtherLinesKept(s.tables, webhookId, topic, order, ls, now, gap, id, s.first[s.tables.rows[id].order.shopifyId].lines);
    }
  }

  /** Nothing that was staged or recorded is lost or rewritten. */
  ghost predicate Grows(s: State, s': State) {
    && (forall w :: w in s.origin ==> w in s'.origin && s'.origin[w] == s.origin[w])
    && (forall o :: o in s.first ==> o in s'.first && s'.first[o] == s.first[o])
  }

  lemma InsertFaithful(s: State, s': State, webhookId: WebhookId, topic: string, order: OrderData, ls: seq<Line>, now: int, gap: nat -> nat)
    requires Faithful(s) && Transaction(s, s', webhookId, topic, order, ls, now, gap, NoFault)
    requires webhookId !in s.tables.events && !Staged(s.tables.rows, order.shopifyId)
    ensures Faithful(s')
  {
    InsertedIsValid(s.tables, webhookId, topic, order, ls, now, gap);
    forall id | id in s'.tables.rows ensures Holds(s', id) {
      InsertHolds(s, s', webhookId, topic, order, ls, now, gap, id);
    }
    assert s.tables.nextRow !in s.tables.rows;
  }

  lemma InsertKeeps(s: State, s': State, webhookId: WebhookId, topic: string, order: OrderData, ls: seq<Line>, now: int, gap: nat -> nat)
    requires Paired(s) && Faithful(s) && Transaction(s, s', webhookId, topic, order, ls, now, gap, NoFault)
    requires webhookId !in s.tables.events && order.shopifyId !in s.first
    ensures Paired(s') && Faithful(s') && Grows(s, s')
  {
    FirstIsStaged(s, order.shopifyId);
    InsertPairs(s, s', webhookId, topic, order, ls, now, gap);
    InsertFaithful(s, s', webhookId, topic, order, ls, now, gap);
  }

  lemma RollbackKeeps(s: State, s': State)
    requires Paired(s) && Faithful(s) && s'.origin == s.origin && s'.first == s.first && s'.life == s.life
    requires s'.tables == s.tables || s'.tables == s.tables.(nextRow := s.tables.nextRow + 1)
    ensures Paired(s') && Faithful(s') && Grows(s, s')
  {
    forall id | id in s'.tables.rows ensures Holds(s', id) {
      assert Holds(s, id);
    }
  }

  /** A transaction keeps the pairing and the contents and only adds; unless it was lost, its event or its order is there afterwards. */
  lemma TransactionKeeps(s: State, s': State, webhookId: WebhookId, topic: string, order: OrderData, ls: seq<Line>, now: int, gap: nat -> nat, fault: Fault)
    requires Paired(s) && Faithful(s) && Transaction(s, s', webhookId, topic, order, ls, now, gap, fault)
    ensures Paired(s') && Faithful(s') && Grows(s, s')
    ensures !fault.Lost? && webhookId !in s.tables.events ==> order.shopifyId in s'.first
    ensures Inserts(s.tables, webhookId, order.shopifyId, fault) ==> webhookId in s'.origin && s'.origin[webhookId] == order.shopifyId
  {
    FirstIsStaged(s, order.shopifyId);
    if Inserts(s.tables, webhookId, order.shopifyId, fault) {
      InsertKeeps(s, s', webhookId, topic, order, ls, now, gap);
    } else {
      RollbackKeeps(s, s');
    }
  }

  lemma AnswersStayTrue(s: State, s': State)
    requires Answered(s) && Grows(s, s')
    ensures forall r, a :: (r, a) in s.answers ==> Truthful(s', r, a)
    ensures forall h :: h in s.handlers ==> HandlerOk(s', s.handlers[h])
  {
    forall r, a | (r, a) in s.answers ensures Truthful(s', r, a) {
      assert Truthful(s, r, a);
    }
    forall h | h in s.handlers ensures HandlerOk(s', s.handlers[h]) {
      assert HandlerOk(s, s.handlers[h]);
    }
  }

  /** The transaction that this handler runs, as the rest of the proof needs it. */
  lemma CreateTransaction(s: State, s': State, h: int, now: int, gap: nat -> nat, fault: Fault)
    requires Paired(s) && Faithful(s) && CreateStep(s, s', h, now, gap, fault)
    ensures Paired(s') && Faithful(s') && Grows(s, s')
    ensures var r := s.handlers[h].r;
      var w, o := Delivered(r.header.value), r.body.value.id;
      && (!fault.Lost? && w !in s.tables.events ==> o in s'.first)
      && (Inserts(s.tables, w, o, fault) ==> w in s'.origin && s'.origin[w] == o)
      && (w in s.tables.events ==> w in s'.origin)
  {
    var p, w := s.handlers[h].r.body.value, Delivered(s.handlers[h].r.header.value);
    var order, ls := OrderFrom(p, p, now), LinesFrom(p);
    TransactionKeeps(s, s', w, "orders/create", order, ls, now, gap, fault);
  }

  lemma CreateKeepsTables(s: State, s': State, h: int, now: int, gap: nat -> nat, fault: Fault)
    requires Paired(s) && Faithful(s) && CreateStep(s, s', h, now, gap, fault)
    ensures Paired(s') && Faithful(s') && Grows(s, s')
    ensures h in s'.handlers ==> HandlerOk(s', s'.handlers[h])
    ensures forall r, a :: (r, a) in s'.answers && (r, a) !in s.answers ==> Truthful(s', r, a)
  {
    CreateTransaction(s, s', h, now, gap, fault);
    CreateAnswers(s, s', h, now, gap, fault);
  }

  lemma CreateAnswers(s: State, s': State, h: int, now: int, gap: nat -> nat, fault: Fault)
    requires CreateStep(s, s', h, now, gap, fault)
    requires var r := s.handlers[h].r;
      var w, o := Delivered(r.header.value), r.body.value.id;
      && (!fault.Lost? && w !in s.tables.events ==> o in s'.first)
      && (Inserts(s.tables, w, o, fault) ==> w in s'.origin && s'.origin[w] == o)
      && (w in s.tables.events ==> w in s'.origin)
    ensures h in s'.handlers ==> HandlerOk(s', s'.handlers[h])
    ensures forall r, a :: (r, a) in s'.answers && (r, a) !in s.answers ==> Truthful(s', r, a)
  {
  }

  lemma CreateKeeps(s: State, s': State, h: int, now: int, gap: nat -> nat, fault: Fault)
    requires Inv(s) && CreateStep(s, s', h, now, gap, fault)
    ensures Inv(s') && Grows(s, s')
  {
    CreateKeepsTables(s, s', h, now, gap, fault);
    CreateMoves(s, s', h, now, gap, fault);
    AnswersStayTrue(s, s');
    CreateStaysAwake(s, s', h);
    forall k | k in s'.handlers ensures HandlerOk(s', s'.handlers[k]) {
      if k != h {
        assert s'.handlers[k] == s.handlers[k];
      }
    }
  }

  /** What CreateStep does to everything but the tables. */
  ghost predicate Moves(s: State, s': State, h: int) {
    && s'.synced == s.synced && s'.timer == s.timer && s'.token == s.token && s'.syncer == s.syncer
    && h in s.handlers && s.handlers[h].Creating?
    && (forall k :: k != h ==> (k in s'.handlers <==> k in s.handlers))
    && (forall k :: k != h && k in s.handlers ==> s'.handlers[k] == s.handlers[k])
    && (forall o :: o in s'.committed && o !in s.committed ==>
          h in s'.handlers && s'.handlers[h].Sending? && s'.handlers[h].r.body.Some? && s'.handlers[h].r.body.value.id == o)
  }

  lemma CreateMoves(s: State, s': State, h: int, now: int, gap: nat -> nat, fault: Fault)
    requires CreateStep(s, s', h, now, gap, fault)
    ensures Moves(s, s', h)
  {
  }

  lemma CreateStaysAwake(s: State, s': State, h: int)
    requires (forall o :: o in s.committed ==> Awake(s, o)) && Moves(s, s', h)
    ensures forall o :: o in s'.committed ==> Awake(s', o)
  {
    forall o | o in s'.committed ensures Awake(s', o) {
      if o in s.committed {
        SendersStay(s, s', h, o);
      }
    }
  }

  /** Other handlers stay where they are. */
  lemma SendersStay(s: State, s': State, h: int, o: int)
    requires Awake(s, o) && s'.synced == s.synced && s'.timer == s.timer && s'.token == s.token && s'.syncer == s.syncer
    requires h in s.handlers ==> !s.handlers[h].Sending?
    requires forall k :: k in s.handlers && k != h ==> k in s'.handlers && s'.handlers[k] == s.handlers[k]
    ensures Awake(s', o)
  {
    if AboutToSend(s, o) {
      var k :| k in s.handlers && s.handlers[k].Sending? && s.handlers[k].r.body.Some? && s.handlers[k].r.body.value.id == o;
      assert s'.handlers[k] == s.handlers[k];
    }
  }

  lemma SameTables(s: State, s': State)
    requires Paired(s) && Faithful(s) && s'.tables == s.tables && s'.origin == s.origin && s'.first == s.first
    requires s'.life.rows == s.life.rows && s'.life.lines == s.life.lines
    ensures Paired(s') && Faithful(s') && Grows(s, s')
  {
    forall id | id in s'.tables.rows ensures Holds(s', id) {
      assert Holds(s, id);
    }
  }

  /** A step of delivery h alone that writes nothing: the other deliveries stay, and what it answers is true. */
  ghost predicate HandlerMove(s: State, s': State, h: int) {
    && s'.tables == s.tables && s'.origin == s.origin && s'.first == s.first && s'.committed == s.committed && s'.life == s.life
    && s'.synced == s.synced && s'.timer == s.timer && s'.token == s.token && s'.syncer == s.syncer
    && (h in s.handlers ==> !s.handlers[h].Sending?)
    && (h in s'.handlers ==> HandlerOk(s', s'.handlers[h]))
    && (forall k :: k in s.handlers && k != h ==> k in s'.handlers && s'.handlers[k] == s.handlers[k])
    && (forall k :: k in s'.handlers && k != h ==> k in s.handlers)
    && (forall r, a :: (r, a) in s'.answers && (r, a) !in s.answers ==> Truthful(s', r, a))
  }

  lemma MoveKeepsAnswers(s: State, s': State, h: int)
    requires Answered(s) && HandlerMove(s, s', h)
    ensures Answered(s')
  {
    AnswersStayTrue(s, s');
    forall k | k in s'.handlers ensures HandlerOk(s', s'.handlers[k]) {
      if k != h {
        assert s'.handlers[k] == s.handlers[k];
      }
    }
  }

  lemma MoveStaysAwake(s: State, s': State, h: int)
    requires (forall o :: o in s.committed ==> Awake(s, o)) && HandlerMove(s, s', h)
    ensures forall o :: o in s'.committed ==> Awake(s', o)
  {
    forall o | o in s'.committed ensures Awake(s', o) {
      SendersStay(s, s', h, o);
    }
  }

  lemma MoveKeeps(s: State, s': State, h: int)
    requires Inv(s) && HandlerMove(s, s', h)
    ensures Inv(s') && Grows(s, s')
  {
    SameTables(s, s');
    MoveKeepsAnswers(s, s', h);
    MoveStaysAwake(s, s', h);
  }

  lemma ArriveMoves(s: State, s': State, h: int, r: Request)
    requires ArriveStep(s, s', h, r)
    ensures HandlerMove(s, s', h)
  {
  }

  lemma CheckMoves(s: State, s': State, h: int, fault: Fault)
    requires CheckStep(s, s', h, fault) && s.origin.Keys == s.tables.events.Keys
    ensures HandlerMove(s, s', h)
  {
  }

  lemma SendKeeps(s: State, s': State, h: int)
    requires Inv(s) && SendStep(s, s', h)
    ensures Inv(s') && Grows(s, s')
  {
    SameTables(s, s');
    AnswersStayTrue(s, s');
    assert HandlerOk(s, s.handlers[h]);
  }

  /** What the sweep leaves alone. */
  ghost predicate SweepFrame(s: State, s': State) {
    && s'.handlers == s.handlers && s'.answers == s.answers && s'.committed == s.committed
    && s'.synced == s.synced && s'.timer == s.timer && s'.token == s.token && s'.syncer == s.syncer
  }

  lemma SweepFrames(s: State, s': State, step: Step)
    requires SweepStep(s, s', step)
    ensures SweepFrame(s, s')
  {
  }

  lemma SweepWrites(s: State, s': State, step: Step)
    requires Paired(s) && Faithful(s) && SweepStep(s, s', step)
    ensures Paired(s') && Faithful(s') && Grows(s, s')
  {
    if step.SweepStage? && s'.tables != s.tables {
      var p := s.sweep.orders[0];
      TransactionKeeps(s, s', Reconciled(p.id, step.second), "orders/reconcile", SweptData(p, step.now), SweptLines(p), step.now, step.gap, step.fault);
    } else {
      SweepWithoutWrite(s, s', step);
      SameTables(s, s');
    }
  }

  lemma SweepKeeps(s: State, s': State, step: Step)
    requires Inv(s) && SweepStep(s, s', step)
    ensures Inv(s') && Grows(s, s')
  {
    SweepWrites(s, s', step);
    SweepFrames(s, s', step);
    AnswersStayTrue(s, s');
    forall o | o in s'.committed ensures Awake(s', o) {
      assert Awake(s, o) && s'.handlers == s.handlers;
    }
  }

  lemma SweepWithoutWrite(s: State, s': State, step: Step)
    requires SweepStep(s, s', step) && s'.tables == s.tables
    ensures s'.origin == s.origin && s'.first == s.first && s'.life == s.life
  {
    if step.SweepStage? {
      var t := s.tables;
      assert t.(nextRow := t.nextRow + 1).nextRow != t.nextRow;
    }
  }

  lemma SyncKeeps(s: State, s': State, step: Step)
    requires Inv(s) && SyncStep(s, s', step)
    ensures Inv(s') && Grows(s, s')
  {
    SameTables(s, s');
    AnswersStayTrue(s, s');
    forall o | o in s'.committed ensures Awake(s', o) {
      assert Awake(s, o) && s'.handlers == s.handlers;
    }
  }

  lemma ContentKept(s: State, s': State)
    requires Paired(s) && Faithful(s) && SameContent(s.tables.rows, s'.tables.rows)
    requires s' == s.(life := s'.life, tables := s.tables.(rows := s'.tables.rows))
    ensures Faithful(s') && Grows(s, s')
  {
    forall id | id in s'.tables.rows ensures Holds(s', id) {
      assert Holds(s, id);
    }
  }

  lemma SameSize(rows: Rows, rows': Rows)
    requires rows.Keys == rows'.Keys
    ensures |rows| == |rows'|
  {
    assert |rows| == |rows.Keys| && |rows'| == |rows'.Keys|;
  }

  lemma OthersKeep(s: State, s': State, step: L.Step)
    requires Inv(s) && OthersStep(s, s', step)
    ensures Inv(s') && Grows(s, s')
  {
    LS.OtherStepsKeepContent(s.life, s'.life, step);
    SameSize(s.tables.rows, s'.tables.rows);
    ContentKept(s, s');
    AnswersStayTrue(s, s');
    forall o | o in s'.committed ensures Awake(s', o) {
      assert Awake(s, o) && s'.handlers == s.handlers;
    }
  }

  lemma CrashKeeps(s: State, s': State)
    requires Inv(s) && CrashStep(s, s')
    ensures Inv(s') && Grows(s, s')
  {
    SameTables(s, s');
    AnswersStayTrue(s, s');
  }

  lemma DeliveryKeeps(s: State, s': State, step: Step)
    requires Inv(s) && Takes(s, s', step) && (step.Arrive? || step.Check? || step.Create? || step.Send?)
    ensures Inv(s') && Grows(s, s')
  {
    match step
    case Arrive(h, r) =>
      ArriveMoves(s, s', h, r);
      MoveKeeps(s, s', h);
    case Check(h, fault) =>
      CheckMoves(s, s', h, fault);
      MoveKeeps(s, s', h);
    case Create(h, now, gap, fault) => CreateKeeps(s, s', h, now, gap, fault);
    case Send(h) => SendKeeps(s, s', h);
  }

  lemma StepKeepsInv(s: State, s': State, step: Step)
    requires Inv(s) && Takes(s, s', step)
    ensures Inv(s') && Grows(s, s')
  {
    if step.Arrive? || step.Check? || step.Create? || step.Send? {
      DeliveryKeeps(s, s', step);
    } else if step.Others? {
      OthersKeep(s, s', step.step);
    } else if step.Crash? {
      CrashKeeps(s, s');
    } else if SweepStep(s, s', step) {
      SweepKeeps(s, s', step);
    } else {
      SyncKeeps(s, s', step);
    }
  }

  lemma {:induction false} EveryStateInv(states: seq<State>, steps: seq<Step>, i: int)
    requires Behaviour(states, steps) && 0 <= i < |states|
    ensures Inv(states[i])
    decreases i
  {
    if i > 0 {
      EveryStateInv(states, steps, i - 1);
      StepKeepsInv(states[i - 1], states[i], steps[i - 1]);
    } else {
      assert states[0] == INITIAL;
    }
  }
}
