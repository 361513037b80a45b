/** What holds in every run of Staging. */
module StagingRuns {
  import opened Wrappers
  import opened Shopify
  import opened Store
  import opened Ingest
  import opened Staging
  import L = Lifecycle

  /**
   Under any interleaving of deliveries, redeliveries and sweeps: there are as many events as orders, each event staged
   one order and each order has one event, no two rows share an order id, and each row still holds the content and the
   lines of the one transaction that staged it.
   */
  lemma IngestionIsIdempotent(states: seq<State>, steps: seq<Step>, i: int)
    requires Behaviour(states, steps) && 0 <= i < |states|
    ensures var s := states[i];
      && |s.tables.events| == |s.tables.rows| && s.origin.Keys == s.tables.events.Keys && Inverse(s.origin, s.first)
      && (forall o :: o in s.first <==> Staged(s.tables.rows, o))
      && (forall p, q :: p in s.tables.rows && q in s.tables.rows && p != q ==>
            s.tables.rows[p].order.shopifyId != s.tables.rows[q].order.shopifyId)
      && (forall id :: id in s.tables.rows ==> Holds(s, id))
  {
    EveryStateInv(states, steps, i);
    forall o ensures o in states[i].first <==> Staged(states[i].tables.rows, o) {
      FirstIsStaged(states[i], o);
    }
  }

  lemma HistoryGrows(states: seq<State>, steps: seq<Step>, i: int, k: int)
    requires Behaviour(states, steps) && 0 <= i <= k < |states|
    ensures Grows(states[i], states[k])
  {
    forall j | i <= j < k ensures Grows(states[j], states[j + 1]) {
      RunGrows(states, steps, j);
    }
    ChainGrows(states, i, k);
  }

  lemma {:induction false} ChainGrows(states: seq<State>, i: int, k: int)
    requires 0 <= i <= k < |states| && forall j :: i <= j < k ==> Grows(states[j], states[j + 1])
    ensures Grows(states[i], states[k])
    decreases k
  {
    if i < k {
      ChainGrows(states, i, k - 1);
      assert Grows(states[k - 1], states[k - 1 + 1]);
      GrowsOn(states[i], states[k - 1], states[k]);
    }
  }

  lemma RunGrows(states: seq<State>, steps: seq<Step>, k: int)
    requires Behaviour(states, steps) && 0 <= k < |steps|
    ensures Grows(states[k], states[k + 1])
  {
    EveryStateInv(states, steps, k);
    StepKeepsInv(states[k], states[k + 1], steps[k]);
  }

  lemma GrowsOn(s: State, mid: State, s': State)
    requires Grows(s, mid) && Grows(mid, s')
    ensures Grows(s, s')
  {
  }

  /** The first writer's content never changes: a staged row keeps its content and its lines for good. */
  lemma FirstWriterWins(states: seq<State>, steps: seq<Step>, i: int, k: int, id: int, ls: seq<Line>)
    requires Behaviour(states, steps) && 0 <= i <= k < |states| && id in states[i].tables.rows
    ensures id in states[k].tables.rows && states[k].tables.rows[id].order == states[i].tables.rows[id].order
    ensures LinesOf(states[i].tables.lines, id, ls) <==> LinesOf(states[k].tables.lines, id, ls)
  {
    EveryStateInv(states, steps, i);
    EveryStateInv(states, steps, k);
    HistoryGrows(states, steps, i, k);
    SameFirst(states[i], states[k], id, ls);
  }

  lemma SameFirst(s: State, s': State, id: int, ls: seq<Line>)
    requires Faithful(s) && Faithful(s') && Grows(s, s') && id in s.tables.rows
    ensures id in s'.tables.rows && s'.tables.rows[id].order == s.tables.rows[id].order
    ensures LinesOf(s.tables.lines, id, ls) <==> LinesOf(s'.tables.lines, id, ls)
  {
    assert Holds(s, id);
    var o := s.tables.rows[id].order.shopifyId;
    assert s.first[o].row == id && s'.first[o] == s.first[o];
    assert Holds(s', id);
    if LinesOf(s.tables.lines, id, ls) {
      LinesOfUnique(s.tables.lines, id, ls, s.first[o].lines);
    }
    if LinesOf(s'.tables.lines, id, ls) {
      LinesOfUnique(s'.tables.lines, id, ls, s.first[o].lines);
    }
  }

  /**
   A duplicate_order answer means the order's row exists. A plain 200 means that the order its webhook id was recorded for
   has a row, so the row of the delivered order exists whenever the id was recorded for that order.
   */
  lemma SuccessMeansStaged(states: seq<State>, steps: seq<Step>, i: int, r: Request, answer: Answer)
    requires Behaviour(states, steps) && 0 <= i < |states| && (r, answer) in states[i].answers
    ensures answer.DuplicateOrder200? ==> r.body.Some? && Staged(states[i].tables.rows, r.body.value.id)
    ensures answer.Ok200? ==>
      && r.header.Some? && Delivered(r.header.value) in states[i].origin
      && Staged(states[i].tables.rows, states[i].origin[Delivered(r.header.value)])
  {
    EveryStateInv(states, steps, i);
    assert Truthful(states[i], r, answer);
    if answer.DuplicateOrder200? {
      FirstIsStaged(states[i], r.body.value.id);
    } else if answer.Ok200? {
      FirstIsStaged(states[i], states[i].origin[Delivered(r.header.value)]);
    }
  }

  predicate Acknowledges(answer: Answer) {
    answer.Ok200? || answer.DuplicateOrder200? || answer.SkippedUnpaid200?
  }

  lemma HandlersAreSigned(s: State, h: int)
    requires Inv(s) && h in s.handlers
    ensures s.handlers[h].r.signed && s.handlers[h].r.header.Some? && s.handlers[h].r.header.value != ""
  {
    assert HandlerOk(s, s.handlers[h]);
  }

  lemma OnlyDeliveriesAnswer(s: State, s': State, step: Step)
    requires Takes(s, s', step) && !step.Arrive? && !step.Check? && !step.Create? && !step.Send?
    ensures s'.answers == s.answers
  {
  }

  lemma ArrivalsAreRefused(s: State, s': State, h: int, r: Request)
    requires ArriveStep(s, s', h, r)
    ensures forall a :: a in s'.answers && a !in s.answers ==> !Acknowledges(a.1)
  {
  }

  lemma HandlersAnswer(s: State, s': State, step: Step, a: (Request, Answer))
    requires Takes(s, s', step) && (step.Check? || step.Create? || step.Send?) && a in s'.answers && a !in s.answers
    ensures step.h in s.handlers && a.0 == s.handlers[step.h].r
  {
  }

  lemma NewAnswer(s: State, s': State, step: Step, r: Request, answer: Answer)
    requires Inv(s) && Takes(s, s', step) && (r, answer) in s'.answers && (r, answer) !in s.answers && Acknowledges(answer)
    ensures r.signed && r.header.Some? && r.header.value != ""
  {
    if step.Arrive? {
      ArrivalsAreRefused(s, s', step.h, step.r);
    } else if step.Check? || step.Create? || step.Send? {
      HandlersAnswer(s, s', step, (r, answer));
      HandlersAreSigned(s, step.h);
    } else {
      OnlyDeliveriesAnswer(s, s', step);
    }
  }

  /** Over every run, only a request with a valid signature and a webhook id is ever answered 200. */
  lemma {:induction false} OnlySignedRequestsAreAcknowledged(states: seq<State>, steps: seq<Step>, i: int, r: Request, answer: Answer)
    requires Behaviour(states, steps) && 0 <= i < |states| && (r, answer) in states[i].answers && Acknowledges(answer)
    ensures r.signed && r.header.Some? && r.header.value != ""
    decreases i
  {
    if i > 0 {
      if (r, answer) in states[i - 1].answers {
        OnlySignedRequestsAreAcknowledged(states, steps, i - 1, r, answer);
      } else {
        EveryStateInv(states, steps, i - 1);
        NewAnswer(states[i - 1], states[i], steps[i - 1], r, answer);
      }
    }
  }

  /** Step k commits the delivery of a signed request whose webhook id is header and whose payload is order o. */
  ghost predicate StagesDelivery(states: seq<State>, steps: seq<Step>, k: int, o: int, header: string)
    requires |states| == |steps| + 1
  {
    && 0 <= k < |steps| && steps[k].Create? && steps[k].h in states[k].handlers
    && IsDelivery(states[k].handlers[steps[k].h].r, o, header)
  }

  predicate IsDelivery(r: Request, o: int, header: string) {
    r.signed && r.header == Some(header) && header != "" && r.body.Some? && r.body.value.id == o
  }

  lemma NewFirst(s: State, s': State, step: Step, o: int)
    requires Inv(s) && Takes(s, s', step) && o in s'.first && o !in s.first && s'.first[o].webhookId.Delivered?
    ensures step.Create? && step.h in s.handlers && IsDelivery(s.handlers[step.h].r, o, s'.first[o].webhookId.header)
  {
    if step.Create? {
      HandlersAreSigned(s, step.h);
      CreateStages(s, s', step, o);
    } else {
      OthersStageNoDelivery(s, s', step);
    }
  }

  lemma CreateStages(s: State, s': State, step: Step, o: int)
    requires Takes(s, s', step) && step.Create? && o in s'.first && o !in s.first
    ensures step.h in s.handlers && s.handlers[step.h].r.body.Some? && s.handlers[step.h].r.body.value.id == o
    ensures s.handlers[step.h].r.header.Some? && s'.first[o].webhookId == Delivered(s.handlers[step.h].r.header.value)
  {
  }

  lemma OthersStageNoDelivery(s: State, s': State, step: Step)
    requires Takes(s, s', step) && !step.Create?
    ensures forall o :: o in s'.first && o !in s.first ==> s'.first[o].webhookId.Reconciled?
  {
  }

  /** Over every run, behind each order staged under a delivered webhook id stands a signed request for that very order. */
  lemma {:induction false} OnlySignedRequestsStage(states: seq<State>, steps: seq<Step>, i: int, o: int)
    requires Behaviour(states, steps) && 0 <= i < |states| && o in states[i].first && states[i].first[o].webhookId.Delivered?
    ensures exists k :: k < i && StagesDelivery(states, steps, k, o, states[i].first[o].webhookId.header)
    decreases i
  {
    if i > 0 {
      if o in states[i - 1].first {
        RunGrows(states, steps, i - 1);
        OnlySignedRequestsStage(states, steps, i - 1, o);
      } else {
        EveryStateInv(states, steps, i - 1);
        NewFirst(states[i - 1], states[i], steps[i - 1], o);
        assert StagesDelivery(states, steps, i - 1, o, states[i].first[o].webhookId.header);
      }
    }
  }

  /**
   Of two deliveries of one webhook id that were both checked before either was committed, the one that comes second writes
   nothing and is answered 200, unless the database fails.
   */
  lemma TheSecondOfTwoIsAnswered(s: State, s': State, h: int, now: int, gap: nat -> nat, fault: Fault)
    requires CreateStep(s, s', h, now, gap, fault) && Delivered(s.handlers[h].r.header.value) in s.tables.events
    ensures s'.tables == s.tables && s'.first == s.first && h !in s'.handlers
    ensures (s.handlers[h].r, if fault.Lost? then Internal500 else Ok200) in s'.answers
  {
  }

  /** An unpaid skip writes nothing, so the order can still be staged later, under the same webhook id too. */
  lemma UnpaidSkipBlocksNothing(s: State, s': State, h: int, p: Payload, header: string, order: OrderData, ls: seq<Line>, now: int, gap: nat -> nat)
    requires Inv(s) && CheckStep(s, s', h, NoFault)
    requires s.handlers[h].r.header == Some(header) && s.handlers[h].r.body == Some(p) && Screened(Some(p)) == Some(SkippedUnpaid200)
    requires Delivered(header) !in s.tables.events && !Staged(s.tables.rows, p.id) && order.shopifyId == p.id
    ensures s'.tables == s.tables && (s.handlers[h].r, SkippedUnpaid200) in s'.answers
    ensures CreateResult(s'.tables, Delivered(header), p.id, NoFault).Ok?
    ensures Staged(Created(s'.tables, Delivered(header), "orders/create", order, ls, now, gap, NoFault).rows, p.id)
  {
    var t' := Inserted(s.tables, Delivered(header), "orders/create", order, ls, now, gap);
    assert t'.rows[s.tables.nextRow].order.shopifyId == p.id;
  }

  // ---------------------------------------------------------------- wakeups

  /**
   No lost wakeup: for every order whose commit a handler saw, in every state a sync has started after the commit, or the
   debounce timer is running or has fired, or the channel holds a token, or the handler has yet to send, or the syncer has
   not had its first tick since a restart. Dropped sends and timer resets never break this.
   */
  lemma NoLostWakeup(states: seq<State>, steps: seq<Step>, i: int, o: int)
    requires Behaviour(states, steps) && 0 <= i < |states| && o in states[i].committed
    ensures var s := states[i];
      o in s.synced || s.timer != Off || s.token || s.syncer.Booting? || AboutToSend(s, o)
  {
    EveryStateInv(states, steps, i);
    assert Awake(states[i], o);
  }

  // ---------------------------------------------------------------- what does not hold

  lemma Extend(states: seq<State>, steps: seq<Step>, s: State, step: Step)
    requires Behaviour(states, steps) && Takes(states[|steps|], s, step)
    ensures Behaviour(states + [s], steps + [step])
  {
  }

  ghost predicate EndsIn(states: seq<State>, steps: seq<Step>, s: State) {
    Behaviour(states, steps) && states[|steps|] == s
  }

  /** The state after one paid delivery has been checked, in a service whose syncer has done its boot sync. */
  ghost function CheckedOnce(r: Request): State {
    INITIAL.(syncer := Selecting, handlers := map[1 := Creating(r)])
  }

  lemma ReachCheckedOnce(r: Request) returns (states: seq<State>, steps: seq<Step>)
    requires Refused(r).None? && Screened(r.body).None?
    ensures EndsIn(states, steps, CheckedOnce(r))
  {
    var s1 := INITIAL.(syncer := Syncing);
    var s2 := INITIAL.(syncer := Selecting);
    var s3 := s2.(handlers := map[1 := Checking(r)]);
    assert Takes(INITIAL, s1, StartFullSync);
    assert Takes(s1, s2, EndSync);
    assert Takes(s2, s3, Arrive(1, r));
    assert Takes(s3, CheckedOnce(r), Check(1, NoFault));
    states, steps := [INITIAL, s1, s2, s3, CheckedOnce(r)], [StartFullSync, EndSync, Arrive(1, r), Check(1, NoFault)];
  }

  ghost predicate Forgotten(s: State, o: int) {
    Staged(s.tables.rows, o) && o !in s.synced && s.timer == Off && !s.token && s.syncer.Selecting? && s.handlers == map[]
  }

  /**
   The wakeup is lost when only the answer of the commit is lost: the row is there, the handler answers 500 without a
   send, and the redelivery answers 200 without one. The order then waits for the next periodic sync.
   */
  lemma LostCommitAnswerLosesTheWakeup(r: Request, now: int, gap: nat -> nat)
    requires Refused(r).None? && Screened(r.body).None?
    ensures exists states: seq<State>, steps: seq<Step> ::
      Behaviour(states, steps) && Forgotten(states[|steps|], r.body.value.id)
  {
    var states, steps := ReachCheckedOnce(r);
    var s, p := CheckedOnce(r), r.body.value;
    var t' := Inserted(s.tables, Delivered(r.header.value), "orders/create", OrderFrom(p, p, now), LinesFrom(p), now, gap);
    var s' := s.(tables := t', origin := map[Delivered(r.header.value) := p.id],
                 first := map[p.id := First(Delivered(r.header.value), 1, OrderFrom(p, p, now), LinesFrom(p))],
                 handlers := map[], answers := {(r, Internal500)}, life := AfterInsert(s.life, t', 1));
    assert Takes(s, s', Create(1, now, gap, AnswerLost));
    Extend(states, steps, s', Create(1, now, gap, AnswerLost));
    assert t'.rows[1].order.shopifyId == p.id;
    assert Forgotten((states + [s'])[|steps + [Create(1, now, gap, AnswerLost)]|], p.id);
  }

  ghost predicate AnsweredUnstaged(s: State, r: Request) {
    (r, Ok200) in s.answers && r.body.Some? && !Staged(s.tables.rows, r.body.value.id)
  }

  /** The state after that delivery has committed and before it sends. */
  ghost function CommittedOnce(r: Request, now: int, gap: nat -> nat): State
    requires r.header.Some? && r.body.Some?
  {
    var p, w := r.body.value, Delivered(r.header.value);
    var t := Inserted(INITIAL.tables, w, "orders/create", OrderFrom(p, p, now), LinesFrom(p), now, gap);
    CheckedOnce(r).(
      tables := t, life := AfterInsert(L.INITIAL, t, 1),
      origin := map[w := p.id], first := map[p.id := First(w, 1, OrderFrom(p, p, now), LinesFrom(p))],
      handlers := map[1 := Sending(r)], committed := {p.id})
  }

  lemma ReachCommittedOnce(r: Request, now: int, gap: nat -> nat) returns (states: seq<State>, steps: seq<Step>)
    requires Refused(r).None? && Screened(r.body).None?
    ensures EndsIn(states, steps, CommittedOnce(r, now, gap))
  {
    states, steps := ReachCheckedOnce(r);
    assert Takes(CheckedOnce(r), CommittedOnce(r, now, gap), Create(1, now, gap, NoFault));
    Extend(states, steps, CommittedOnce(r, now, gap), Create(1, now, gap, NoFault));
    states, steps := states + [CommittedOnce(r, now, gap)], steps + [Create(1, now, gap, NoFault)];
  }

  lemma RedeliveryIsAnswered(s: State, reuse: Request) returns (s1: State, s2: State)
    requires s.life.up && 2 !in s.handlers && Refused(reuse).None? && Delivered(reuse.header.value) in s.tables.events
    ensures Takes(s, s1, Arrive(2, reuse)) && Takes(s1, s2, Check(2, NoFault))
    ensures s2.tables == s.tables && (reuse, Ok200) in s2.answers
  {
    s1 := s.(handlers := s.handlers[2 := Checking(reuse)]);
    s2 := s1.(handlers := s1.handlers - {2}, answers := s1.answers + {(reuse, Ok200)});
  }

  /** A webhook id reused for a different order is answered 200 although that order has no row. */
  lemma ReusedWebhookIdHidesAnOrder(r: Request, reuse: Request, now: int, gap: nat -> nat)
    requires Refused(r).None? && Screened(r.body).None?
    requires Refused(reuse).None? && reuse.header == r.header && reuse.body.Some? && reuse.body.value.id != r.body.value.id
    ensures exists states: seq<State>, steps: seq<Step> ::
      Behaviour(states, steps) && AnsweredUnstaged(states[|steps|], reuse)
  {
    var states, steps := ReachCommittedOnce(r, now, gap);
    var s := CommittedOnce(r, now, gap);
    var s1, s2 := RedeliveryIsAnswered(s, reuse);
    Extend(states, steps, s1, Arrive(2, reuse));
    states, steps := states + [s1], steps + [Arrive(2, reuse)];
    Extend(states, steps, s2, Check(2, NoFault));
    states, steps := states + [s2], steps + [Check(2, NoFault)];
    assert s.tables.rows == map[1 := NewRow(OrderFrom(r.body.value, r.body.value, now), now)];
    assert AnsweredUnstaged(states[|steps|], reuse);
  }
}
