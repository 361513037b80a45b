/** Staging and its neighbours: its runs are runs of Lifecycle, and the handler and the sweep are paths of it. */
module StagingTheorems {
  import opened Wrappers
  import opened Sums
  import opened Shopify
  import opened Store
  import opened Ingest
  import opened Reconcile
  import opened Staging
  import SR = StagingRuns
  import L = Lifecycle

  // ---------------------------------------------------------------- the orders alone

  /** A transaction that inserts is a Stage step of Lifecycle. */
  lemma InsertIsStage(
      s: State, s': State, webhookId: WebhookId, topic: string, order: OrderData, ls: seq<Line>, now: int, gap: nat -> nat, fault: Fault)
    requires Paired(s) && ValidTables(s.tables) && s.life.up && Transaction(s, s', webhookId, topic, order, ls, now, gap, fault)
    requires Inserts(s.tables, webhookId, order.shopifyId, fault)
    ensures L.Takes(s.life, s'.life, L.Stage(s.tables.nextRow, order, NewLines(s.tables.nextRow, ls, s.tables.nextLine, gap), now))
  {
    var t, added := s.tables, NewLines(s.tables.nextRow, ls, s.tables.nextLine, gap);
    AddedLinesAreNew(t, ls, gap);
    NewLinesDisjoint(t, added);
    assert t.nextRow !in t.rows;
    assert L.StageStep(s.life, s'.life, t.nextRow, order, added, now);
  }

  lemma NewLinesDisjoint(t: Tables, added: LineRows)
    requires ValidTables(t) && forall i :: i in added ==> i >= t.nextLine
    ensures t.lines.Keys !! added.Keys
  {
    assert forall i :: i in t.lines.Keys ==> i in t.lines && i < t.nextLine;
    assert forall i :: i in added.Keys ==> i in added;
  }

  lemma OnlyWritersMove(s: State, s': State, step: Step)
    requires Takes(s, s', step) && s'.life != s.life
    ensures step.Others? || step.Crash? || step.Create? || step.SweepStage?
  {
  }

  lemma CreateIsStage(s: State, s': State, h: int, now: int, gap: nat -> nat, fault: Fault) returns (life: L.Step)
    requires Paired(s) && ValidTables(s.tables) && s.life.up && CreateStep(s, s', h, now, gap, fault) && s'.life != s.life
    ensures L.Takes(s.life, s'.life, life)
  {
    var p, w := s.handlers[h].r.body.value, Delivered(s.handlers[h].r.header.value);
    InsertIsStage(s, s', w, "orders/create", OrderFrom(p, p, now), LinesFrom(p), now, gap, fault);
    life := L.Stage(s.tables.nextRow, OrderFrom(p, p, now), NewLines(s.tables.nextRow, LinesFrom(p), s.tables.nextLine, gap), now);
  }

  lemma SweepStageIsStage(s: State, s': State, step: Step) returns (life: L.Step)
    requires Paired(s) && ValidTables(s.tables) && s.life.up && step.SweepStage? && SweepStep(s, s', step) && s'.life != s.life
    ensures L.Takes(s.life, s'.life, life)
  {
    var p := s.sweep.orders[0];
    var w := Reconciled(p.id, step.second);
    InsertIsStage(s, s', w, "orders/reconcile", SweptData(p, step.now), SweptLines(p), step.now, step.gap, step.fault);
    life := L.Stage(s.tables.nextRow, SweptData(p, step.now), NewLines(s.tables.nextRow, SweptLines(p), s.tables.nextLine, step.gap), step.now);
  }

  /** The step of Lifecycle that a step of Staging takes, when it moves the orders or their actors at all. */
  lemma LifeStepOf(s: State, s': State, step: Step) returns (life: L.Step)
    requires Paired(s) && ValidTables(s.tables) && Takes(s, s', step) && s'.life != s.life
    ensures L.Takes(s.life, s'.life, life)
  {
    OnlyWritersMove(s, s', step);
    if step.Others? {
      life := step.step;
    } else if step.Crash? {
      life := L.Crash;
    } else if step.Create? {
      life := CreateIsStage(s, s', step.h, step.now, step.gap, step.fault);
    } else {
      life := SweepStageIsStage(s, s', step);
    }
  }

  lemma RunLifeStep(states: seq<State>, steps: seq<Step>, k: int) returns (life: L.Step)
    requires Behaviour(states, steps) && 0 <= k < |steps| && states[k + 1].life != states[k].life
    ensures L.Takes(states[k].life, states[k + 1].life, life)
  {
    EveryStateInv(states, steps, k);
    life := LifeStepOf(states[k], states[k + 1], steps[k]);
  }

  lemma {:induction false} LifeOfRun(states: seq<State>, steps: seq<Step>, i: int)
    returns (life: seq<L.State>, lifeSteps: seq<L.Step>)
    requires Behaviour(states, steps) && 0 <= i < |states|
    ensures L.RunTo(life, lifeSteps, states[i].life)
    decreases i
  {
    if i == 0 {
      return [L.INITIAL], [];
    }
    life, lifeSteps := LifeOfRun(states, steps, i - 1);
    var s, s' := states[i - 1].life, states[i].life;
    if s' != s {
      var step := RunLifeStep(states, steps, i - 1);
      L.RunExtends(life, lifeSteps, s, s', step);
      life, lifeSteps := life + [s'], lifeSteps + [step];
    }
  }

  /**
   Leaving out deliveries, the sweep and the syncer, every run of Staging is a run of Lifecycle on the same rows and lines,
   so everything proved of Lifecycle's runs holds of the orders that the webhook and the sweep stage.
   */
  lemma EveryRunIsALifecycleRun(states: seq<State>, steps: seq<Step>, i: int) returns (life: seq<L.State>, lifeSteps: seq<L.Step>)
    requires Behaviour(states, steps) && 0 <= i < |states|
    ensures L.RunTo(life, lifeSteps, states[i].life)
    ensures states[i].life.rows == states[i].tables.rows && states[i].life.lines == states[i].tables.lines
  {
    life, lifeSteps := LifeOfRun(states, steps, i);
    EveryStateInv(states, steps, i);
  }

  // ---------------------------------------------------------------- paths

  ghost predicate Leads(states: seq<State>, steps: seq<Step>, s: State, s': State) {
    Path(states, steps) && states[0] == s && states[|steps|] == s'
  }

  lemma Then(states: seq<State>, steps: seq<Step>, s: State, mid: State, s': State, step: Step)
    returns (states': seq<State>, steps': seq<Step>)
    requires Leads(states, steps, s, mid) && Takes(mid, s', step)
    ensures Leads(states', steps', s, s')
  {
    states', steps' := states + [s'], steps + [step];
  }

  lemma Join(p: seq<State>, a: seq<Step>, s: State, mid: State, q: seq<State>, b: seq<Step>, s': State)
    returns (states: seq<State>, steps: seq<Step>)
    requires Leads(p, a, s, mid) && Leads(q, b, mid, s')
    ensures Leads(states, steps, s, s')
  {
    states, steps := p + q[1..], a + b;
    forall i | 0 <= i < |steps| ensures Takes(states[i], states[i + 1], steps[i]) {
      if i >= |a| {
        assert Takes(q[i - |a|], q[i - |a| + 1], b[i - |a|]);
        assert states[i] == q[i - |a|] && states[i + 1] == q[i - |a| + 1];
      }
    }
  }

  // ---------------------------------------------------------------- the handler

  ghost function AfterCreate(s: State, h: int, r: Request, now: int, gap: nat -> nat, fault: Fault): State
    requires Refused(r).None? && r.body.Some?
  {
    var p, w := r.body.value, Delivered(r.header.value);
    var result := CreateResult(s.tables, w, p.id, fault);
    var t' := Created(s.tables, w, "orders/create", OrderFrom(p, p, now), LinesFrom(p), now, gap, fault);
    var inserts := Inserts(s.tables, w, p.id, fault);
    s.(tables := t',
       origin := if inserts then s.origin[w := p.id] else s.origin,
       first := if inserts then s.first[p.id := First(w, s.tables.nextRow, OrderFrom(p, p, now), LinesFrom(p))] else s.first,
       life := if inserts then AfterInsert(s.life, t', s.tables.nextRow) else s.life,
       handlers := if result.Ok? then s.handlers[h := Sending(r)] else s.handlers - {h},
       answers := if result.Ok? then s.answers else s.answers + {(r, CreateAnswer(result))},
       committed := if result.Ok? then s.committed + {p.id} else s.committed)
  }

  /** What the machine shows of one whole delivery that started in s and answered. */
  ghost predicate Delivery(s: State, s': State, r: Request, now: int, gap: nat -> nat, checkFault: Fault, createFault: Fault, answer: Answer) {
    && s'.handlers == s.handlers && s'.answers == s.answers + {(r, answer)}
    && Handled(s.tables, s.token, r, now, gap, checkFault, createFault, s'.tables, s'.token, answer)
  }

  lemma EarlyDelivery(s: State, h: int, r: Request, now: int, gap: nat -> nat, checkFault: Fault, createFault: Fault)
    returns (states: seq<State>, steps: seq<Step>, s': State, answer: Answer)
    requires s.life.up && h !in s.handlers && !Reaches(r, checkFault, s.tables.events)
    ensures Leads(states, steps, s, s') && Delivery(s, s', r, now, gap, checkFault, createFault, answer)
  {
    answer := EarlyAnswer(r, checkFault, s.tables.events);
    s' := s.(answers := s.answers + {(r, answer)});
    if Refused(r).Some? {
      assert ArriveStep(s, s', h, r);
      states, steps := Then([s], [], s, s, s', Arrive(h, r));
    } else {
      states, steps := CheckedDelivery(s, h, r, checkFault);
    }
  }

  lemma CheckedDelivery(s: State, h: int, r: Request, checkFault: Fault) returns (states: seq<State>, steps: seq<Step>)
    requires s.life.up && h !in s.handlers && !Reaches(r, checkFault, s.tables.events) && Refused(r).None?
    ensures Leads(states, steps, s, s.(answers := s.answers + {(r, EarlyAnswer(r, checkFault, s.tables.events))}))
  {
    var s1 := s.(handlers := s.handlers[h := Checking(r)]);
    var s2 := s.(answers := s.answers + {(r, EarlyAnswer(r, checkFault, s.tables.events))});
    assert ArriveStep(s, s1, h, r);
    states, steps := Then([s], [], s, s, s1, Arrive(h, r));
    assert s1.handlers - {h} == s.handlers;
    assert CheckStep(s1, s2, h, checkFault);
    states, steps := Then(states, steps, s, s1, s2, Check(h, checkFault));
  }

  lemma ToCreating(s: State, h: int, r: Request) returns (states: seq<State>, steps: seq<Step>)
    requires s.life.up && h !in s.handlers && Reaches(r, NoFault, s.tables.events)
    ensures Leads(states, steps, s, s.(handlers := s.handlers[h := Creating(r)]))
  {
    var s1, s2 := s.(handlers := s.handlers[h := Checking(r)]), s.(handlers := s.handlers[h := Creating(r)]);
    states, steps := Then([s], [], s, s, s1, Arrive(h, r));
    assert s1.handlers[h := Creating(r)] == s2.handlers;
    assert CheckStep(s1, s2, h, NoFault);
    states, steps := Then(states, steps, s, s1, s2, Check(h, NoFault));
  }

  lemma CreateAndSend(s: State, h: int, r: Request, now: int, gap: nat -> nat, createFault: Fault)
    returns (states: seq<State>, steps: seq<Step>, s': State)
    requires s.life.up && h in s.handlers && s.handlers[h] == Creating(r) && Reaches(r, NoFault, s.tables.events)
    ensures Leads(states, steps, s, s')
    ensures var result := CreateResult(s.tables, Delivered(r.header.value), r.body.value.id, createFault);
      && s'.handlers == s.handlers - {h} && s'.answers == s.answers + {(r, CreateAnswer(result))}
      && s'.tables == AfterCreate(s, h, r, now, gap, createFault).tables && s'.token == (s.token || result.Ok?)
  {
    var s3 := AfterCreate(s, h, r, now, gap, createFault);
    assert CreateStep(s, s3, h, now, gap, createFault);
    states, steps := Then([s], [], s, s, s3, Create(h, now, gap, createFault));
    s' := s3;
    if s3.handlers != s.handlers - {h} {
      s' := s3.(token := true, handlers := s3.handlers - {h}, answers := s3.answers + {(r, Ok200)});
      assert SendStep(s3, s', h);
      states, steps := Then(states, steps, s, s3, s', Send(h));
    }
  }

  lemma FullDelivery(s: State, h: int, r: Request, now: int, gap: nat -> nat, createFault: Fault)
    returns (states: seq<State>, steps: seq<Step>, s': State, answer: Answer)
    requires s.life.up && h !in s.handlers && Reaches(r, NoFault, s.tables.events)
    ensures Leads(states, steps, s, s') && Delivery(s, s', r, now, gap, NoFault, createFault, answer)
  {
    var p, a := ToCreating(s, h, r);
    var s2 := s.(handlers := s.handlers[h := Creating(r)]);
    var q, b;
    q, b, s' := CreateAndSend(s2, h, r, now, gap, createFault);
    answer := CreateAnswer(CreateResult(s.tables, Delivered(r.header.value), r.body.value.id, createFault));
    assert s2.handlers - {h} == s.handlers;
    states, steps := Join(p, a, s, s2, q, b, s');
  }

  /** What HandleOrderCreate does to the tables and the channel, and what it answers, is what some path of the machine does. */
  lemma HandlerIsARun(s: State, h: int, r: Request, now: int, gap: nat -> nat, checkFault: Fault, createFault: Fault)
    returns (states: seq<State>, steps: seq<Step>, s': State, answer: Answer)
    requires s.life.up && h !in s.handlers
    ensures Leads(states, steps, s, s') && Delivery(s, s', r, now, gap, checkFault, createFault, answer)
  {
    if Reaches(r, checkFault, s.tables.events) {
      states, steps, s', answer := FullDelivery(s, h, r, now, gap, createFault);
    } else {
      states, steps, s', answer := EarlyDelivery(s, h, r, now, gap, checkFault, createFault);
    }
  }

  // ---------------------------------------------------------------- the sweep

  ghost function AfterTurn(s: State, known: set<int>, e: SweepEnv): State
    requires s.sweep.Sweeping? && s.sweep.orders != []
  {
    var p := s.sweep.orders[0];
    var w, t' := Reconciled(p.id, e.second), AfterStaging(s.tables, p, e);
    var s' := s.(sweep := Sweeping(s.sweep.orders[1..], s.sweep.existing));
    if !Missing(p, known) then s'
    else if Inserts(s.tables, w, p.id, e.fault) then
      s'.(tables := t', origin := s.origin[w := p.id], life := AfterInsert(s.life, t', s.tables.nextRow),
          first := s.first[p.id := First(w, s.tables.nextRow, SweptData(p, e.now), SweptLines(p))])
    else s'.(tables := t')
  }

  /** The machine is about to take the n-th listed order, on the tables that the first n left. */
  ghost predicate AtTurn(s: State, t: Tables, orders: seq<SweptOrder>, envs: int -> SweepEnv, n: nat)
    requires n <= |orders|
  {
    && s.life.up && s.sweep == Sweeping(orders[n..], Known(t, orders))
    && s.tables == Swept(t, orders, Known(t, orders), envs, n)
  }

  lemma SweptTurn(s: State, known: set<int>, e: SweepEnv)
    requires s.sweep.Sweeping? && s.sweep.orders != [] && s.sweep.existing == known
    ensures SweepStep(s, AfterTurn(s, known, e), SweepStage(e.now, e.second, e.gap, e.fault))
  {
  }

  lemma TurnIsAStep(s: State, t: Tables, orders: seq<SweptOrder>, envs: int -> SweepEnv, n: nat) returns (s': State, step: Step)
    requires n < |orders| && AtTurn(s, t, orders, envs, n)
    ensures Takes(s, s', step) && AtTurn(s', t, orders, envs, n + 1)
  {
    var e := envs(n);
    s', step := AfterTurn(s, Known(t, orders), e), SweepStage(e.now, e.second, e.gap, e.fault);
    assert s.sweep.orders[0] == orders[n] && s.sweep.orders[1..] == orders[n + 1..];
    SweptTurn(s, Known(t, orders), e);
  }

  lemma {:induction false} LoopIsARun(s: State, orders: seq<SweptOrder>, envs: int -> SweepEnv, n: nat)
    returns (states: seq<State>, steps: seq<Step>, s': State)
    requires n <= |orders| && AtTurn(s, s.tables, orders, envs, 0)
    ensures Leads(states, steps, s, s') && AtTurn(s', s.tables, orders, envs, n)
    decreases n
  {
    if n == 0 {
      return [s], [], s;
    }
    var mid, step;
    states, steps, mid := LoopIsARun(s, orders, envs, n - 1);
    s', step := TurnIsAStep(mid, s.tables, orders, envs, n - 1);
    states, steps := Then(states, steps, s, mid, s', step);
  }

  /** The tables that Sweep leaves are those that some path of the machine leaves, from an idle sweep back to an idle one. */
  lemma SweepIsARun(s: State, orders: seq<SweptOrder>, envs: int -> SweepEnv) returns (states: seq<State>, steps: seq<Step>, s': State)
    requires s.life.up && s.sweep.SweepIdle?
    ensures Leads(states, steps, s, s') && s'.sweep.SweepIdle?
    ensures s'.tables == Swept(s.tables, orders, Known(s.tables, orders), envs, |orders|)
  {
    var s1, s2 := s.(sweep := Listed(orders)), s.(sweep := Sweeping(orders, Known(s.tables, orders)));
    assert SweepStep(s, s1, SweepList(orders)) && SweepStep(s1, s2, SweepDiff(NoFault));
    assert orders[0..] == orders;
    var p, a, s3 := LoopIsARun(s2, orders, envs, |orders|);
    s' := s3.(sweep := SweepIdle);
    assert SweepStep(s3, s', SweepDone);
    var q, b := Then(p, a, s2, s3, s', SweepDone);
    p, a := Then([s], [], s, s, s1, SweepList(orders));
    p, a := Then(p, a, s, s1, s2, SweepDiff(NoFault));
    states, steps := Join(p, a, s, s2, q, b, s');
  }

  // ---------------------------------------------------------------- what a sync after the commit subtracts

  lemma CommitStep(s: State, s': State, step: Step, o: int)
    requires Takes(s, s', step) && o in s'.committed && o !in s.committed
    ensures o in s'.first
  {
  }

  lemma {:induction false} CommittedAreStaged(states: seq<State>, steps: seq<Step>, i: int, o: int)
    requires Behaviour(states, steps) && 0 <= i < |states| && o in states[i].committed
    ensures o in states[i].first
    decreases i
  {
    if i > 0 {
      if o in states[i - 1].committed {
        CommittedAreStaged(states, steps, i - 1, o);
        SR.RunGrows(states, steps, i - 1);
      } else {
        assert Takes(states[i - 1], states[i - 1 + 1], steps[i - 1]);
        CommitStep(states[i - 1], states[i], steps[i - 1], o);
      }
    }
  }

  /** The reservations without this row's order. */
  ghost function ReservedWithout(t: Tables, id: int, sku: string): int
    requires id in t.rows
  {
    Reserved(t.rows[id := t.rows[id].(status := Submitted)], t.lines, sku)
  }

  /**
   What every sync that starts after a commit subtracts for it: in every later state of every run, as long as the order is
   pending or processing, the reservation of each SKU is that of all other orders plus the quantities on its own lines.
   */
  lemma SyncsSubtractCommittedOrders(states: seq<State>, steps: seq<Step>, i: int, k: int, o: int, sku: string)
    requires Behaviour(states, steps) && 0 <= i <= k < |states| && o in states[i].committed
    ensures o in states[k].first && states[k].first[o].row in states[k].tables.rows
    ensures var t, f := states[k].tables, states[k].first[o];
      && t.rows[f.row].order.shopifyId == o
      && (HoldsStock(t.rows[f.row]) ==> Reserved(t.rows, t.lines, sku) == ReservedWithout(t, f.row, sku) + QuantityOf(f.lines, sku))
  {
    CommittedAreStaged(states, steps, i, o);
    SR.HistoryGrows(states, steps, i, k);
    EveryStateInv(states, steps, k);
    OrderIsSubtracted(states[k], o, sku);
  }

  lemma OrderIsSubtracted(s: State, o: int, sku: string)
    requires Faithful(s) && o in s.first
    ensures var t, f := s.tables, s.first[o];
      && f.row in t.rows && t.rows[f.row].order.shopifyId == o
      && (HoldsStock(t.rows[f.row]) ==> Reserved(t.rows, t.lines, sku) == ReservedWithout(t, f.row, sku) + QuantityOf(f.lines, sku))
  {
    var t, f := s.tables, s.first[o];
    assert Holds(s, f.row);
    OrderedIsQuantity(t.lines, f.row, f.lines, sku);
    ReservedAfterRewrite(t.rows, t.lines, f.row, t.rows[f.row].(status := Submitted), sku);
  }
}
