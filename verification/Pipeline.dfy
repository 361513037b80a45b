/**
 The whole service: Lifecycle for the orders, Session for the SYSPRO lock, and SYSPRO's stock with the stock syncer.
 The batch processor and the stock syncer hold real sessions here; every other caller of the SYSPRO client is caller
 2, 3, ... and may do anything the protocol allows. SYSPRO's availability is a real number, as the syncer reads it.
 */
module Pipeline {
  import opened Wrappers
  import opened Store
  import L = Lifecycle
  import LS = LifecycleSafety
  import S = Session
  import Sortoi
  import I = Inventory

  const BATCH := 0
  const STOCK := 1

  /** One INVQRY reading, with the running totals at the moment it was taken. */
  datatype Obs = Obs(qty: real, acceptedAt: int, externalAt: real)

  /** Where the stock syncer stands. A triggered sync goes straight from StockIdle to Publishing. */
  datatype StockPc =
    | StockIdle
    | Waiting(skus: seq<string>)
    | Querying(left: seq<string>, got: map<string, Obs>)
    | Publishing(stock: map<string, Obs>)

  /**
   avail is SYSPRO's availability. accepted totals what our accepted orders took off it and external what everything
   else added to it. storefront holds the levels pushed to Shopify.
   */
  datatype Stock = Stock(
    avail: string -> real, accepted: string -> int, external: string -> real,
    pc: StockPc, cache: map<string, Obs>, storefront: map<string, int>)

  datatype State = State(life: L.State, sess: S.State, stock: Stock)

  datatype Step =
    | Life(step: L.Step)
    | BatchLock
    | BatchLogon(guid: int)
    | BatchLogonErr(effect: bool)
    | BatchCall(guid: int, config: Sortoi.Config, ls: seq<Line>, reply: Sortoi.Reply, booked: bool)
    | BatchLogoff(guid: int, effect: bool)
    | BatchUnlock
    | StockLock(skus: seq<string>)
    | StockLogon(guid: int)
    | StockLogonErr(effect: bool)
    | StockQuery(guid: int, answered: bool)
    | StockLogoff(guid: int, effect: bool)
    | StockUnlock
    | Other(caller: int, event: S.Event, effect: bool)
    | Disturb(replaced: bool)
    | External(sku: string, delta: real)
    | Trigger
    | Publish(readOk: bool)
    | Crash

  /** The steps of Lifecycle that touch neither the SYSPRO lock nor SYSPRO's stock. */
  predicate Local(step: L.Step) {
    !step.Open? && !step.Call? && !step.Close? && !step.Crash?
  }

  /** What the shop can still sell: SYSPRO's availability less the orders SYSPRO does not know of. */
  ghost function Free(s: State, sku: string): real {
    s.stock.avail(sku) - Reserved(s.life.rows, s.life.lines, sku) as real
  }

  // ---------------------------------------------------------------- steps

  /** A booked call takes what its document orders off SYSPRO's availability. */
  ghost predicate Books(s: State, s': State, doc: Sortoi.Document, booked: bool) {
    && s'.stock == s.stock.(avail := s'.stock.avail, accepted := s'.stock.accepted)
    && forall sku ::
      var q := if booked then Sortoi.OrderedUnits(doc.lines, sku) else 0;
      s'.stock.avail(sku) == s.stock.avail(sku) - q as real && s'.stock.accepted(sku) == s.stock.accepted(sku) + q
  }

  ghost predicate LifeStep(s: State, s': State, step: L.Step) {
    && Local(step) && L.Takes(s.life, s'.life, step) && s'.sess == s.sess && s'.stock == s.stock
    && (step.Fetch? ==> S.PcOf(s.sess, BATCH) == S.Outside)
  }

  ghost predicate BatchStep(s: State, s': State, step: Step) {
    match step
    case BatchLock =>
      s.life.up && s.life.batch.Fetched? && s' == s.(sess := s'.sess) && S.CallerStep(s.sess, s'.sess, BATCH, S.Lock, true)
    case BatchLogon(guid) =>
      L.Takes(s.life, s'.life, L.Open(true)) && s'.stock == s.stock && S.CallerStep(s.sess, s'.sess, BATCH, S.LogonOk(guid), true)
    case BatchLogonErr(effect) =>
      L.Takes(s.life, s'.life, L.Open(false)) && s'.stock == s.stock && S.CallerStep(s.sess, s'.sess, BATCH, S.LogonErr, effect)
    case BatchCall(guid, config, ls, reply, booked) =>
      && L.Takes(s.life, s'.life, L.Call(reply, booked))
      && var id := s.life.batch.cur.id;
      && id in s.life.rows && LinesOf(s.life.lines, id, ls)
      && var doc := Sortoi.DocumentOf(s.life.rows[id].order, ls, config);
      && Books(s, s', doc, booked) && S.CallerStep(s.sess, s'.sess, BATCH, S.Request(guid, S.SORTOI(doc)), true)
    case BatchLogoff(guid, effect) =>
      L.Takes(s.life, s'.life, L.Close) && s'.stock == s.stock && S.CallerStep(s.sess, s'.sess, BATCH, S.Logoff(guid), effect)
    case BatchUnlock =>
      s.life.up && s' == s.(sess := s'.sess) && S.CallerStep(s.sess, s'.sess, BATCH, S.Unlock, true)
    case _ => false
  }

  function Observe(stock: Stock, sku: string): Obs {
    Obs(stock.avail(sku), stock.accepted(sku), stock.external(sku))
  }

  ghost predicate StockStep(s: State, s': State, step: Step) {
    && s.life.up && s'.life == s.life
    && match step
       case StockLock(skus) =>
         && s.stock.pc.StockIdle? && s'.stock == s.stock.(pc := Waiting(skus))
         && S.CallerStep(s.sess, s'.sess, STOCK, S.Lock, true)
       case StockLogon(guid) =>
         && s.stock.pc.Waiting? && s'.stock == s.stock.(pc := Querying(s.stock.pc.skus, map[]))
         && S.CallerStep(s.sess, s'.sess, STOCK, S.LogonOk(guid), true)
       case StockLogonErr(effect) =>
         && s.stock.pc.Waiting? && s'.stock == s.stock.(pc := StockIdle)
         && S.CallerStep(s.sess, s'.sess, STOCK, S.LogonErr, effect)
       case StockQuery(guid, answered) =>
         && s.stock.pc.Querying? && s.stock.pc.left != []
         && var sku, got := s.stock.pc.left[0], s.stock.pc.got;
         && s'.stock == s.stock.(pc := Querying(s.stock.pc.left[1..], if answered then got[sku := Observe(s.stock, sku)] else got))
         && S.CallerStep(s.sess, s'.sess, STOCK, S.Request(guid, S.INVQRY(sku)), true)
       case StockLogoff(guid, effect) =>
         && s.stock.pc.Querying? && s.stock.pc.left == []
         && var got := s.stock.pc.got;
         && s'.stock == (if got == map[] then s.stock.(pc := StockIdle) else s.stock.(pc := Publishing(got), cache := got))
         && S.CallerStep(s.sess, s'.sess, STOCK, S.Logoff(guid), effect)
       case StockUnlock => s'.stock == s.stock && S.CallerStep(s.sess, s'.sess, STOCK, S.Unlock, true)
       case Trigger =>
         && s.stock.pc.StockIdle? && s.stock.cache != map[] && S.PcOf(s.sess, STOCK) == S.Outside
         && s' == s.(stock := s.stock.(pc := Publishing(s.stock.cache)))
       case Publish(readOk) => PublishStep(s, s', readOk)
       case _ => false
  }

  /** Reads the reservations and pushes; a failed read counts as no reservations. */
  ghost predicate PublishStep(s: State, s': State, readOk: bool) {
    && s.stock.pc.Publishing? && s'.life == s.life && s'.sess == s.sess
    && s'.stock == s.stock.(pc := StockIdle, storefront := s'.stock.storefront)
    && s'.stock.storefront.Keys == s.stock.storefront.Keys + s.stock.pc.stock.Keys
    && (forall sku :: sku in s.stock.pc.stock ==>
          s'.stock.storefront[sku]
            == I.AtLeastZero(I.Round(s.stock.pc.stock[sku].qty) - (if readOk then Reserved(s.life.rows, s.life.lines, sku) else 0)))
    && (forall sku :: sku in s.stock.storefront && sku !in s.stock.pc.stock ==>
          s'.stock.storefront[sku] == s.stock.storefront[sku])
  }

  ghost predicate OutsideStep(s: State, s': State, step: Step) {
    match step
    case Other(caller, event, effect) =>
      caller > STOCK && s.life.up && s' == s.(sess := s'.sess) && S.CallerStep(s.sess, s'.sess, caller, event, effect)
    case Disturb(replaced) => s' == s.(sess := s'.sess) && S.Disturb(s.sess, s'.sess, replaced)
    case External(sku, delta) =>
      && s' == s.(stock := s.stock.(avail := s'.stock.avail, external := s'.stock.external))
      && forall k :: s'.stock.avail(k) == s.stock.avail(k) + (if k == sku then delta else 0.0)
           && s'.stock.external(k) == s.stock.external(k) + (if k == sku then delta else 0.0)
    case Crash =>
      && L.Takes(s.life, s'.life, L.Crash) && S.Crash(s.sess, s'.sess)
      && s'.stock == s.stock.(pc := StockIdle, cache := map[])
    case _ => false
  }

  ghost predicate Takes(s: State, s': State, step: Step) {
    if step.Life? then LifeStep(s, s', step.step)
    else BatchStep(s, s', step) || StockStep(s, s', step) || OutsideStep(s, s', step)
  }

  ghost predicate Initial(s: State) {
    && s.life == L.INITIAL && s.sess == S.INITIAL
    && (forall sku :: s.stock.avail(sku) == 0.0 && s.stock.accepted(sku) == 0 && s.stock.external(sku) == 0.0)
    && s.stock.pc == StockIdle && s.stock.cache == map[] && s.stock.storefront == map[]
  }

  /** A run of the service. */
  ghost predicate Behaviour(states: seq<State>, steps: seq<Step>) {
    && |states| == |steps| + 1 && Initial(states[0])
    && forall i :: 0 <= i < |steps| ==> Takes(states[i], states[i + 1], steps[i])
  }

  // ---------------------------------------------------------------- the invariant

  /** Availability is what came in from outside less what we accepted, now and at every reading. */
  ghost predicate Balanced(stock: Stock) {
    forall sku :: stock.avail(sku) == stock.external(sku) - stock.accepted(sku) as real
  }

  ghost predicate GoodReadings(m: map<string, Obs>) {
    forall sku :: sku in m ==> m[sku].qty == m[sku].externalAt - m[sku].acceptedAt as real
  }

  /** No order has been accepted since any of these readings. */
  ghost predicate Current(stock: Stock, m: map<string, Obs>) {
    forall sku :: sku in m ==> m[sku].acceptedAt == stock.accepted(sku)
  }

  ghost predicate StockOk(s: State) {
    && Balanced(s.stock) && GoodReadings(s.stock.cache)
    && match s.stock.pc
       case StockIdle => true
       case Waiting(_) => true
       case Querying(_, got) => GoodReadings(got) && Current(s.stock, got)
       case Publishing(stock) => GoodReadings(stock)
  }

  /** Whoever is in the middle of a batch or of QueryStock holds a session. */
  ghost predicate SessionsHeld(s: State) {
    && (s.life.batch.Looping? || s.life.batch.InClaim? || s.life.batch.InReply? || s.life.batch.Closing? ==>
          S.PcOf(s.sess, BATCH).InSession?)
    && (s.stock.pc.Querying? ==> S.PcOf(s.sess, STOCK).InSession?)
  }

  ghost predicate Inv(s: State) {
    L.Inv(s.life) && S.Inv(s.sess) && StockOk(s) && SessionsHeld(s)
  }

  lemma CallerStepFrame(sess: S.State, sess': S.State, t: int, e: S.Event, effect: bool, u: int)
    requires S.CallerStep(sess, sess', t, e, effect)
    ensures S.PcOf(sess', t) == S.After(S.PcOf(sess, t), e).value
    ensures u != t ==> S.PcOf(sess', u) == S.PcOf(sess, u)
  {
  }

  lemma LifeKeeps(s: State, s': State, step: L.Step)
    requires Inv(s) && LifeStep(s, s', step)
    ensures Inv(s')
  {
    LS.StepKeepsInv(s.life, s'.life, step);
  }

  lemma BatchSessionKeeps(s: State, s': State, e: S.Event, effect: bool)
    requires Inv(s) && s'.stock == s.stock && S.CallerStep(s.sess, s'.sess, BATCH, e, effect)
    ensures S.Inv(s'.sess) && S.PcOf(s'.sess, STOCK) == S.PcOf(s.sess, STOCK) && StockOk(s')
    ensures S.PcOf(s'.sess, BATCH) == S.After(S.PcOf(s.sess, BATCH), e).value
  {
    S.StepKeepsInv(s.sess, s'.sess, BATCH, e, effect);
    CallerStepFrame(s.sess, s'.sess, BATCH, e, effect, STOCK);
  }

  lemma BatchKeeps(s: State, s': State, step: Step)
    requires Inv(s) && BatchStep(s, s', step) && !step.BatchCall?
    ensures Inv(s')
  {
    match step
    case BatchLock => BatchSessionKeeps(s, s', S.Lock, true);
    case BatchLogon(guid) =>
      LS.StepKeepsInv(s.life, s'.life, L.Open(true));
      BatchSessionKeeps(s, s', S.LogonOk(guid), true);
    case BatchLogonErr(effect) =>
      LS.StepKeepsInv(s.life, s'.life, L.Open(false));
      BatchSessionKeeps(s, s', S.LogonErr, effect);
    case BatchLogoff(guid, effect) =>
      LS.StepKeepsInv(s.life, s'.life, L.Close);
      BatchSessionKeeps(s, s', S.Logoff(guid), effect);
    case BatchUnlock => BatchSessionKeeps(s, s', S.Unlock, true);
  }

  /** While the batch calls SORTOI it holds the session, so no stock query is under way. */
  lemma BatchCallKeeps(s: State, s': State, guid: int, config: Sortoi.Config, ls: seq<Line>, reply: Sortoi.Reply, booked: bool)
    requires Inv(s) && BatchStep(s, s', BatchCall(guid, config, ls, reply, booked))
    ensures Inv(s') && !s.stock.pc.Querying?
  {
    var body := S.SORTOI(Sortoi.DocumentOf(s.life.rows[s.life.batch.cur.id].order, ls, config));
    LS.StepKeepsInv(s.life, s'.life, L.Call(reply, booked));
    S.StepKeepsInv(s.sess, s'.sess, BATCH, S.Request(guid, body), true);
    CallerStepFrame(s.sess, s'.sess, BATCH, S.Request(guid, body), true, STOCK);
    assert S.PcOf(s.sess, BATCH).InSession?;
    assert s.sess.holder == Some(BATCH);
    assert !S.PcOf(s.sess, STOCK).InSession?;
    assert s'.stock.pc == s.stock.pc && s'.stock.cache == s.stock.cache;
  }

  lemma StockSessionKeeps(s: State, s': State, e: S.Event, effect: bool)
    requires Inv(s) && s'.life == s.life && S.CallerStep(s.sess, s'.sess, STOCK, e, effect)
    ensures S.Inv(s'.sess) && S.PcOf(s'.sess, BATCH) == S.PcOf(s.sess, BATCH)
    ensures S.PcOf(s'.sess, STOCK) == S.After(S.PcOf(s.sess, STOCK), e).value
  {
    S.StepKeepsInv(s.sess, s'.sess, STOCK, e, effect);
    CallerStepFrame(s.sess, s'.sess, STOCK, e, effect, BATCH);
  }

  lemma StockKeeps(s: State, s': State, step: Step)
    requires Inv(s) && StockStep(s, s', step)
    ensures Inv(s')
  {
    match step
    case StockLock(skus) => StockSessionKeeps(s, s', S.Lock, true);
    case StockLogon(guid) => StockSessionKeeps(s, s', S.LogonOk(guid), true);
    case StockLogonErr(effect) => StockSessionKeeps(s, s', S.LogonErr, effect);
    case StockQuery(guid, answered) => StockSessionKeeps(s, s', S.Request(guid, S.INVQRY(s.stock.pc.left[0])), true);
    case StockLogoff(guid, effect) => StockSessionKeeps(s, s', S.Logoff(guid), effect);
    case StockUnlock =>
      StockSessionKeeps(s, s', S.Unlock, true);
    case Trigger =>
    case Publish(_) =>
  }

  lemma OutsideKeeps(s: State, s': State, step: Step)
    requires Inv(s) && OutsideStep(s, s', step)
    ensures Inv(s')
  {
    match step
    case Other(caller, event, effect) =>
      S.StepKeepsInv(s.sess, s'.sess, caller, event, effect);
      CallerStepFrame(s.sess, s'.sess, caller, event, effect, BATCH);
      CallerStepFrame(s.sess, s'.sess, caller, event, effect, STOCK);
    case Disturb(replaced) =>
      S.NextKeepsInv(s.sess, s'.sess);
      assert s'.sess.pcs == s.sess.pcs;
    case External(sku, delta) =>
    case Crash =>
      LS.StepKeepsInv(s.life, s'.life, L.Crash);
      S.NextKeepsInv(s.sess, s'.sess);
  }

  lemma StepKeepsInv(s: State, s': State, step: Step)
    requires Inv(s) && Takes(s, s', step)
    ensures Inv(s')
  {
    if step.Life? {
      LifeKeeps(s, s', step.step);
    } else if BatchStep(s, s', step) {
      if step.BatchCall? {
        BatchCallKeeps(s, s', step.guid, step.config, step.ls, step.reply, step.booked);
      } else {
        BatchKeeps(s, s', step);
      }
    } else if StockStep(s, s', step) {
      StockKeeps(s, s', step);
    } else {
      OutsideKeeps(s, s', step);
    }
  }

  lemma {:induction false} EveryStateInv(states: seq<State>, steps: seq<Step>, i: int)
    requires Behaviour(states, steps) && 0 <= i < |states|
    ensures Inv(states[i])
    decreases i
  {
    if i > 0 {
      EveryStateInv(states, steps, i - 1);
      StepKeepsInv(states[i - 1], states[i], steps[i - 1]);
    }
  }

  // ---------------------------------------------------------------- the orders alone

  /** The step of Lifecycle that a step of the service takes, when it moves the orders or their actors at all. */
  lemma LifeStepOf(s: State, s': State, step: Step) returns (life: L.Step)
    requires Takes(s, s', step) && s'.life != s.life
    ensures L.Takes(s.life, s'.life, life)
  {
    if step.Life? {
      life := step.step;
    } else if BatchStep(s, s', step) {
      match step
      case BatchLogon(_) => life := L.Open(true);
      case BatchLogonErr(_) => life := L.Open(false);
      case BatchCall(_, _, _, reply, booked) => life := L.Call(reply, booked);
      case BatchLogoff(_, _) => life := L.Close;
    } else {
      assert !StockStep(s, s', step);
      life := L.Crash;
    }
  }

  /** Leaving out the session and the stock, every run of the service is a run of Lifecycle, so what holds there holds here. */
  lemma {:induction false} EveryRunIsALifecycleRun(states: seq<State>, steps: seq<Step>, i: int)
    returns (life: seq<L.State>, lifeSteps: seq<L.Step>)
    requires Behaviour(states, steps) && 0 <= i < |states|
    ensures L.RunTo(life, lifeSteps, states[i].life)
    decreases i
  {
    if i == 0 {
      return [L.INITIAL], [];
    }
    life, lifeSteps := EveryRunIsALifecycleRun(states, steps, i - 1);
    var s, s' := states[i - 1], states[i];
    assert Takes(s, s', steps[i - 1]);
    if s'.life != s.life {
      var step := LifeStepOf(s, s', steps[i - 1]);
      L.RunExtends(life, lifeSteps, s.life, s'.life, step);
      life, lifeSteps := life + [s'.life], lifeSteps + [step];
    }
  }
}
