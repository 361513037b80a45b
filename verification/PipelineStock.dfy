/** Stock conservation over runs of the whole service. */
module PipelineStock {
  import opened Wrappers
  import opened Store
  import opened Pipeline
  import L = Lifecycle
  import LS = LifecycleSafety
  import S = Session
  import I = Inventory
  import Sortoi
  import Sums

  // ---------------------------------------------------------------- what is published

  /** What our accepted orders and the outside world did to a SKU's availability since a reading. */
  ghost function Drift(s: State, sku: string, o: Obs): real {
    (s.stock.accepted(sku) - o.acceptedAt) as real - (s.stock.external(sku) - o.externalAt)
  }

  /** The reservations that a push takes off: none when reading them failed. */
  ghost function Taken(s: State, sku: string, readOk: bool): int {
    if readOk then Reserved(s.life.rows, s.life.lines, sku) else 0
  }

  /** Free stock, and what a push adds to it: the drift since the snapshot, and the reservations it could not read. */
  ghost function Apparent(s: State, sku: string, o: Obs, readOk: bool): real {
    Free(s, sku) + Drift(s, sku, o) + (Reserved(s.life.rows, s.life.lines, sku) - Taken(s, sku, readOk)) as real
  }

  /**
   Every push publishes, for each SKU of its snapshot, max(0, the rounding of free stock at the reservation read + accepted
   since the snapshot - other changes since the snapshot + what a failed read left out). The one exception is a negative
   availability ending in a half that a negative reservation carries across zero: there it publishes one unit less.
   */
  lemma PublishedIsFreePlusDrift(states: seq<State>, steps: seq<Step>, i: int, sku: string)
    requires Behaviour(states, steps) && 0 <= i < |steps| && steps[i].Publish?
    requires states[i].stock.pc.Publishing? && sku in states[i].stock.pc.stock
    ensures sku in states[i + 1].stock.storefront
    ensures var s, o, readOk := states[i], states[i].stock.pc.stock[sku], steps[i].readOk;
      states[i + 1].stock.storefront[sku]
        == I.AtLeastZero(I.Round(Apparent(s, sku, o, readOk))) - (if I.AcrossZero(o.qty, Taken(s, sku, readOk)) then 1 else 0)
  {
    EveryStateInv(states, steps, i);
    assert Takes(states[i], states[i + 1], steps[i]);
    assert StockStep(states[i], states[i + 1], steps[i]);
    I.LevelOfWholeUnits(states[i].stock.pc.stock[sku].qty, Taken(states[i], sku, steps[i].readOk));
  }

  /** The rounding of what the push counts, one unit less in the exception above. */
  ghost function Counted(s: State, sku: string, o: Obs, readOk: bool): int {
    I.Round(Apparent(s, sku, o, readOk)) - (if I.AcrossZero(o.qty, Taken(s, sku, readOk)) then 1 else 0)
  }

  /**
   When a push oversells, whatever has happened since its snapshot: it publishes more than the rounded free stock if and
   only if what it counts is positive and rounds to more than free stock does. It never does when nothing was accepted since
   the snapshot, nothing fell from outside and the reservations were read.
   */
  lemma PushExceedsFreeWhenItDrifts(states: seq<State>, steps: seq<Step>, i: int, sku: string)
    requires Behaviour(states, steps) && 0 <= i < |steps| && steps[i].Publish?
    requires states[i].stock.pc.Publishing? && sku in states[i].stock.pc.stock
    ensures sku in states[i + 1].stock.storefront
    ensures var s, o, readOk := states[i], states[i].stock.pc.stock[sku], steps[i].readOk;
      var free, level, counted := I.Round(Free(s, sku)), states[i + 1].stock.storefront[sku], Counted(s, sku, o, readOk);
      && (level > I.AtLeastZero(free) <==> counted > 0 && counted > free)
      && (Apparent(s, sku, o, readOk) <= Free(s, sku) ==> level <= I.AtLeastZero(free))
  {
    PublishedIsFreePlusDrift(states, steps, i, sku);
    var s, o, readOk := states[i], states[i].stock.pc.stock[sku], steps[i].readOk;
    if I.AcrossZero(o.qty, Taken(s, sku, readOk)) {
      ApparentIsPositive(states, steps, i, sku);
    }
    if Apparent(s, sku, o, readOk) <= Free(s, sku) {
      I.RoundIsMonotone(Apparent(s, sku, o, readOk), Free(s, sku));
    }
  }

  lemma ApparentIsPositive(states: seq<State>, steps: seq<Step>, i: int, sku: string)
    requires Behaviour(states, steps) && 0 <= i < |steps| && steps[i].Publish?
    requires states[i].stock.pc.Publishing? && sku in states[i].stock.pc.stock
    requires I.AcrossZero(states[i].stock.pc.stock[sku].qty, Taken(states[i], sku, steps[i].readOk))
    ensures I.Round(Apparent(states[i], sku, states[i].stock.pc.stock[sku], steps[i].readOk)) >= 0
  {
    EveryStateInv(states, steps, i);
    assert Takes(states[i], states[i + 1], steps[i]);
    assert StockStep(states[i], states[i + 1], steps[i]);
  }

  /** Only a push moves the storefront, and only for the SKUs of its snapshot. */
  lemma OnlyPushesMoveTheStorefront(states: seq<State>, steps: seq<Step>, i: int, sku: string)
    requires Behaviour(states, steps) && 0 <= i < |steps| && sku in states[i].stock.storefront
    requires steps[i].Publish? ==> states[i].stock.pc.Publishing? && sku !in states[i].stock.pc.stock
    ensures sku in states[i + 1].stock.storefront && states[i + 1].stock.storefront[sku] == states[i].stock.storefront[sku]
  {
    assert Takes(states[i], states[i + 1], steps[i]);
  }

  /**
   The session lock makes a stock query atomic for our own orders: when QueryStock logs off, no order has been accepted
   since any of its readings, although the readings were taken one after another.
   */
  lemma SnapshotsAreAtomic(states: seq<State>, steps: seq<Step>, i: int)
    requires Behaviour(states, steps) && 0 <= i < |steps| && steps[i].StockLogoff?
    ensures states[i].stock.pc.Querying? && Current(states[i].stock, states[i].stock.pc.got)
  {
    EveryStateInv(states, steps, i);
    assert Takes(states[i], states[i + 1], steps[i]);
  }

  // ---------------------------------------------------------------- conservation of free stock

  /** How a step moves the free stock of a SKU: staging, retrying and booking take an order off, giving up or recording adds it back. */
  ghost function Delta(s: State, s': State, step: Step, sku: string): real {
    match step
    case Life(Stage(id, _, _, _)) => -(Ordered(s'.life.lines, id, sku) as real)
    case Life(Retry(id, _)) => -(Ordered(s.life.lines, id, sku) as real)
    case Life(RecordReply(fault, _)) =>
      if !fault.Lost? && s.life.batch.InReply? && LeavesQueue(s.life.batch.cur, s.life.batch.reply)
      then Ordered(s.life.lines, s.life.batch.cur.id, sku) as real else 0.0
    case BatchCall(_, _, _, _, booked) =>
      if booked && s.life.batch.InClaim? then -(Ordered(s.life.lines, s.life.batch.cur.id, sku) as real) else 0.0
    case External(k, delta) => if k == sku then delta else 0.0
    case _ => 0.0
  }

  predicate LeavesQueue(cur: L.Snap, reply: Sortoi.Reply) {
    reply.Accepted? || reply.Rejected? || cur.attempts + 1 >= L.MAX_ATTEMPTS
  }

  lemma StageDelta(s: L.State, s': L.State, step: L.Step, sku: string)
    requires L.Inv(s) && LinesKnown(s) && L.Takes(s, s', step) && step.Stage?
    ensures Reserved(s'.rows, s'.lines, sku) == Reserved(s.rows, s.lines, sku) + Ordered(s'.lines, step.id, sku)
  {
    ReservedWithNewOrder(s.rows, s.lines, step.id, NewRow(step.order, step.now), step.added, sku);
  }

  /** Every line belongs to a staged order. */
  ghost predicate LinesKnown(s: L.State) {
    forall i :: i in s.lines ==> s.lines[i].orderId in s.rows
  }

  lemma LinesStayKnown(s: L.State, s': L.State, step: L.Step)
    requires LinesKnown(s) && L.Takes(s, s', step)
    ensures LinesKnown(s')
  {
    if !step.Stage? {
      LS.OtherStepsKeepContent(s, s', step);
    }
  }

  /** A step that keeps every order on its side of the queue keeps the reservations. */
  lemma SameHoldersSameReserved(rows: Rows, rows': Rows, lines: LineRows, sku: string)
    requires rows.Keys == rows'.Keys && forall id :: id in rows ==> HoldsStock(rows[id]) == HoldsStock(rows'[id])
    ensures Reserved(rows', lines, sku) == Reserved(rows, lines, sku)
  {
    Sums.SumCongruence(lines.Keys, ReservedTerm(rows, lines, sku), ReservedTerm(rows', lines, sku));
  }

  lemma StepsKeepHolders(s: L.State, s': L.State, step: L.Step)
    requires L.BatchOk(s) && L.FulOk(s) && L.Takes(s, s', step) && !step.Stage? && !step.Retry? && !step.RecordReply?
    ensures forall id :: id in s.rows && id in s'.rows ==> HoldsStock(s.rows[id]) == HoldsStock(s'.rows[id])
  {
  }

  lemma RowStepDelta(s: L.State, s': L.State, step: L.Step, sku: string)
    requires L.Inv(s) && L.Takes(s, s', step) && !step.Stage? && !step.Retry? && !step.RecordReply?
    ensures s'.lines == s.lines && Reserved(s'.rows, s'.lines, sku) == Reserved(s.rows, s.lines, sku)
  {
    LS.OtherStepsKeepContent(s, s', step);
    StepsKeepHolders(s, s', step);
    SameHoldersSameReserved(s.rows, s'.rows, s.lines, sku);
  }

  lemma QueueStepDelta(s: L.State, s': L.State, step: L.Step, sku: string)
    requires L.Inv(s) && L.Takes(s, s', step) && (step.Retry? || (step.RecordReply? && !step.fault.Lost?))
    ensures s'.lines == s.lines && (step.RecordReply? ==> s.batch.InReply?)
    ensures Reserved(s'.rows, s'.lines, sku) == Reserved(s.rows, s.lines, sku)
      + (if step.Retry? then Ordered(s.lines, step.id, sku)
         else if LeavesQueue(s.batch.cur, s.batch.reply) then -Ordered(s.lines, s.batch.cur.id, sku) else 0)
  {
    var id := if step.Retry? then step.id else s.batch.cur.id;
    assert s'.rows == s.rows[id := s'.rows[id]];
    ReservedAfterRewrite(s.rows, s.lines, id, s'.rows[id], sku);
  }

  lemma LifeDelta(s: State, s': State, step: L.Step, sku: string)
    requires Inv(s) && LinesKnown(s.life) && LifeStep(s, s', step)
    ensures Free(s', sku) == Free(s, sku) + Delta(s, s', Life(step), sku)
  {
    if step.Stage? {
      StageDelta(s.life, s'.life, step, sku);
    } else if step.Retry? || (step.RecordReply? && !step.fault.Lost?) {
      QueueStepDelta(s.life, s'.life, step, sku);
    } else if step.RecordReply? {
    } else {
      RowStepDelta(s.life, s'.life, step, sku);
    }
  }

  /** Apart from Lifecycle's own steps, only a booked call and an outside change move availability, and nothing moves the rows. */
  ghost predicate OnlyAvailability(s: State, s': State, step: Step, sku: string) {
    && s'.life.rows == s.life.rows && s'.life.lines == s.life.lines
    && s'.stock.avail(sku) == s.stock.avail(sku) + Delta(s, s', step, sku)
  }

  /** The document of a call carries its order's lines as the database holds them, so that is what a booking takes. */
  lemma BookingTakesTheOrder(s: State, s': State, guid: int, config: Sortoi.Config, ls: seq<Line>, reply: Sortoi.Reply, booked: bool, sku: string)
    requires BatchStep(s, s', BatchCall(guid, config, ls, reply, booked))
    ensures s.life.batch.InClaim?
    ensures s'.stock.avail(sku) == s.stock.avail(sku) - (if booked then Ordered(s.life.lines, s.life.batch.cur.id, sku) as real else 0.0)
  {
    var id := s.life.batch.cur.id;
    Sortoi.DocumentOrdersItsLines(s.life.rows[id].order, ls, config, sku);
    OrderedIsQuantity(s.life.lines, id, ls, sku);
  }

  lemma BatchDelta(s: State, s': State, step: Step, sku: string)
    requires L.Inv(s.life) && BatchStep(s, s', step)
    ensures OnlyAvailability(s, s', step, sku)
  {
    if step.BatchCall? {
      BookingTakesTheOrder(s, s', step.guid, step.config, step.ls, step.reply, step.booked, sku);
    }
  }

  lemma StockDelta(s: State, s': State, step: Step, sku: string)
    requires StockStep(s, s', step)
    ensures OnlyAvailability(s, s', step, sku)
  {
  }

  lemma OutsideDelta(s: State, s': State, step: Step, sku: string)
    requires OutsideStep(s, s', step)
    ensures OnlyAvailability(s, s', step, sku)
  {
  }

  /** The step moves the free stock of the SKU by its delta. */
  ghost predicate Conserves(s: State, s': State, step: Step, sku: string) {
    Free(s', sku) == Free(s, sku) + Delta(s, s', step, sku)
  }

  lemma OtherDelta(s: State, s': State, step: Step, sku: string)
    requires Inv(s) && !step.Life? && (BatchStep(s, s', step) || StockStep(s, s', step) || OutsideStep(s, s', step))
    ensures OnlyAvailability(s, s', step, sku)
  {
    if BatchStep(s, s', step) {
      BatchDelta(s, s', step, sku);
    } else if StockStep(s, s', step) {
      StockDelta(s, s', step, sku);
    } else {
      OutsideDelta(s, s', step, sku);
    }
  }

  lemma StepDelta(s: State, s': State, step: Step, sku: string)
    requires Inv(s) && LinesKnown(s.life) && Takes(s, s', step)
    ensures Conserves(s, s', step, sku) && LinesKnown(s'.life)
  {
    if step.Life? {
      LifeDelta(s, s', step.step, sku);
      LinesStayKnown(s.life, s'.life, step.step);
    } else {
      OtherDelta(s, s', step, sku);
    }
  }

  lemma {:induction false} LinesAreKnown(states: seq<State>, steps: seq<Step>, i: int)
    requires Behaviour(states, steps) && 0 <= i < |states|
    ensures LinesKnown(states[i].life)
    decreases i
  {
    if i > 0 {
      LinesAreKnown(states, steps, i - 1);
      RunKeepsLinesKnown(states, steps, i - 1);
    }
  }

  lemma RunKeepsLinesKnown(states: seq<State>, steps: seq<Step>, k: int)
    requires Behaviour(states, steps) && 0 <= k < |steps| && LinesKnown(states[k].life)
    ensures LinesKnown(states[k + 1].life)
  {
    EveryStateInv(states, steps, k);
    StepDelta(states[k], states[k + 1], steps[k], "");
  }

  lemma EveryStepConserves(states: seq<State>, steps: seq<Step>, i: int, sku: string)
    requires Behaviour(states, steps) && 0 <= i < |steps|
    ensures Conserves(states[i], states[i + 1], steps[i], sku)
  {
    EveryStateInv(states, steps, i);
    LinesAreKnown(states, steps, i);
    StepDelta(states[i], states[i + 1], steps[i], sku);
  }

  ghost function TotalDelta(states: seq<State>, steps: seq<Step>, j: int, i: int, sku: string): real
    requires 0 <= j <= i <= |steps| && |states| == |steps| + 1
    decreases i
  {
    if j == i then 0.0
    else TotalDelta(states, steps, j, i - 1, sku) + Delta(states[i - 1], states[i], steps[i - 1], sku)
  }

  lemma {:induction false} DeltasAddUp(states: seq<State>, steps: seq<Step>, j: int, i: int, sku: string)
    requires |states| == |steps| + 1 && 0 <= j <= i <= |steps|
    requires forall k :: j <= k < i ==> Conserves(states[k], states[k + 1], steps[k], sku)
    ensures Free(states[i], sku) == Free(states[j], sku) + TotalDelta(states, steps, j, i, sku)
    decreases i
  {
    if j < i {
      DeltasAddUp(states, steps, j, i - 1, sku);
      assert Conserves(states[i - 1], states[i - 1 + 1], steps[i - 1], sku);
    }
  }

  /** Free stock is conserved: over any stretch of any run it changes by the deltas of its steps and nothing else. */
  lemma FreeStockIsConserved(states: seq<State>, steps: seq<Step>, j: int, i: int, sku: string)
    requires Behaviour(states, steps) && 0 <= j <= i <= |steps|
    ensures Free(states[i], sku) == Free(states[j], sku) + TotalDelta(states, steps, j, i, sku)
  {
    forall k | j <= k < i ensures Conserves(states[k], states[k + 1], steps[k], sku) {
      EveryStepConserves(states, steps, k, sku);
    }
    DeltasAddUp(states, steps, j, i, sku);
  }

  ghost predicate Calls(s: State, step: Step, id: int) {
    step.BatchCall? && s.life.batch.InClaim? && s.life.batch.cur.id == id
  }

  ghost predicate Records(s: State, step: Step, id: int) {
    && step.Life? && step.step.RecordReply? && !step.step.fault.Lost?
    && s.life.batch.InReply? && s.life.batch.cur.id == id && s.life.batch.reply.Accepted?
  }

  /**
   A fully recorded submission moves no free stock: what the accepted call takes off SYSPRO's availability is what the
   recorded reply takes off the reservations, whatever happens to other orders in between.
   */
  lemma RecordedSubmissionIsNeutral(states: seq<State>, steps: seq<Step>, c: int, r: int, id: int, sku: string)
    requires Behaviour(states, steps) && 0 <= c < r < |steps|
    requires Calls(states[c], steps[c], id) && steps[c].reply.Accepted? && Records(states[r], steps[r], id)
    ensures Delta(states[c], states[c + 1], steps[c], sku) + Delta(states[r], states[r + 1], steps[r], sku) == 0.0
  {
    EveryStateInv(states, steps, c);
    assert Takes(states[c], states[c + 1], steps[c]);
    CallDelta(states[c], states[c + 1], steps[c], id, sku);
    OrderedNeverChanges(states, steps, c, r, id, sku);
    RecordedDelta(states[r], states[r + 1], steps[r], id, sku);
  }

  lemma CallDelta(s: State, s': State, step: Step, id: int, sku: string)
    requires Inv(s) && Takes(s, s', step) && Calls(s, step, id) && step.reply.Accepted?
    ensures id in s.life.rows && Delta(s, s', step, sku) == -(Ordered(s.life.lines, id, sku) as real)
  {
  }

  lemma RecordedDelta(s: State, s': State, step: Step, id: int, sku: string)
    requires Records(s, step, id)
    ensures Delta(s, s', step, sku) == Ordered(s.life.lines, id, sku) as real
  {
  }

  ghost predicate SameOrder(s: State, s': State, id: int, sku: string) {
    id in s.life.rows ==> id in s'.life.rows && Ordered(s'.life.lines, id, sku) == Ordered(s.life.lines, id, sku)
  }

  lemma OrderedKept(s: State, s': State, step: Step, id: int, sku: string)
    requires Inv(s) && Takes(s, s', step)
    ensures SameOrder(s, s', id, sku)
  {
    if step.Life? {
      OrderedKeptByLife(s.life, s'.life, step.step, id, sku);
    } else {
      OtherDelta(s, s', step, sku);
    }
  }

  lemma OrderedKeptByLife(s: L.State, s': L.State, step: L.Step, id: int, sku: string)
    requires L.Inv(s) && L.Takes(s, s', step)
    ensures id in s.rows ==> id in s'.rows && Ordered(s'.lines, id, sku) == Ordered(s.lines, id, sku)
  {
    if step.Stage? && id in s.rows {
      OrderedWithNewLines(s.lines, step.added, id, sku);
    } else if !step.Stage? {
      LS.OtherStepsKeepContent(s, s', step);
    }
  }

  lemma OrderedWithNewLines(lines: LineRows, added: LineRows, id: int, sku: string)
    requires lines.Keys !! added.Keys && forall i :: i in added ==> added[i].orderId != id
    ensures Ordered(lines + added, id, sku) == Ordered(lines, id, sku)
  {
    var f := OrderedTerm(lines + added, id, sku);
    assert (lines + added).Keys == lines.Keys + added.Keys;
    Sums.SumDisjoint(lines.Keys, added.Keys, f);
    Sums.SumZero(added.Keys, f);
    Sums.SumCongruence(lines.Keys, f, OrderedTerm(lines, id, sku));
  }

  lemma {:induction false} SameOrderThroughout(states: seq<State>, c: int, r: int, id: int, sku: string)
    requires 0 <= c <= r < |states| && forall k :: c <= k < r ==> SameOrder(states[k], states[k + 1], id, sku)
    ensures SameOrder(states[c], states[r], id, sku)
    decreases r
  {
    if c < r {
      SameOrderThroughout(states, c, r - 1, id, sku);
      assert SameOrder(states[r - 1], states[r - 1 + 1], id, sku);
    }
  }

  lemma OrderedNeverChanges(states: seq<State>, steps: seq<Step>, c: int, r: int, id: int, sku: string)
    requires Behaviour(states, steps) && 0 <= c <= r <= |steps|
    ensures SameOrder(states[c], states[r], id, sku)
  {
    forall k | c <= k < r ensures SameOrder(states[k], states[k + 1], id, sku) {
      EveryStateInv(states, steps, k);
      OrderedKept(states[k], states[k + 1], steps[k], id, sku);
    }
    SameOrderThroughout(states, c, r, id, sku);
  }
}
