/** Ledgers and safety over whole runs of Lifecycle, counted on the steps themselves. */
module LifecycleRuns {
  import opened Wrappers
  import opened Store
  import opened Sortoi
  import opened Lifecycle
  import opened LifecycleSafety
  import opened FulfilmentClient

  lemma {:induction false} EveryStateInv(states: seq<State>, steps: seq<Step>, i: int)
    requires Behaviour(states, steps) && 0 <= i < |states|
    ensures Inv(states[i])
    decreases i
  {
    if i > 0 {
      EveryStateInv(states, steps, i - 1);
      StepKeepsInv(states[i - 1], states[i], steps[i - 1]);
    }
  }

  // ---------------------------------------------------------------- counting steps

  /** A kind of step, told from the state it is taken in. */
  type Kind = (State, Step) -> bool

  /** How many of the steps j, ..., i - 1 are of this kind. */
  ghost function Tally(states: seq<State>, steps: seq<Step>, j: int, i: int, kind: Kind): nat
    requires 0 <= j <= i <= |steps| && |states| == |steps| + 1
    decreases i
  {
    if j == i then 0
    else Tally(states, steps, j, i - 1, kind) + (if kind(states[i - 1], steps[i - 1]) then 1 else 0)
  }

  function CallsFor(id: int): Kind {
    (s: State, step: Step) => step.Call? && s.batch.InClaim? && s.batch.cur.id == id
  }

  function BookingsFor(id: int): Kind {
    (s: State, step: Step) => step.Call? && s.batch.InClaim? && s.batch.cur.id == id && step.booked
  }

  function FailuresFor(id: int): Kind {
    (s: State, step: Step) =>
      step.RecordReply? && !step.fault.Lost? && s.batch.InReply? && s.batch.cur.id == id && s.batch.reply.InfraError?
  }

  function AmbiguousFor(id: int): Kind {
    (s: State, step: Step) =>
      step.RecordReply? && !step.fault.Lost? && s.batch.InReply? && s.batch.cur.id == id && s.batch.reply.InfraError? && s.batch.booked
  }

  predicate IsReset(s: State, step: Step, id: int) {
    step.Boot? && !step.fault.Lost? && id in s.rows && Stale(s.rows[id], step.now, step.olderThan)
  }

  function ResetsFor(id: int): Kind {
    (s: State, step: Step) => IsReset(s, step, id)
  }

  /** A stale reset of a row whose booking was never recorded. */
  function OrphansFor(id: int): Kind {
    (s: State, step: Step) => IsReset(s, step, id) && id in s.ledger && s.ledger[id].open
  }

  predicate Restarts(step: Step, id: int) {
    (step.Stage? || step.Retry?) && step.id == id
  }

  /** States j to i lie in one period of the order: it starts by staging or retrying it and holds no later retry. */
  ghost predicate Period(states: seq<State>, steps: seq<Step>, id: int, j: int, i: int) {
    && Behaviour(states, steps) && 1 <= j <= i <= |steps|
    && Restarts(steps[j - 1], id)
    && forall k :: j <= k < i ==> !Restarts(steps[k], id)
  }

  ghost predicate LedgerMoves(s: State, s': State, step: Step, id: int) {
    id in s.ledger && id in s'.ledger && AttemptsMove(s, s', step, id) && BookingsMove(s, s', step, id)
  }

  ghost predicate AttemptsMove(s: State, s': State, step: Step, id: int)
    requires id in s.ledger && id in s'.ledger
  {
    && s'.ledger[id].calls == s.ledger[id].calls + One(CallsFor(id)(s, step))
    && s'.ledger[id].failures == s.ledger[id].failures + One(FailuresFor(id)(s, step))
    && s'.ledger[id].resets == s.ledger[id].resets + One(ResetsFor(id)(s, step))
  }

  ghost predicate BookingsMove(s: State, s': State, step: Step, id: int)
    requires id in s.ledger && id in s'.ledger
  {
    && s'.ledger[id].booked == s.ledger[id].booked + One(BookingsFor(id)(s, step))
    && s'.ledger[id].ambiguous == s.ledger[id].ambiguous + One(AmbiguousFor(id)(s, step))
    && s'.ledger[id].orphaned == s.ledger[id].orphaned + One(OrphansFor(id)(s, step))
  }

  lemma OtherStepsKeepLedger(s: State, s': State, step: Step)
    requires Takes(s, s', step) && !step.Stage? && !step.Retry? && !step.Call? && !step.RecordReply? && !step.Boot?
    ensures s'.ledger == s.ledger
  {
  }

  lemma LedgerStep(s: State, s': State, step: Step, id: int)
    requires Takes(s, s', step) && id in s.ledger && !Restarts(step, id)
    ensures id in s'.ledger && AttemptsMove(s, s', step, id)
  {
    if !step.Stage? && !step.Retry? && !step.Call? && !step.RecordReply? && !step.Boot? {
      OtherStepsKeepLedger(s, s', step);
    }
  }

  lemma BookingStep(s: State, s': State, step: Step, id: int)
    requires Takes(s, s', step) && id in s.ledger && !Restarts(step, id)
    ensures id in s'.ledger && BookingsMove(s, s', step, id)
  {
    if !step.Stage? && !step.Retry? && !step.Call? && !step.RecordReply? && !step.Boot? {
      OtherStepsKeepLedger(s, s', step);
    }
  }

  ghost predicate Counted(states: seq<State>, steps: seq<Step>, id: int, j: int, i: int, l: Ledger)
    requires 0 <= j <= i <= |steps| && |states| == |steps| + 1
  {
    && l.calls == Tally(states, steps, j, i, CallsFor(id))
    && l.failures == Tally(states, steps, j, i, FailuresFor(id))
    && l.resets == Tally(states, steps, j, i, ResetsFor(id))
    && l.booked == Tally(states, steps, j, i, BookingsFor(id))
    && l.ambiguous == Tally(states, steps, j, i, AmbiguousFor(id))
    && l.orphaned == Tally(states, steps, j, i, OrphansFor(id))
  }

  /** The ledger of an order counts the steps of its period. */
  lemma {:induction false} LedgerIsTally(states: seq<State>, steps: seq<Step>, id: int, j: int, i: int)
    requires Period(states, steps, id, j, i)
    ensures id in states[i].rows && id in states[i].ledger && Counted(states, steps, id, j, i, states[i].ledger[id])
    decreases i
  {
    if i > j {
      LedgerIsTally(states, steps, id, j, i - 1);
      RunLedger(states, steps, i - 1, id);
    } else {
      RunStarts(states, steps, id, j);
    }
  }

  lemma RunStarts(states: seq<State>, steps: seq<Step>, id: int, j: int)
    requires Behaviour(states, steps) && 1 <= j <= |steps| && Restarts(steps[j - 1], id)
    ensures id in states[j].rows && id in states[j].ledger && states[j].ledger[id] == NO_LEDGER
  {
    EveryStateInv(states, steps, j - 1);
    StepKeepsInv(states[j - 1], states[j], steps[j - 1]);
  }

  lemma RunLedger(states: seq<State>, steps: seq<Step>, k: int, id: int)
    requires Behaviour(states, steps) && 0 <= k < |steps| && id in states[k].ledger && !Restarts(steps[k], id)
    ensures id in states[k + 1].rows && LedgerMoves(states[k], states[k + 1], steps[k], id)
  {
    EveryStateInv(states, steps, k);
    StepKeepsInv(states[k], states[k + 1], steps[k]);
    LedgerStep(states[k], states[k + 1], steps[k], id);
    BookingStep(states[k], states[k + 1], steps[k], id);
  }

  // ---------------------------------------------------------------- ledgers

  /**
   Over every run with crashes, lost writes and restarts, the SORTOI calls for an order in one period number at
   most 3 plus its stale resets; at most 2 infra failures are recorded while it can still be called again.
   */
  lemma SortoiCallsAreBounded(states: seq<State>, steps: seq<Step>, id: int, j: int, i: int)
    requires Period(states, steps, id, j, i)
    ensures Tally(states, steps, j, i, CallsFor(id)) <= 3 + Tally(states, steps, j, i, ResetsFor(id))
    ensures id in states[i].rows && (HoldsStock(states[i].rows[id]) ==> Tally(states, steps, j, i, FailuresFor(id)) <= 2)
  {
    LedgerIsTally(states, steps, id, j, i);
    EveryStateInv(states, steps, i);
    assert RowOk(states[i].rows[id], states[i].ledger[id], PhaseOf(states[i].batch, id));
  }

  /** The attempts column is recorded failures plus stale resets, plus one once submitted. */
  lemma AttemptsAreAccountedFor(states: seq<State>, steps: seq<Step>, id: int, j: int, i: int)
    requires Period(states, steps, id, j, i)
    ensures id in states[i].rows
    ensures var row, resets := states[i].rows[id], Tally(states, steps, j, i, ResetsFor(id));
      && row.attempts == Tally(states, steps, j, i, FailuresFor(id)) + resets + Settled(row.status)
      && row.attempts <= 3 + resets
      && (row.status.DeadLetter? ==> row.attempts >= 3)
      && (HoldsStock(row) && row.attempts >= 3 ==> resets >= 1)
  {
    LedgerIsTally(states, steps, id, j, i);
    EveryStateInv(states, steps, i);
    assert RowOk(states[i].rows[id], states[i].ledger[id], PhaseOf(states[i].batch, id));
  }

  /** A step after which the order's last call is no longer unrecorded: its reply is recorded, or its row is reset. */
  predicate Settles(s: State, step: Step, id: int) {
    IsReset(s, step, id) || (step.RecordReply? && !step.fault.Lost? && s.batch.InReply? && s.batch.cur.id == id)
  }

  /** Step c booked the order, and nothing has been recorded of it by state i. */
  ghost predicate BookedAndOpen(states: seq<State>, steps: seq<Step>, id: int, c: int, i: int)
    requires |states| == |steps| + 1 && 0 <= i <= |steps|
  {
    0 <= c < i && BookingsFor(id)(states[c], steps[c]) && forall k :: c < k < i ==> !Settles(states[k], steps[k], id)
  }

  /** Some booking of the period is known to SYSPRO alone. */
  ghost predicate BookingIsOpen(states: seq<State>, steps: seq<Step>, id: int, j: int, i: int)
    requires |states| == |steps| + 1 && 0 <= j <= i <= |steps|
  {
    exists c :: j <= c && BookedAndOpen(states, steps, id, c, i)
  }

  lemma OpenStep(s: State, s': State, step: Step, id: int)
    requires Inv(s) && Takes(s, s', step) && id in s.ledger && !Restarts(step, id)
    ensures id in s'.ledger
    ensures s'.ledger[id].open <==> BookingsFor(id)(s, step) || (s.ledger[id].open && !Settles(s, step, id))
  {
    assert id in s.rows && RowOk(s.rows[id], s.ledger[id], PhaseOf(s.batch, id));
    if !step.Stage? && !step.Retry? && !step.Call? && !step.RecordReply? && !step.Boot? {
      OtherStepsKeepLedger(s, s', step);
    }
  }

  lemma {:induction false} OpenIsBookedAndOpen(states: seq<State>, steps: seq<Step>, id: int, j: int, i: int)
    requires Period(states, steps, id, j, i)
    ensures id in states[i].ledger && (states[i].ledger[id].open <==> BookingIsOpen(states, steps, id, j, i))
    decreases i
  {
    if i > j {
      OpenIsBookedAndOpen(states, steps, id, j, i - 1);
      EveryStateInv(states, steps, i - 1);
      OpenStep(states[i - 1], states[i], steps[i - 1], id);
      OpenExtends(states, steps, id, j, i - 1);
    } else {
      RunStarts(states, steps, id, j);
    }
  }

  lemma OpenExtends(states: seq<State>, steps: seq<Step>, id: int, j: int, i: int)
    requires |states| == |steps| + 1 && 0 <= j <= i < |steps|
    ensures BookingIsOpen(states, steps, id, j, i + 1)
      <==> BookingsFor(id)(states[i], steps[i]) || (BookingIsOpen(states, steps, id, j, i) && !Settles(states[i], steps[i], id))
  {
    if BookingsFor(id)(states[i], steps[i]) {
      assert BookedAndOpen(states, steps, id, i, i + 1);
    }
    if BookingIsOpen(states, steps, id, j, i) && !Settles(states[i], steps[i], id) {
      var c :| j <= c && BookedAndOpen(states, steps, id, c, i);
      assert BookedAndOpen(states, steps, id, c, i + 1);
    }
    if BookingIsOpen(states, steps, id, j, i + 1) {
      var c :| j <= c && BookedAndOpen(states, steps, id, c, i + 1);
      assert c < i ==> BookedAndOpen(states, steps, id, c, i);
    }
  }

  /**
   The exact booking ledger. In every state of every run, the orders SYSPRO has booked in the period are its ambiguous
   failures, plus the stale resets that hit an unrecorded booking, plus one when the row is submitted or fulfilled or a
   booking is still unrecorded.
   */
  lemma BookingsAreAccountedFor(states: seq<State>, steps: seq<Step>, id: int, j: int, i: int)
    requires Period(states, steps, id, j, i)
    ensures id in states[i].rows
    ensures Tally(states, steps, j, i, BookingsFor(id))
      == Tally(states, steps, j, i, AmbiguousFor(id)) + Tally(states, steps, j, i, OrphansFor(id))
      + One(states[i].rows[id].status.Submitted? || states[i].rows[id].status.Fulfilled? || BookingIsOpen(states, steps, id, j, i))
  {
    LedgerIsTally(states, steps, id, j, i);
    OpenIsBookedAndOpen(states, steps, id, j, i);
    EveryStateInv(states, steps, i);
    assert RowOk(states[i].rows[id], states[i].ledger[id], PhaseOf(states[i].batch, id));
  }

  function IsOpen(s: State, id: int): bool {
    id in s.ledger && s.ledger[id].open
  }

  /** Bookings that are neither ambiguous nor orphaned: the one the row tells of, or the one not recorded yet. */
  function Standing(s: State, id: int): nat {
    One(id in s.rows && (s.rows[id].status.Submitted? || s.rows[id].status.Fulfilled?)) + One(IsOpen(s, id))
  }

  lemma StandingInLedger(s: State, id: int)
    requires Inv(s) && id in s.rows
    ensures id in s.ledger && Standing(s, id) == s.ledger[id].booked - s.ledger[id].ambiguous - s.ledger[id].orphaned
  {
    assert RowOk(s.rows[id], s.ledger[id], PhaseOf(s.batch, id));
  }

  lemma RestartStep(s: State, s': State, step: Step, id: int)
    requires Inv(s) && Takes(s, s', step) && Restarts(step, id)
    ensures Standing(s, id) == 0 && Standing(s', id) == 0 && !IsOpen(s, id) && !IsOpen(s', id)
  {
    if id in s.rows {
      assert RowOk(s.rows[id], s.ledger[id], PhaseOf(s.batch, id));
    }
  }

  lemma UnknownStays(s: State, s': State, step: Step, id: int)
    requires Inv(s) && Takes(s, s', step) && id !in s.rows && !Restarts(step, id)
    ensures id !in s'.rows && id !in s'.ledger && id !in s.ledger
  {
    if !step.Stage? {
      OtherStepsKeepContent(s, s', step);
    }
    StepKeepsInv(s, s', step);
  }

  lemma NothingCountsForUnknown(s: State, step: Step, id: int)
    requires Inv(s) && id !in s.rows
    ensures !BookingsFor(id)(s, step) && !AmbiguousFor(id)(s, step) && !OrphansFor(id)(s, step)
  {
  }

  lemma RestartsCountNothing(s: State, step: Step, id: int)
    requires Restarts(step, id)
    ensures !BookingsFor(id)(s, step) && !AmbiguousFor(id)(s, step) && !OrphansFor(id)(s, step)
  {
  }

  lemma StandingStep(s: State, s': State, step: Step, id: int)
    requires Inv(s) && Inv(s') && Takes(s, s', step)
    ensures Standing(s', id) + One(AmbiguousFor(id)(s, step)) + One(OrphansFor(id)(s, step)) == Standing(s, id) + One(BookingsFor(id)(s, step))
  {
    if Restarts(step, id) {
      RestartStep(s, s', step, id);
      RestartsCountNothing(s, step, id);
    } else if id in s.rows {
      StandingInLedger(s, id);
      BookingStep(s, s', step, id);
      StandingInLedger(s', id);
    } else {
      UnknownStays(s, s', step, id);
      NothingCountsForUnknown(s, step, id);
    }
  }

  lemma RunStanding(states: seq<State>, steps: seq<Step>, k: int, id: int)
    requires Behaviour(states, steps) && 0 <= k < |steps|
    ensures Standing(states[k + 1], id) + One(AmbiguousFor(id)(states[k], steps[k])) + One(OrphansFor(id)(states[k], steps[k]))
      == Standing(states[k], id) + One(BookingsFor(id)(states[k], steps[k]))
  {
    EveryStateInv(states, steps, k);
    EveryStateInv(states, steps, k + 1);
    StandingStep(states[k], states[k + 1], steps[k], id);
  }

  lemma {:induction false} LifeLedger(states: seq<State>, steps: seq<Step>, id: int, i: int)
    requires Behaviour(states, steps) && 0 <= i <= |steps|
    ensures Tally(states, steps, 0, i, BookingsFor(id))
      == Tally(states, steps, 0, i, AmbiguousFor(id)) + Tally(states, steps, 0, i, OrphansFor(id)) + Standing(states[i], id)
    decreases i
  {
    if i > 0 {
      LifeLedger(states, steps, id, i - 1);
      RunStanding(states, steps, i - 1, id);
    }
  }

  lemma OpenMoves(states: seq<State>, steps: seq<Step>, k: int, id: int)
    requires Behaviour(states, steps) && 0 <= k < |steps|
    ensures IsOpen(states[k + 1], id) <==> BookingsFor(id)(states[k], steps[k]) || (IsOpen(states[k], id) && !Settles(states[k], steps[k], id))
  {
    var s, s', step := states[k], states[k + 1], steps[k];
    EveryStateInv(states, steps, k);
    if Restarts(step, id) {
      RestartStep(s, s', step, id);
      RestartsCountNothing(s, step, id);
    } else if id in s.rows {
      OpenStep(s, s', step, id);
    } else {
      UnknownStays(s, s', step, id);
      NothingCountsForUnknown(s, step, id);
    }
  }

  lemma {:induction false} OpenOverALife(states: seq<State>, steps: seq<Step>, id: int, i: int)
    requires Behaviour(states, steps) && 0 <= i <= |steps|
    ensures IsOpen(states[i], id) <==> BookingIsOpen(states, steps, id, 0, i)
    decreases i
  {
    if i > 0 {
      OpenOverALife(states, steps, id, i - 1);
      OpenMoves(states, steps, i - 1, id);
      OpenExtends(states, steps, id, 0, i - 1);
    }
  }

  /**
   The exact booking ledger of an order's whole life, over its staging and every operator retry: in every state of every
   run SYSPRO has booked it once for each ambiguous failure, once for each stale reset of an unrecorded booking, and once
   more when the row is submitted or fulfilled or a booking is still unrecorded.
   */
  lemma LifeBookingsAreAccountedFor(states: seq<State>, steps: seq<Step>, id: int, i: int)
    requires Behaviour(states, steps) && 0 <= i <= |steps|
    ensures Tally(states, steps, 0, i, BookingsFor(id))
      == Tally(states, steps, 0, i, AmbiguousFor(id)) + Tally(states, steps, 0, i, OrphansFor(id))
      + One(id in states[i].rows && (states[i].rows[id].status.Submitted? || states[i].rows[id].status.Fulfilled?))
      + One(BookingIsOpen(states, steps, id, 0, i))
  {
    LifeLedger(states, steps, id, i);
    OpenOverALife(states, steps, id, i);
  }

  /**
   When a call is about to be made, the order has been booked before if and only if, at any time since it was staged, some
   answer was recorded as a failure although SYSPRO had booked it, or some stale reset hit an unrecorded booking.
   */
  lemma BookedBeforeIffAmbiguousOrOrphaned(states: seq<State>, steps: seq<Step>, id: int, i: int)
    requires Behaviour(states, steps) && 0 <= i <= |steps| && states[i].batch.InClaim? && states[i].batch.cur.id == id
    ensures Tally(states, steps, 0, i, BookingsFor(id)) >= 1
      <==> Tally(states, steps, 0, i, AmbiguousFor(id)) + Tally(states, steps, 0, i, OrphansFor(id)) >= 1
  {
    LifeLedger(states, steps, id, i);
    EveryStateInv(states, steps, i);
    assert RowOk(states[i].rows[id], states[i].ledger[id], PhaseOf(states[i].batch, id));
  }

  // ---------------------------------------------------------------- unconditional writes

  /**
   Every unconditional batch write lands on the row this call claimed: it is still processing with the attempts of the
   fetched snapshot, and no other row changes. The claim itself never misses.
   */
  lemma BatchWritesHitTheirClaim(states: seq<State>, steps: seq<Step>, i: int)
    requires Behaviour(states, steps) && 0 <= i < |steps|
    ensures steps[i].RecordReply? ==> states[i].batch.InReply? && RecordHits(states[i], states[i + 1], states[i].batch.cur)
    ensures steps[i].Claim? ==> states[i].batch.Looping? && states[i].batch.todo != [] && ClaimHits(states[i], states[i].batch.todo[0])
  {
    EveryStateInv(states, steps, i);
    assert Takes(states[i], states[i + 1], steps[i]);
  }

  ghost predicate RecordHits(s: State, s': State, cur: Snap) {
    && cur.id in s.rows && s.rows[cur.id].status.Processing? && s.rows[cur.id].attempts == cur.attempts
    && s'.rows.Keys == s.rows.Keys && forall id :: id in s.rows && id != cur.id ==> s'.rows[id] == s.rows[id]
  }

  ghost predicate ClaimHits(s: State, cur: Snap) {
    cur.id in s.rows && s.rows[cur.id].status.Pending? && s.rows[cur.id].attempts == cur.attempts
  }

  /** The fulfilment write lands on a row that is still submitted under the number that was queried. */
  lemma FulfilmentWritesHitSubmittedRows(states: seq<State>, steps: seq<Step>, i: int)
    requires Behaviour(states, steps) && 0 <= i < |steps| && steps[i].FulRecord?
    ensures states[i].ful.InCreated? && Waiting(states[i].rows, states[i].ful.cur)
  {
    EveryStateInv(states, steps, i);
    assert Takes(states[i], states[i + 1], steps[i]);
  }

  /** later keeps what a submitted or fulfilled row has reached. */
  ghost predicate Keeps(earlier: Row, later: Row) {
    && (earlier.status.Submitted? ==> later.status.Submitted? || later.status.Fulfilled?)
    && (earlier.status.Fulfilled? ==> later.status.Fulfilled? && later.fulfilmentId == earlier.fulfilmentId)
    && (earlier.status.Submitted? || earlier.status.Fulfilled? ==>
          later.sysproNumber == earlier.sysproNumber && later.attempts == earlier.attempts)
    && later.order == earlier.order
  }

  lemma StepKeepsRows(s: State, s': State, step: Step, id: int)
    requires Inv(s) && Takes(s, s', step) && id in s.rows
    ensures id in s'.rows && Keeps(s.rows[id], s'.rows[id])
  {
    if step.RecordReply? || step.FulRecord? || step.Claim? {
      WriteKeepsRows(s, s', step, id);
    }
  }

  lemma WriteKeepsRows(s: State, s': State, step: Step, id: int)
    requires BatchOk(s) && FulOk(s) && Takes(s, s', step) && id in s.rows
    requires step.RecordReply? || step.FulRecord? || step.Claim?
    ensures id in s'.rows && Keeps(s.rows[id], s'.rows[id])
  {
  }

  /** A submitted or fulfilled row never returns to the queue, in any run. */
  lemma {:induction false} SubmittedIsForever(states: seq<State>, steps: seq<Step>, i: int, k: int, id: int)
    requires Behaviour(states, steps) && 0 <= i <= k < |states| && id in states[i].rows
    ensures id in states[k].rows && Keeps(states[i].rows[id], states[k].rows[id])
    decreases k
  {
    if i < k {
      SubmittedIsForever(states, steps, i, k - 1, id);
      RunKeepsRows(states, steps, k - 1, id);
    }
  }

  lemma RunKeepsRows(states: seq<State>, steps: seq<Step>, k: int, id: int)
    requires Behaviour(states, steps) && 0 <= k < |steps| && id in states[k].rows
    ensures id in states[k + 1].rows && Keeps(states[k].rows[id], states[k + 1].rows[id])
  {
    EveryStateInv(states, steps, k);
    StepKeepsRows(states[k], states[k + 1], steps[k], id);
  }

  // ---------------------------------------------------------------- provenance

  /** CreateFulfillment succeeds for order id in cycle, for a row then submitted under a number whose status was "9". */
  ghost predicate CreatesIn(s: State, step: Step, cycle: nat, id: int, fulfilmentId: string) {
    && step.FulCreate? && step.outcome.Answered? && step.outcome.fulfilmentId == fulfilmentId && s.cycle == cycle && s.ful.InLocated?
    && var cur := s.ful.cur;
    && cur.id == id && cur.number in s.ful.found && s.ful.found[cur.number] == "9" && Waiting(s.rows, cur)
  }

  ghost predicate CreatesFulfilment(states: seq<State>, steps: seq<Step>, c: int, cycle: nat, id: int, fulfilmentId: string)
    requires |states| == |steps| + 1
  {
    0 <= c < |steps| && CreatesIn(states[c], steps[c], cycle, id, fulfilmentId)
  }

  lemma NewCreation(s: State, s': State, step: Step, cycle: nat, id: int, fulfilmentId: string)
    requires FulOk(s) && Takes(s, s', step)
    requires (cycle, id, fulfilmentId) in s'.evidence.created && (cycle, id, fulfilmentId) !in s.evidence.created
    ensures CreatesIn(s, step, cycle, id, fulfilmentId)
  {
  }

  /** Step b is a successful SORQRY of cycle that reported status "9" for number. */
  ghost predicate ReportsDispatch(states: seq<State>, steps: seq<Step>, b: int, cycle: nat, number: string)
    requires |states| == |steps| + 1
  {
    && 0 <= b < |steps| && steps[b].FulQuery? && steps[b].ok && states[b].cycle == cycle
    && number in steps[b].found && steps[b].found[number] == "9"
  }

  /** Step a records SYSPRO's acceptance of order id under number. */
  ghost predicate RecordsSubmission(states: seq<State>, steps: seq<Step>, a: int, id: int, number: string)
    requires |states| == |steps| + 1
  {
    && 0 <= a < |steps| && steps[a].RecordReply? && !steps[a].fault.Lost?
    && states[a].batch.InReply? && states[a].batch.cur.id == id && states[a].batch.reply == Accepted(number)
  }

  lemma {:induction false} CreatedHasStep(states: seq<State>, steps: seq<Step>, i: int, cycle: nat, id: int, fulfilmentId: string)
    requires Behaviour(states, steps) && 0 <= i < |states| && (cycle, id, fulfilmentId) in states[i].evidence.created
    ensures exists c :: c < i && CreatesFulfilment(states, steps, c, cycle, id, fulfilmentId)
    decreases i
  {
    if i > 0 {
      EveryStateInv(states, steps, i - 1);
      if (cycle, id, fulfilmentId) in states[i - 1].evidence.created {
        CreatedHasStep(states, steps, i - 1, cycle, id, fulfilmentId);
      } else {
        NewCreation(states[i - 1], states[i], steps[i - 1], cycle, id, fulfilmentId);
        assert CreatesFulfilment(states, steps, i - 1, cycle, id, fulfilmentId);
      }
    }
  }

  predicate Working(ful: FulPc) {
    ful.FulLooping? || ful.InLocated? || ful.InCreated?
  }

  /** Step b is the query whose answer the fulfilment actor is working through at c, on a list that still held the rest. */
  ghost predicate Answers(states: seq<State>, steps: seq<Step>, b: int, c: int)
    requires |states| == |steps| + 1
  {
    && 0 <= b < c < |states| && steps[b].FulQuery? && steps[b].ok && states[b].cycle == states[c].cycle
    && Working(states[c].ful)
    && states[b].ful.FulFetched? && steps[b].found == states[c].ful.found
    && (forall k :: 0 <= k < |states[c].ful.todo| ==> states[c].ful.todo[k] in states[b].ful.todo)
    && (!states[c].ful.FulLooping? ==> states[c].ful.cur in states[b].ful.todo)
  }

  lemma OnlyTheSyncerMoves(s: State, s': State, step: Step)
    requires Takes(s, s', step) && !ByFulfilment(step)
    ensures s'.cycle == s.cycle && (s'.ful == s.ful || s'.ful.FulIdle?)
  {
  }

  lemma AnswersStep(s: State, s': State, step: Step)
    requires Takes(s, s', step) && Working(s'.ful)
    ensures s'.cycle == s.cycle
    ensures if step.FulQuery? then step.ok && s.ful.FulFetched? && s'.ful == FulLooping(step.found, s.ful.todo)
      else
        && Working(s.ful) && s'.ful.found == s.ful.found
        && (forall k :: 0 <= k < |s'.ful.todo| ==> s'.ful.todo[k] in s.ful.todo)
        && (!s'.ful.FulLooping? ==> if s.ful.FulLooping? then s'.ful.cur in s.ful.todo else s'.ful.cur == s.ful.cur)
  {
    if !ByFulfilment(step) {
      OnlyTheSyncerMoves(s, s', step);
    }
  }

  lemma {:induction false} LoopHasQuery(states: seq<State>, steps: seq<Step>, c: int) returns (b: int)
    requires Behaviour(states, steps) && 0 <= c < |states| && Working(states[c].ful)
    ensures Answers(states, steps, b, c)
    decreases c
  {
    assert c > 0;
    assert Takes(states[c - 1], states[c - 1 + 1], steps[c - 1]);
    AnswersStep(states[c - 1], states[c], steps[c - 1]);
    if steps[c - 1].FulQuery? {
      b := c - 1;
    } else {
      b := LoopHasQuery(states, steps, c - 1);
    }
  }

  lemma NewSubmission(s: State, s': State, step: Step, id: int, number: string)
    requires Takes(s, s', step) && (id, number) in s'.evidence.submitted && (id, number) !in s.evidence.submitted
    ensures step.RecordReply? && !step.fault.Lost? && s.batch.InReply? && s.batch.cur.id == id && s.batch.reply == Accepted(number)
  {
  }

  lemma {:induction false} SubmittedHasStep(states: seq<State>, steps: seq<Step>, i: int, id: int, number: string)
    requires Behaviour(states, steps) && 0 <= i < |states| && (id, number) in states[i].evidence.submitted
    ensures exists a :: a < i && RecordsSubmission(states, steps, a, id, number)
    decreases i
  {
    if i > 0 {
      if (id, number) in states[i - 1].evidence.submitted {
        SubmittedHasStep(states, steps, i - 1, id, number);
      } else {
        NewSubmission(states[i - 1], states[i], steps[i - 1], id, number);
        assert RecordsSubmission(states, steps, i - 1, id, number);
      }
    }
  }

  /**
   First step a records SYSPRO's acceptance under the row's number, then step b reports "9" for that number, then step c,
   in the same cycle, creates the row's fulfilment.
   */
  ghost predicate Provenance3(states: seq<State>, steps: seq<Step>, i: int, a: int, b: int, c: int, id: int, row: Row)
    requires |states| == |steps| + 1
  {
    && 0 <= a < b < c < i <= |steps| && RecordsSubmission(states, steps, a, id, row.sysproNumber)
    && ReportsDispatch(states, steps, b, states[c].cycle, row.sysproNumber)
    && CreatesFulfilment(states, steps, c, states[c].cycle, id, row.fulfilmentId)
    && states[c].ful.cur.number == row.sysproNumber
  }

  /**
   A fulfilled row was submitted under a non-empty SYSPRO number that an accepted SORTOI recorded; later, in one
   fulfilment cycle, SORQRY reported "9" for that number and then CreateFulfillment succeeded while the row was submitted.
   */
  lemma FulfilledRowsWereDispatched(states: seq<State>, steps: seq<Step>, i: int, id: int)
    requires Behaviour(states, steps) && 0 <= i < |states|
    requires id in states[i].rows && states[i].rows[id].status.Fulfilled?
    ensures states[i].rows[id].sysproNumber != ""
    ensures exists a, b, c :: Provenance3(states, steps, i, a, b, c, id, states[i].rows[id])
  {
    EveryStateInv(states, steps, i);
    var row := states[i].rows[id];
    assert Provenance(states[i].evidence, id, row);
    var cycle: nat :| DispatchedIn(states[i].evidence, cycle, row.sysproNumber, id, row.fulfilmentId);
    CreatedHasStep(states, steps, i, cycle, id, row.fulfilmentId);
    var c :| c < i && CreatesFulfilment(states, steps, c, cycle, id, row.fulfilmentId);
    SubmittedIsForever(states, steps, c, i, id);
    var a, b := CreationHasHistory(states, steps, c, cycle, id, row.fulfilmentId);
    assert Provenance3(states, steps, i, a, b, c, id, row);
  }

  lemma CreationHasHistory(states: seq<State>, steps: seq<Step>, c: int, cycle: nat, id: int, fulfilmentId: string) returns (a: int, b: int)
    requires Behaviour(states, steps) && CreatesFulfilment(states, steps, c, cycle, id, fulfilmentId)
    ensures 0 <= a < b < c && RecordsSubmission(states, steps, a, id, states[c].ful.cur.number)
    ensures ReportsDispatch(states, steps, b, cycle, states[c].ful.cur.number)
  {
    var cur := states[c].ful.cur;
    b := LoopHasQuery(states, steps, c);
    assert cur in states[b].ful.todo;
    EveryStateInv(states, steps, b);
    assert Waiting(states[b].rows, cur);
    assert Provenance(states[b].evidence, id, states[b].rows[id]);
    SubmittedHasStep(states, steps, b, id, cur.number);
    a :| a < b && RecordsSubmission(states, steps, a, id, cur.number);
  }

  // ---------------------------------------------------------------- fulfilments

  /** Shopify makes a fulfilment for the order. */
  function CreationsFor(id: int): Kind {
    (s: State, step: Step) => step.FulCreate? && step.outcome.made && s.ful.InLocated? && s.ful.cur.id == id
  }

  /** It makes one and the answer does not arrive, or is an error. */
  function UnansweredFor(id: int): Kind {
    (s: State, step: Step) => step.FulCreate? && step.outcome == Unanswered(true) && s.ful.InLocated? && s.ful.cur.id == id
  }

  /** The write that follows a success is lost, or the process dies before it; the success had made a fulfilment. */
  function DropsFor(id: int): Kind {
    (s: State, step: Step) =>
      s.ful.InCreated? && s.ful.cur.id == id && s.ful.made && (step.Crash? || (step.FulRecord? && step.fault.Lost?))
  }

  /** A success is recorded: one that had made a fulfilment, or one that found it there already. */
  function RecordsFor(id: int, made: bool): Kind {
    (s: State, step: Step) => step.FulRecord? && !step.fault.Lost? && s.ful.InCreated? && s.ful.cur.id == id && s.ful.made == made
  }

  /** A fulfilment that was made and is about to be recorded. */
  function InFlight(s: State, id: int): nat {
    One(s.ful.InCreated? && s.ful.made && s.ful.cur.id == id)
  }

  function IsFulfilled(s: State, id: int): bool {
    id in s.rows && s.rows[id].status.Fulfilled?
  }

  lemma CreationStep(s: State, s': State, step: Step, id: int)
    requires Inv(s) && Takes(s, s', step)
    ensures InFlight(s', id) + One(UnansweredFor(id)(s, step)) + One(DropsFor(id)(s, step)) + One(RecordsFor(id, true)(s, step))
      == InFlight(s, id) + One(CreationsFor(id)(s, step))
    ensures One(IsFulfilled(s', id)) == One(IsFulfilled(s, id)) + One(RecordsFor(id, true)(s, step)) + One(RecordsFor(id, false)(s, step))
  {
    if step.FulCreate? {
    } else if step.FulRecord? {
      assert Waiting(s.rows, s.ful.cur);
    } else {
      OtherStepsKnow(s, s', step, id);
      OtherStepsLeaveCreation(s, s', step);
    }
  }

  lemma OtherStepsKnow(s: State, s': State, step: Step, id: int)
    requires Inv(s) && Takes(s, s', step) && !step.FulCreate? && !step.FulRecord?
    ensures IsFulfilled(s, id) <==> IsFulfilled(s', id)
  {
    if id in s.rows {
      StepKeepsRows(s, s', step, id);
    }
  }

  lemma OtherStepsLeaveCreation(s: State, s': State, step: Step)
    requires Takes(s, s', step) && !step.FulCreate? && !step.FulRecord?
    ensures s'.ful.InCreated? ==> s'.ful == s.ful
    ensures s.ful.InCreated? && !step.Crash? ==> s'.ful == s.ful || !s.up
  {
  }

  lemma RunCreation(states: seq<State>, steps: seq<Step>, k: int, id: int)
    requires Behaviour(states, steps) && 0 <= k < |steps|
    ensures var s, s', step := states[k], states[k + 1], steps[k];
      && InFlight(s', id) + One(UnansweredFor(id)(s, step)) + One(DropsFor(id)(s, step)) + One(RecordsFor(id, true)(s, step))
        == InFlight(s, id) + One(CreationsFor(id)(s, step))
      && One(IsFulfilled(s', id)) == One(IsFulfilled(s, id)) + One(RecordsFor(id, true)(s, step)) + One(RecordsFor(id, false)(s, step))
  {
    EveryStateInv(states, steps, k);
    CreationStep(states[k], states[k + 1], steps[k], id);
  }

  /**
   The exact fulfilment ledger: in every state of every run, the fulfilments Shopify has made for an order were recorded,
   dropped or left unanswered, or one is in flight; and the row is fulfilled exactly when one success was recorded, which
   had made a fulfilment or had been told that there was one.
   */
  lemma {:induction false} FulfilmentsAreAccountedFor(states: seq<State>, steps: seq<Step>, id: int, i: int)
    requires Behaviour(states, steps) && 0 <= i <= |steps|
    ensures Tally(states, steps, 0, i, CreationsFor(id))
      == Tally(states, steps, 0, i, RecordsFor(id, true)) + Tally(states, steps, 0, i, DropsFor(id))
      + Tally(states, steps, 0, i, UnansweredFor(id)) + InFlight(states[i], id)
    ensures Tally(states, steps, 0, i, RecordsFor(id, true)) + Tally(states, steps, 0, i, RecordsFor(id, false)) == One(IsFulfilled(states[i], id))
    decreases i
  {
    if i > 0 {
      FulfilmentsAreAccountedFor(states, steps, id, i - 1);
      RunCreation(states, steps, i - 1, id);
    }
  }

  /** The two calls to Shopify make a fulfilment from here. */
  ghost predicate CanShip(s: State) {
    exists mid: State, s': State, fulfilmentId :: ShipsVia(s, mid, s', fulfilmentId)
  }

  ghost predicate ShipsVia(s: State, mid: State, s': State, fulfilmentId: string) {
    Takes(s, mid, FulLocate) && Takes(mid, s', FulCreate(Answered(fulfilmentId, true)))
  }

  /** Shopify lists an open fulfilment order that is not fulfilled. */
  ghost predicate ListsUnfulfilled(shop: map<int, ShopOrder>, order: int) {
    Listed(shop, order).Some? && CanMake(ShopOf(shop, order), Listed(shop, order).value)
  }

  lemma CanShipIffListed(s: State)
    requires s.up && s.ful.FulLooping? && s.ful.todo != []
    requires s.ful.todo[0].number in s.ful.found && s.ful.found[s.ful.todo[0].number] == "9"
    ensures CanShip(s) <==> ListsUnfulfilled(s.shop, s.ful.todo[0].order)
  {
    var cur := s.ful.todo[0];
    if ListsUnfulfilled(s.shop, cur.order) {
      var fo := Listed(s.shop, cur.order).value;
      var mid := s.(ful := InLocated(cur, fo, s.ful.found, s.ful.todo[1..]));
      var s' := mid.(shop := s.shop[cur.order := Made(ShopOf(s.shop, cur.order), fo)], ful := InCreated(cur, "F", true, s.ful.found, s.ful.todo[1..]),
                     evidence := s.evidence.(created := s.evidence.created + {(s.cycle, cur.id, "F")}));
      assert ShipsVia(s, mid, s', "F");
    }
  }

  /**
   When the fulfilment actor turns to an order that SYSPRO reports complete, it can make a fulfilment for an order that
   already has one if and only if an earlier one was dropped or left unanswered and Shopify still lists an open fulfilment
   order that is not fulfilled.
   */
  lemma FulfilledAgainIff(states: seq<State>, steps: seq<Step>, id: int, i: int)
    requires Behaviour(states, steps) && 0 <= i <= |steps| && states[i].up && states[i].ful.FulLooping? && states[i].ful.todo != []
    requires var cur := states[i].ful.todo[0]; cur.id == id && cur.number in states[i].ful.found && states[i].ful.found[cur.number] == "9"
    ensures Tally(states, steps, 0, i, CreationsFor(id)) >= 1 && CanShip(states[i])
      <==> (
        && Tally(states, steps, 0, i, DropsFor(id)) + Tally(states, steps, 0, i, UnansweredFor(id)) >= 1
        && ListsUnfulfilled(states[i].shop, states[i].ful.todo[0].order))
  {
    FulfilmentsAreAccountedFor(states, steps, id, i);
    EveryStateInv(states, steps, i);
    assert Waiting(states[i].rows, states[i].ful.todo[0]);
    CanShipIffListed(states[i]);
  }

  // ---------------------------------------------------------------- orders without a number

  /** The row is submitted, and SYSPRO gave no number for it. */
  predicate Numberless(rows: Rows, id: int) {
    id in rows && rows[id].status.Submitted? && rows[id].sysproNumber == ""
  }

  lemma NumberlessStep(s: State, s': State, step: Step, id: int)
    requires Inv(s) && Takes(s, s', step) && Numberless(s.rows, id)
    ensures Numberless(s'.rows, id)
  {
    if step.FulRecord? {
      assert Waiting(s.rows, s.ful.cur);
    } else {
      StepKeepsRows(s, s', step, id);
      OtherStepsKeepNumberless(s, s', step, id);
    }
  }

  lemma OtherStepsKeepNumberless(s: State, s': State, step: Step, id: int)
    requires Inv(s) && Takes(s, s', step) && Numberless(s.rows, id) && !step.FulRecord? && id in s'.rows
    ensures !s'.rows[id].status.Fulfilled?
  {
    if !step.FulCreate? {
      OtherStepsKnow(s, s', step, id);
    }
  }

  /**
   What a clean import without an Order element means for the order: SYSPRO's reply counts as accepted, the row is
   submitted under no number, and from then on in every run it stays so. It is never queried, never fulfilled.
   */
  lemma {:induction false} CleanImportIsNeverFulfilled(states: seq<State>, steps: seq<Step>, r: Response, i: int, k: int)
    requires Behaviour(states, steps) && 0 <= i < k < |states|
    requires r.Response? && r.salesOrder == "" && r.customerPoNumber == "" && r.itemsProcessed !in {"", "000000"}
    requires steps[i].RecordReply? && !steps[i].fault.Lost? && states[i].batch.InReply? && states[i].batch.reply == ParseResponse(r)
    ensures Numberless(states[k].rows, states[i].batch.cur.id)
    decreases k
  {
    AcceptedWithoutNumber(r);
    EveryStateInv(states, steps, k - 1);
    assert Takes(states[k - 1], states[k - 1 + 1], steps[k - 1]);
    if k - 1 > i {
      CleanImportIsNeverFulfilled(states, steps, r, i, k - 1);
      NumberlessStep(states[k - 1], states[k], steps[k - 1], states[i].batch.cur.id);
    }
  }
}
