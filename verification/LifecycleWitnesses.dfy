/** Runs of Lifecycle that reach the bounds, and runs that break what one might expect. */
module LifecycleWitnesses {
  import opened Wrappers
  import opened Store
  import opened Sortoi
  import opened Lifecycle
  import opened LifecycleRuns
  import opened FulfilmentClient
  import opened FulfilmentFate

  // ---------------------------------------------------------------- one order, round after round

  /** Order 1 alone in the queue, with nothing in flight. */
  ghost function Queued(row: Row, l: Ledger): State {
    State(map[1 := row], map[], map[1 := l], BatchIdle, FulIdle, 0, Evidence({}, {}, {}), true, map[])
  }

  function ClaimedRow(row: Row): Row {
    row.(status := Processing)
  }

  /** The batch processor has claimed it. */
  ghost function Claiming(row: Row, l: Ledger): State {
    Queued(ClaimedRow(row), l).(batch := InClaim(Snap(1, row.attempts), []))
  }

  ghost function Calling(row: Row, l: Ledger, reply: Reply, booked: bool): State {
    Queued(ClaimedRow(row), Booked(l, booked)).(batch := InReply(Snap(1, row.attempts), [], reply, booked))
  }

  lemma ToClaim(row: Row, l: Ledger) returns (states: seq<State>, steps: seq<Step>)
    requires row.status.Pending?
    ensures Leads(states, steps, Queued(row, l), Claiming(row, l))
  {
    var s := Queued(row, l);
    var cur := Snap(1, row.attempts);
    var s1, s2, s3 := s.(batch := Fetched([cur])), s.(batch := Looping([cur])), Claiming(row, l);
    assert Snaps(s.rows, [1]) == [cur];
    assert FetchStep(s, s1, [1]);
    states, steps := Then([s], [], s, s, s1, Fetch([1]));
    states, steps := Then(states, steps, s, s1, s2, Open(true));
    assert [cur][1..] == [] && Claimed(s.rows, 1, row.updatedAt) == s3.rows;
    assert ClaimStep(s2, s3, NoFault, row.updatedAt);
    states, steps := Then(states, steps, s, s2, s3, Claim(NoFault, row.updatedAt));
  }

  lemma ToCall(row: Row, l: Ledger, reply: Reply, booked: bool) returns (states: seq<State>, steps: seq<Step>)
    requires row.status.Pending? && (reply.Accepted? ==> booked) && (reply.Rejected? ==> !booked)
    ensures Leads(states, steps, Queued(row, l), Calling(row, l, reply, booked))
  {
    states, steps := ToClaim(row, l);
    assert CallStep(Claiming(row, l), Calling(row, l, reply, booked), reply, booked);
    states, steps := Then(states, steps, Queued(row, l), Claiming(row, l), Calling(row, l, reply, booked), Call(reply, booked));
  }

  /**
   One round: SYSPRO does not answer and the failure is recorded, or the process dies after the claim, perhaps after the
   call, and a later boot requeues the row. booked says whether SYSPRO took the order all the same.
   */
  datatype Round = Silent(booked: bool) | Dies(called: bool, booked: bool)

  function AfterRound(l: Ledger, r: Round): Ledger {
    match r
    case Silent(booked) => Noted(Booked(l, booked), InfraError(""), booked)
    case Dies(called, booked) => Reset(if called then Booked(l, booked) else l)
  }

  function RowAfter(row: Row, r: Round): Row {
    match r
    case Silent(_) => row.(attempts := row.attempts + 1, lastError := "")
    case Dies(_, _) => row.(attempts := row.attempts + 1, updatedAt := row.updatedAt + 1000)
  }

  lemma SilentRound(row: Row, l: Ledger, booked: bool) returns (states: seq<State>, steps: seq<Step>)
    requires row.status.Pending? && row.attempts + 1 < MAX_ATTEMPTS
    ensures Leads(states, steps, Queued(row, l), Queued(RowAfter(row, Silent(booked)), AfterRound(l, Silent(booked))))
  {
    var s, s' := Queued(row, l), Queued(RowAfter(row, Silent(booked)), AfterRound(l, Silent(booked)));
    var called := Calling(row, l, InfraError(""), booked);
    states, steps := ToCall(row, l, InfraError(""), booked);
    var closing := s'.(batch := Closing);
    assert Recorded(called.rows, called.batch.cur, InfraError(""), row.updatedAt) == closing.rows;
    assert RecordStep(called, closing, NoFault, row.updatedAt);
    states, steps := Then(states, steps, s, called, closing, RecordReply(NoFault, row.updatedAt));
    assert CloseStep(closing, s');
    states, steps := Then(states, steps, s, closing, s', Close);
  }

  /** Dying and booting, from a claim or from a call. */
  lemma DeathAndBoot(row: Row, l: Ledger, s: State) returns (states: seq<State>, steps: seq<Step>)
    requires row.status.Pending? && s == Queued(ClaimedRow(row), l).(batch := s.batch)
    ensures Leads(states, steps, s, Queued(RowAfter(row, Dies(true, true)), Reset(l)))
  {
    var s' := Queued(RowAfter(row, Dies(true, true)), Reset(l));
    var down := Queued(ClaimedRow(row), l).(up := false);
    assert CrashStep(s, down);
    states, steps := Then([s], [], s, s, down, Crash);
    var now := row.updatedAt + 1000;
    assert Stale(down.rows[1], now, 600);
    assert StaleReset(down.rows, now, 600) == s'.rows && WithResets(down.rows, down.ledger, now, 600) == s'.ledger;
    assert BootStep(down, s', NoFault, now, 600);
    states, steps := Then(states, steps, s, down, s', Boot(NoFault, now, 600));
  }

  lemma DyingRound(row: Row, l: Ledger, called: bool, booked: bool) returns (states: seq<State>, steps: seq<Step>)
    requires row.status.Pending?
    ensures Leads(states, steps, Queued(row, l), Queued(RowAfter(row, Dies(called, booked)), AfterRound(l, Dies(called, booked))))
  {
    var reply := if booked then Accepted("SO1") else InfraError("");
    var mid := if called then Calling(row, l, reply, booked) else Claiming(row, l);
    var p, a;
    if called {
      p, a := ToCall(row, l, reply, booked);
    } else {
      p, a := ToClaim(row, l);
    }
    var q, b := DeathAndBoot(row, if called then Booked(l, booked) else l, mid);
    states, steps := Join(p, a, Queued(row, l), mid, q, b, Queued(RowAfter(row, Dies(called, booked)), AfterRound(l, Dies(called, booked))));
  }

  function LedgerAfter(rounds: seq<Round>): Ledger {
    if rounds == [] then NO_LEDGER else AfterRound(LedgerAfter(rounds[..|rounds| - 1]), rounds[|rounds| - 1])
  }

  /** A third recorded failure would dead-letter the order. */
  predicate StaysQueued(rounds: seq<Round>) {
    forall k :: 0 <= k < |rounds| && rounds[k].Silent? ==> k < 2
  }

  /** A run that stages order 1 and never stages or retries it again. */
  ghost predicate Staging(states: seq<State>, steps: seq<Step>, s: State) {
    && Behaviour(states, steps) && |steps| >= 1 && Restarts(steps[0], 1) && OwnSteps(steps[1..])
    && states[|steps|] == s
  }

  lemma StartRun(order: OrderData) returns (states: seq<State>, steps: seq<Step>)
    ensures Staging(states, steps, Queued(NewRow(order, 0), NO_LEDGER))
  {
    var s := Queued(NewRow(order, 0), NO_LEDGER);
    assert StageStep(INITIAL, s, 1, order, map[], 0);
    states, steps := [INITIAL, s], [Stage(1, order, map[], 0)];
  }

  lemma Continue(p: seq<State>, a: seq<Step>, s: State, q: seq<State>, b: seq<Step>, s': State) returns (states: seq<State>, steps: seq<Step>)
    requires Staging(p, a, s) && Leads(q, b, s, s')
    ensures Staging(states, steps, s') && p <= states && a <= steps
  {
    PathsJoin(p, a, q, b);
    states, steps := p + q[1..], a + b;
    assert steps[1..] == a[1..] + b;
  }

  lemma {:induction false} RunOfRounds(order: OrderData, rounds: seq<Round>) returns (states: seq<State>, steps: seq<Step>, row: Row)
    requires StaysQueued(rounds)
    ensures Staging(states, steps, Queued(row, LedgerAfter(rounds))) && row.status.Pending? && row.attempts == |rounds|
    decreases |rounds|
  {
    if rounds == [] {
      states, steps := StartRun(order);
      row := NewRow(order, 0);
      return;
    }
    var init, last := rounds[..|rounds| - 1], rounds[|rounds| - 1];
    var p, a, before := RunOfRounds(order, init);
    row := RowAfter(before, last);
    var q, b;
    if last.Silent? {
      q, b := SilentRound(before, LedgerAfter(init), last.booked);
    } else {
      q, b := DyingRound(before, LedgerAfter(init), last.called, last.booked);
    }
    states, steps := Continue(p, a, Queued(before, LedgerAfter(init)), q, b, Queued(row, LedgerAfter(rounds)));
  }

  /** The rounds, and then one more call. */
  lemma RunOfRoundsAndCall(order: OrderData, rounds: seq<Round>, reply: Reply, booked: bool) returns (states: seq<State>, steps: seq<Step>)
    requires StaysQueued(rounds) && (reply.Accepted? ==> booked) && (reply.Rejected? ==> !booked)
    ensures Period(states, steps, 1, 1, |steps|)
    ensures Counted(states, steps, 1, 1, |steps|, Booked(LedgerAfter(rounds), booked))
  {
    var p, a, row := RunOfRounds(order, rounds);
    var l := LedgerAfter(rounds);
    var q, b := ToCall(row, l, reply, booked);
    states, steps := Continue(p, a, Queued(row, l), q, b, Calling(row, l, reply, booked));
    StagingIsPeriod(states, steps, Calling(row, l, reply, booked));
  }

  lemma StagingIsPeriod(states: seq<State>, steps: seq<Step>, s: State)
    requires Staging(states, steps, s)
    ensures Period(states, steps, 1, 1, |steps|)
    ensures 1 in s.ledger && Counted(states, steps, 1, 1, |steps|, s.ledger[1])
  {
    assert forall k :: 1 <= k < |steps| ==> steps[k] == steps[1..][k - 1];
    LedgerIsTally(states, steps, 1, 1, |steps|);
  }

  function Repeat(r: Round, n: nat): seq<Round> {
    seq(n, k => r)
  }

  lemma {:induction false} RepeatedDeaths(prefix: seq<Round>, called: bool, booked: bool, n: nat)
    requires !LedgerAfter(prefix).open
    ensures var l, l' := LedgerAfter(prefix), LedgerAfter(prefix + Repeat(Dies(called, booked), n));
      var calls, bookings := if called then n else 0, if called && booked then n else 0;
      l' == l.(calls := l.calls + calls, resets := l.resets + n, booked := l.booked + bookings, orphaned := l.orphaned + bookings)
    decreases n
  {
    var r := Dies(called, booked);
    if n == 0 {
      assert prefix + Repeat(r, 0) == prefix;
    } else {
      RepeatedDeaths(prefix, called, booked, n - 1);
      var rounds := prefix + Repeat(r, n);
      assert rounds[..|rounds| - 1] == prefix + Repeat(r, n - 1);
    }
  }

  // ---------------------------------------------------------------- bounds that are reached

  /** Two recorded failures, then n deaths after a call. */
  function Exhausting(n: nat): seq<Round> {
    [Silent(false), Silent(false)] + Repeat(Dies(true, false), n)
  }

  lemma ExhaustingLedger(n: nat)
    ensures StaysQueued(Exhausting(n)) && LedgerAfter(Exhausting(n)) == Ledger(2 + n, 2, n, 0, 0, 0, false)
  {
    var failing := [Silent(false), Silent(false)];
    assert failing[..1] == [Silent(false)] && [Silent(false)][..0] == [];
    assert LedgerAfter([Silent(false)]) == Ledger(1, 1, 0, 0, 0, 0, false);
    assert LedgerAfter(failing) == Ledger(2, 2, 0, 0, 0, 0, false);
    RepeatedDeaths(failing, true, false, n);
  }

  /** A run with n stale resets of one order in one period, and three calls more than that. */
  ghost predicate ReachesBound(states: seq<State>, steps: seq<Step>, n: nat) {
    && Period(states, steps, 1, 1, |steps|)
    && Tally(states, steps, 1, |steps|, ResetsFor(1)) == n
    && Tally(states, steps, 1, |steps|, CallsFor(1)) == 3 + n
  }

  /** The bound of three calls plus stale resets is reached, for every number of resets. */
  lemma SortoiBoundIsReached(order: OrderData, n: nat)
    ensures exists states: seq<State>, steps: seq<Step> :: ReachesBound(states, steps, n)
  {
    ExhaustingLedger(n);
    var states, steps := RunOfRoundsAndCall(order, Exhausting(n), InfraError(""), false);
    assert ReachesBound(states, steps, n);
  }

  /** A run that books one order once more than it resets an unrecorded booking of it, without an ambiguous failure. */
  ghost predicate BooksAgain(states: seq<State>, steps: seq<Step>, orphaned: nat) {
    && Period(states, steps, 1, 1, |steps|)
    && Tally(states, steps, 1, |steps|, BookingsFor(1)) == orphaned + 1
    && Tally(states, steps, 1, |steps|, OrphansFor(1)) == orphaned
    && Tally(states, steps, 1, |steps|, AmbiguousFor(1)) == 0
  }

  lemma DyingLedger(called: bool, n: nat)
    ensures LedgerAfter(Repeat(Dies(called, called), n)) == (if called then Ledger(n, 0, n, n, 0, n, false) else Ledger(0, 0, n, 0, 0, 0, false))
  {
    RepeatedDeaths([], called, called, n);
    assert [] + Repeat(Dies(called, called), n) == Repeat(Dies(called, called), n);
  }

  /** Bookings have no bound: for every n some run books one order n + 1 times, each time but the last followed by a crash. */
  lemma BookingsHaveNoBound(order: OrderData, n: nat)
    ensures exists states: seq<State>, steps: seq<Step> :: BooksAgain(states, steps, n)
  {
    DyingLedger(true, n);
    var states, steps := RunOfRoundsAndCall(order, Repeat(Dies(true, true), n), Accepted("SO2"), true);
    assert BooksAgain(states, steps, n);
  }

  /** Exactly-once submission fails: one crash after SYSPRO's acceptance, one stale reset, and the order is booked again. */
  lemma AnOrderCanBeBookedTwice(order: OrderData)
    ensures exists states: seq<State>, steps: seq<Step> ::
      Period(states, steps, 1, 1, |steps|)
      && Tally(states, steps, 1, |steps|, BookingsFor(1)) == 2 && Tally(states, steps, 1, |steps|, ResetsFor(1)) == 1
      && Tally(states, steps, 1, |steps|, AmbiguousFor(1)) == 0
  {
    DyingLedger(true, 1);
    var states, steps := RunOfRoundsAndCall(order, Repeat(Dies(true, true), 1), Accepted("SO2"), true);
  }

  /** It also fails without a crash: SYSPRO books the order, the answer is lost, the failure is recorded and the order goes again. */
  lemma AnAmbiguousAnswerBooksTwice(order: OrderData)
    ensures exists states: seq<State>, steps: seq<Step> ::
      Period(states, steps, 1, 1, |steps|)
      && Tally(states, steps, 1, |steps|, BookingsFor(1)) == 2 && Tally(states, steps, 1, |steps|, ResetsFor(1)) == 0
      && Tally(states, steps, 1, |steps|, AmbiguousFor(1)) == 1
  {
    var rounds := [Silent(true)];
    assert rounds[..0] == [];
    assert LedgerAfter(rounds) == Ledger(1, 1, 0, 1, 1, 0, false);
    var states, steps := RunOfRoundsAndCall(order, rounds, Accepted("SO2"), true);
  }

  /** A run at whose end order 1 is pending with these attempts, without a SORTOI call in its period. */
  ghost predicate LeavesPending(states: seq<State>, steps: seq<Step>, attempts: int) {
    && Period(states, steps, 1, 1, |steps|) && 1 in states[|steps|].rows
    && states[|steps|].rows[1].status.Pending? && states[|steps|].rows[1].attempts == attempts
    && Tally(states, steps, 1, |steps|, CallsFor(1)) == 0
  }

  /** The attempts column has no bound: for every n some run leaves a pending order with n attempts and no call made. */
  lemma AttemptsHaveNoBound(order: OrderData, n: nat)
    ensures exists states: seq<State>, steps: seq<Step> :: LeavesPending(states, steps, n)
  {
    DyingLedger(false, n);
    var states, steps, row := RunOfRounds(order, Repeat(Dies(false, false), n));
    StagingIsPeriod(states, steps, Queued(row, LedgerAfter(Repeat(Dies(false, false), n))));
    assert LeavesPending(states, steps, n);
  }

  // ---------------------------------------------------------------- counting along a run

  /** A path from s to s' with at least n steps of this kind. */
  ghost predicate Segment(states: seq<State>, steps: seq<Step>, s: State, s': State, kind: Kind, n: nat) {
    Path(states, steps) && states[0] == s && states[|steps|] == s' && Tally(states, steps, 0, |steps|, kind) >= n
  }

  lemma {:induction false} TallyOfPrefix(p: seq<State>, a: seq<Step>, states: seq<State>, steps: seq<Step>, i: nat, kind: Kind)
    requires p <= states && a <= steps && |p| == |a| + 1 && |states| == |steps| + 1 && i <= |a|
    ensures Tally(p, a, 0, i, kind) == Tally(states, steps, 0, i, kind)
    decreases i
  {
    if i > 0 {
      TallyOfPrefix(p, a, states, steps, i - 1, kind);
    }
  }

  lemma {:induction false} TallyOfJoin(p: seq<State>, a: seq<Step>, q: seq<State>, b: seq<Step>, i: nat, kind: Kind)
    requires |p| == |a| + 1 && |q| == |b| + 1 && p[|a|] == q[0] && i <= |b|
    ensures Tally(p + q[1..], a + b, 0, |a| + i, kind) == Tally(p, a, 0, |a|, kind) + Tally(q, b, 0, i, kind)
    decreases i
  {
    var states, steps := p + q[1..], a + b;
    if i == 0 {
      TallyOfPrefix(p, a, states, steps, |a|, kind);
    } else {
      TallyOfJoin(p, a, q, b, i - 1, kind);
      assert states[|a| + i - 1] == q[i - 1] && steps[|a| + i - 1] == b[i - 1];
    }
  }

  /** Both counts add up along the joined path. */
  lemma SegmentsJoin(p: seq<State>, a: seq<Step>, s: State, mid: State, m: nat, q: seq<State>, b: seq<Step>, s': State, n: nat, kind: Kind)
    requires Segment(p, a, s, mid, kind, m) && Segment(q, b, mid, s', kind, n)
    ensures Segment(p + q[1..], a + b, s, s', kind, m + n)
  {
    PathsJoin(p, a, q, b);
    TalliesJoin(p, a, q, b, kind);
  }

  lemma TalliesJoin(p: seq<State>, a: seq<Step>, q: seq<State>, b: seq<Step>, kind: Kind)
    requires |p| == |a| + 1 && |q| == |b| + 1 && p[|a|] == q[0]
    ensures Tally(p + q[1..], a + b, 0, |a + b|, kind) == Tally(p, a, 0, |a|, kind) + Tally(q, b, 0, |b|, kind)
  {
    TallyOfJoin(p, a, q, b, |b|, kind);
  }

  // ---------------------------------------------------------------- a booking of an earlier period

  /** A run that books one order twice although its last period, which starts at step j, is spotless. */
  ghost predicate BooksAcrossPeriods(states: seq<State>, steps: seq<Step>, j: int) {
    && Period(states, steps, 1, j, |steps|)
    && Tally(states, steps, 0, |steps|, BookingsFor(1)) >= 2
    && Tally(states, steps, j, |steps|, AmbiguousFor(1)) == 0 && Tally(states, steps, j, |steps|, OrphansFor(1)) == 0
  }

  /** The third failure is recorded and dead-letters the order, the batch ends, an operator retries the order. */
  lemma DeadLetterAndRetry(row: Row, l: Ledger, booked: bool) returns (states: seq<State>, steps: seq<Step>, row': Row)
    requires row.status.Pending? && row.attempts == 2
    ensures |steps| == 3 && steps[2] == Retry(1, 0) && row'.status.Pending?
    ensures Segment(states, steps, Calling(row, l, InfraError(""), booked), Queued(row', NO_LEDGER), BookingsFor(1), 0)
  {
    var s := Calling(row, l, InfraError(""), booked);
    var closing := s.(rows := Recorded(s.rows, s.batch.cur, s.batch.reply, 0), batch := Closing,
                      ledger := map[1 := Noted(Booked(l, booked), s.batch.reply, booked)]);
    assert RecordStep(s, closing, NoFault, 0);
    var dead := closing.(batch := BatchIdle);
    row' := Retried(dead.rows, 1, 0)[1];
    var s' := Queued(row', NO_LEDGER);
    assert RetryStep(dead, s', 1, 0);
    states, steps := [s, closing, dead, s'], [RecordReply(NoFault, 0), Close, Retry(1, 0)];
  }

  /** Two failures, a third one that hides a booking and dead-letters the order, and a retry. */
  lemma RunToRetry(order: OrderData) returns (states: seq<State>, steps: seq<Step>, row: Row)
    ensures Segment(states, steps, INITIAL, Queued(row, NO_LEDGER), BookingsFor(1), 1)
    ensures row.status.Pending? && |steps| >= 1 && steps[|steps| - 1] == Retry(1, 0)
  {
    var rounds := [Silent(false), Silent(false)];
    var p, a, failing := RunOfRounds(order, rounds);
    var l := LedgerAfter(rounds);
    var called := Calling(failing, l, InfraError(""), true);
    var q, b := ToCall(failing, l, InfraError(""), true);
    p, a := Continue(p, a, Queued(failing, l), q, b, called);
    LifeLedger(p, a, 1, |a|);
    q, b, row := DeadLetterAndRetry(failing, l, true);
    SegmentsJoin(p, a, INITIAL, called, 1, q, b, Queued(row, NO_LEDGER), 0, BookingsFor(1));
    states, steps := p + q[1..], a + b;
  }

  lemma ToAcceptedCall(row: Row) returns (states: seq<State>, steps: seq<Step>)
    requires row.status.Pending?
    ensures Segment(states, steps, Queued(row, NO_LEDGER), Calling(row, NO_LEDGER, Accepted("SO2"), true), BookingsFor(1), 1)
    ensures OwnSteps(steps)
  {
    var s, s' := Claiming(row, NO_LEDGER), Calling(row, NO_LEDGER, Accepted("SO2"), true);
    var p, a := ToClaim(row, NO_LEDGER);
    OneCall(s, s', Accepted("SO2"));
    SegmentsJoin(p, a, Queued(row, NO_LEDGER), s, 0, [s, s'], [Call(Accepted("SO2"), true)], s', 1, BookingsFor(1));
    states, steps := p + [s, s'][1..], a + [Call(Accepted("SO2"), true)];
  }

  /**
   What happened before an operator's retry counts: two failures, a third one that hides a booking and dead-letters the
   order, a retry and an accepted call book the order twice, and nothing ambiguous or orphaned is in the last period.
   */
  lemma ARetryBooksTwice(order: OrderData)
    ensures exists states: seq<State>, steps: seq<Step>, j :: BooksAcrossPeriods(states, steps, j)
  {
    var p, a, row := RunToRetry(order);
    var q, b := ToAcceptedCall(row);
    var s, s' := Queued(row, NO_LEDGER), Calling(row, NO_LEDGER, Accepted("SO2"), true);
    SegmentsJoin(p, a, INITIAL, s, 1, q, b, s', 1, BookingsFor(1));
    LastPeriod(p + q[1..], a + b, a, b);
    assert BooksAcrossPeriods(p + q[1..], a + b, |a|);
  }

  lemma LastPeriod(states: seq<State>, steps: seq<Step>, a: seq<Step>, b: seq<Step>)
    requires Behaviour(states, steps) && steps == a + b && |a| >= 1 && a[|a| - 1] == Retry(1, 0) && OwnSteps(b)
    requires 1 in states[|steps|].ledger && states[|steps|].ledger[1] == Booked(NO_LEDGER, true)
    ensures Period(states, steps, 1, |a|, |steps|) && Counted(states, steps, 1, |a|, |steps|, Booked(NO_LEDGER, true))
  {
    assert forall k :: |a| <= k < |steps| ==> steps[k] == b[k - |a|];
    LedgerIsTally(states, steps, 1, |a|, |steps|);
  }

  lemma OneCall(s: State, s': State, reply: Reply)
    requires Takes(s, s', Call(reply, true)) && s.batch.InClaim? && s.batch.cur.id == 1
    ensures Segment([s, s'], [Call(reply, true)], s, s', BookingsFor(1), 1)
  {
    assert BookingsFor(1)(s, Call(reply, true));
    var states, steps := [s, s'], [Call(reply, true)];
    assert Tally(states, steps, 0, 1, BookingsFor(1)) == Tally(states, steps, 0, 0, BookingsFor(1)) + 1;
  }

  // ---------------------------------------------------------------- a repeated fulfilment

  ghost function SubmittedRow(order: OrderData): Row {
    NewRow(order, 0).(status := Submitted, sysproNumber := "SO1", attempts := 1)
  }

  /** The order is submitted and nothing has been asked of Shopify yet. */
  ghost function Awaiting(order: OrderData): State {
    State(map[1 := SubmittedRow(order)], map[], map[1 := Noted(Booked(NO_LEDGER, true), Accepted("SO1"), true)], BatchIdle, FulIdle, 0,
          Evidence({}, {}, {(1, "SO1")}), true, map[])
  }

  lemma ReachAwaiting(order: OrderData) returns (states: seq<State>, steps: seq<Step>)
    ensures Staging(states, steps, Awaiting(order))
  {
    var row := NewRow(order, 0);
    var s, called, s' := Queued(row, NO_LEDGER), Calling(row, NO_LEDGER, Accepted("SO1"), true), Awaiting(order);
    var p, a := StartRun(order);
    var q, b := ToCall(row, NO_LEDGER, Accepted("SO1"), true);
    var looping := s'.(batch := Looping([]));
    assert Recorded(called.rows, called.batch.cur, Accepted("SO1"), 0) == looping.rows;
    assert {} + {(1, "SO1")} == {(1, "SO1")};
    assert RecordStep(called, looping, NoFault, 0);
    q, b := Then(q, b, s, called, looping, RecordReply(NoFault, 0));
    q, b := Then(q, b, s, looping, s'.(batch := Closing), Stop);
    q, b := Then(q, b, s, s'.(batch := Closing), s', Close);
    states, steps := Continue(p, a, s, q, b, s');
  }

  /** The order is submitted, Shopify holds these fulfilment orders of it, and no actor is at work. */
  ghost predicate Idle(s: State, order: OrderData, holds: ShopOrder) {
    && s.up && s.batch.BatchIdle? && s.ful.FulIdle? && s.rows == map[1 := SubmittedRow(order)]
    && ShopOf(s.shop, order.shopifyId) == holds
  }

  lemma ReachIdle(order: OrderData, holds: ShopOrder) returns (states: seq<State>, steps: seq<Step>, s: State)
    ensures Behaviour(states, steps) && states[|steps|] == s && Idle(s, order, holds)
  {
    var before := Awaiting(order);
    var p, a := ReachAwaiting(order);
    s := before.(shop := map[order.shopifyId := holds]);
    assert Takes(before, s, Shop(order.shopifyId, holds));
    PathsJoin(p, a, [before, s], [Shop(order.shopifyId, holds)]);
    states, steps := p + [before, s][1..], a + [Shop(order.shopifyId, holds)];
  }

  /** The fulfilment syncer stands at ful, with the order alone in its cycle. */
  ghost predicate Syncing(s: State, order: OrderData, holds: ShopOrder, ful: FulPc) {
    && s.up && s.batch.BatchIdle? && s.ful == ful && s.rows == map[1 := SubmittedRow(order)]
    && ShopOf(s.shop, order.shopifyId) == holds
  }

  const FOUND := map["SO1" := "9"]

  function SnapOf(order: OrderData): FulSnap {
    FulSnap(1, "SO1", order.shopifyId)
  }

  /** The order is fetched and SYSPRO reports it complete. */
  lemma ToTurn(order: OrderData, s: State, holds: ShopOrder) returns (states: seq<State>, steps: seq<Step>, s': State)
    requires Idle(s, order, holds)
    ensures Leads(states, steps, s, s') && Syncing(s', order, holds, FulLooping(FOUND, [SnapOf(order)]))
  {
    var fetched := s.(ful := FulFetched([SnapOf(order)]), cycle := s.cycle + 1);
    assert FulSnaps(s.rows, [1]) == [SnapOf(order)];
    assert FulFetchStep(s, fetched, [1]);
    states, steps := Then([s], [], s, s, fetched, FulFetch([1]));
    s' := fetched.(ful := FulLooping(FOUND, [SnapOf(order)]),
                   evidence := fetched.evidence.(dispatched := fetched.evidence.dispatched
                     + set n | n in FOUND && FOUND[n] == "9" :: (fetched.cycle, n)));
    assert FulQueryStep(fetched, s', true, FOUND);
    states, steps := Then(states, steps, s, fetched, s', FulQuery(true, FOUND));
  }

  /** And Shopify lists an open fulfilment order. */
  lemma ToCreation(order: OrderData, s: State, holds: ShopOrder, fo: string) returns (states: seq<State>, steps: seq<Step>, s': State)
    requires Idle(s, order, holds) && FirstOpen(Page(holds.orders)) == Some(fo)
    ensures Leads(states, steps, s, s') && Syncing(s', order, holds, InLocated(SnapOf(order), fo, FOUND, []))
  {
    var turn;
    states, steps, turn := ToTurn(order, s, holds);
    s' := turn.(ful := InLocated(SnapOf(order), fo, FOUND, []));
    assert [SnapOf(order)][1..] == [];
    assert FulLocateStep(turn, s');
    states, steps := Then(states, steps, s, turn, s', FulLocate);
  }

  /** What makes Shopify's fulfilment go unrecorded: the process dies before the write, or the answer is lost. */
  function ForgottenFor(answered: bool): Kind {
    if answered then DropsFor(1) else UnansweredFor(1)
  }

  lemma MakesUnanswered(order: OrderData, s: State, holds: ShopOrder, fo: string) returns (states: seq<State>, steps: seq<Step>, s': State)
    requires Syncing(s, order, holds, InLocated(SnapOf(order), fo, FOUND, [])) && CanMake(holds, fo)
    ensures Segment(states, steps, s, s', CreationsFor(1), 1) && Segment(states, steps, s, s', UnansweredFor(1), 1)
    ensures Idle(s', order, Made(holds, fo))
  {
    var s1 := s.(shop := s.shop[order.shopifyId := Made(holds, fo)], ful := FulLooping(FOUND, []));
    assert FulCreateStep(s, s1, Unanswered(true));
    s' := s1.(ful := FulIdle);
    assert FulDoneStep(s1, s');
    states, steps := [s, s1, s'], [FulCreate(Unanswered(true)), FulDone];
    AtStep(states, steps, 0, CreationsFor(1));
    AtStep(states, steps, 0, UnansweredFor(1));
  }

  lemma MakesAndDies(order: OrderData, s: State, holds: ShopOrder, fo: string) returns (states: seq<State>, steps: seq<Step>, s': State)
    requires Syncing(s, order, holds, InLocated(SnapOf(order), fo, FOUND, [])) && CanMake(holds, fo)
    ensures Segment(states, steps, s, s', CreationsFor(1), 1) && Segment(states, steps, s, s', DropsFor(1), 1)
    ensures Idle(s', order, Made(holds, fo))
  {
    var s1 := s.(shop := s.shop[order.shopifyId := Made(holds, fo)], ful := InCreated(SnapOf(order), "F", true, FOUND, []),
                 evidence := s.evidence.(created := s.evidence.created + {(s.cycle, 1, "F")}));
    assert FulCreateStep(s, s1, Answered("F", true));
    var down := s1.(ful := FulIdle, up := false);
    assert CrashStep(s1, down);
    s' := down.(up := true);
    assert BootStep(down, s', Lost, 0, 600);
    states, steps := [s, s1, down, s'], [FulCreate(Answered("F", true)), Crash, Boot(Lost, 0, 600)];
    AtStep(states, steps, 0, CreationsFor(1));
    AtStep(states, steps, 1, DropsFor(1));
  }

  lemma AtStep(states: seq<State>, steps: seq<Step>, k: nat, kind: Kind)
    requires |states| == |steps| + 1 && k < |steps| && kind(states[k], steps[k])
    ensures Tally(states, steps, 0, |steps|, kind) >= 1
  {
    TallyGrows(states, steps, k + 1, |steps|, kind);
  }

  lemma {:induction false} TallyGrows(states: seq<State>, steps: seq<Step>, k: nat, i: nat, kind: Kind)
    requires |states| == |steps| + 1 && k <= i <= |steps|
    ensures Tally(states, steps, 0, k, kind) <= Tally(states, steps, 0, i, kind)
    decreases i
  {
    if k < i {
      TallyGrows(states, steps, k, i - 1, kind);
    }
  }

  /** One cycle of the order that ends with a fulfilment nobody has recorded. */
  lemma ForgetsOne(order: OrderData, s: State, holds: ShopOrder, fo: string, answered: bool)
    returns (states: seq<State>, steps: seq<Step>, s': State)
    requires Idle(s, order, holds) && FirstOpen(Page(holds.orders)) == Some(fo) && CanMake(holds, fo)
    ensures Segment(states, steps, s, s', CreationsFor(1), 1) && Segment(states, steps, s, s', ForgottenFor(answered), 1)
    ensures Idle(s', order, Made(holds, fo))
  {
    var p, a, mid := ToCreation(order, s, holds, fo);
    var q, b;
    if answered {
      q, b, s' := MakesAndDies(order, mid, holds, fo);
    } else {
      q, b, s' := MakesUnanswered(order, mid, holds, fo);
    }
    SegmentsJoin(p, a, s, mid, 0, q, b, s', 1, CreationsFor(1));
    SegmentsJoin(p, a, s, mid, 0, q, b, s', 1, ForgottenFor(answered));
    states, steps := p + q[1..], a + b;
  }

  /** From the start of the service, over an order that Shopify is to ship in one or two parts. */
  lemma RunThatForgets(order: OrderData, holds: ShopOrder, fo: string, answered: bool)
    returns (states: seq<State>, steps: seq<Step>, s: State)
    requires FirstOpen(Page(holds.orders)) == Some(fo) && CanMake(holds, fo)
    ensures Segment(states, steps, INITIAL, s, CreationsFor(1), 1) && Segment(states, steps, INITIAL, s, ForgottenFor(answered), 1)
    ensures Idle(s, order, Made(holds, fo))
  {
    var p, a, before := ReachIdle(order, holds);
    var q, b;
    q, b, s := ForgetsOne(order, before, holds, fo, answered);
    SegmentsJoin(p, a, INITIAL, before, 0, q, b, s, 1, CreationsFor(1));
    SegmentsJoin(p, a, INITIAL, before, 0, q, b, s, 1, ForgottenFor(answered));
    states, steps := p + q[1..], a + b;
  }

  const ONE_PART := ShopOrder([FulfilmentOrder("FO1", "OPEN")], {})
  const TWO_PARTS := ShopOrder([FulfilmentOrder("FO1", "OPEN"), FulfilmentOrder("FO2", "OPEN")], {})

  lemma Parts()
    ensures FirstOpen(Page(ONE_PART.orders)) == Some("FO1") && CanMake(ONE_PART, "FO1")
    ensures FirstOpen(Page(Made(ONE_PART, "FO1").orders)) == None
    ensures FirstOpen(Page(TWO_PARTS.orders)) == Some("FO1") && CanMake(TWO_PARTS, "FO1")
    ensures FirstOpen(Page(Made(TWO_PARTS, "FO1").orders)) == Some("FO2") && CanMake(Made(TWO_PARTS, "FO1"), "FO2")
  {
    var part, rest := FulfilmentOrder("FO1", "OPEN"), FulfilmentOrder("FO2", "OPEN");
    assert ONE_PART.orders[0] == part && TWO_PARTS.orders[0] == part;
    assert Made(ONE_PART, "FO1").orders == [part.(status := CLOSED)];
    var after := Made(TWO_PARTS, "FO1");
    assert after.orders == [part.(status := CLOSED), rest];
    assert after.orders[1..] == [rest] && after.orders[1] == rest;
  }

  /** Shopify has made two fulfilments for one order, and the service did not record the first one. */
  ghost predicate ShipsTwice(states: seq<State>, steps: seq<Step>, answered: bool) {
    && Behaviour(states, steps)
    && Tally(states, steps, 0, |steps|, CreationsFor(1)) >= 2 && Tally(states, steps, 0, |steps|, ForgottenFor(answered)) >= 1
  }

  lemma RunThatForgetsTwo(order: OrderData, holds: ShopOrder, first: string, second: string, answered: bool)
    returns (states: seq<State>, steps: seq<Step>)
    requires FirstOpen(Page(holds.orders)) == Some(first) && CanMake(holds, first)
    requires FirstOpen(Page(Made(holds, first).orders)) == Some(second) && CanMake(Made(holds, first), second)
    ensures ShipsTwice(states, steps, answered)
  {
    var p, a, mid := RunThatForgets(order, holds, first, answered);
    var q, b, s := ForgetsOne(order, mid, Made(holds, first), second, answered);
    SegmentsJoin(p, a, INITIAL, mid, 1, q, b, s, 1, CreationsFor(1));
    SegmentsJoin(p, a, INITIAL, mid, 1, q, b, s, 1, ForgottenFor(answered));
    states, steps := p + q[1..], a + b;
  }

  /**
   An order with two fulfilment orders: after a creation whose write the process did not live to make, or whose answer was
   lost, the first is closed and the next cycle makes a second fulfilment on the other one.
   */
  lemma AnOrderCanBeFulfilledTwice(order: OrderData, answered: bool)
    ensures exists states: seq<State>, steps: seq<Step> :: ShipsTwice(states, steps, answered)
  {
    Parts();
    var states, steps := RunThatForgetsTwo(order, TWO_PARTS, "FO1", "FO2", answered);
  }

  /** Shopify has fulfilled the order, and no continuation of the run records it. */
  ghost predicate ShipsUnseen(states: seq<State>, steps: seq<Step>) {
    && Behaviour(states, steps) && 1 in states[|steps|].rows
    && states[|steps|].rows[1].status.Submitted? && states[|steps|].rows[1].sysproNumber != ""
    && Tally(states, steps, 0, |steps|, CreationsFor(1)) >= 1 && !CanBeFulfilled(states[|steps|], 1)
  }

  /** An order with a number and one fulfilment order: the creation closes it, is not recorded, and the row stays submitted for good. */
  lemma AFulfilmentCanGoUnseen(order: OrderData, answered: bool)
    ensures exists states: seq<State>, steps: seq<Step> :: ShipsUnseen(states, steps)
  {
    Parts();
    var states, steps, s := RunThatForgets(order, ONE_PART, "FO1", answered);
    NothingListedIsUnseen(order, states, steps, s, Made(ONE_PART, "FO1"));
  }

  lemma NothingListedIsUnseen(order: OrderData, states: seq<State>, steps: seq<Step>, s: State, holds: ShopOrder)
    requires Segment(states, steps, INITIAL, s, CreationsFor(1), 1) && Idle(s, order, holds) && FirstOpen(Page(holds.orders)).None?
    ensures ShipsUnseen(states, steps)
  {
    SubmittedIsFulfillableIff(states, steps, 1, |steps|);
  }
}
