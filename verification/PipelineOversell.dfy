/** A push can publish more than is free: the stock snapshot is older than the reservations taken off it. */
module PipelineOversell {
  import opened Wrappers
  import opened Sums
  import opened Store
  import opened Pipeline
  import opened PipelineStock
  import L = Lifecycle
  import S = Session
  import Sortoi
  import I = Inventory

  ghost predicate Ends(states: seq<State>, steps: seq<Step>, s: State) {
    Behaviour(states, steps) && states[|steps|] == s
  }

  lemma Then(states: seq<State>, steps: seq<Step>, s: State, s': State, step: Step) returns (states': seq<State>, steps': seq<Step>)
    requires Ends(states, steps, s) && Takes(s, s', step)
    ensures Ends(states', steps', s') && steps' == steps + [step] && states' == states + [s']
  {
    states', steps' := states + [s'], steps + [step];
  }

  /** n of one SKU and none of any other. */
  function Only(sku: string, n: int): string -> int {
    k => if k == sku then n else 0
  }

  function OnlyReal(sku: string, n: int): string -> real {
    k => if k == sku then n as real else 0.0
  }

  function OneLine(sku: string): LineRows {
    map[1 := LineRow(1, Line(sku, 1, 0, 0, 0))]
  }

  lemma OneLineReadsBack(sku: string)
    ensures LinesOf(OneLine(sku), 1, [Line(sku, 1, 0, 0, 0)])
  {
    assert LineIdsOf(OneLine(sku), 1) == {1} == Elements([1]);
    assert LinesAt(OneLine(sku), 1, [1], [Line(sku, 1, 0, 0, 0)]);
  }

  lemma OneUnitOrdered(rows: Rows, sku: string, k: string)
    ensures Ordered(OneLine(sku), 1, k) == Only(sku, 1)(k)
    ensures Reserved(rows, OneLine(sku), sku) == Held(rows, 1)
  {
    var lines := OneLine(sku);
    SumRemove(lines.Keys, 1, OrderedTerm(lines, 1, k));
    SumRemove(lines.Keys, 1, ReservedTerm(rows, lines, sku));
    assert lines.Keys - {1} == {};
  }

  /** SYSPRO has one unit, and the one order staged is for it. */
  ghost function Staged(order: OrderData, sku: string): State {
    State(
      L.INITIAL.(rows := map[1 := NewRow(order, 0)], lines := OneLine(sku), ledger := map[1 := L.NO_LEDGER]), S.INITIAL,
      Stock(OnlyReal(sku, 1), Only(sku, 0), OnlyReal(sku, 1), StockIdle, map[], map[]))
  }

  lemma ReachStaged(order: OrderData, sku: string) returns (states: seq<State>, steps: seq<Step>)
    ensures Ends(states, steps, Staged(order, sku))
  {
    var s0 := State(L.INITIAL, S.INITIAL, Stock(OnlyReal(sku, 0), Only(sku, 0), OnlyReal(sku, 0), StockIdle, map[], map[]));
    var s1 := s0.(stock := s0.stock.(avail := OnlyReal(sku, 1), external := OnlyReal(sku, 1)));
    var s2 := Staged(order, sku);
    assert Takes(s0, s1, External(sku, 1.0));
    assert s2.life.lines == s1.life.lines + OneLine(sku);
    assert L.StageStep(s1.life, s2.life, 1, order, OneLine(sku), 0);
    assert Takes(s1, s2, Life(L.Stage(1, order, OneLine(sku), 0)));
    states, steps := Then([s0], [], s0, s1, External(sku, 1.0));
    states, steps := Then(states, steps, s1, s2, Life(L.Stage(1, order, OneLine(sku), 0)));
  }

  /** The syncer has read the one unit and let go of the session. */
  ghost function Snapshotted(order: OrderData, sku: string): State {
    var s := Staged(order, sku);
    var got := map[sku := Obs(1.0, 0, 1.0)];
    s.(sess := S.INITIAL.(pcs := map[STOCK := S.Outside], last := Some(0), nextGuid := 1, locks := map[STOCK := 1], unlocks := map[STOCK := 1]),
       stock := s.stock.(pc := Publishing(got), cache := got))
  }

  /** The syncer has logged on to ask about the SKU. */
  ghost function Asking(order: OrderData, sku: string): State {
    var s := Staged(order, sku);
    s.(sess := S.INITIAL.(pcs := map[STOCK := S.InSession(0)], holder := Some(STOCK), live := Some(0), last := Some(0), nextGuid := 1,
                          locks := map[STOCK := 1]),
       stock := s.stock.(pc := Querying([sku], map[])))
  }

  lemma ReachAsking(order: OrderData, sku: string) returns (states: seq<State>, steps: seq<Step>)
    ensures Ends(states, steps, Asking(order, sku))
  {
    states, steps := ReachStaged(order, sku);
    var s2, s4 := Staged(order, sku), Asking(order, sku);
    var s3 := s2.(sess := s2.sess.(pcs := map[STOCK := S.Locked], holder := Some(STOCK), locks := map[STOCK := 1]),
                  stock := s2.stock.(pc := Waiting([sku])));
    assert StockStep(s2, s3, StockLock([sku]));
    states, steps := Then(states, steps, s2, s3, StockLock([sku]));
    assert StockStep(s3, s4, StockLogon(0));
    states, steps := Then(states, steps, s3, s4, StockLogon(0));
  }

  /** It has its answer. */
  ghost function Answer(order: OrderData, sku: string): State {
    var s := Asking(order, sku);
    s.(stock := s.stock.(pc := Querying([], map[sku := Obs(1.0, 0, 1.0)])))
  }

  lemma ReachAnswer(order: OrderData, sku: string) returns (states: seq<State>, steps: seq<Step>)
    ensures Ends(states, steps, Answer(order, sku))
  {
    states, steps := ReachAsking(order, sku);
    assert [sku][1..] == [];
    assert StockStep(Asking(order, sku), Answer(order, sku), StockQuery(0, true));
    states, steps := Then(states, steps, Asking(order, sku), Answer(order, sku), StockQuery(0, true));
  }

  lemma LogsOff(s: State, guid: int, got: map<string, Obs>) returns (s': State)
    requires s.life.up && s.stock.pc == Querying([], got) && got != map[] && S.PcOf(s.sess, STOCK) == S.InSession(guid)
    ensures Takes(s, s', StockLogoff(guid, true))
    ensures s' == s.(sess := s.sess.(pcs := s.sess.pcs[STOCK := S.Ending], live := None), stock := s.stock.(pc := Publishing(got), cache := got))
  {
    s' := s.(sess := s.sess.(pcs := s.sess.pcs[STOCK := S.Ending], live := None), stock := s.stock.(pc := Publishing(got), cache := got));
    assert StockStep(s, s', StockLogoff(guid, true));
  }

  lemma Unlocks(s: State) returns (s': State)
    requires s.life.up && S.PcOf(s.sess, STOCK) == S.Ending
    ensures Takes(s, s', StockUnlock)
    ensures s' == s.(sess := s.sess.(pcs := s.sess.pcs[STOCK := S.Outside], holder := None,
                                     unlocks := s.sess.unlocks[STOCK := S.Count(s.sess.unlocks, STOCK) + 1]))
  {
    s' := s.(sess := s.sess.(pcs := s.sess.pcs[STOCK := S.Outside], holder := None,
                             unlocks := s.sess.unlocks[STOCK := S.Count(s.sess.unlocks, STOCK) + 1]));
    assert StockStep(s, s', StockUnlock);
  }

  lemma ReachSnapshotted(order: OrderData, sku: string) returns (states: seq<State>, steps: seq<Step>)
    ensures Ends(states, steps, Snapshotted(order, sku))
  {
    states, steps := ReachAnswer(order, sku);
    var s5, s7, got := Answer(order, sku), Snapshotted(order, sku), map[sku := Obs(1.0, 0, 1.0)];
    assert sku in got;
    var s6 := LogsOff(s5, 0, got);
    states, steps := Then(states, steps, s5, s6, StockLogoff(0, true));
    var s := Unlocks(s6);
    assert s == s7;
    states, steps := Then(states, steps, s6, s7, StockUnlock);
  }

  /** Meanwhile the batch processor has fetched the order and takes the lock. */
  ghost function Fetched(order: OrderData, sku: string): State {
    var s := Snapshotted(order, sku);
    s.(life := s.life.(batch := L.Fetched([L.Snap(1, 0)])),
       sess := s.sess.(pcs := map[STOCK := S.Outside, BATCH := S.Locked], holder := Some(BATCH), locks := map[STOCK := 1, BATCH := 1]))
  }

  lemma ReachFetched(order: OrderData, sku: string) returns (states: seq<State>, steps: seq<Step>)
    ensures Ends(states, steps, Fetched(order, sku))
  {
    states, steps := ReachSnapshotted(order, sku);
    var s7, s9 := Snapshotted(order, sku), Fetched(order, sku);
    var s8 := s7.(life := s9.life);
    assert L.Snaps(s7.life.rows, [1]) == [L.Snap(1, 0)];
    assert L.FetchStep(s7.life, s8.life, [1]);
    states, steps := Then(states, steps, s7, s8, Life(L.Fetch([1])));
    assert BatchStep(s8, s9, BatchLock);
    BatchMoves(s8, s9, BatchLock);
    states, steps := Then(states, steps, s8, s9, BatchLock);
  }

  /** It logs on and claims the order. */
  ghost function Claiming(order: OrderData, sku: string): State {
    var s := Fetched(order, sku);
    s.(life := s.life.(rows := Claimed(s.life.rows, 1, 1), batch := L.InClaim(L.Snap(1, 0), [])),
       sess := s.sess.(pcs := map[STOCK := S.Outside, BATCH := S.InSession(1)], live := Some(1), last := Some(1), nextGuid := 2))
  }

  lemma ReachClaiming(order: OrderData, sku: string) returns (states: seq<State>, steps: seq<Step>)
    ensures Ends(states, steps, Claiming(order, sku))
  {
    states, steps := ReachFetched(order, sku);
    var s9, s11 := Fetched(order, sku), Claiming(order, sku);
    var s10 := s11.(life := s9.life.(batch := L.Looping([L.Snap(1, 0)])));
    assert BatchStep(s9, s10, BatchLogon(1));
    BatchMoves(s9, s10, BatchLogon(1));
    states, steps := Then(states, steps, s9, s10, BatchLogon(1));
    assert [L.Snap(1, 0)][1..] == [];
    assert L.ClaimStep(s10.life, s11.life, NoFault, 1);
    states, steps := Then(states, steps, s10, s11, Life(L.Claim(NoFault, 1)));
  }

  /** SYSPRO has accepted the order, which the database does not know yet. */
  ghost function Answered(order: OrderData, sku: string): State {
    var s := Claiming(order, sku);
    s.(life := s.life.(batch := L.InReply(L.Snap(1, 0), [], Sortoi.Accepted("SO1"), true), ledger := map[1 := L.Booked(L.NO_LEDGER, true)]),
       stock := s.stock.(avail := OnlyReal(sku, 0), accepted := Only(sku, 1)))
  }

  lemma ReachAnswered(order: OrderData, sku: string, config: Sortoi.Config) returns (states: seq<State>, steps: seq<Step>)
    ensures Ends(states, steps, Answered(order, sku))
  {
    states, steps := ReachClaiming(order, sku);
    var s11, s12 := Claiming(order, sku), Answered(order, sku);
    var ls := [Line(sku, 1, 0, 0, 0)];
    OneLineReadsBack(sku);
    BooksOne(s11, s12, order, sku, config);
    assert BatchStep(s11, s12, BatchCall(1, config, ls, Sortoi.Accepted("SO1"), true));
    BatchMoves(s11, s12, BatchCall(1, config, ls, Sortoi.Accepted("SO1"), true));
    states, steps := Then(states, steps, s11, s12, BatchCall(1, config, ls, Sortoi.Accepted("SO1"), true));
  }

  lemma BooksOne(s: State, s': State, order: OrderData, sku: string, config: Sortoi.Config)
    requires s.stock.avail == OnlyReal(sku, 1) && s.stock.accepted == Only(sku, 0)
    requires s'.stock == s.stock.(avail := OnlyReal(sku, 0), accepted := Only(sku, 1))
    ensures Books(s, s', Sortoi.DocumentOf(order, [Line(sku, 1, 0, 0, 0)], config), true)
  {
    var ls := [Line(sku, 1, 0, 0, 0)];
    forall k ensures Sortoi.OrderedUnits(Sortoi.DocumentOf(order, ls, config).lines, k) == Only(sku, 1)(k) {
      Sortoi.DocumentOrdersItsLines(order, ls, config, k);
      assert ls[..0] == [];
    }
  }

  /** SYSPRO has accepted the order and the row says so: nothing is available, nothing is reserved, and the snapshot says one. */
  ghost function Recorded(order: OrderData, sku: string): State {
    var s := Answered(order, sku);
    s.(life := s.life.(rows := WithSubmitted(s.life.rows, 1, "SO1", 1, 2), batch := L.Looping([]),
                       ledger := map[1 := L.Noted(L.Booked(L.NO_LEDGER, true), Sortoi.Accepted("SO1"), true)],
                       evidence := L.Evidence({}, {}, {(1, "SO1")})))
  }

  lemma ReachRecorded(order: OrderData, sku: string, config: Sortoi.Config) returns (states: seq<State>, steps: seq<Step>)
    ensures Ends(states, steps, Recorded(order, sku))
  {
    states, steps := ReachAnswered(order, sku, config);
    var s12, s13 := Answered(order, sku), Recorded(order, sku);
    assert s12.life.evidence.submitted + {(1, "SO1")} == {(1, "SO1")};
    assert L.RecordStep(s12.life, s13.life, NoFault, 2);
    states, steps := Then(states, steps, s12, s13, Life(L.RecordReply(NoFault, 2)));
  }

  /** The last step of the run pushes a level above the free stock of the SKU. */
  ghost predicate Oversells(states: seq<State>, steps: seq<Step>, sku: string) {
    && Behaviour(states, steps) && |steps| > 0 && steps[|steps| - 1] == Publish(true)
    && var s, s' := states[|steps| - 1], states[|steps|];
    && sku in s'.stock.storefront && s'.stock.storefront[sku] > I.AtLeastZero(I.Round(Free(s, sku))) && Free(s', sku) == Free(s, sku)
  }

  /**
   Subtracting live reservations does not rule out overselling: an order that SYSPRO accepts and the database records
   between the stock query and the reservation read is counted by neither, and its unit is put back on sale.
   */
  lemma APushCanOversell(order: OrderData, sku: string, config: Sortoi.Config)
    ensures exists states: seq<State>, steps: seq<Step> :: Oversells(states, steps, sku)
  {
    var states, steps := ReachRecorded(order, sku, config);
    var s := Recorded(order, sku);
    OneUnitOrdered(s.life.rows, sku, sku);
    var s' := PushesOne(s, sku);
    StockMoves(s, s', Publish(true));
    assert Free(s, sku) == 0.0;
    states, steps := EndsOverselling(states, steps, s, s', sku);
  }

  lemma EndsOverselling(p: seq<State>, a: seq<Step>, s: State, s': State, sku: string) returns (states: seq<State>, steps: seq<Step>)
    requires Ends(p, a, s) && Takes(s, s', Publish(true)) && Free(s, sku) == Free(s', sku) == 0.0
    requires sku in s'.stock.storefront && s'.stock.storefront[sku] == 1
    ensures Oversells(states, steps, sku)
  {
    states, steps := Then(p, a, s, s', Publish(true));
  }

  lemma BatchMoves(s: State, s': State, step: Step)
    requires BatchStep(s, s', step) && !step.Life?
    ensures Takes(s, s', step)
  {
  }

  lemma StockMoves(s: State, s': State, step: Step)
    requires StockStep(s, s', step) && !step.Life?
    ensures Takes(s, s', step)
  {
  }

  lemma PushesOne(s: State, sku: string) returns (s': State)
    requires s.life.up && s.stock.pc == Publishing(map[sku := Obs(1.0, 0, 1.0)]) && Reserved(s.life.rows, s.life.lines, sku) == 0
    ensures StockStep(s, s', Publish(true))
    ensures sku in s'.stock.storefront && s'.stock.storefront[sku] == 1 && s'.life == s.life && s'.stock.avail == s.stock.avail
  {
    s' := s.(stock := s.stock.(pc := StockIdle, storefront := s.stock.storefront[sku := 1]));
    assert s'.stock.storefront.Keys == s.stock.storefront.Keys + s.stock.pc.stock.Keys;
    assert PublishStep(s, s', true);
  }
}
