/** Which submitted orders can still be fulfilled, from any state a run of Lifecycle can reach. */
module FulfilmentFate {
  import opened Wrappers
  import opened Sums
  import opened Store
  import opened Lifecycle
  import opened LifecycleSafety
  import opened LifecycleRuns
  import opened FulfilmentClient

  function OrderOf(s: State, id: int): int
    requires id in s.rows
  {
    s.rows[id].order.shopifyId
  }

  /** On the way nobody but this service touches the order's fulfilment orders. */
  predicate LeavesShop(steps: seq<Step>, order: int) {
    forall k :: 0 <= k < |steps| ==> !TouchesShop(steps[k], order)
  }

  predicate TouchesShop(step: Step, order: int) {
    step.Shop? && step.shopifyId == order
  }

  ghost predicate Fulfils(states: seq<State>, steps: seq<Step>, s: State, id: int)
    requires id in s.rows
  {
    Path(states, steps) && states[0] == s && LeavesShop(steps, OrderOf(s, id)) && IsFulfilled(states[|steps|], id)
  }

  ghost predicate CanBeFulfilled(s: State, id: int)
    requires id in s.rows
  {
    exists states: seq<State>, steps: seq<Step> :: Fulfils(states, steps, s, id)
  }

  /** The syncer is between the two calls for the order, or between the second and its write. */
  predicate AtWork(s: State, id: int) {
    (s.ful.InLocated? || s.ful.InCreated?) && s.ful.cur.id == id
  }

  predicate Hopeful(s: State, id: int)
    requires id in s.rows
  {
    s.rows[id].sysproNumber != "" && (Listed(s.shop, OrderOf(s, id)).Some? || AtWork(s, id))
  }

  // ---------------------------------------------------------------- no way out

  ghost predicate Stuck(s: State, id: int) {
    id in s.rows && s.rows[id].status.Submitted? && !Hopeful(s, id)
  }

  lemma MakingOpensNothing(shop: map<int, ShopOrder>, order: int, fo: string, other: int)
    requires Listed(shop, other).None?
    ensures Listed(shop[order := Made(ShopOf(shop, order), fo)], other).None?
  {
    if order == other {
      var orders, closed := Page(ShopOf(shop, order).orders), Page(Made(ShopOf(shop, order), fo).orders);
      assert forall i :: 0 <= i < |closed| ==> closed[i] == orders[i] || closed[i].status == CLOSED;
    }
  }

  lemma StuckStep(s: State, s': State, step: Step, id: int)
    requires Inv(s) && Takes(s, s', step) && Stuck(s, id) && !TouchesShop(step, OrderOf(s, id))
    ensures Stuck(s', id) && OrderOf(s', id) == OrderOf(s, id)
  {
    StepKeepsRows(s, s', step, id);
    StuckRowStep(s, s', step, id);
    if step.FulCreate? {
      StuckCreation(s, s', step.outcome, id);
    } else if step.FulLocate? {
      assert Waiting(s.rows, s.ful.todo[0]);
    } else {
      OtherStepsKeepShop(s, s', step, id);
    }
  }

  lemma StuckRowStep(s: State, s': State, step: Step, id: int)
    requires Inv(s) && Takes(s, s', step) && Stuck(s, id)
    ensures !IsFulfilled(s', id)
  {
    if step.FulRecord? {
      assert Waiting(s.rows, s.ful.cur);
    } else if !step.FulCreate? {
      OtherStepsKnow(s, s', step, id);
    }
  }

  lemma StuckCreation(s: State, s': State, outcome: Creation, id: int)
    requires Inv(s) && FulCreateStep(s, s', outcome) && Stuck(s, id)
    ensures s'.rows == s.rows && !Hopeful(s', id)
  {
    var cur := s.ful.cur;
    assert Waiting(s.rows, cur);
    if outcome.made && Listed(s.shop, OrderOf(s, id)).None? {
      MakingOpensNothing(s.shop, cur.order, s.ful.fulfilmentOrder, OrderOf(s, id));
    }
  }

  lemma OtherStepsKeepShop(s: State, s': State, step: Step, id: int)
    requires Takes(s, s', step) && !step.FulCreate? && !step.FulLocate? && id in s.rows && !TouchesShop(step, OrderOf(s, id))
    ensures Listed(s'.shop, OrderOf(s, id)) == Listed(s.shop, OrderOf(s, id))
    ensures AtWork(s', id) ==> AtWork(s, id)
  {
    if ByFulfilment(step) {
      OtherTurns(s, s', step, id);
    } else {
      OnlyTheSyncerMoves(s, s', step);
    }
  }

  lemma OtherTurns(s: State, s': State, step: Step, id: int)
    requires Takes(s, s', step) && ByFulfilment(step) && !step.FulCreate? && !step.FulLocate?
    ensures s'.shop == s.shop && (AtWork(s', id) ==> AtWork(s, id))
  {
  }

  lemma {:induction false} StuckForever(states: seq<State>, steps: seq<Step>, s: State, id: int, i: int)
    requires Path(states, steps) && states[0] == s && Inv(s) && Stuck(s, id) && LeavesShop(steps, OrderOf(s, id)) && 0 <= i <= |steps|
    ensures Inv(states[i]) && Stuck(states[i], id) && OrderOf(states[i], id) == OrderOf(s, id)
    decreases i
  {
    if i > 0 {
      StuckForever(states, steps, s, id, i - 1);
      var before, after, step := states[i - 1], states[i - 1 + 1], steps[i - 1];
      assert Takes(before, after, step) && !TouchesShop(step, OrderOf(s, id));
      StepKeepsInv(before, after, step);
      StuckStep(before, after, step, id);
    }
  }

  // ---------------------------------------------------------------- the way out

  lemma {:induction false} OldestOf(rows: Rows, s: set<int>) returns (id: int)
    requires s != {} && s <= rows.Keys
    ensures id in s && forall j :: j in s ==> rows[id].createdAt <= rows[j].createdAt
    decreases s
  {
    id := Pick(s);
    var rest := s - {id};
    if rest != {} {
      var j := OldestOf(rows, rest);
      if rows[j].createdAt < rows[id].createdAt {
        id := j;
      }
    }
  }

  /** There is something to fetch under every limit. */
  lemma {:induction false} SelectionExists(rows: Rows, p: Row -> bool, limit: nat) returns (ids: seq<int>)
    ensures OldestFirst(rows, p, limit, ids)
    decreases limit
  {
    if limit == 0 {
      return [];
    }
    var before := SelectionExists(rows, p, limit - 1);
    var rest := set id | id in rows && p(rows[id]) && id !in before;
    if rest == {} {
      assert forall id :: id in rows && p(rows[id]) ==> id in before by {
        forall id | id in rows && p(rows[id]) ensures id in before {
          assert id !in rest;
        }
      }
      return before;
    }
    var id := OldestOf(rows, rest);
    ids := before + [id];
    SelectionExtends(rows, p, limit, before, id);
  }

  lemma SelectionExtends(rows: Rows, p: Row -> bool, limit: nat, before: seq<int>, id: int)
    requires limit > 0 && OldestFirst(rows, p, limit - 1, before) && id in rows && p(rows[id]) && id !in before
    requires forall j :: j in rows && p(rows[j]) && j !in before ==> rows[id].createdAt <= rows[j].createdAt
    ensures OldestFirst(rows, p, limit, before + [id])
  {
    var ids := before + [id];
    forall j | j in rows && p(rows[j]) && j !in ids
      ensures forall k :: 0 <= k < |ids| ==> rows[ids[k]].createdAt <= rows[j].createdAt
    {
      assert j !in before;
    }
  }

  /** The process dies, if it runs, and boots again; the boot's own write is lost. */
  lemma ToIdle(s: State) returns (states: seq<State>, steps: seq<Step>)
    requires !s.up ==> s.batch.BatchIdle? && s.ful.FulIdle?
    ensures Leads(states, steps, s, s.(batch := BatchIdle, ful := FulIdle, up := true))
  {
    var down := s.(batch := BatchIdle, ful := FulIdle, up := false);
    var idle := down.(up := true);
    states, steps := [s], [];
    if s.up {
      assert CrashStep(s, down);
      states, steps := Then(states, steps, s, s, down, Crash);
    }
    assert BootStep(down, idle, Lost, 0, 600);
    states, steps := Then(states, steps, s, down, idle, Boot(Lost, 0, 600));
  }

  /** A cycle fetches the row, and SYSPRO answers that its number alone is complete. */
  lemma ToLoop(s: State, id: int) returns (states: seq<State>, steps: seq<Step>, s': State, k: nat)
    requires s.up && s.ful.FulIdle? && id in s.rows && AwaitsFulfilment(s.rows[id])
    ensures Leads(states, steps, s, s') && s'.up && s'.rows == s.rows && s'.shop == s.shop
    ensures s'.ful.FulLooping? && s'.ful.found == map[s.rows[id].sysproNumber := "9"] && k < |s'.ful.todo|
    ensures s'.ful.todo[k] == FulSnap(id, s.rows[id].sysproNumber, OrderOf(s, id))
  {
    var ids := SelectionExists(s.rows, AwaitsFulfilment, |s.rows|);
    AllSelected(s.rows, AwaitsFulfilment, ids);
    k :| 0 <= k < |ids| && ids[k] == id;
    var fetched := s.(ful := FulFetched(FulSnaps(s.rows, ids)), cycle := s.cycle + 1);
    assert FulFetchStep(s, fetched, ids);
    states, steps := Then([s], [], s, s, fetched, FulFetch(ids));
    var found := map[s.rows[id].sysproNumber := "9"];
    s' := fetched.(ful := FulLooping(found, fetched.ful.todo),
                   evidence := fetched.evidence.(dispatched := fetched.evidence.dispatched
                     + set n | n in found && found[n] == "9" :: (fetched.cycle, n)));
    assert FulQueryStep(fetched, s', true, found);
    states, steps := Then(states, steps, s, fetched, s', FulQuery(true, found));
  }

  lemma {:induction false} SkipTo(s: State, k: nat) returns (states: seq<State>, steps: seq<Step>)
    requires s.up && s.ful.FulLooping? && k <= |s.ful.todo|
    ensures Leads(states, steps, s, s.(ful := FulLooping(s.ful.found, s.ful.todo[k..])))
    decreases k
  {
    if k == 0 {
      assert s.ful.todo[0..] == s.ful.todo;
      return [s], [];
    }
    var mid, s' := s.(ful := FulLooping(s.ful.found, s.ful.todo[k - 1..])), s.(ful := FulLooping(s.ful.found, s.ful.todo[k..]));
    states, steps := SkipTo(s, k - 1);
    assert mid.ful.todo[1..] == s.ful.todo[k..];
    assert FulSkipStep(mid, s');
    states, steps := Then(states, steps, s, mid, s', FulSkip);
  }

  lemma RecordFulfils(s: State) returns (states: seq<State>, steps: seq<Step>, s': State)
    requires s.up && s.ful.InCreated? && s.ful.cur.id in s.rows
    ensures Leads(states, steps, s, s') && IsFulfilled(s', s.ful.cur.id)
  {
    s' := s.(rows := WithFulfilled(s.rows, s.ful.cur.id, s.ful.fulfilmentId, 0), ful := FulLooping(s.ful.found, s.ful.todo));
    assert FulRecordStep(s, s', NoFault, 0);
    states, steps := Then([s], [], s, s, s', FulRecord(NoFault, 0));
  }

  /** Shopify makes the fulfilment if it can, and otherwise says that there is one. */
  lemma CreateFulfils(s: State) returns (states: seq<State>, steps: seq<Step>, s': State)
    requires s.up && s.ful.InLocated? && s.ful.cur.id in s.rows
    ensures Leads(states, steps, s, s') && IsFulfilled(s', s.ful.cur.id)
  {
    var cur, so := s.ful.cur, ShopOf(s.shop, s.ful.cur.order);
    var made := CanMake(so, s.ful.fulfilmentOrder);
    var fulfilmentId := if made then "F" else "";
    var mid := s.(shop := if made then s.shop[cur.order := Made(so, s.ful.fulfilmentOrder)] else s.shop,
                  ful := InCreated(cur, fulfilmentId, made, s.ful.found, s.ful.todo),
                  evidence := s.evidence.(created := s.evidence.created + {(s.cycle, cur.id, fulfilmentId)}));
    assert FulCreateStep(s, mid, Answered(fulfilmentId, made));
    var p, a := Then([s], [], s, s, mid, FulCreate(Answered(fulfilmentId, made)));
    var q, b;
    q, b, s' := RecordFulfils(mid);
    states, steps := Join(p, a, s, mid, q, b, s');
  }

  /** The next cycle takes the order up and fulfils it. */
  lemma ListedFulfils(s: State, id: int) returns (states: seq<State>, steps: seq<Step>, s': State)
    requires s.up && s.ful.FulIdle? && id in s.rows && AwaitsFulfilment(s.rows[id]) && Listed(s.shop, OrderOf(s, id)).Some?
    ensures Leads(states, steps, s, s') && IsFulfilled(s', id)
  {
    var looping, k, q, b;
    states, steps, looping, k := ToLoop(s, id);
    var todo := looping.ful.todo;
    var turn := looping.(ful := FulLooping(looping.ful.found, todo[k..]));
    q, b := SkipTo(looping, k);
    states, steps := Join(states, steps, s, looping, q, b, turn);
    var located := turn.(ful := InLocated(todo[k], Listed(s.shop, todo[k].order).value, turn.ful.found, todo[k..][1..]));
    assert FulLocateStep(turn, located);
    states, steps := Then(states, steps, s, turn, located, FulLocate);
    q, b, s' := CreateFulfils(located);
    states, steps := Join(states, steps, s, located, q, b, s');
  }

  lemma HopefulFulfils(s: State, id: int) returns (states: seq<State>, steps: seq<Step>, s': State)
    requires Inv(s) && id in s.rows && s.rows[id].status.Submitted? && Hopeful(s, id)
    ensures Leads(states, steps, s, s') && IsFulfilled(s', id)
  {
    if AtWork(s, id) && s.ful.InLocated? {
      states, steps, s' := CreateFulfils(s);
    } else if AtWork(s, id) {
      states, steps, s' := RecordFulfils(s);
    } else {
      assert RowOk(s.rows[id], s.ledger[id], PhaseOf(s.batch, id));
      var idle := s.(batch := BatchIdle, ful := FulIdle, up := true);
      var p, a := ToIdle(s);
      var q, b;
      q, b, s' := ListedFulfils(idle, id);
      states, steps := Join(p, a, s, idle, q, b, s');
    }
  }

  /**
   A submitted order can still be fulfilled, while nobody but this service touches its fulfilment orders, if and only if it
   has a SYSPRO number and either Shopify lists an open fulfilment order for it or the syncer has one in hand.
   */
  lemma SubmittedIsFulfillableIff(states: seq<State>, steps: seq<Step>, id: int, i: int)
    requires Behaviour(states, steps) && 0 <= i < |states| && id in states[i].rows && states[i].rows[id].status.Submitted?
    ensures CanBeFulfilled(states[i], id)
      <==> (
        && states[i].rows[id].sysproNumber != ""
        && (Listed(states[i].shop, states[i].rows[id].order.shopifyId).Some? || AtWork(states[i], id)))
  {
    EveryStateInv(states, steps, i);
    var s := states[i];
    if Hopeful(s, id) {
      var p, a, s' := HopefulFulfils(s, id);
      assert Fulfils(p, a, s, id);
    } else if CanBeFulfilled(s, id) {
      var p: seq<State>, a: seq<Step> :| Fulfils(p, a, s, id);
      StuckForever(p, a, s, id, |a|);
      assert false;
    }
  }
}
