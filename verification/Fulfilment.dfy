/** The fulfilment syncer: submitted orders that SYSPRO has completed are fulfilled at Shopify. */
module Fulfilment {
  import opened Wrappers
  import opened Store
  import opened Session
  import opened Enet
  import opened FulfilmentClient
  import Ingest
  import L = Lifecycle

  /** Shopify's answers for one order, and the fate of the write that records its fulfilment. */
  datatype OrderEnv = OrderEnv(listing: Exchange<seq<FulfilmentOrder>>, created: Exchange<CreateAnswer>, fault: Fault, now: int)

  /** By row id. */
  type Env = int -> OrderEnv

  /** One success of CreateFulfillment; without an id if Shopify said that the order was fulfilled already. */
  datatype Shipment = Shipment(orderId: int, fulfilmentOrderId: string, carrier: string, fulfilmentId: string)

  const COMPLETE := "9"

  predicate Dispatched(found: map<string, Dispatch>, number: string) {
    number in found && found[number].status == COMPLETE
  }

  /** SYSPRO reports the order complete and both calls to Shopify for it succeed. */
  predicate Ships(number: string, found: map<string, Dispatch>, e: OrderEnv) {
    Dispatched(found, number) && Located(e.listing).Some? && CreatedId(e.created).Some?
  }

  /** What becomes of a waiting row; nothing in it depends on another order. */
  function RowAfter(row: Row, found: map<string, Dispatch>, e: OrderEnv): Row {
    if Ships(row.sysproNumber, found, e) && !e.fault.Lost? then
      row.(status := Fulfilled, fulfilledAt := Some(e.now), fulfilmentId := CreatedId(e.created).value, updatedAt := e.now)
    else row
  }

  /**
   On the answers' fields: the number came back complete, some listed fulfilment order is neither closed nor cancelled, the
   creation was answered without a user error or with one that says the order is fulfilled already, and the write happened.
   */
  predicate Earned(number: string, found: map<string, Dispatch>, e: OrderEnv) {
    && number in found && found[number].status == "9"
    && e.listing.Answer? && (exists f :: f in e.listing.value && f.status !in {"CLOSED", "CANCELLED"})
    && e.created.Answer?
    && (e.created.value.errors == []
        || exists m :: m in e.created.value.errors
             && (Contains(Ingest.Lower(m), "already fulfilled") || Contains(Ingest.Lower(m), "already been fulfilled")))
    && !e.fault.Lost?
  }

  /** The id that goes with it: the new fulfilment's, if there was no user error and there is one. */
  function EarnedId(answer: CreateAnswer): string {
    if answer.errors == [] && answer.fulfilment.Some? then answer.fulfilment.value else ""
  }

  lemma EarnedIffShips(number: string, found: map<string, Dispatch>, e: OrderEnv)
    ensures Earned(number, found, e) <==> Ships(number, found, e) && !e.fault.Lost?
    ensures Earned(number, found, e) ==> CreatedId(e.created) == Some(EarnedId(e.created.value))
  {
  }

  lemma FulfilledIffEarned(row: Row, found: map<string, Dispatch>, e: OrderEnv)
    requires !row.status.Fulfilled?
    ensures var after := RowAfter(row, found, e);
      && (after.status.Fulfilled? <==> Earned(row.sysproNumber, found, e))
      && (after.status.Fulfilled? ==> e.created.Answer? && after.fulfilmentId == EarnedId(e.created.value))
      && (!after.status.Fulfilled? ==> after == row)
  {
    EarnedIffShips(row.sysproNumber, found, e);
  }

  lemma CycleEarns(rows: Rows, found: map<string, Dispatch>, env: Env, rows': Rows)
    requires CycleResult(rows, found, env, rows')
    ensures forall id :: id in rows && !rows[id].status.Fulfilled? ==>
      && (rows'[id].status.Fulfilled? <==> AwaitsFulfilment(rows[id]) && Earned(rows[id].sysproNumber, found, env(id)))
      && (rows'[id].status.Fulfilled? ==> env(id).created.Answer? && rows'[id].fulfilmentId == EarnedId(env(id).created.value))
      && (!rows'[id].status.Fulfilled? ==> rows'[id] == rows[id])
  {
    forall id | id in rows && !rows[id].status.Fulfilled?
      ensures rows'[id] == if AwaitsFulfilment(rows[id]) then RowAfter(rows[id], found, env(id)) else rows[id]
      ensures AwaitsFulfilment(rows[id]) ==> (rows'[id].status.Fulfilled? <==> Earned(rows[id].sysproNumber, found, env(id)))
      ensures rows'[id].status.Fulfilled? ==> env(id).created.Answer? && rows'[id].fulfilmentId == EarnedId(env(id).created.value)
    {
      FulfilledIffEarned(rows[id], found, env(id));
    }
  }

  /** rows' is rows after the first n listed orders were dealt with. */
  ghost predicate Prefix(rows: Rows, ids: seq<int>, found: map<string, Dispatch>, env: Env, n: nat, rows': Rows)
    requires n <= |ids|
  {
    && rows'.Keys == rows.Keys
    && (forall k :: 0 <= k < n ==> ids[k] in rows && rows'[ids[k]] == RowAfter(rows[ids[k]], found, env(ids[k])))
    && (forall id :: id in rows && (forall k :: 0 <= k < n ==> ids[k] != id) ==> rows'[id] == rows[id])
  }

  /** A whole cycle: every waiting row is dealt with on its own, every other row is left alone. */
  ghost predicate CycleResult(rows: Rows, found: map<string, Dispatch>, env: Env, rows': Rows) {
    rows'.Keys == rows.Keys && forall id :: id in rows ==>
      rows'[id] == if AwaitsFulfilment(rows[id]) then RowAfter(rows[id], found, env(id)) else rows[id]
  }

  /** The shipments of the first n listed orders. */
  function Shipments(snaps: seq<L.FulSnap>, found: map<string, Dispatch>, env: Env, n: nat): seq<Shipment>
    requires n <= |snaps|
  {
    if n == 0 then []
    else
      var cur := snaps[n - 1];
      var e := env(cur.id);
      Shipments(snaps, found, env, n - 1)
        + (if Ships(cur.number, found, e)
           then [Shipment(cur.id, Located(e.listing).value, found[cur.number].carrier, CreatedId(e.created).value)] else [])
  }

  /** id is one of the first n listed orders and it ships. */
  predicate ToShip(snaps: seq<L.FulSnap>, found: map<string, Dispatch>, env: Env, n: nat, id: int)
    requires n <= |snaps|
  {
    exists k :: 0 <= k < n && snaps[k].id == id && Ships(snaps[k].number, found, env(id))
  }

  predicate IsShipped(made: seq<Shipment>, id: int) {
    exists i :: 0 <= i < |made| && made[i].orderId == id
  }

  /** Every listed order that ships is shipped once, and no other. */
  lemma {:induction false} ShippedOnce(snaps: seq<L.FulSnap>, found: map<string, Dispatch>, env: Env, n: nat)
    requires n <= |snaps| && forall j, k :: 0 <= j < k < |snaps| ==> snaps[j].id != snaps[k].id
    ensures var made := Shipments(snaps, found, env, n);
      && (forall id :: IsShipped(made, id) <==> ToShip(snaps, found, env, n, id))
      && (forall i, j :: 0 <= i < j < |made| ==> made[i].orderId != made[j].orderId)
    decreases n
  {
    if n > 0 {
      ShippedOnce(snaps, found, env, n - 1);
      var before, made := Shipments(snaps, found, env, n - 1), Shipments(snaps, found, env, n);
      assert forall i :: 0 <= i < |before| ==> made[i] == before[i];
      forall id ensures IsShipped(made, id) <==> ToShip(snaps, found, env, n, id) {
        assert IsShipped(before, id) <==> ToShip(snaps, found, env, n - 1, id);
        assert ToShip(snaps, found, env, n, id)
          <==> ToShip(snaps, found, env, n - 1, id) || (snaps[n - 1].id == id && Ships(snaps[n - 1].number, found, env(id)));
        assert IsShipped(made, id) <==> IsShipped(before, id) || (|made| > |before| && made[|before|].orderId == id);
      }
      forall i | 0 <= i < |before| ensures before[i].orderId != snaps[n - 1].id {
        assert IsShipped(before, before[i].orderId);
        assert ToShip(snaps, found, env, n - 1, before[i].orderId);
      }
    }
  }

  function Numbers(snaps: seq<L.FulSnap>): seq<string> {
    seq(|snaps|, k requires 0 <= k < |snaps| => snaps[k].number)
  }

  /** After every listed order the whole waiting set has been dealt with. */
  lemma PrefixIsCycle(rows: Rows, ids: seq<int>, found: map<string, Dispatch>, env: Env, rows': Rows)
    requires OldestFirst(rows, AwaitsFulfilment, |rows|, ids) && Prefix(rows, ids, found, env, |ids|, rows')
    requires forall id :: id in rows && AwaitsFulfilment(rows[id]) ==> id in ids
    ensures CycleResult(rows, found, env, rows')
  {
    forall id | id in rows ensures rows'[id] == if AwaitsFulfilment(rows[id]) then RowAfter(rows[id], found, env(id)) else rows[id] {
      if AwaitsFulfilment(rows[id]) {
        var k :| 0 <= k < |ids| && ids[k] == id;
      }
    }
  }

  lemma PrefixOfNone(rows: Rows, ids: seq<int>, found: map<string, Dispatch>, env: Env)
    ensures Prefix(rows, ids, found, env, 0, rows)
  {
  }

  lemma PrefixExtends(rows: Rows, ids: seq<int>, found: map<string, Dispatch>, env: Env, n: nat, before: Rows, after: Rows)
    requires OldestFirst(rows, AwaitsFulfilment, |rows|, ids) && n < |ids| && Prefix(rows, ids, found, env, n, before)
    requires after == before[ids[n] := RowAfter(rows[ids[n]], found, env(ids[n]))]
    ensures before[ids[n]] == rows[ids[n]]
    ensures Prefix(rows, ids, found, env, n + 1, after)
  {
    var id := ids[n];
    assert id in rows && forall k :: 0 <= k < n ==> ids[k] != id;
    assert before[id] == rows[id];
  }

  class FulfilmentSyncer {
    const db: Db
    const client: EnetClient
    var running: bool
    ghost var shipments: seq<Shipment>

    constructor (db: Db, client: EnetClient)
      ensures this.db == db && this.client == client && !running && shipments == []
    {
      this.db, this.client, running, shipments := db, client, false, [];
    }

    /** The body of the loop: one order, with every way to pass it over. */
    method Fulfil(cur: L.FulSnap, found: map<string, Dispatch>, e: OrderEnv)
      modifies this`shipments, db`rows
      ensures db.rows ==
        if Ships(cur.number, found, e) && !e.fault.Lost? then WithFulfilled(old(db.rows), cur.id, CreatedId(e.created).value, e.now) else old(db.rows)
      ensures shipments == old(shipments)
        + if Ships(cur.number, found, e) then [Shipment(cur.id, Located(e.listing).value, found[cur.number].carrier, CreatedId(e.created).value)] else []
      ensures db.rows ==
        if Earned(cur.number, found, e) then WithFulfilled(old(db.rows), cur.id, EarnedId(e.created.value), e.now) else old(db.rows)
    {
      EarnedIffShips(cur.number, found, e);
      if cur.number !in found {
        return;
      }
      var result := found[cur.number];
      if result.status != COMPLETE {
        return;
      }
      var fulfilmentOrder := GetFulfillmentOrderID(e.listing);
      if fulfilmentOrder.None? {
        return;
      }
      var fulfilmentId := CreateFulfillment(e.created);
      if fulfilmentId.None? {
        return;
      }
      shipments := shipments + [Shipment(cur.id, fulfilmentOrder.value, result.carrier, fulfilmentId.value)];
      var _ := db.UpdateOrderFulfilled(cur.id, fulfilmentId.value, e.now, e.fault);
    }

    /** The SYSPRO numbers to ask about: the non-empty ones. */
    method OrderNumbers(snaps: seq<L.FulSnap>) returns (numbers: seq<string>)
      requires forall k :: 0 <= k < |snaps| ==> snaps[k].number != ""
      ensures numbers == Numbers(snaps)
      ensures |numbers| == |snaps| && forall k :: 0 <= k < |snaps| ==> numbers[k] == snaps[k].number
    {
      numbers := [];
      for k := 0 to |snaps|
        invariant numbers == Numbers(snaps[..k])
      {
        assert Numbers(snaps[..k + 1]) == Numbers(snaps[..k]) + [snaps[k].number];
        if snaps[k].number != "" {
          numbers := numbers + [snaps[k].number];
        }
      }
      assert snaps[..|snaps|] == snaps;
    }

    /**
     ids is the fetched list and found what SYSPRO answered. A row is fulfilled exactly when its own number came back
     complete, both of its own calls succeeded and its own write was not lost, whatever happened to the others.
     */
    method ProcessOrders(fetchFault: Fault, logon: Logon, xs: int -> Exchange<DispatchAnswer>, env: Env)
      returns (ghost ids: seq<int>, ghost found: map<string, Dispatch>)
      requires client.Valid() && client.At() == Outside
      modifies this`shipments, db`rows, client
      ensures client.Valid() && client.At() == Outside
      ensures if fetchFault.NoFault? then OldestFirst(old(db.rows), AwaitsFulfilment, |old(db.rows)|, ids) else ids == []
      ensures client.log == old(client.log)
        + if ids == [] then [] else Episode(logon, OrderQueries(Numbers(L.FulSnaps(old(db.rows), ids))))
      ensures ids == [] || logon.Refused? ==> db.rows == old(db.rows) && shipments == old(shipments)
      ensures ids != [] && logon.Granted? ==> (
        && DispatchFrom(Numbers(L.FulSnaps(old(db.rows), ids)), xs, found)
        && CycleResult(old(db.rows), found, env, db.rows)
        && shipments == old(shipments) + Shipments(L.FulSnaps(old(db.rows), ids), found, env, |ids|))
      ensures ids != [] && logon.Granted? ==> forall id :: id in old(db.rows) && !old(db.rows)[id].status.Fulfilled? ==>
        var was := old(db.rows)[id];
        && id in db.rows
        && (db.rows[id].status.Fulfilled? <==>
              was.status.Submitted? && was.fulfilledAt.None? && was.sysproNumber != "" && Earned(was.sysproNumber, found, env(id)))
        && (db.rows[id].status.Fulfilled? ==> env(id).created.Answer? && db.rows[id].fulfilmentId == EarnedId(env(id).created.value))
        && (!db.rows[id].status.Fulfilled? ==> db.rows[id] == was)
    {
      ids, found := [], map[];
      var fetched := db.FetchSubmittedOrders(fetchFault);
      if fetched.Err? {
        return;
      }
      ids := fetched.value;
      if |fetched.value| == 0 {
        return;
      }
      var snaps := L.FulSnaps(db.rows, fetched.value);
      var numbers := OrderNumbers(snaps);
      var dispatched := client.QueryDispatchedOrders(numbers, logon, xs);
      if dispatched.Err? {
        return;
      }
      found := dispatched.value;
      FulfilAll(fetched.value, snaps, dispatched.value, env);
      PrefixIsCycle(old(db.rows), ids, found, env, db.rows);
      CycleEarns(old(db.rows), found, env, db.rows);
    }

    /** One turn of the loop. */
    method FulfilNext(
        ghost ids: seq<int>, snaps: seq<L.FulSnap>, found: map<string, Dispatch>, env: Env, k: nat, ghost rows: Rows, ghost made: seq<Shipment>)
      requires OldestFirst(rows, AwaitsFulfilment, |rows|, ids) && snaps == L.FulSnaps(rows, ids) && k < |snaps|
      requires Prefix(rows, ids, found, env, k, db.rows) && shipments == made + Shipments(snaps, found, env, k)
      modifies this`shipments, db`rows
      ensures Prefix(rows, ids, found, env, k + 1, db.rows)
      ensures shipments == made + Shipments(snaps, found, env, k + 1)
    {
      PrefixExtends(rows, ids, found, env, k, db.rows, db.rows[ids[k] := RowAfter(rows[ids[k]], found, env(ids[k]))]);
      Fulfil(snaps[k], found, env(snaps[k].id));
    }

    /** The loop over the fetched orders; every iteration ends in a continue. */
    method FulfilAll(ghost ids: seq<int>, snaps: seq<L.FulSnap>, found: map<string, Dispatch>, env: Env)
      requires OldestFirst(db.rows, AwaitsFulfilment, |db.rows|, ids) && snaps == L.FulSnaps(db.rows, ids)
      modifies this`shipments, db`rows
      ensures Prefix(old(db.rows), ids, found, env, |ids|, db.rows)
      ensures shipments == old(shipments) + Shipments(snaps, found, env, |snaps|)
    {
      ghost var rows, made := db.rows, shipments;
      PrefixOfNone(rows, ids, found, env);
      for k := 0 to |snaps|
        invariant Prefix(rows, ids, found, env, k, db.rows)
        invariant shipments == made + Shipments(snaps, found, env, k)
      {
        FulfilNext(ids, snaps, found, env, k, rows, made);
      }
    }

    /** A tick while a cycle is running is skipped. */
    method Tick(fetchFault: Fault, logon: Logon, xs: int -> Exchange<DispatchAnswer>, env: Env)
      returns (ghost ids: seq<int>, ghost found: map<string, Dispatch>)
      requires client.Valid() && client.At() == Outside
      modifies this, db`rows, client
      ensures running == old(running)
      ensures client.Valid() && client.At() == Outside
      ensures if fetchFault.NoFault? && !old(running) then OldestFirst(old(db.rows), AwaitsFulfilment, |old(db.rows)|, ids) else ids == []
      ensures client.log == old(client.log)
        + if ids == [] then [] else Episode(logon, OrderQueries(Numbers(L.FulSnaps(old(db.rows), ids))))
      ensures ids == [] || logon.Refused? ==> db.rows == old(db.rows) && shipments == old(shipments)
      ensures ids != [] && logon.Granted? ==> (
        && DispatchFrom(Numbers(L.FulSnaps(old(db.rows), ids)), xs, found)
        && CycleResult(old(db.rows), found, env, db.rows)
        && shipments == old(shipments) + Shipments(L.FulSnaps(old(db.rows), ids), found, env, |ids|))
      ensures ids != [] && logon.Granted? ==> forall id :: id in old(db.rows) && !old(db.rows)[id].status.Fulfilled? ==>
        var was := old(db.rows)[id];
        && id in db.rows
        && (db.rows[id].status.Fulfilled? <==>
              was.status.Submitted? && was.fulfilledAt.None? && was.sysproNumber != "" && Earned(was.sysproNumber, found, env(id)))
        && (db.rows[id].status.Fulfilled? ==> env(id).created.Answer? && db.rows[id].fulfilmentId == EarnedId(env(id).created.value))
        && (!db.rows[id].status.Fulfilled? ==> db.rows[id] == was)
    {
      ids, found := [], map[];
      if running {
        return;
      }
      running := true;
      var listed, answers := ProcessOrders(fetchFault, logon, xs, env);
      ids, found := listed, answers;
      running := false;
    }
  }

  // ---------------------------------------------------------------- a cycle is a run of the machine

  /** The query asks for the first ten fulfilment orders. */
  predicate AtMostTen(e: OrderEnv) {
    e.listing.Answer? ==> |e.listing.value| <= 10
  }

  ghost predicate ListsAtMostTen(env: Env) {
    forall id :: AtMostTen(env(id))
  }

  function Statuses(found: map<string, Dispatch>): map<string, string> {
    map n | n in found :: found[n].status
  }

  /** The machine's fulfilment actor has dealt with the first n orders of the list. */
  ghost predicate At(s: L.State, snaps: seq<L.FulSnap>, found: map<string, Dispatch>, n: nat)
    requires n <= |snaps|
  {
    s.up && s.ful == L.FulLooping(Statuses(found), snaps[n..])
  }

  /** The answered listing is Shopify's state: the machine's Shopify takes it over, and the fulfilment order is found. */
  lemma LocatesOrder(s: L.State, snaps: seq<L.FulSnap>, found: map<string, Dispatch>, e: OrderEnv, n: nat)
    returns (states: seq<L.State>, steps: seq<L.Step>)
    requires n < |snaps| && At(s, snaps, found, n) && Dispatched(found, snaps[n].number)
    requires Located(e.listing).Some? && |e.listing.value| <= 10
    ensures L.Path(states, steps) && states[0] == s
    ensures var s' := states[|steps|];
      && s'.up && s'.rows == s.rows && s'.ful == L.InLocated(snaps[n], Located(e.listing).value, Statuses(found), snaps[n + 1..])
      && L.CanMake(L.ShopOf(s'.shop, snaps[n].order), Located(e.listing).value)
  {
    var cur := snaps[n];
    assert snaps[n..][0] == cur && snaps[n..][1..] == snaps[n + 1..];
    var s1 := s.(shop := s.shop[cur.order := L.ShopOrder(e.listing.value, {})]);
    assert L.Takes(s, s1, L.Shop(cur.order, L.ShopOrder(e.listing.value, {})));
    var s2 := s1.(ful := L.InLocated(cur, Located(e.listing).value, s.ful.found, snaps[n + 1..]));
    assert L.Takes(s1, s2, L.FulLocate);
    return [s, s1, s2], [L.Shop(cur.order, L.ShopOrder(e.listing.value, {})), L.FulLocate];
  }

  lemma CreationRefused(s: L.State) returns (states: seq<L.State>, steps: seq<L.Step>)
    requires s.up && s.ful.InLocated?
    ensures L.Path(states, steps) && states[0] == s && states[|steps|] == s.(ful := L.FulLooping(s.ful.found, s.ful.todo))
  {
    var s1 := s.(ful := L.FulLooping(s.ful.found, s.ful.todo));
    assert L.Takes(s, s1, L.FulCreate(L.Unanswered(false)));
    return [s, s1], [L.FulCreate(L.Unanswered(false))];
  }

  lemma CreationAnswered(s: L.State, fulfilmentId: string) returns (states: seq<L.State>, steps: seq<L.Step>, s': L.State)
    requires s.up && s.ful.InLocated? && L.CanMake(L.ShopOf(s.shop, s.ful.cur.order), s.ful.fulfilmentOrder)
    ensures L.Path(states, steps) && states[0] == s && states[|steps|] == s' && s'.up && s'.rows == s.rows
    ensures s'.ful == L.InCreated(s.ful.cur, fulfilmentId, fulfilmentId != "", s.ful.found, s.ful.todo)
  {
    var cur, made := s.ful.cur, fulfilmentId != "";
    s' := s.(shop := if made then s.shop[cur.order := L.Made(L.ShopOf(s.shop, cur.order), s.ful.fulfilmentOrder)] else s.shop,
             ful := L.InCreated(cur, fulfilmentId, made, s.ful.found, s.ful.todo),
             evidence := s.evidence.(created := s.evidence.created + {(s.cycle, cur.id, fulfilmentId)}));
    assert L.FulCreateStep(s, s', L.Answered(fulfilmentId, made));
    states, steps := [s, s'], [L.FulCreate(L.Answered(fulfilmentId, made))];
  }

  /** From a fulfilment order to the next one of the list: a refusal, or a success and its write. */
  lemma CreatesAndRecords(s: L.State, snaps: seq<L.FulSnap>, found: map<string, Dispatch>, e: OrderEnv, n: nat)
    returns (states: seq<L.State>, steps: seq<L.Step>)
    requires n < |snaps| && snaps[n].id in s.rows && s.rows[snaps[n].id].sysproNumber == snaps[n].number
    requires s.up && Located(e.listing).Some? && Dispatched(found, snaps[n].number)
    requires s.ful == L.InLocated(snaps[n], Located(e.listing).value, Statuses(found), snaps[n + 1..])
    requires L.CanMake(L.ShopOf(s.shop, snaps[n].order), Located(e.listing).value)
    ensures L.Path(states, steps) && states[0] == s && At(states[|steps|], snaps, found, n + 1)
    ensures states[|steps|].rows == s.rows[snaps[n].id := RowAfter(s.rows[snaps[n].id], found, e)]
  {
    if CreatedId(e.created).None? {
      states, steps := CreationRefused(s);
      return;
    }
    var p, a, s1 := CreationAnswered(s, CreatedId(e.created).value);
    var s2 := s1.(rows := if e.fault.Lost? then s1.rows else WithFulfilled(s1.rows, snaps[n].id, s1.ful.fulfilmentId, e.now),
                  ful := L.FulLooping(s1.ful.found, s1.ful.todo));
    assert L.FulRecordStep(s1, s2, e.fault, e.now);
    L.PathsJoin(p, a, [s1, s2], [L.FulRecord(e.fault, e.now)]);
    states, steps := p + [s1, s2][1..], a + [L.FulRecord(e.fault, e.now)];
  }

  /** One order is a skip, or a fulfilment order is found and a fulfilment asked for. */
  lemma OrderIsSteps(s: L.State, snaps: seq<L.FulSnap>, found: map<string, Dispatch>, e: OrderEnv, n: nat)
    returns (states: seq<L.State>, steps: seq<L.Step>)
    requires n < |snaps| && At(s, snaps, found, n) && AtMostTen(e)
    requires snaps[n].id in s.rows && s.rows[snaps[n].id].sysproNumber == snaps[n].number
    ensures L.Path(states, steps) && states[0] == s && At(states[|steps|], snaps, found, n + 1)
    ensures states[|steps|].rows == s.rows[snaps[n].id := RowAfter(s.rows[snaps[n].id], found, e)]
  {
    assert snaps[n..][1..] == snaps[n + 1..];
    if !Dispatched(found, snaps[n].number) || Located(e.listing).None? {
      var s1 := s.(ful := L.FulLooping(s.ful.found, snaps[n + 1..]));
      assert L.Takes(s, s1, L.FulSkip);
      return [s, s1], [L.FulSkip];
    }
    var p, a := LocatesOrder(s, snaps, found, e, n);
    var q, b := CreatesAndRecords(p[|a|], snaps, found, e, n);
    L.PathsJoin(p, a, q, b);
    return p + q[1..], a + b;
  }

  /** The first n orders of the list, as steps. */
  lemma {:induction false} LoopIsARun(s: L.State, ids: seq<int>, found: map<string, Dispatch>, env: Env, n: nat)
    returns (states: seq<L.State>, steps: seq<L.Step>)
    requires OldestFirst(s.rows, AwaitsFulfilment, |s.rows|, ids) && n <= |ids| && At(s, L.FulSnaps(s.rows, ids), found, 0)
    requires ListsAtMostTen(env)
    ensures L.Path(states, steps) && states[0] == s && At(states[|steps|], L.FulSnaps(s.rows, ids), found, n)
    ensures Prefix(s.rows, ids, found, env, n, states[|steps|].rows)
    decreases n
  {
    if n == 0 {
      return [s], [];
    }
    var p, a := LoopIsARun(s, ids, found, env, n - 1);
    var mid, snaps := p[|a|], L.FulSnaps(s.rows, ids);
    PrefixExtends(s.rows, ids, found, env, n - 1, mid.rows, mid.rows[ids[n - 1] := RowAfter(s.rows[ids[n - 1]], found, env(ids[n - 1]))]);
    var id := ids[n - 1];
    assert AtMostTen(env(id));
    var q, b := OrderIsSteps(mid, snaps, found, env(id), n - 1);
    L.PathsJoin(p, a, q, b);
    return p + q[1..], a + b;
  }

  lemma StartsLooping(s: L.State, ids: seq<int>, found: map<string, Dispatch>)
    returns (states: seq<L.State>, steps: seq<L.Step>)
    requires s.up && s.ful.FulIdle? && OldestFirst(s.rows, AwaitsFulfilment, |s.rows|, ids) && ids != []
    ensures L.Path(states, steps) && states[0] == s
    ensures var s' := states[|steps|]; s'.rows == s.rows && At(s', L.FulSnaps(s.rows, ids), found, 0)
  {
    var snaps := L.FulSnaps(s.rows, ids);
    var s1 := s.(ful := L.FulFetched(snaps), cycle := s.cycle + 1);
    assert L.Takes(s, s1, L.FulFetch(ids));
    var complete := set n | n in Statuses(found) && Statuses(found)[n] == COMPLETE :: (s1.cycle, n);
    var s2 := s1.(ful := L.FulLooping(Statuses(found), snaps),
                  evidence := s1.evidence.(dispatched := s1.evidence.dispatched + complete));
    assert L.Takes(s1, s2, L.FulQuery(true, Statuses(found)));
    assert snaps[0..] == snaps;
    return [s, s1, s2], [L.FulFetch(ids), L.FulQuery(true, Statuses(found))];
  }

  lemma StopsLooping(s: L.State, snaps: seq<L.FulSnap>, found: map<string, Dispatch>) returns (states: seq<L.State>, steps: seq<L.Step>)
    requires At(s, snaps, found, |snaps|)
    ensures L.Path(states, steps) && states[0] == s && states[|steps|] == s.(ful := L.FulIdle)
  {
    var s' := s.(ful := L.FulIdle);
    assert L.Takes(s, s', L.FulDone);
    return [s, s'], [L.FulDone];
  }

  /**
   What ProcessOrders does to the rows is what some run of the machine's fulfilment actor does, from idle back to idle,
   so the provenance of fulfilled rows proved of machine runs holds of it.
   */
  lemma CycleIsARun(s: L.State, ids: seq<int>, found: map<string, Dispatch>, env: Env)
    returns (states: seq<L.State>, steps: seq<L.Step>)
    requires s.up && s.ful.FulIdle? && OldestFirst(s.rows, AwaitsFulfilment, |s.rows|, ids) && ids != []
    requires forall id :: id in s.rows && AwaitsFulfilment(s.rows[id]) ==> id in ids
    requires ListsAtMostTen(env)
    ensures L.Path(states, steps) && states[0] == s && states[|steps|].ful.FulIdle?
    ensures CycleResult(s.rows, found, env, states[|steps|].rows)
  {
    var p, a := StartsLooping(s, ids, found);
    var mid := p[|a|];
    var q, b := LoopIsARun(mid, ids, found, env, |ids|);
    PrefixIsCycle(s.rows, ids, found, env, q[|b|].rows);
    L.PathsJoin(p, a, q, b);
    var r, c := StopsLooping(q[|b|], L.FulSnaps(s.rows, ids), found);
    L.PathsJoin(p + q[1..], a + b, r, c);
    return p + q[1..] + r[1..], a + b + c;
  }
}
