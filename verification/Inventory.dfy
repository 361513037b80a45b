/** The stock syncer and the Shopify inventory client: SYSPRO availability, less reservations, pushed to Shopify. */
module Inventory {
  import opened Wrappers
  import opened Sums
  import opened Store
  import opened Session
  import opened Enet

  // ---------------------------------------------------------------- rounding

  /** math.Round: half away from zero. */
  function Round(x: real): int {
    if x >= 0.0 then (x + 0.5).Floor else -((0.5 - x).Floor)
  }

  /** The nearest integer, and of two equally near the one further from zero. */
  lemma RoundIsNearest(x: real)
    ensures -0.5 <= Round(x) as real - x <= 0.5
    ensures Round(x) as real - x == 0.5 ==> x > 0.0
    ensures Round(x) as real - x == -0.5 ==> x < 0.0
  {
    FloorOfSum(x);
    FloorOfNegation(x);
  }

  function AtLeastZero(x: int): int {
    if x < 0 then 0 else x
  }

  predicate IsHalf(x: real) {
    x - x.Floor as real == 0.5
  }

  /**
   Taking n whole units off an availability takes n off its rounding, except exactly when the availability ends in a half
   and the change carries it across zero.
   */
  lemma RoundMovesByWholeUnits(x: real, n: int)
    ensures Round(x - n as real) == Round(x) - n
      <==> !(IsHalf(x) && ((x > 0.0 && x - n as real < 0.0) || (x < 0.0 && x - n as real > 0.0)))
  {
    var y := x - n as real;
    assert y.Floor == x.Floor - n;
    FloorOfSum(x);
    FloorOfSum(y);
    FloorOfNegation(x);
    FloorOfNegation(y);
  }

  lemma RoundIsMonotone(x: real, y: real)
    requires x <= y
    ensures Round(x) <= Round(y)
  {
    FloorOfSum(x);
    FloorOfSum(y);
    FloorOfNegation(x);
    FloorOfNegation(y);
  }

  /** The availability is negative and ends in a half, and taking n units off, n being negative, makes it positive. */
  predicate AcrossZero(x: real, n: int) {
    IsHalf(x) && x < 0.0 && x - n as real > 0.0
  }

  /** Reserving whole units before or after rounding gives the same level, except when a negative reservation crosses zero. */
  lemma LevelOfWholeUnits(x: real, n: int)
    ensures AtLeastZero(Round(x) - n) == AtLeastZero(Round(x - n as real)) - (if AcrossZero(x, n) then 1 else 0)
  {
    RoundMovesByWholeUnits(x, n);
    FloorOfSum(x);
    FloorOfSum(x - n as real);
    FloorOfNegation(x);
    FloorOfNegation(x - n as real);
  }

  lemma FloorOfSum(x: real)
    ensures (x + 0.5).Floor == if x - x.Floor as real >= 0.5 then x.Floor + 1 else x.Floor
  {
  }

  lemma FloorOfNegation(x: real)
    ensures -((0.5 - x).Floor) == if x - x.Floor as real > 0.5 then x.Floor + 1 else x.Floor
  {
  }

  // ---------------------------------------------------------------- effective quantities

  /** The level of each SKU of stock: rounded availability less its reservation, not below 0. */
  ghost predicate IsEffective(stock: map<string, real>, reserved: string -> int, quantities: map<string, int>) {
    quantities.Keys == stock.Keys && forall sku :: sku in stock ==> quantities[sku] == AtLeastZero(Round(stock[sku]) - reserved(sku))
  }

  /** What computeEffective subtracts: the reservations, or nothing when reading them failed. */
  ghost function ReservedBy(db: Db, fault: Fault): string -> int
    reads db
  {
    var rows, lines := db.rows, db.lines;
    (sku: string) => if fault.NoFault? then Reserved(rows, lines, sku) else 0
  }

  // ---------------------------------------------------------------- Shopify

  /** One inventory item of a lookup answer. */
  datatype Node = Node(id: string, sku: string)

  /** A Shopify location. */
  datatype Site = Site(id: string, active: bool)

  const GID := "gid://"

  function LocationGid(configured: string): string {
    if GID <= configured then configured else "gid://shopify/Location/" + configured
  }

  /** sites[i] is the first active one. */
  predicate IsFirstActive(sites: seq<Site>, i: int) {
    0 <= i < |sites| && sites[i].active && forall k :: 0 <= k < i ==> !sites[k].active
  }

  /** The push: whether it reaches Shopify and whether Shopify confirms it. */
  datatype PushEnv = PushEnv(location: Exchange<seq<Site>>, lookups: int -> Exchange<seq<Node>>, applied: bool, confirmed: bool)

  datatype Level = Level(itemId: string, quantity: int)

  /** How many chunks of 100 a lookup of n SKUs takes. */
  function ChunkCount(n: nat): nat {
    (n + 99) / 100
  }

  function Chunk(pending: seq<string>, i: nat): seq<string>
    requires i < ChunkCount(|pending|)
  {
    if 100 * (i + 1) <= |pending| then pending[100 * i..100 * (i + 1)] else pending[100 * i..]
  }

  function Chunks(pending: seq<string>, n: nat): seq<seq<string>>
    requires n <= ChunkCount(|pending|)
  {
    seq(n, i requires 0 <= i < n => Chunk(pending, i))
  }

  function Flat(chunks: seq<seq<string>>): seq<string> {
    if chunks == [] then [] else Flat(chunks[..|chunks| - 1]) + chunks[|chunks| - 1]
  }

  /** The chunks hold every pending SKU once, in order, and none is empty or longer than 100. */
  lemma {:induction false} ChunksCoverPending(pending: seq<string>, n: nat)
    requires n <= ChunkCount(|pending|)
    ensures Flat(Chunks(pending, n)) == if n < ChunkCount(|pending|) then pending[..100 * n] else pending
    ensures forall i :: 0 <= i < n ==> 1 <= |Chunks(pending, n)[i]| <= 100
    decreases n
  {
    if n > 0 {
      ChunksCoverPending(pending, n - 1);
      assert Chunks(pending, n)[..n - 1] == Chunks(pending, n - 1);
    }
  }

  lemma ChunksExtend(pending: seq<string>, n: nat)
    requires n < ChunkCount(|pending|)
    ensures Chunks(pending, n + 1) == Chunks(pending, n) + [Chunk(pending, n)]
  {
  }

  /** Whether the i-th lookup of this call succeeded. */
  predicate AnsweredUpTo(lookups: int -> Exchange<seq<Node>>, n: nat) {
    forall i :: 0 <= i < n ==> lookups(i).Answer?
  }

  /** The j-th node that the i-th lookup came back with is of this SKU. */
  predicate NodeFor(lookups: int -> Exchange<seq<Node>>, i: int, j: int, sku: string) {
    lookups(i).Answer? && 0 <= j < |lookups(i).value| && lookups(i).value[j].sku == sku
  }

  /** No later node of the first n lookups is of this SKU. */
  ghost predicate LastNode(lookups: int -> Exchange<seq<Node>>, n: nat, i: int, j: int, sku: string) {
    && 0 <= i < n && NodeFor(lookups, i, j, sku)
    && forall p, q :: 0 <= p < n && NodeFor(lookups, p, q, sku) ==> p < i || (p == i && q <= j)
  }

  /** Some node of the first n lookups is of this SKU. */
  ghost predicate Found(lookups: int -> Exchange<seq<Node>>, n: nat, sku: string) {
    exists i, j :: 0 <= i < n && NodeFor(lookups, i, j, sku)
  }

  /**
   What n lookups add to what is known: a SKU is known afterwards if it was or if some node is of it; its item is then the id
   of the last such node, and what it was when there is none.
   */
  ghost predicate Learnt(before: map<string, string>, lookups: int -> Exchange<seq<Node>>, n: nat, after: map<string, string>) {
    && (forall sku :: sku in after <==> sku in before || Found(lookups, n, sku))
    && (forall sku, i, j :: LastNode(lookups, n, i, j, sku) ==> sku in after && after[sku] == lookups(i).value[j].id)
    && (forall sku :: sku in before && !Found(lookups, n, sku) ==> sku in after && after[sku] == before[sku])
  }

  predicate LastIn(nodes: seq<Node>, j: int, sku: string) {
    0 <= j < |nodes| && nodes[j].sku == sku && forall q :: j < q < |nodes| ==> nodes[q].sku != sku
  }

  predicate FoundIn(nodes: seq<Node>, sku: string) {
    exists j :: 0 <= j < |nodes| && nodes[j].sku == sku
  }

  /** What one answer adds. */
  ghost predicate Absorbed(m: map<string, string>, nodes: seq<Node>, m': map<string, string>) {
    && (forall sku :: sku in m' <==> sku in m || FoundIn(nodes, sku))
    && (forall sku, j :: LastIn(nodes, j, sku) ==> sku in m' && m'[sku] == nodes[j].id)
    && (forall sku :: sku in m && !FoundIn(nodes, sku) ==> sku in m' && m'[sku] == m[sku])
  }

  lemma FoundExtends(lookups: int -> Exchange<seq<Node>>, n: nat, sku: string)
    requires lookups(n).Answer?
    ensures Found(lookups, n + 1, sku) <==> Found(lookups, n, sku) || FoundIn(lookups(n).value, sku)
  {
    if j :| 0 <= j < |lookups(n).value| && lookups(n).value[j].sku == sku {
      assert NodeFor(lookups, n, j, sku);
    }
  }

  lemma LastExtends(lookups: int -> Exchange<seq<Node>>, n: nat, i: int, j: int, sku: string)
    requires lookups(n).Answer? && LastNode(lookups, n + 1, i, j, sku)
    ensures if FoundIn(lookups(n).value, sku) then i == n && LastIn(lookups(n).value, j, sku) else LastNode(lookups, n, i, j, sku)
  {
    var nodes := lookups(n).value;
    if q :| 0 <= q < |nodes| && nodes[q].sku == sku {
      assert NodeFor(lookups, n, q, sku);
      forall k | j < k < |nodes| ensures nodes[k].sku != sku {
        assert NodeFor(lookups, n, k, sku) <==> nodes[k].sku == sku;
      }
    }
  }

  lemma LearntNothing(before: map<string, string>, lookups: int -> Exchange<seq<Node>>)
    ensures Learnt(before, lookups, 0, before)
  {
  }

  lemma LearntExtends(
      before: map<string, string>, lookups: int -> Exchange<seq<Node>>, n: nat, mid: map<string, string>, after: map<string, string>)
    requires Learnt(before, lookups, n, mid) && lookups(n).Answer? && Absorbed(mid, lookups(n).value, after)
    ensures Learnt(before, lookups, n + 1, after)
  {
    forall sku ensures Found(lookups, n + 1, sku) <==> Found(lookups, n, sku) || FoundIn(lookups(n).value, sku) {
      FoundExtends(lookups, n, sku);
    }
    forall sku, i, j | LastNode(lookups, n + 1, i, j, sku) ensures sku in after && after[sku] == lookups(i).value[j].id {
      LastExtends(lookups, n, i, j, sku);
    }
  }

  lemma LookupsAt(start: nat, n: nat, len: nat)
    requires start == 100 * n < len
    ensures start / 100 == n < ChunkCount(len)
    ensures start + 100 >= len <==> n + 1 == ChunkCount(len)
  {
  }

  /** item is the resolved inventory item of some SKU of the push, and level is that SKU's quantity. */
  ghost predicate Pushed(quantities: map<string, int>, skuMap: map<string, string>, item: string, level: int) {
    exists sku :: sku in quantities && sku in skuMap && skuMap[sku] == item && quantities[sku] == level
  }

  /** Every level that differs from before belongs to a resolved SKU of the push and is its quantity. */
  ghost predicate OnlyPushed(before: map<string, int>, after: map<string, int>, quantities: map<string, int>, skuMap: map<string, string>) {
    && before.Keys <= after.Keys
    && forall item :: item in after && !(item in before && before[item] == after[item]) ==> Pushed(quantities, skuMap, item, after[item])
  }

  /** Every resolved SKU of the push stands at a quantity of the push for its item. */
  ghost predicate AllPushed(levels: map<string, int>, quantities: map<string, int>, skuMap: map<string, string>) {
    forall sku :: sku in quantities && sku in skuMap ==> skuMap[sku] in levels && Pushed(quantities, skuMap, skuMap[sku], levels[skuMap[sku]])
  }

  /** The item has a level, and unless another SKU of the push has the same item it is this SKU's quantity. */
  predicate Stands(levels: map<string, int>, item: string, sku: string, quantities: map<string, int>, skuMap: map<string, string>)
    requires sku in quantities
  {
    && item in levels
    && ((forall other :: other in quantities && other in skuMap && skuMap[other] == item ==> other == sku) ==> levels[item] == quantities[sku])
  }

  predicate NoneResolved(quantities: map<string, int>, skuMap: map<string, string>) {
    forall sku :: sku in quantities ==> sku !in skuMap
  }

  /** The SKUs wanted and not yet known were looked up, chunk by chunk, until one lookup failed, and what came back was kept. */
  ghost predicate LookedUp(
      before: map<string, string>, wanted: set<string>, lookups: int -> Exchange<seq<Node>>, pending: seq<string>, n: nat,
      after: map<string, string>) {
    && (forall sku :: sku in pending <==> sku in wanted && sku !in before)
    && n <= ChunkCount(|pending|) && AnsweredUpTo(lookups, n) && (n < ChunkCount(|pending|) ==> lookups(n).NoAnswer?)
    && Learnt(before, lookups, n, after)
  }

  class ShopifyClient {
    const configuredLocation: string
    const skus: seq<string>
    var locationId: string
    var skuMap: map<string, string>
    /** Shopify's own levels by inventory item, and the pushes made so far. */
    ghost var levels: map<string, int>
    ghost var pushes: seq<map<string, int>>
    ghost var lookedUp: seq<seq<string>>

    constructor (configuredLocation: string, skus: seq<string>, ghost levels: map<string, int>)
      ensures this.configuredLocation == configuredLocation && this.skus == skus && locationId == "" && skuMap == map[]
      ensures this.levels == levels && pushes == [] && lookedUp == []
    {
      this.configuredLocation, this.skus, locationId, skuMap := configuredLocation, skus, "", map[];
      this.levels, pushes, lookedUp := levels, [], [];
    }

    method ResolveLocation(answer: Exchange<seq<Site>>) returns (ok: bool)
      modifies this`locationId
      ensures ok <==> configuredLocation != "" || (answer.Answer? && exists i :: IsFirstActive(answer.value, i))
      ensures configuredLocation != "" ==>
        locationId == if "gid://" <= configuredLocation then configuredLocation else "gid://shopify/Location/" + configuredLocation
      ensures configuredLocation == "" && ok ==> exists i :: IsFirstActive(answer.value, i) && locationId == answer.value[i].id
      ensures !ok ==> locationId == old(locationId)
    {
      if configuredLocation != "" {
        locationId := LocationGid(configuredLocation);
        return true;
      }
      if answer.NoAnswer? {
        return false;
      }
      for i := 0 to |answer.value|
        invariant forall k :: 0 <= k < i ==> !answer.value[k].active
        invariant locationId == old(locationId)
      {
        if answer.value[i].active {
          assert IsFirstActive(answer.value, i);
          locationId := answer.value[i].id;
          return true;
        }
      }
      ok := false;
    }

    /** Looks up the SKUs not yet known, chunk by chunk; the first failure ends it and keeps what was learnt. */
    method ResolveInventoryItems(wanted: seq<string>, lookups: int -> Exchange<seq<Node>>) returns (ok: bool, ghost pending: seq<string>, ghost n: nat)
      modifies this`skuMap, this`lookedUp
      ensures forall sku :: sku in pending <==> sku in wanted && sku !in old(skuMap)
      ensures n <= ChunkCount(|pending|) && AnsweredUpTo(lookups, n) && (ok <==> n == ChunkCount(|pending|))
      ensures !ok ==> lookups(n).NoAnswer?
      ensures Learnt(old(skuMap), lookups, n, skuMap)
      ensures lookedUp == old(lookedUp) + Chunks(pending, if ok then n else n + 1)
    {
      var unknown := Unknown(wanted);
      pending, n := unknown, 0;
      LearntNothing(skuMap, lookups);
      ok := true;
      var start := 0;
      while start < |unknown|
        invariant start == 100 * n && n <= ChunkCount(|unknown|) && AnsweredUpTo(lookups, n)
        invariant start >= |unknown| <==> n == ChunkCount(|unknown|)
        invariant ok && Learnt(old(skuMap), lookups, n, skuMap)
        invariant lookedUp == old(lookedUp) + Chunks(unknown, n)
        decreases |unknown| - start
      {
        ChunksExtend(unknown, n);
        LookupsAt(start, n, |unknown|);
        ok := LookUp(unknown, lookups, start, old(skuMap), n);
        if !ok {
          return;
        }
        n := n + 1;
        start := start + 100;
      }
    }

    /** The lookup of the chunk at start, the n-th one. */
    method LookUp(unknown: seq<string>, lookups: int -> Exchange<seq<Node>>, start: nat, ghost before: map<string, string>, ghost n: nat)
      returns (ok: bool)
      requires start / 100 == n < ChunkCount(|unknown|) && Learnt(before, lookups, n, skuMap)
      modifies this`skuMap, this`lookedUp
      ensures ok <==> lookups(n).Answer?
      ensures Learnt(before, lookups, if ok then n + 1 else n, skuMap)
      ensures lookedUp == old(lookedUp) + [Chunk(unknown, n)]
    {
      lookedUp := lookedUp + [Chunk(unknown, n)];
      var answer := lookups(start / 100);
      if answer.NoAnswer? {
        return false;
      }
      var known := Learn(skuMap, answer.value);
      LearntExtends(before, lookups, n, skuMap, known);
      skuMap := known;
      ok := true;
    }

    method Unknown(wanted: seq<string>) returns (unknown: seq<string>)
      ensures forall sku :: sku in unknown <==> sku in wanted && sku !in skuMap
    {
      unknown := [];
      for i := 0 to |wanted|
        invariant forall sku :: sku in unknown <==> sku in wanted[..i] && sku !in skuMap
      {
        if wanted[i] !in skuMap {
          unknown := unknown + [wanted[i]];
        }
      }
    }

    ghost function Wanted(quantities: map<string, int>): set<string> {
      (set sku | sku in skus) + quantities.Keys
    }

    ghost predicate Located(env: PushEnv)
      reads this
    {
      locationId != "" || configuredLocation != "" || (env.location.Answer? && exists i :: IsFirstActive(env.location.value, i))
    }

    /** Pushes the quantities of the SKUs that have an inventory item; the others are left out of the call. */
    method SetInventoryLevels(quantities: map<string, int>, env: PushEnv) returns (ok: bool, ghost pending: seq<string>, ghost n: nat)
      modifies this
      ensures pushes == old(pushes) + [quantities]
      ensures !old(Located(env)) ==> skuMap == old(skuMap) && levels == old(levels)
      ensures old(Located(env)) ==> LookedUp(old(skuMap), Wanted(quantities), env.lookups, pending, n, skuMap)
      ensures OnlyPushed(old(levels), levels, quantities, skuMap)
      ensures !env.applied ==> levels == old(levels)
      ensures old(Located(env)) && env.applied ==> AllPushed(levels, quantities, skuMap)
      ensures ok <==> old(Located(env)) && (NoneResolved(quantities, skuMap) || (env.applied && env.confirmed))
      ensures old(Located(env)) && env.applied ==> forall sku, i, j :: sku in quantities && LastNode(env.lookups, n, i, j, sku) ==>
        Stands(levels, env.lookups(i).value[j].id, sku, quantities, skuMap)
    {
      pushes, pending, n := pushes + [quantities], [], 0;
      if locationId == "" {
        var located := ResolveLocation(env.location);
        if !located {
          return false, pending, n;
        }
      }
      var keys := KeysOf(quantities);
      var resolved, p, k := ResolveInventoryItems(skus + keys, env.lookups);
      pending, n := p, k;
      assert forall sku :: sku in skus + keys <==> sku in Wanted(quantities);
      ok := Push(keys, quantities, env);
    }

    /** The mutation: one call with every resolved SKU, and no call when there is none. */
    method Push(keys: seq<string>, quantities: map<string, int>, env: PushEnv) returns (ok: bool)
      requires forall sku :: sku in keys <==> sku in quantities
      modifies this`levels
      ensures OnlyPushed(old(levels), levels, quantities, skuMap)
      ensures !env.applied ==> levels == old(levels)
      ensures env.applied ==> AllPushed(levels, quantities, skuMap)
      ensures ok <==> NoneResolved(quantities, skuMap) || (env.applied && env.confirmed)
    {
      var items := ItemsFor(keys, quantities, skuMap);
      if |items| == 0 {
        return true;
      }
      if env.applied {
        levels := Applied(levels, items);
        AppliedLevels(old(levels), items);
        assert forall sku :: sku in quantities && sku in skuMap ==> Level(skuMap[sku], quantities[sku]) in items;
      }
      ok := env.applied && env.confirmed;
    }
  }

  method Learn(m: map<string, string>, nodes: seq<Node>) returns (m': map<string, string>)
    ensures Absorbed(m, nodes, m')
  {
    m' := m;
    for i := 0 to |nodes|
      invariant forall sku :: sku in m' <==> sku in m || exists j :: 0 <= j < i && nodes[j].sku == sku
      invariant forall sku, j :: LastIn(nodes[..i], j, sku) ==> sku in m' && m'[sku] == nodes[j].id
      invariant forall sku :: sku in m && (forall j :: 0 <= j < i ==> nodes[j].sku != sku) ==> sku in m' && m'[sku] == m[sku]
    {
      m' := m'[nodes[i].sku := nodes[i].id];
      forall sku, j | LastIn(nodes[..i + 1], j, sku) ensures sku in m' && m'[sku] == nodes[j].id {
        if j < i {
          assert nodes[..i + 1][i].sku != sku;
          assert LastIn(nodes[..i], j, sku);
        }
      }
    }
    assert nodes[..|nodes|] == nodes;
  }

  /** The keys of a map in some order, as ranging over it gives them. */
  method KeysOf(m: map<string, int>) returns (keys: seq<string>)
    ensures forall sku :: sku in keys <==> sku in m
  {
    keys := [];
    var rest := m.Keys;
    while rest != {}
      invariant rest <= m.Keys && forall sku :: sku in keys <==> sku in m.Keys - rest
      decreases rest
    {
      var sku := Choose(rest);
      keys := keys + [sku];
      rest := rest - {sku};
    }
  }

  method ItemsFor(keys: seq<string>, quantities: map<string, int>, skuMap: map<string, string>) returns (items: seq<Level>)
    requires forall sku :: sku in keys <==> sku in quantities
    ensures forall i :: 0 <= i < |items| ==> Pushed(quantities, skuMap, items[i].itemId, items[i].quantity)
    ensures forall sku :: sku in quantities && sku in skuMap ==> Level(skuMap[sku], quantities[sku]) in items
    ensures items == [] <==> NoneResolved(quantities, skuMap)
  {
    items := [];
    for i := 0 to |keys|
      invariant forall k :: 0 <= k < |items| ==> Pushed(quantities, skuMap, items[k].itemId, items[k].quantity)
      invariant forall k :: 0 <= k < i && keys[k] in skuMap ==> Level(skuMap[keys[k]], quantities[keys[k]]) in items
      invariant items == [] ==> forall k :: 0 <= k < i ==> keys[k] !in skuMap
    {
      if keys[i] in skuMap {
        items := items + [Level(skuMap[keys[i]], quantities[keys[i]])];
      }
    }
    forall sku | sku in quantities && sku in skuMap ensures Level(skuMap[sku], quantities[sku]) in items {
      var k :| 0 <= k < |keys| && keys[k] == sku;
    }
    assert items != [] ==> Pushed(quantities, skuMap, items[0].itemId, items[0].quantity);
  }

  function Applied(levels: map<string, int>, items: seq<Level>): map<string, int> {
    if items == [] then levels
    else Applied(levels, items[..|items| - 1])[items[|items| - 1].itemId := items[|items| - 1].quantity]
  }

  lemma {:induction false} AppliedLevels(levels: map<string, int>, items: seq<Level>)
    ensures levels.Keys <= Applied(levels, items).Keys
    ensures forall l :: l in items ==> l.itemId in Applied(levels, items)
    ensures forall item :: item in Applied(levels, items) ==>
      Level(item, Applied(levels, items)[item]) in items
      || (item in levels && levels[item] == Applied(levels, items)[item] && forall l :: l in items ==> l.itemId != item)
    decreases |items|
  {
    if items != [] {
      AppliedLevels(levels, items[..|items| - 1]);
      assert items == items[..|items| - 1] + [items[|items| - 1]];
    }
  }

  // ---------------------------------------------------------------- the syncer

  /** One outcome of querying SYSPRO, in the order they happened. */
  datatype Outcome = QueryError | Readings(stock: map<string, real>)

  /** The last non-empty successful query result. */
  function LastNonEmpty(history: seq<Outcome>): map<string, real> {
    if history == [] then map[]
    else
      match history[|history| - 1]
      case Readings(stock) => if stock != map[] then stock else LastNonEmpty(history[..|history| - 1])
      case QueryError => LastNonEmpty(history[..|history| - 1])
  }

  /** The query errors since that result. */
  function ErrorsSince(history: seq<Outcome>): nat {
    if history == [] then 0
    else
      match history[|history| - 1]
      case Readings(stock) => if stock != map[] then 0 else ErrorsSince(history[..|history| - 1])
      case QueryError => ErrorsSince(history[..|history| - 1]) + 1
  }

  lemma HistoryExtends(history: seq<Outcome>, o: Outcome)
    ensures LastNonEmpty(history + [o]) == if o.Readings? && o.stock != map[] then o.stock else LastNonEmpty(history)
    ensures ErrorsSince(history + [o]) ==
      if o.QueryError? then ErrorsSince(history) + 1 else if o.stock != map[] then 0 else ErrorsSince(history)
  {
    assert (history + [o])[..|history + [o]| - 1] == history;
  }

  /** If SYSPRO gave the cached result again, a full sync would push exactly what a triggered sync pushes now. */
  lemma TriggeredSyncAgreesWithFullSync(history: seq<Outcome>, reserved: string -> int, triggered: map<string, int>, full: map<string, int>)
    requires IsEffective(LastNonEmpty(history), reserved, triggered)
    requires IsEffective(LastNonEmpty(history + [Readings(LastNonEmpty(history))]), reserved, full)
    ensures triggered == full
  {
    HistoryExtends(history, Readings(LastNonEmpty(history)));
  }

  lemma EffectiveIsUnique(stock: map<string, real>, reserved: string -> int, p: map<string, int>, q: map<string, int>)
    requires IsEffective(stock, reserved, p) && IsEffective(stock, reserved, q)
    ensures p == q
  {
  }

  /** The SKU list of a cycle: the lister's, or the static one when there is no lister, it fails, or it finds nothing. */
  function CycleSkus(lister: Option<Exchange<seq<string>>>, fixed: seq<string>): seq<string> {
    if lister.Some? && lister.value.Answer? && lister.value.value != [] then lister.value.value else fixed
  }

  predicate Filled(o: Outcome) {
    o.Readings? && o.stock != map[]
  }

  /** One query was made after before, and its outcome recorded: an error without a session, else the readings. */
  ghost predicate Queried(
      before: seq<Outcome>, after: seq<Outcome>,
      skus: seq<string>, warehouse: string, logon: Logon, xs: int -> Exchange<StockAnswer>) {
    && |after| == |before| + 1 && after[..|before|] == before
    && match after[|before|]
       case QueryError => logon.Refused?
       case Readings(stock) => logon.Granted? && StockFrom(skus, xs, warehouse, stock)
  }

  // ---------------------------------------------------------------- outages

  /** Some query of the cycle for this SKU answered, and its last reading explains the level. */
  ghost predicate Explained(skus: seq<string>, xs: int -> Exchange<StockAnswer>, warehouse: string, reserved: string -> int, sku: string, level: int) {
    exists i, qty :: LastRead(skus, xs, warehouse, i, sku, qty) && level == AtLeastZero(Round(qty) - reserved(sku))
  }

  /**
   Outages never zero the storefront. Whatever a full sync changes at Shopify is the level of a SKU with a resolved
   inventory item that SYSPRO answered for in this cycle; a SKU without an answer or without an item keeps its level. A
   level of 0 means that the warehouse had no row for the SKU or that reservations reach its rounded availability.
   */
  lemma ChangedLevelsWereRead(
      skus: seq<string>, xs: int -> Exchange<StockAnswer>, warehouse: string, reserved: string -> int,
      stock: map<string, real>, quantities: map<string, int>, skuMap: map<string, string>,
      before: map<string, int>, after: map<string, int>, item: string)
    requires StockFrom(skus, xs, warehouse, stock) && IsEffective(stock, reserved, quantities)
    requires OnlyPushed(before, after, quantities, skuMap)
    requires item in after && !(item in before && before[item] == after[item])
    ensures exists sku :: sku in skuMap && skuMap[sku] == item && Explained(skus, xs, warehouse, reserved, sku, after[item])
  {
    assert Pushed(quantities, skuMap, item, after[item]);
    var sku :| sku in quantities && sku in skuMap && skuMap[sku] == item && quantities[sku] == after[item];
    var i :| LastRead(skus, xs, warehouse, i, sku, stock[sku]);
    assert Explained(skus, xs, warehouse, reserved, sku, after[item]);
  }

  /** Every level that changed is explained. */
  ghost predicate ChangesExplained(
      before: map<string, int>, after: map<string, int>, skuMap: map<string, string>,
      skus: seq<string>, xs: int -> Exchange<StockAnswer>, warehouse: string, reserved: string -> int)
  {
    forall item :: item in after && !(item in before && before[item] == after[item]) ==>
      exists sku :: sku in skuMap && skuMap[sku] == item && Explained(skus, xs, warehouse, reserved, sku, after[item])
  }

  lemma AllChangesExplained(
      skus: seq<string>, xs: int -> Exchange<StockAnswer>, warehouse: string, reserved: string -> int,
      stock: map<string, real>, quantities: map<string, int>, skuMap: map<string, string>, before: map<string, int>, after: map<string, int>)
    requires StockFrom(skus, xs, warehouse, stock) && IsEffective(stock, reserved, quantities)
    requires OnlyPushed(before, after, quantities, skuMap)
    ensures ChangesExplained(before, after, skuMap, skus, xs, warehouse, reserved)
  {
    forall item | item in after && !(item in before && before[item] == after[item])
      ensures exists sku :: sku in skuMap && skuMap[sku] == item && Explained(skus, xs, warehouse, reserved, sku, after[item])
    {
      ChangedLevelsWereRead(skus, xs, warehouse, reserved, stock, quantities, skuMap, before, after, item);
    }
  }

  lemma ZeroMeansNoneOrAllReserved(xs: int -> Exchange<StockAnswer>, skus: seq<string>, warehouse: string, i: int, sku: string, qty: real, reserved: int)
    requires LastRead(skus, xs, warehouse, i, sku, qty)
    ensures AtLeastZero(Round(qty) - reserved) == 0 <==> reserved >= Round(qty)
    ensures xs(i).Answer? && xs(i).value.Items?
    ensures FindWarehouse(xs(i).value.items, warehouse).None? ==> qty == 0.0
    ensures FindWarehouse(xs(i).value.items, warehouse).Some? ==>
      FindWarehouse(xs(i).value.items, warehouse).value.available == Some(qty)
  {
  }

  // ---------------------------------------------------------------- the syncer

  class Syncer {
    const client: EnetClient
    const shopify: ShopifyClient
    const db: Db
    const warehouse: string
    const skus: seq<string>
    var cachedStock: map<string, real>
    var consecutiveFailures: nat
    ghost var history: seq<Outcome>

    constructor (client: EnetClient, shopify: ShopifyClient, db: Db, warehouse: string, skus: seq<string>)
      ensures this.client == client && this.shopify == shopify && this.db == db
      ensures this.warehouse == warehouse && this.skus == skus && Valid() && history == []
    {
      this.client, this.shopify, this.db, this.warehouse, this.skus := client, shopify, db, warehouse, skus;
      cachedStock, consecutiveFailures, history := map[], 0, [];
    }

    /** The cache is the last non-empty result and the counter the errors since. */
    ghost predicate Valid()
      reads this
    {
      cachedStock == LastNonEmpty(history) && consecutiveFailures == ErrorsSince(history)
    }

    method ComputeEffective(stock: map<string, real>, fault: Fault) returns (quantities: map<string, int>)
      ensures IsEffective(stock, ReservedBy(db, fault), quantities)
      ensures quantities.Keys == stock.Keys && forall sku :: sku in stock ==>
        var level := Round(stock[sku]) - (if fault.NoFault? then Reserved(db.rows, db.lines, sku) else 0);
        quantities[sku] == if level > 0 then level else 0
    {
      var reserved: map<string, int> := map[];
      var fetched := db.FetchReservedQuantities(fault);
      if fetched.Ok? {
        reserved := fetched.value;
      }
      quantities := map[];
      var rest := stock.Keys;
      while rest != {}
        invariant rest <= stock.Keys && quantities.Keys == stock.Keys - rest
        invariant forall sku :: sku in quantities ==> quantities[sku] == AtLeastZero(Round(stock[sku]) - Lookup(reserved, sku))
        decreases rest
      {
        var sku := Choose(rest);
        var effective := Round(stock[sku]) - Lookup(reserved, sku);
        if effective < 0 {
          effective := 0;
        }
        quantities := quantities[sku := effective];
        rest := rest - {sku};
      }
    }

    /** The query of a full sync; stock is empty when it failed or found nothing. */
    method Refresh(cycle: seq<string>, logon: Logon, xs: int -> Exchange<StockAnswer>) returns (stock: map<string, real>)
      requires Valid() && client.Valid() && client.At() == Outside
      modifies this, client
      ensures Valid() && client.Valid() && client.At() == Outside
      ensures Queried(old(history), history, cycle, warehouse, logon, xs)
      ensures stock == if Filled(history[|old(history)|]) then history[|old(history)|].stock else map[]
      ensures stock != map[] ==> cachedStock == stock
      ensures stock == map[] ==> cachedStock == old(cachedStock)
    {
      stock := map[];
      var queried := client.QueryStock(cycle, warehouse, logon, xs);
      if queried.Err? {
        HistoryExtends(history, QueryError);
        history := history + [QueryError];
        consecutiveFailures := consecutiveFailures + 1;
        return;
      }
      HistoryExtends(history, Readings(queried.value));
      history := history + [Readings(queried.value)];
      if queried.value == map[] {
        return;
      }
      cachedStock := queried.value;
      consecutiveFailures := 0;
      stock := queried.value;
    }

    /**
     A query that fails or returns nothing pushes nothing. Otherwise the result is cached and its effective quantities
     pushed; both syncs push the effective quantities of the last non-empty result.
     */
    method FullSync(lister: Option<Exchange<seq<string>>>, logon: Logon, xs: int -> Exchange<StockAnswer>, fault: Fault, env: PushEnv)
      returns (ghost pushed: Option<map<string, int>>)
      requires Valid() && client.Valid() && client.At() == Outside
      modifies this, client, shopify
      ensures Valid() && client.Valid() && client.At() == Outside
      ensures CycleSkus(lister, skus) == [] ==> history == old(history) && pushed.None?
      ensures CycleSkus(lister, skus) != [] ==> Queried(old(history), history, CycleSkus(lister, skus), warehouse, logon, xs)
      ensures lister.Some? && lister.value.Answer? && lister.value.value != [] ==>
        Queried(old(history), history, lister.value.value, warehouse, logon, xs)
      ensures (lister.None? || lister.value.NoAnswer? || lister.value.value == []) && skus != [] ==>
        Queried(old(history), history, skus, warehouse, logon, xs)
      ensures pushed.Some? <==> CycleSkus(lister, skus) != [] && Filled(history[|old(history)|])
      ensures pushed.Some? ==> IsEffective(LastNonEmpty(history), ReservedBy(db, fault), pushed.value)
      ensures pushed.Some? ==> cachedStock == history[|old(history)|].stock
      ensures pushed.Some? ==> shopify.pushes == old(shopify.pushes) + [pushed.value]
      ensures pushed.Some? ==> OnlyPushed(old(shopify.levels), shopify.levels, pushed.value, shopify.skuMap)
      ensures pushed.Some? && old(shopify.Located(env)) && env.applied ==> AllPushed(shopify.levels, pushed.value, shopify.skuMap)
      ensures ChangesExplained(
        old(shopify.levels), shopify.levels, shopify.skuMap, CycleSkus(lister, skus), xs, warehouse, ReservedBy(db, fault))
      ensures pushed.None? ==> cachedStock == old(cachedStock)
      ensures pushed.None? ==> shopify.pushes == old(shopify.pushes) && shopify.levels == old(shopify.levels)
    {
      pushed := None;
      var cycle := CycleSkus(lister, skus);
      if |cycle| == 0 {
        return;
      }
      var stock := Refresh(cycle, logon, xs);
      if stock == map[] {
        return;
      }
      var quantities := ComputeEffective(stock, fault);
      var ok, pending, n := shopify.SetInventoryLevels(quantities, env);
      pushed := Some(quantities);
      AllChangesExplained(cycle, xs, warehouse, ReservedBy(db, fault), stock, quantities, shopify.skuMap, old(shopify.levels), shopify.levels);
    }

    /** Recomputes from the cache; with a cold cache it does nothing. */
    method TriggeredSync(fault: Fault, env: PushEnv) returns (ghost pushed: Option<map<string, int>>)
      requires Valid()
      modifies shopify
      ensures Valid()
      ensures pushed.Some? <==> LastNonEmpty(history) != map[]
      ensures pushed.Some? ==> IsEffective(LastNonEmpty(history), ReservedBy(db, fault), pushed.value)
      ensures pushed.Some? ==> shopify.pushes == old(shopify.pushes) + [pushed.value]
      ensures pushed.Some? ==> OnlyPushed(old(shopify.levels), shopify.levels, pushed.value, shopify.skuMap)
      ensures pushed.Some? && old(shopify.Located(env)) && env.applied ==> AllPushed(shopify.levels, pushed.value, shopify.skuMap)
      ensures pushed.None? ==> shopify.pushes == old(shopify.pushes) && shopify.levels == old(shopify.levels)
    {
      pushed := None;
      var cached := cachedStock;
      if cached == map[] {
        return;
      }
      var quantities := ComputeEffective(cached, fault);
      var ok, pending, n := shopify.SetInventoryLevels(quantities, env);
      pushed := Some(quantities);
    }
  }

  /**
   A full sync that pushes and, with the reservations as they were, a triggered sync after it push the same quantities,
   whatever Shopify answers to either.
   */
  method FullThenTriggered(
      syncer: Syncer, lister: Option<Exchange<seq<string>>>, logon: Logon, xs: int -> Exchange<StockAnswer>,
      fault: Fault, env: PushEnv, later: PushEnv)
    returns (ghost full: Option<map<string, int>>, ghost triggered: Option<map<string, int>>)
    requires syncer.Valid() && syncer.client.Valid() && syncer.client.At() == Outside
    modifies syncer, syncer.client, syncer.shopify
    ensures full.Some? ==> triggered == full && syncer.shopify.pushes == old(syncer.shopify.pushes) + [full.value, full.value]
  {
    full := syncer.FullSync(lister, logon, xs, fault, env);
    ghost var stock, reserved := LastNonEmpty(syncer.history), ReservedBy(syncer.db, fault);
    triggered := syncer.TriggeredSync(fault, later);
    if full.Some? {
      assert IsEffective(stock, reserved, triggered.value);
      EffectiveIsUnique(stock, reserved, full.value, triggered.value);
    }
  }
}
