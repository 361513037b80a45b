/**
 The SYSPRO e.net client. Every method runs under sessionMu and appends its protocol events to a log;
 the environment's answers are parameters. The machine in Session interleaves these event strings.
 */
module Enet {
  import opened Wrappers
  import opened Session
  import opened Shopify
  import opened Store
  import opened Sortoi

  datatype Logon = Granted(guid: int) | Refused

  /** One HTTP exchange: it fails, or SYSPRO answers. */
  datatype Exchange<+T> = NoAnswer | Answer(value: T)

  /** The whole life of one session: lock, log on, requests on that guid, log off, unlock. */
  function Episode(logon: Logon, bodies: seq<Body>): seq<Event> {
    match logon
    case Refused => [Lock, LogonErr, Unlock]
    case Granted(g) => [Lock, LogonOk(g)] + Requests(g, bodies) + [Logoff(g), Unlock]
  }

  function Requests(guid: int, bodies: seq<Body>): seq<Event> {
    seq(|bodies|, i requires 0 <= i < |bodies| => Request(guid, bodies[i]))
  }

  function StockQueries(skus: seq<string>): seq<Body> {
    seq(|skus|, i requires 0 <= i < |skus| => INVQRY(skus[i]))
  }

  function OrderQueries(numbers: seq<string>): seq<Body> {
    seq(|numbers|, i requires 0 <= i < |numbers| => SORQRY(numbers[i]))
  }

  lemma {:induction false} RequestsStayInSession(guid: int, bodies: seq<Body>)
    ensures Run(InSession(guid), Requests(guid, bodies)) == Some(InSession(guid))
    decreases |bodies|
  {
    if bodies != [] {
      assert Requests(guid, bodies)[1..] == Requests(guid, bodies[1..]);
      RequestsStayInSession(guid, bodies[1..]);
    }
  }

  lemma RequestsExtend(guid: int, bodies: seq<Body>, body: Body)
    ensures Requests(guid, bodies + [body]) == Requests(guid, bodies) + [Request(guid, body)]
  {
  }

  lemma RunOne(pc: Pc, e: Event)
    ensures Run(pc, [e]) == After(pc, e)
  {
    assert [e][1..] == [];
  }

  lemma EpisodeParts(guid: int, bodies: seq<Body>, log: seq<Event>)
    ensures log + [Lock, LogonOk(guid)] + Requests(guid, bodies) + [Logoff(guid), Unlock] == log + Episode(Granted(guid), bodies)
  {
  }

  lemma EpisodeSteps(guid: int, bodies: seq<Body>, log: seq<Event>)
    ensures log + [Lock] + [LogonOk(guid)] + Requests(guid, bodies) + [Logoff(guid)] + [Unlock] == log + Episode(Granted(guid), bodies)
  {
  }

  /** An episode event by event: nothing is asked without a session, and with one each request travels once, in order, on its guid. */
  lemma EpisodeEvents(logon: Logon, bodies: seq<Body>)
    ensures var events := Episode(logon, bodies);
      if logon.Refused? then events == [Lock, LogonErr, Unlock]
      else
        && |events| == |bodies| + 4 && events[0] == Lock && events[1] == LogonOk(logon.guid)
        && (forall i :: 0 <= i < |bodies| ==> events[i + 2] == Request(logon.guid, bodies[i]))
        && events[|bodies| + 2] == Logoff(logon.guid) && events[|bodies| + 3] == Unlock
  {
  }

  /** Every episode takes a caller from outside the lock back to outside it. */
  lemma EpisodeReturnsOutside(logon: Logon, bodies: seq<Body>)
    ensures Run(Outside, Episode(logon, bodies)) == Some(Outside)
  {
    match logon
    case Refused =>
      assert Episode(logon, bodies) == [Lock] + ([LogonErr] + [Unlock]);
      RunAppend(Outside, [Lock], [LogonErr] + [Unlock]);
      RunAppend(Locked, [LogonErr], [Unlock]);
      RunOne(Outside, Lock);
      RunOne(Locked, LogonErr);
      RunOne(Ending, Unlock);
    case Granted(g) =>
      SessionReturnsOutside(g, bodies);
  }

  lemma SessionReturnsOutside(g: int, bodies: seq<Body>)
    ensures Run(Outside, Episode(Granted(g), bodies)) == Some(Outside)
  {
    var rest := Requests(g, bodies) + ([Logoff(g)] + [Unlock]);
    assert Episode(Granted(g), bodies) == [Lock] + ([LogonOk(g)] + rest);
    RunAppend(Outside, [Lock], [LogonOk(g)] + rest);
    RunAppend(Locked, [LogonOk(g)], rest);
    RunAppend(InSession(g), Requests(g, bodies), [Logoff(g)] + [Unlock]);
    RequestsStayInSession(g, bodies);
    RunAppend(InSession(g), [Logoff(g)], [Unlock]);
    RunOne(Outside, Lock);
    RunOne(Locked, LogonOk(g));
    RunOne(InSession(g), Logoff(g));
    RunOne(Ending, Unlock);
  }

  // ---------------------------------------------------------------- INVQRY

  /** One row of an INVQRY answer; available is None when AvailableQty does not parse. */
  datatype WarehouseItem = WarehouseItem(warehouse: string, available: Option<real>)

  datatype StockAnswer = NotXml | Items(items: seq<WarehouseItem>)

  /** Row i is the first one of the warehouse. */
  predicate FirstRow(items: seq<WarehouseItem>, i: int, warehouse: string) {
    0 <= i < |items| && items[i].warehouse == warehouse && forall k :: 0 <= k < i ==> items[k].warehouse != warehouse
  }

  function FindWarehouse(items: seq<WarehouseItem>, warehouse: string): (r: Option<WarehouseItem>)
    ensures r.None? <==> forall i :: 0 <= i < |items| ==> items[i].warehouse != warehouse
    ensures r.Some? ==> exists i :: FirstRow(items, i, warehouse) && items[i] == r.value
  {
    if items == [] then None
    else if items[0].warehouse == warehouse then
      assert FirstRow(items, 0, warehouse);
      Some(items[0])
    else
      var rest := FindWarehouse(items[1..], warehouse);
      assert forall i :: FirstRow(items[1..], i, warehouse) ==> FirstRow(items, i + 1, warehouse);
      rest
  }

  /** The quantity one query yields: none for a failed query, 0 when the warehouse has no row. */
  function Reading(x: Exchange<StockAnswer>, warehouse: string): Option<real> {
    match x
    case NoAnswer => None
    case Answer(NotXml) => None
    case Answer(Items(items)) =>
      var found := FindWarehouse(items, warehouse);
      if found.None? then Some(0.0) else found.value.available
  }

  /** A quantity is read exactly from an XML answer: 0 when no row is of the warehouse, else what its first row says. */
  lemma ReadingMeans(x: Exchange<StockAnswer>, warehouse: string, qty: real)
    ensures Reading(x, warehouse) == Some(qty) <==>
      x.Answer? && x.value.Items?
      && if forall i :: 0 <= i < |x.value.items| ==> x.value.items[i].warehouse != warehouse then qty == 0.0
         else exists i :: FirstRow(x.value.items, i, warehouse) && x.value.items[i].available == Some(qty)
  {
    if x.Answer? && x.value.Items? && FindWarehouse(x.value.items, warehouse).Some? {
      var i :| FirstRow(x.value.items, i, warehouse) && x.value.items[i] == FindWarehouse(x.value.items, warehouse).value;
      assert forall k :: FirstRow(x.value.items, k, warehouse) ==> k == i;
    }
  }

  /** The i-th query of the cycle was for sku and gave a quantity. */
  predicate ReadAt(skus: seq<string>, xs: int -> Exchange<StockAnswer>, warehouse: string, i: int, sku: string) {
    0 <= i < |skus| && skus[i] == sku && Reading(xs(i), warehouse).Some?
  }

  ghost predicate LastRead(skus: seq<string>, xs: int -> Exchange<StockAnswer>, warehouse: string, i: int, sku: string, qty: real) {
    && ReadAt(skus, xs, warehouse, i, sku) && qty == Reading(xs(i), warehouse).value
    && forall j :: i < j ==> !ReadAt(skus, xs, warehouse, j, sku)
  }

  /** stock holds exactly the SKUs that were read, each at its last reading. */
  ghost predicate StockFrom(skus: seq<string>, xs: int -> Exchange<StockAnswer>, warehouse: string, stock: map<string, real>) {
    && (forall i, sku :: ReadAt(skus, xs, warehouse, i, sku) ==> sku in stock)
    && (forall sku :: sku in stock ==> exists i :: LastRead(skus, xs, warehouse, i, sku, stock[sku]))
  }

  method Absorb(stock: map<string, real>, sku: string, x: Exchange<StockAnswer>, warehouse: string) returns (stock': map<string, real>)
    ensures stock' == match Reading(x, warehouse) case None => stock case Some(q) => stock[sku := q]
  {
    stock' := stock;
    if x.Answer? && x.value.Items? {
      var found := FindWarehouse(x.value.items, warehouse);
      if found.None? {
        stock' := stock[sku := 0.0];
      } else if found.value.available.Some? {
        stock' := stock[sku := found.value.available.value];
      }
    }
  }

  // ---------------------------------------------------------------- SORQRY

  datatype DispatchAnswer = NotOrderXml | NoSalesOrder | Detail(salesOrder: string, status: string, carrier: string)

  datatype Dispatch = Dispatch(salesOrder: string, status: string, carrier: string)

  predicate DetailAt(numbers: seq<string>, xs: int -> Exchange<DispatchAnswer>, i: int, number: string) {
    0 <= i < |numbers| && numbers[i] == number && xs(i).Answer? && xs(i).value.Detail?
  }

  ghost predicate DetailRead(numbers: seq<string>, xs: int -> Exchange<DispatchAnswer>, i: int, number: string, d: Dispatch) {
    && DetailAt(numbers, xs, i, number) && d == Dispatch(xs(i).value.salesOrder, xs(i).value.status, xs(i).value.carrier)
    && forall j :: i < j ==> !DetailAt(numbers, xs, j, number)
  }

  /** found holds exactly the numbers that answered, each with its last answer. */
  ghost predicate DispatchFrom(numbers: seq<string>, xs: int -> Exchange<DispatchAnswer>, found: map<string, Dispatch>) {
    && (forall i, number :: DetailAt(numbers, xs, i, number) ==> number in found)
    && (forall number :: number in found ==> exists i :: DetailRead(numbers, xs, i, number, found[number]))
  }

  lemma LastReadings(skus: seq<string>, xs: int -> Exchange<StockAnswer>, warehouse: string, stock: map<string, real>)
    requires StockFrom(skus, xs, warehouse, stock)
    ensures forall sku :: sku in stock ==> exists i ::
      && 0 <= i < |skus| && skus[i] == sku && Reading(xs(i), warehouse) == Some(stock[sku])
      && forall j :: i < j < |skus| && skus[j] == sku ==> Reading(xs(j), warehouse).None?
  {
    forall sku | sku in stock
      ensures exists i ::
        && 0 <= i < |skus| && skus[i] == sku && Reading(xs(i), warehouse) == Some(stock[sku])
        && forall j :: i < j < |skus| && skus[j] == sku ==> Reading(xs(j), warehouse).None?
    {
      var i :| LastRead(skus, xs, warehouse, i, sku, stock[sku]);
      forall j | i < j < |skus| && skus[j] == sku ensures Reading(xs(j), warehouse).None? {
        assert !ReadAt(skus, xs, warehouse, j, sku);
      }
      assert skus[i] == sku;
    }
  }

  lemma LastDetails(numbers: seq<string>, xs: int -> Exchange<DispatchAnswer>, found: map<string, Dispatch>)
    requires DispatchFrom(numbers, xs, found)
    ensures forall number :: number in found ==> exists i ::
      && 0 <= i < |numbers| && numbers[i] == number && xs(i).Answer? && xs(i).value == Detail(found[number].salesOrder, found[number].status, found[number].carrier)
      && forall j :: i < j < |numbers| && numbers[j] == number ==> !(xs(j).Answer? && xs(j).value.Detail?)
  {
    forall number | number in found
      ensures exists i ::
        && 0 <= i < |numbers| && numbers[i] == number && xs(i).Answer? && xs(i).value == Detail(found[number].salesOrder, found[number].status, found[number].carrier)
        && forall j :: i < j < |numbers| && numbers[j] == number ==> !(xs(j).Answer? && xs(j).value.Detail?)
    {
      var i :| DetailRead(numbers, xs, i, number, found[number]);
      forall j | i < j < |numbers| && numbers[j] == number ensures !(xs(j).Answer? && xs(j).value.Detail?) {
        assert !DetailAt(numbers, xs, j, number);
      }
      assert numbers[i] == number;
    }
  }

  // ---------------------------------------------------------------- the client

  class EnetClient {
    const config: Config
    var locked: bool
    ghost var log: seq<Event>

    constructor (config: Config)
      ensures this.config == config && Valid() && At() == Outside && log == []
    {
      this.config := config;
      locked := false;
      log := [];
    }

    /** The log is a legal string of events and locked is the mutex. */
    ghost predicate Valid()
      reads this
    {
      Run(Outside, log).Some? && (locked <==> Run(Outside, log).value != Outside)
    }

    ghost function At(): Pc
      requires Valid()
      reads this
    {
      Run(Outside, log).value
    }

    ghost method Record(e: Event)
      requires Run(Outside, log).Some? && After(Run(Outside, log).value, e).Some?
      modifies this`log
      ensures log == old(log) + [e]
      ensures Run(Outside, log) == After(old(Run(Outside, log)).value, e)
    {
      RunAppend(Outside, log, [e]);
      RunOne(Run(Outside, log).value, e);
      log := log + [e];
    }

    /** sessionMu.Lock waits until the mutex is free; a call is only resumed then. */
    method Acquire()
      requires Valid() && At() == Outside
      modifies this
      ensures Valid() && At() == Locked && log == old(log) + [Lock]
    {
      locked := true;
      Record(Lock);
    }

    method Release()
      requires Valid() && At() == Ending
      modifies this
      ensures Valid() && At() == Outside && log == old(log) + [Unlock]
    {
      locked := false;
      Record(Unlock);
    }

    /** Sends the logon and records its outcome; on failure the caller still holds the lock. */
    method LogOn(logon: Logon) returns (r: Result<int, string>)
      requires Valid() && At() == Locked
      modifies this
      ensures logon.Granted? ==>
        r == Ok(logon.guid) && Valid() && At() == InSession(logon.guid) && log == old(log) + [LogonOk(logon.guid)]
      ensures logon.Refused? ==> r.Err? && Valid() && At() == Ending && log == old(log) + [LogonErr]
    {
      match logon {
        case Granted(g) => Record(LogonOk(g)); r := Ok(g);
        case Refused => Record(LogonErr); r := Err("syspro logon");
      }
    }

    method Send(guid: int, ghost body: Body)
      requires Valid() && At() == InSession(guid)
      modifies this
      ensures Valid() && At() == InSession(guid) && log == old(log) + [Request(guid, body)]
    {
      Record(Request(guid, body));
    }

    method LogOff(guid: int)
      requires Valid() && At() == InSession(guid)
      modifies this
      ensures Valid() && At() == Ending && log == old(log) + [Logoff(guid)]
    {
      Record(Logoff(guid));
    }

    /** Returns an open session with the lock held, or an error with the lock released. */
    method OpenSession(logon: Logon) returns (r: Result<EnetSession, string>)
      requires Valid() && At() == Outside
      modifies this
      ensures Valid()
      ensures logon.Granted? ==>
        r.Ok? && fresh(r.value) && r.value.client == this && r.value.guid == logon.guid
        && At() == InSession(logon.guid) && log == old(log) + [Lock, LogonOk(logon.guid)]
      ensures logon.Refused? ==> r.Err? && At() == Outside && log == old(log) + Episode(Refused, [])
    {
      Acquire();
      var g := LogOn(logon);
      if g.Err? {
        Release();
        return Err(g.error);
      }
      var session := new EnetSession(this, g.value);
      r := Ok(session);
    }

    method SubmitSalesOrder(order: OrderData, ls: seq<Line>, logon: Logon, x: Exchange<Response>) returns (r: Reply)
      requires Valid() && At() == Outside
      modifies this
      ensures Valid() && At() == Outside
      ensures log == old(log) + Episode(logon, [SORTOI(DocumentOf(order, ls, config))])
      ensures logon.Granted? && x.Answer? ==> r == ParseResponse(x.value)
      ensures r.InfraError? <==> logon.Refused? || x.NoAnswer? || x.value.Malformed?
      ensures logon.Granted? && x.Answer? && x.value.Response? ==>
        && (x.value.salesOrder != "" ==> r == Accepted(x.value.salesOrder))
        && (r.Rejected? <==> x.value.salesOrder == "" && (x.value.customerPoNumber != "" || x.value.itemsProcessed in {"", "000000"}))
        && (r.Accepted? ==> r.number == x.value.salesOrder)
    {
      var session := OpenSession(logon);
      if session.Err? {
        return InfraError(session.error);
      }
      r := session.value.SubmitOrder(order, ls, x);
      session.value.Close();
    }

    method QueryStock(skus: seq<string>, warehouse: string, logon: Logon, xs: int -> Exchange<StockAnswer>)
      returns (r: Result<map<string, real>, string>)
      requires Valid() && At() == Outside
      modifies this
      ensures Valid() && At() == Outside
      ensures log == old(log) + Episode(logon, StockQueries(skus))
      ensures logon.Refused? ==> r.Err?
      ensures logon.Granted? ==> r.Ok? && StockFrom(skus, xs, warehouse, r.value)
      ensures logon.Granted? ==> forall sku :: sku in r.value ==> exists i ::
        && 0 <= i < |skus| && skus[i] == sku && Reading(xs(i), warehouse) == Some(r.value[sku])
        && forall j :: i < j < |skus| && skus[j] == sku ==> Reading(xs(j), warehouse).None?
      ensures logon.Granted? ==> forall i :: 0 <= i < |skus| ==>
        |old(log)| + i + 2 < |log| && log[|old(log)| + i + 2] == Request(logon.guid, INVQRY(skus[i]))
    {
      EpisodeEvents(logon, StockQueries(skus));
      Acquire();
      var g := LogOn(logon);
      if g.Err? {
        Release();
        return Err(g.error);
      }
      var stock := AskStock(g.value, skus, warehouse, xs);
      LastReadings(skus, xs, warehouse, stock);
      LogOff(g.value);
      Release();
      EpisodeSteps(g.value, StockQueries(skus), old(log));
      r := Ok(stock);
    }

    /** The loop of QueryStock, inside its session. */
    method AskStock(guid: int, skus: seq<string>, warehouse: string, xs: int -> Exchange<StockAnswer>) returns (stock: map<string, real>)
      requires Valid() && At() == InSession(guid)
      modifies this
      ensures Valid() && At() == InSession(guid)
      ensures log == old(log) + Requests(guid, StockQueries(skus))
      ensures StockFrom(skus, xs, warehouse, stock)
    {
      stock := map[];
      ghost var sent: seq<Body> := [];
      for i := 0 to |skus|
        invariant Valid() && At() == InSession(guid)
        invariant sent == StockQueries(skus[..i])
        invariant log == old(log) + Requests(guid, sent)
        invariant StockFrom(skus[..i], xs, warehouse, stock)
      {
        Send(guid, INVQRY(skus[i]));
        RequestsExtend(guid, sent, INVQRY(skus[i]));
        sent := sent + [INVQRY(skus[i])];
        assert sent == StockQueries(skus[..i + 1]);
        ghost var before := stock;
        stock := Absorb(stock, skus[i], xs(i), warehouse);
        StockExtends(skus, xs, warehouse, i, before, stock);
      }
      assert skus[..|skus|] == skus;
    }

    method QueryDispatchedOrders(numbers: seq<string>, logon: Logon, xs: int -> Exchange<DispatchAnswer>)
      returns (r: Result<map<string, Dispatch>, string>)
      requires Valid() && At() == Outside
      modifies this
      ensures Valid() && At() == Outside
      ensures log == old(log) + Episode(logon, OrderQueries(numbers))
      ensures logon.Refused? ==> r.Err?
      ensures logon.Granted? ==> r.Ok? && DispatchFrom(numbers, xs, r.value)
      ensures logon.Granted? ==> forall number :: number in r.value ==> exists i ::
        && 0 <= i < |numbers| && numbers[i] == number && xs(i).Answer?
        && xs(i).value == Detail(r.value[number].salesOrder, r.value[number].status, r.value[number].carrier)
        && forall j :: i < j < |numbers| && numbers[j] == number ==> !(xs(j).Answer? && xs(j).value.Detail?)
      ensures logon.Granted? ==> forall i :: 0 <= i < |numbers| ==>
        |old(log)| + i + 2 < |log| && log[|old(log)| + i + 2] == Request(logon.guid, SORQRY(numbers[i]))
    {
      EpisodeEvents(logon, OrderQueries(numbers));
      Acquire();
      var g := LogOn(logon);
      if g.Err? {
        Release();
        return Err(g.error);
      }
      var found := AskDispatch(g.value, numbers, xs);
      LastDetails(numbers, xs, found);
      LogOff(g.value);
      Release();
      EpisodeSteps(g.value, OrderQueries(numbers), old(log));
      r := Ok(found);
    }

    /** The loop of QueryDispatchedOrders, inside its session. */
    method AskDispatch(guid: int, numbers: seq<string>, xs: int -> Exchange<DispatchAnswer>) returns (found: map<string, Dispatch>)
      requires Valid() && At() == InSession(guid)
      modifies this
      ensures Valid() && At() == InSession(guid)
      ensures log == old(log) + Requests(guid, OrderQueries(numbers))
      ensures DispatchFrom(numbers, xs, found)
    {
      found := map[];
      ghost var sent: seq<Body> := [];
      for i := 0 to |numbers|
        invariant Valid() && At() == InSession(guid)
        invariant sent == OrderQueries(numbers[..i])
        invariant log == old(log) + Requests(guid, sent)
        invariant DispatchFrom(numbers[..i], xs, found)
      {
        Send(guid, SORQRY(numbers[i]));
        RequestsExtend(guid, sent, SORQRY(numbers[i]));
        sent := sent + [SORQRY(numbers[i])];
        assert sent == OrderQueries(numbers[..i + 1]);
        ghost var before := found;
        var x := xs(i);
        if x.Answer? && x.value.Detail? {
          found := found[numbers[i] := Dispatch(x.value.salesOrder, x.value.status, x.value.carrier)];
        }
        DispatchExtends(numbers, xs, i, before, found);
      }
      assert numbers[..|numbers|] == numbers;
    }

    /** built is the outcome of building the ARSTPY documents, which happens before the lock is taken. */
    method PostCashReceipt(built: Result<string, string>, logon: Logon, x: Exchange<Result<string, string>>)
      returns (r: Result<string, string>)
      requires Valid() && At() == Outside
      modifies this
      ensures Valid() && At() == Outside
      ensures log == if built.Err? then old(log) else old(log) + Episode(logon, [ARSTPY(built.value)])
      ensures r == if built.Err? then built else if logon.Refused? then Err("syspro logon")
                   else if x.NoAnswer? then Err("syspro ARSTPY transaction") else x.value
    {
      if built.Err? {
        return built;
      }
      Acquire();
      var g := LogOn(logon);
      if g.Err? {
        Release();
        return Err("syspro logon");
      }
      Send(g.value, ARSTPY(built.value));
      r := if x.NoAnswer? then Err("syspro ARSTPY transaction") else x.value;
      LogOff(g.value);
      Release();
    }
  }

  class EnetSession {
    const client: EnetClient
    const guid: int

    constructor (client: EnetClient, guid: int)
      ensures this.client == client && this.guid == guid
    {
      this.client, this.guid := client, guid;
    }

    /** One SORTOI call on this session's guid; the session stays open. */
    method SubmitOrder(order: OrderData, ls: seq<Line>, x: Exchange<Response>) returns (r: Reply)
      requires client.Valid() && client.At() == InSession(guid)
      modifies client
      ensures client.Valid() && client.At() == InSession(guid)
      ensures client.log == old(client.log) + [Request(guid, SORTOI(DocumentOf(order, ls, client.config)))]
      ensures r == if x.NoAnswer? then InfraError("syspro SORTOI transaction") else ParseResponse(x.value)
      ensures r.InfraError? <==> x.NoAnswer? || x.value.Malformed?
      ensures x.Answer? && x.value.Response? ==>
        && (x.value.salesOrder != "" ==> r == Accepted(x.value.salesOrder))
        && (r.Rejected? <==> x.value.salesOrder == "" && (x.value.customerPoNumber != "" || x.value.itemsProcessed in {"", "000000"}))
        && (r.Accepted? ==> r.number == x.value.salesOrder)
    {
      var doc := BuildSORTOI(order, ls, client.config);
      client.Send(guid, SORTOI(doc));
      r := if x.NoAnswer? then InfraError("syspro SORTOI transaction") else ParseResponse(x.value);
    }

    /** Logs off and releases the lock, whether or not SYSPRO answers the logoff. */
    method Close()
      requires client.Valid() && client.At() == InSession(guid)
      modifies client
      ensures client.Valid() && client.At() == Outside
      ensures client.log == old(client.log) + [Logoff(guid), Unlock]
    {
      client.LogOff(guid);
      client.Release();
    }
  }

  lemma StockExtends(skus: seq<string>, xs: int -> Exchange<StockAnswer>, warehouse: string, n: int, before: map<string, real>, after: map<string, real>)
    requires 0 <= n < |skus| && StockFrom(skus[..n], xs, warehouse, before)
    requires after == match Reading(xs(n), warehouse) case None => before case Some(q) => before[skus[n] := q]
    ensures StockFrom(skus[..n + 1], xs, warehouse, after)
  {
    var p, q := skus[..n], skus[..n + 1];
    assert forall i, sku :: ReadAt(p, xs, warehouse, i, sku) ==> ReadAt(q, xs, warehouse, i, sku);
    assert forall i, sku :: i != n && ReadAt(q, xs, warehouse, i, sku) ==> ReadAt(p, xs, warehouse, i, sku);
    forall sku | sku in after
      ensures exists i :: LastRead(q, xs, warehouse, i, sku, after[sku])
    {
      if sku == skus[n] && Reading(xs(n), warehouse).Some? {
        assert LastRead(q, xs, warehouse, n, sku, after[sku]);
      } else {
        var i :| LastRead(p, xs, warehouse, i, sku, before[sku]);
        assert !ReadAt(q, xs, warehouse, n, sku);
        assert LastRead(q, xs, warehouse, i, sku, after[sku]);
      }
    }
  }

  lemma DispatchExtends(numbers: seq<string>, xs: int -> Exchange<DispatchAnswer>, n: int, before: map<string, Dispatch>, after: map<string, Dispatch>)
    requires 0 <= n < |numbers| && DispatchFrom(numbers[..n], xs, before)
    requires after == if xs(n).Answer? && xs(n).value.Detail?
      then before[numbers[n] := Dispatch(xs(n).value.salesOrder, xs(n).value.status, xs(n).value.carrier)] else before
    ensures DispatchFrom(numbers[..n + 1], xs, after)
  {
    var p, q := numbers[..n], numbers[..n + 1];
    assert forall i, number :: DetailAt(p, xs, i, number) ==> DetailAt(q, xs, i, number);
    assert forall i, number :: i != n && DetailAt(q, xs, i, number) ==> DetailAt(p, xs, i, number);
    forall number | number in after
      ensures exists i :: DetailRead(q, xs, i, number, after[number])
    {
      if number == numbers[n] && xs(n).Answer? && xs(n).value.Detail? {
        assert DetailRead(q, xs, n, number, after[number]);
      } else {
        var i :| DetailRead(p, xs, i, number, before[number]);
        assert !DetailAt(q, xs, n, number);
        assert DetailRead(q, xs, i, number, after[number]);
      }
    }
  }
}
