/** The Shopify side of fulfilment: finding an open fulfilment order and creating the fulfilment. */
module FulfilmentClient {
  import opened Wrappers
  import opened Enet
  import opened Ingest

  datatype FulfilmentOrder = FulfilmentOrder(id: string, status: string)

  /** The answer of fulfillmentCreate: the new fulfilment's id, if there is one, and the user errors. */
  datatype CreateAnswer = CreateAnswer(fulfilment: Option<string>, errors: seq<string>)

  const CLOSED := "CLOSED"

  predicate Takeable(f: FulfilmentOrder) {
    f.status != CLOSED && f.status != "CANCELLED"
  }

  /** The query asks for the first ten. */
  function Page(orders: seq<FulfilmentOrder>): seq<FulfilmentOrder> {
    if |orders| <= 10 then orders else orders[..10]
  }

  predicate FirstAt(orders: seq<FulfilmentOrder>, i: int, id: string) {
    0 <= i < |orders| && Takeable(orders[i]) && orders[i].id == id && forall k :: 0 <= k < i ==> !Takeable(orders[k])
  }

  function FirstOpen(orders: seq<FulfilmentOrder>): (r: Option<string>)
    ensures r.None? <==> forall i :: 0 <= i < |orders| ==> !Takeable(orders[i])
    ensures r.Some? ==> exists i :: FirstAt(orders, i, r.value)
  {
    if orders == [] then None
    else if Takeable(orders[0]) then
      assert FirstAt(orders, 0, orders[0].id);
      Some(orders[0].id)
    else
      assert forall i :: 1 <= i < |orders| ==> orders[i] == orders[1..][i - 1];
      var rest := FirstOpen(orders[1..]);
      assert forall i :: rest.Some? && FirstAt(orders[1..], i, rest.value) ==> FirstAt(orders, i + 1, rest.value);
      rest
  }

  /** What GetFulfillmentOrderID gives: nothing when the query fails or every listed fulfilment order is closed or cancelled. */
  function Located(listing: Exchange<seq<FulfilmentOrder>>): Option<string> {
    if listing.Answer? then FirstOpen(listing.value) else None
  }

  predicate HoldsAt(s: string, t: string, i: int) {
    0 <= i <= |s| - |t| && s[i..i + |t|] == t
  }

  predicate Contains(s: string, t: string) {
    exists i :: 0 <= i <= |s| && HoldsAt(s, t, i)
  }

  predicate SaysFulfilled(message: string) {
    Contains(Lower(message), "already fulfilled") || Contains(Lower(message), "already been fulfilled")
  }

  /**
   What CreateFulfillment gives, None being an error. An answer that says the order is already fulfilled is a success
   without an id, whatever else it says; so is one with neither a fulfilment nor an error.
   */
  function CreatedId(x: Exchange<CreateAnswer>): Option<string> {
    if x.NoAnswer? then None
    else if exists i :: 0 <= i < |x.value.errors| && SaysFulfilled(x.value.errors[i]) then Some("")
    else if x.value.errors != [] then None
    else if x.value.fulfilment.Some? then x.value.fulfilment
    else Some("")
  }

  /** s with t somewhere in it, however that is written. */
  lemma ContainsMeans(s: string, t: string)
    ensures Contains(s, t) <==> exists a, b :: s == a + t + b
  {
    if i :| 0 <= i <= |s| && HoldsAt(s, t, i) {
      assert s == s[..i] + t + s[i + |t|..];
    }
    if a, b :| s == a + t + b {
      assert s[|a|..|a| + |t|] == t;
      assert HoldsAt(s, t, |a|);
    }
  }

  method GetFulfillmentOrderID(listing: Exchange<seq<FulfilmentOrder>>) returns (r: Option<string>)
    ensures r == Located(listing)
    ensures listing.NoAnswer? ==> r.None?
    ensures listing.Answer? ==>
      (r.None? <==> forall i :: 0 <= i < |listing.value| ==> listing.value[i].status in {"CLOSED", "CANCELLED"})
    ensures r.Some? ==> exists i :: FirstAt(listing.value, i, r.value)
  {
    if listing.NoAnswer? {
      return None;
    }
    var orders := listing.value;
    for i := 0 to |orders|
      invariant FirstOpen(orders[i..]) == FirstOpen(orders)
    {
      assert orders[i..][0] == orders[i] && orders[i..][1..] == orders[i + 1..];
      if orders[i].status == CLOSED || orders[i].status == "CANCELLED" {
        continue;
      }
      return Some(orders[i].id);
    }
    r := None;
  }

  method CreateFulfillment(x: Exchange<CreateAnswer>) returns (r: Option<string>)
    ensures r == CreatedId(x)
    ensures x.NoAnswer? ==> r.None?
    ensures x.Answer? && x.value.errors != [] ==>
      var said := exists m :: m in x.value.errors && (Contains(Lower(m), "already fulfilled") || Contains(Lower(m), "already been fulfilled"));
      r == if said then Some("") else None
    ensures x.Answer? && x.value.errors == [] ==> r == Some(if x.value.fulfilment.Some? then x.value.fulfilment.value else "")
  {
    if x.NoAnswer? {
      return None;
    }
    var errors := x.value.errors;
    for i := 0 to |errors|
      invariant forall k :: 0 <= k < i ==> !SaysFulfilled(errors[k])
    {
      if SaysFulfilled(errors[i]) {
        return Some("");
      }
    }
    if |errors| > 0 {
      return None;
    }
    if x.value.fulfilment.Some? {
      return x.value.fulfilment;
    }
    r := Some("");
  }
}
