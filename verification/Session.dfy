/**
 The SYSPRO session protocol. SYSPRO keeps one session per operator, and a second logon evicts the
 first; sessionMu serialises the callers. A caller is any goroutine: batch, stock, fulfilment,
 cancellation webhook, payments. Each caller's events follow one automaton, and the machine
 interleaves any number of callers with remote expiry and crashes.
 */
module Session {
  import opened Wrappers
  import Sortoi

  /** The business object of one request and what it carries. */
  datatype Body =
    | SORTOI(document: Sortoi.Document)
    | INVQRY(sku: string)
    | SORQRY(number: string)
    | ARSTPY(receipt: string)

  /** What one caller does, in its own order. */
  datatype Event =
    | Lock
    | LogonOk(guid: int)
    | LogonErr
    | Request(guid: int, body: Body)
    | Logoff(guid: int)
    | Unlock

  datatype Pc = Outside | Locked | InSession(guid: int) | Ending

  /** The automaton every caller follows; None is a protocol violation. */
  function After(pc: Pc, e: Event): Option<Pc> {
    match (pc, e)
    case (Outside, Lock) => Some(Locked)
    case (Locked, LogonOk(g)) => Some(InSession(g))
    case (Locked, LogonErr) => Some(Ending)
    case (InSession(g), Request(h, _)) => if g == h then Some(pc) else None
    case (InSession(g), Logoff(h)) => if g == h then Some(Ending) else None
    case (Ending, Unlock) => Some(Outside)
    case _ => None
  }

  /** Where a caller stands after a string of events. */
  function Run(pc: Pc, events: seq<Event>): Option<Pc>
    decreases |events|
  {
    if events == [] then Some(pc)
    else
      match After(pc, events[0])
      case None => None
      case Some(next) => Run(next, events[1..])
  }

  lemma {:induction false} RunAppend(pc: Pc, p: seq<Event>, q: seq<Event>)
    ensures Run(pc, p + q) == match Run(pc, p) case None => None case Some(mid) => Run(mid, q)
    decreases |p|
  {
    if p == [] {
      assert p + q == q;
    } else {
      assert (p + q)[0] == p[0] && (p + q)[1..] == p[1..] + q;
      match After(pc, p[0])
      case None =>
      case Some(next) => RunAppend(next, p[1..], q);
    }
  }

  // ---------------------------------------------------------------- the machine

  /**
   holder is sessionMu. live is the session SYSPRO holds open, last the newest guid a logon returned
   to this process. disturbed records that something outside this process ended or replaced the live
   session since that logon; selfEvicted that one of our own logons evicted a session in use.
   */
  datatype State = State(
    pcs: map<int, Pc>, holder: Option<int>, live: Option<int>, last: Option<int>, nextGuid: int,
    locks: map<int, int>, unlocks: map<int, int>, disturbed: bool, selfEvicted: bool)

  function PcOf(s: State, t: int): Pc {
    if t in s.pcs then s.pcs[t] else Outside
  }

  function Count(m: map<int, int>, t: int): int {
    if t in m then m[t] else 0
  }

  const INITIAL := State(map[], None, None, None, 0, map[], map[], false, false)

  ghost predicate InUse(s: State, guid: Option<int>) {
    exists t :: t in s.pcs && s.pcs[t].InSession? && guid == Some(s.pcs[t].guid)
  }

  /** Caller t performs event e; effect says whether a logon or logoff whose answer failed still reached SYSPRO. */
  ghost predicate CallerStep(s: State, s': State, t: int, e: Event, effect: bool) {
    var next := After(PcOf(s, t), e);
    && next.Some?
    && var moved := s.(pcs := s.pcs[t := next.value]);
    match e
    case Lock => s.holder.None? && s' == moved.(holder := Some(t), locks := s.locks[t := Count(s.locks, t) + 1])
    case LogonOk(g) =>
      g == s.nextGuid
      && s' == moved.(live := Some(g), last := Some(g), nextGuid := g + 1, disturbed := false,
                      selfEvicted := s.selfEvicted || InUse(s, s.live))
    case LogonErr =>
      s' == if effect then moved.(live := Some(s.nextGuid), nextGuid := s.nextGuid + 1,
                                  selfEvicted := s.selfEvicted || InUse(s, s.live))
            else moved
    case Request(_, _) => s' == moved
    case Logoff(_) => s' == if effect then moved.(live := None) else moved
    case Unlock => s' == moved.(holder := None, unlocks := s.unlocks[t := Count(s.unlocks, t) + 1])
  }

  /** SYSPRO drops the session, or another system logs on with the same operator. */
  ghost predicate Disturb(s: State, s': State, replaced: bool) {
    s' == if replaced then s.(live := Some(s.nextGuid), nextGuid := s.nextGuid + 1, disturbed := true)
          else s.(live := None, disturbed := true)
  }

  /** The process dies: every goroutine and the mutex are gone, the remote session is not. */
  ghost predicate Crash(s: State, s': State) {
    s' == s.(pcs := map[], holder := None, locks := map[], unlocks := map[])
  }

  ghost predicate Next(s: State, s': State) {
    || (exists t, e: Event, effect :: CallerStep(s, s', t, e, effect))
    || (exists replaced :: Disturb(s, s', replaced))
    || Crash(s, s')
  }

  ghost predicate Inv(s: State) {
    && (forall t :: PcOf(s, t) != Outside <==> s.holder == Some(t))
    && (forall t :: t in s.pcs && s.pcs[t].InSession? ==>
      s.last == Some(s.pcs[t].guid) && (s.live == s.last || s.disturbed))
    && (forall t :: Count(s.locks, t) == Count(s.unlocks, t) + (if PcOf(s, t) == Outside then 0 else 1))
    && !s.selfEvicted
  }

  /** A caller's step leaves every other caller where it was; and whoever moves holds the lock or takes it free. */
  lemma OthersStay(s: State, s': State, t: int, e: Event, effect: bool)
    requires CallerStep(s, s', t, e, effect)
    ensures After(PcOf(s, t), e).Some? && PcOf(s', t) == After(PcOf(s, t), e).value
    ensures forall u :: u != t ==>
      PcOf(s', u) == PcOf(s, u) && Count(s'.locks, u) == Count(s.locks, u) && Count(s'.unlocks, u) == Count(s.unlocks, u)
  {
  }

  lemma HolderMoves(s: State, s': State, t: int, e: Event, effect: bool)
    requires Inv(s) && CallerStep(s, s', t, e, effect)
    ensures s.holder == Some(t) || (e.Lock? && s.holder == None)
    ensures forall u :: u != t ==> PcOf(s, u) == Outside
    ensures forall u :: PcOf(s', u) != Outside <==> s'.holder == Some(u)
  {
    OthersStay(s, s', t, e, effect);
    assert s.holder == Some(t) || (e.Lock? && s.holder == None);
    assert forall u :: u != t ==> PcOf(s, u) == Outside;
  }

  lemma CountsMove(s: State, s': State, t: int, e: Event, effect: bool)
    requires Inv(s) && CallerStep(s, s', t, e, effect)
    ensures forall u :: Count(s'.locks, u) == Count(s'.unlocks, u) + (if PcOf(s', u) == Outside then 0 else 1)
  {
    OthersStay(s, s', t, e, effect);
    assert Count(s.locks, t) == Count(s.unlocks, t) + (if PcOf(s, t) == Outside then 0 else 1);
  }

  lemma SessionsMove(s: State, s': State, t: int, e: Event, effect: bool)
    requires Inv(s) && CallerStep(s, s', t, e, effect)
    ensures forall u :: u in s'.pcs && s'.pcs[u].InSession? ==> s'.last == Some(s'.pcs[u].guid) && (s'.live == s'.last || s'.disturbed)
    ensures !s'.selfEvicted
  {
    HolderMoves(s, s', t, e, effect);
    assert forall u :: u in s.pcs ==> PcOf(s, u) == s.pcs[u];
    assert InUse(s, s.live) ==> PcOf(s, t).InSession?;
    assert forall u :: u != t && u in s'.pcs ==> s'.pcs[u] == PcOf(s, u);
  }

  lemma StepKeepsInv(s: State, s': State, t: int, e: Event, effect: bool)
    requires Inv(s) && CallerStep(s, s', t, e, effect)
    ensures Inv(s')
  {
    HolderMoves(s, s', t, e, effect);
    CountsMove(s, s', t, e, effect);
    SessionsMove(s, s', t, e, effect);
  }

  lemma NextKeepsInv(s: State, s': State)
    requires Inv(s) && Next(s, s')
    ensures Inv(s')
  {
    if t, e: Event, effect :| CallerStep(s, s', t, e, effect) {
      StepKeepsInv(s, s', t, e, effect);
    } else if replaced :| Disturb(s, s', replaced) {
      assert s'.pcs == s.pcs && forall t :: PcOf(s', t) == PcOf(s, t);
      assert s'.locks == s.locks && s'.unlocks == s.unlocks;
    }
  }

  /** A run: consecutive states are joined by steps. */
  ghost predicate Behaviour(states: seq<State>) {
    && |states| > 0 && states[0] == INITIAL
    && forall i :: 0 <= i < |states| - 1 ==> Next(states[i], states[i + 1])
  }

  lemma {:induction false} EveryStateInv(states: seq<State>, i: int)
    requires Behaviour(states) && 0 <= i < |states|
    ensures Inv(states[i])
    decreases i
  {
    if i > 0 {
      EveryStateInv(states, i - 1);
      NextKeepsInv(states[i - 1], states[i]);
    }
  }

  /** In every interleaving at most one caller is between Lock and Unlock. */
  lemma MutualExclusion(states: seq<State>, i: int, t: int, u: int)
    requires Behaviour(states) && 0 <= i < |states|
    requires PcOf(states[i], t) != Outside && PcOf(states[i], u) != Outside
    ensures t == u
  {
    EveryStateInv(states, i);
  }

  /**
   Every request travels on the guid of the newest successful logon; SYSPRO still holds that session
   open unless something outside this process ended it; and no logon of ours has evicted a session
   of ours that was in use.
   */
  lemma RequestsUseTheNewestSession(states: seq<State>, i: int, t: int, guid: int, body: Body, effect: bool)
    requires Behaviour(states) && 0 <= i < |states| - 1
    requires CallerStep(states[i], states[i + 1], t, Request(guid, body), effect)
    ensures states[i].last == Some(guid)
    ensures states[i].live == Some(guid) || states[i].disturbed
    ensures !states[i].selfEvicted
  {
    EveryStateInv(states, i);
  }

  /** Only the holder unlocks, and in every state each caller has unlocked once for each lock it is done with. */
  lemma LocksAreReleasedOnce(states: seq<State>, i: int, t: int)
    requires Behaviour(states) && 0 <= i < |states|
    ensures Count(states[i].locks, t) - Count(states[i].unlocks, t) == if states[i].holder == Some(t) then 1 else 0
    ensures forall e: Event, s', effect :: CallerStep(states[i], s', t, e, effect) && e.Unlock? ==> states[i].holder == Some(t)
  {
    EveryStateInv(states, i);
    forall e: Event, s', effect | CallerStep(states[i], s', t, e, effect) && e.Unlock?
      ensures states[i].holder == Some(t)
    {
      assert PcOf(states[i], t) == Ending;
    }
  }
}
