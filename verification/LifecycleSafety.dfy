/** Every step keeps the invariant of Lifecycle, and what follows for whole runs. */
module LifecycleSafety {
  import opened Wrappers
  import opened Store
  import opened Sortoi
  import opened Lifecycle

  // ---------------------------------------------------------------- one row at a time

  /** Fetched lists survive a rewrite of a row that is not on them. */
  lemma FreshKept(rows: Rows, id: int, row: Row, todo: seq<Snap>)
    requires Fresh(rows, todo) && forall k :: 0 <= k < |todo| ==> todo[k].id != id
    ensures Fresh(rows[id := row], todo)
  {
  }

  lemma FulFreshKept(rows: Rows, id: int, row: Row, todo: seq<FulSnap>)
    requires FulFresh(rows, todo)
    requires (forall k :: 0 <= k < |todo| ==> todo[k].id != id)
      || (id in rows && row.status == rows[id].status && row.sysproNumber == rows[id].sysproNumber && row.order == rows[id].order)
    ensures FulFresh(rows[id := row], todo)
  {
  }

  /** A row that does not wait for fulfilment is on no fulfilment list. */
  lemma FulOkKept(s: State, s': State, id: int, row: Row)
    requires FulOk(s) && s'.rows == s.rows[id := row]
    requires id in s.rows ==> !s.rows[id].status.Submitted?
    requires s'.ful == s.ful && s'.cycle == s.cycle && s'.evidence.dispatched == s.evidence.dispatched
    requires s'.evidence.created == s.evidence.created
    ensures FulOk(s')
  {
    match s.ful
    case FulIdle =>
    case FulFetched(todo) => FulFreshKept(s.rows, id, row, todo);
    case FulLooping(found, todo) => FulFreshKept(s.rows, id, row, todo);
    case InLocated(cur, _, found, todo) => FulFreshKept(s.rows, id, row, todo);
    case InCreated(cur, fulfilmentId, _, found, todo) => FulFreshKept(s.rows, id, row, todo);
  }

  lemma BatchOkKept(s: State, s': State, id: int, row: Row)
    requires BatchOk(s) && s'.rows == s.rows[id := row] && s'.batch == s.batch
    requires id in s.rows ==> !s.rows[id].status.Pending? && !s.rows[id].status.Processing?
    ensures BatchOk(s')
  {
    match s.batch
    case BatchIdle =>
    case Closing =>
    case Fetched(todo) => FreshKept(s.rows, id, row, todo);
    case Looping(todo) => FreshKept(s.rows, id, row, todo);
    case InClaim(cur, todo) => FreshKept(s.rows, id, row, todo);
    case InReply(cur, todo, _, _) => FreshKept(s.rows, id, row, todo);
  }

  lemma EvidencedKept(s: State, s': State, id: int, row: Row)
    requires Evidenced(s) && s'.rows == s.rows[id := row] && Provenance(s'.evidence, id, row)
    requires s.evidence.dispatched <= s'.evidence.dispatched && s.evidence.created <= s'.evidence.created
    requires s.evidence.submitted <= s'.evidence.submitted
    ensures Evidenced(s')
  {
    forall i | i in s'.rows ensures Provenance(s'.evidence, i, s'.rows[i]) {
      if i != id {
        MoreEvidence(s.evidence, s'.evidence, i, s.rows[i]);
      }
    }
  }

  lemma MoreEvidence(e: Evidence, e': Evidence, id: int, row: Row)
    requires Provenance(e, id, row)
    requires e.dispatched <= e'.dispatched && e.created <= e'.created && e.submitted <= e'.submitted
    ensures Provenance(e', id, row)
  {
    if row.status.Fulfilled? {
      var c: nat :| DispatchedIn(e, c, row.sysproNumber, id, row.fulfilmentId);
      assert DispatchedIn(e', c, row.sysproNumber, id, row.fulfilmentId);
    }
  }

  /** Accounting after one row and its ledger change: only that row needs checking. */
  lemma AccountedKept(s: State, s': State, id: int)
    requires Accounted(s) && id in s'.rows && id in s'.ledger
    requires s'.rows == s.rows[id := s'.rows[id]] && s'.ledger == s.ledger[id := s'.ledger[id]]
    requires forall i :: i != id ==> PhaseOf(s'.batch, i) == PhaseOf(s.batch, i)
    requires RowOk(s'.rows[id], s'.ledger[id], PhaseOf(s'.batch, id))
    ensures Accounted(s')
  {
    forall i | i in s'.rows ensures RowOk(s'.rows[i], s'.ledger[i], PhaseOf(s'.batch, i)) {
      if i != id {
        assert i in s.rows && RowOk(s.rows[i], s.ledger[i], PhaseOf(s.batch, i));
      }
    }
  }

  // ---------------------------------------------------------------- steps

  lemma StageKeeps(s: State, s': State, id: int, order: OrderData, added: LineRows, now: int)
    requires Inv(s) && s.up && StageStep(s, s', id, order, added, now)
    ensures Inv(s')
  {
    PhaseOfUnknown(s, id);
    AccountedKept(s, s', id);
    BatchOkKept(s, s', id, NewRow(order, now));
    FulOkKept(s, s', id, NewRow(order, now));
    EvidencedKept(s, s', id, NewRow(order, now));
  }

  lemma PhaseOfUnknown(s: State, id: int)
    requires BatchOk(s) && (id !in s.rows || !s.rows[id].status.Processing?)
    ensures PhaseOf(s.batch, id).Loose?
  {
  }

  lemma RetryKeeps(s: State, s': State, id: int, now: int)
    requires Inv(s) && s.up && RetryStep(s, s', id, now)
    ensures Inv(s')
  {
    var row := s'.rows[id];
    PhaseOfUnknown(s, id);
    AccountedKept(s, s', id);
    BatchOkKept(s, s', id, row);
    FulOkKept(s, s', id, row);
    EvidencedKept(s, s', id, row);
  }

  lemma FetchKeeps(s: State, s': State, ids: seq<int>)
    requires Inv(s) && s.up && FetchStep(s, s', ids)
    ensures Inv(s')
  {
    assert Fresh(s.rows, Snaps(s.rows, ids));
  }

  lemma BatchMoveKeeps(s: State, s': State)
    requires Inv(s) && s.up && ((exists ok :: OpenStep(s, s', ok)) || StopStep(s, s') || CloseStep(s, s'))
    ensures Inv(s')
  {
  }

  lemma ClaimKeeps(s: State, s': State, fault: Fault, now: int)
    requires Inv(s) && s.up && ClaimStep(s, s', fault, now)
    ensures Inv(s')
  {
    var cur, rest := s.batch.todo[0], s.batch.todo[1..];
    assert Fresh(s.rows, rest);
    assert forall k :: 0 <= k < |rest| ==> rest[k] == s.batch.todo[k + 1];
    if !fault.Lost? {
      var row := s'.rows[cur.id];
      assert s'.rows == s.rows[cur.id := row];
      FreshKept(s.rows, cur.id, row, rest);
      assert RowOk(s.rows[cur.id], s.ledger[cur.id], Loose);
      assert s'.ledger == s.ledger[cur.id := s.ledger[cur.id]];
      AccountedKept(s, s', cur.id);
      FulOkKept(s, s', cur.id, row);
      EvidencedKept(s, s', cur.id, row);
    }
  }

  lemma CallKeeps(s: State, s': State, reply: Reply, booked: bool)
    requires Inv(s) && s.up && CallStep(s, s', reply, booked)
    ensures Inv(s')
  {
    var id := s.batch.cur.id;
    assert s'.rows == s.rows[id := s.rows[id]];
    assert RowOk(s.rows[id], s.ledger[id], Calling);
    AccountedKept(s, s', id);
  }

  lemma RecordKeeps(s: State, s': State, fault: Fault, now: int)
    requires Inv(s) && s.up && RecordStep(s, s', fault, now)
    ensures Inv(s')
  {
    var b := s.batch;
    var id := b.cur.id;
    assert RowOk(s.rows[id], s.ledger[id], Recording(b.booked));
    if fault.Lost? {
      assert s'.rows == s.rows[id := s.rows[id]] && s'.ledger == s.ledger[id := s.ledger[id]];
      AccountedKept(s, s', id);
    } else {
      var row := s'.rows[id];
      RecordedRowOk(s, s', now);
      AccountedKept(s, s', id);
      FreshKept(s.rows, id, row, b.todo);
      FulOkKept(s, s', id, row);
      EvidencedKept(s, s', id, row);
    }
  }

  lemma RecordedRowOk(s: State, s': State, now: int)
    requires Inv(s) && s.up && s.batch.InReply? && RecordStep(s, s', NoFault, now)
    ensures var id := s.batch.cur.id;
      id in s'.rows && s'.rows == s.rows[id := s'.rows[id]] && id in s'.ledger && RowOk(s'.rows[id], s'.ledger[id], Loose)
  {
    var b := s.batch;
    assert RowOk(s.rows[b.cur.id], s.ledger[b.cur.id], Recording(b.booked));
  }

  lemma FulFetchKeeps(s: State, s': State, ids: seq<int>)
    requires Inv(s) && s.up && FulFetchStep(s, s', ids)
    ensures Inv(s')
  {
    assert FulFresh(s.rows, FulSnaps(s.rows, ids));
  }

  lemma FulQueryKeeps(s: State, s': State, ok: bool, found: map<string, string>)
    requires Inv(s) && s.up && FulQueryStep(s, s', ok, found)
    ensures Inv(s')
  {
    forall id | id in s.rows ensures Provenance(s'.evidence, id, s.rows[id]) {
      MoreEvidence(s.evidence, s'.evidence, id, s.rows[id]);
    }
  }

  lemma FulTailFresh(rows: Rows, todo: seq<FulSnap>)
    requires FulFresh(rows, todo) && todo != []
    ensures FulFresh(rows, todo[1..]) && Waiting(rows, todo[0])
    ensures forall k :: 0 <= k < |todo[1..]| ==> todo[1..][k].id != todo[0].id
  {
    assert forall k :: 0 <= k < |todo[1..]| ==> todo[1..][k] == todo[k + 1];
  }

  lemma FulSkipKeeps(s: State, s': State)
    requires Inv(s) && s.up && (FulSkipStep(s, s') || FulDoneStep(s, s'))
    ensures Inv(s')
  {
    if s.ful.todo != [] {
      FulTailFresh(s.rows, s.ful.todo);
    }
  }

  lemma FulLocateKeeps(s: State, s': State)
    requires Inv(s) && s.up && FulLocateStep(s, s')
    ensures Inv(s')
  {
    FulTailFresh(s.rows, s.ful.todo);
  }

  lemma ShopKeeps(s: State, s': State)
    requires Inv(s) && s' == s.(shop := s'.shop)
    ensures Inv(s')
  {
  }

  lemma FulCreateKeeps(s: State, s': State, outcome: Creation)
    requires Inv(s) && s.up && FulCreateStep(s, s', outcome)
    ensures Inv(s')
  {
    forall id | id in s.rows ensures Provenance(s'.evidence, id, s.rows[id]) {
      MoreEvidence(s.evidence, s'.evidence, id, s.rows[id]);
    }
  }

  lemma FulRecordKeeps(s: State, s': State, fault: Fault, now: int)
    requires Inv(s) && s.up && FulRecordStep(s, s', fault, now)
    ensures Inv(s')
  {
    var f := s.ful;
    if !fault.Lost? {
      var row := s'.rows[f.cur.id];
      assert DispatchedIn(s.evidence, s.cycle, row.sysproNumber, f.cur.id, row.fulfilmentId);
      FulFreshKept(s.rows, f.cur.id, row, f.todo);
      PhaseOfUnknown(s, f.cur.id);
      assert RowOk(s.rows[f.cur.id], s.ledger[f.cur.id], Loose);
      assert s'.ledger == s.ledger[f.cur.id := s.ledger[f.cur.id]];
      AccountedKept(s, s', f.cur.id);
      BatchOkKept(s, s', f.cur.id, row);
      EvidencedKept(s, s', f.cur.id, row);
    }
  }

  lemma CrashKeeps(s: State, s': State)
    requires Inv(s) && CrashStep(s, s')
    ensures Inv(s')
  {
    forall id | id in s.rows ensures RowOk(s.rows[id], s.ledger[id], Loose) {
      assert RowOk(s.rows[id], s.ledger[id], PhaseOf(s.batch, id));
    }
  }

  lemma BootKeeps(s: State, s': State, fault: Fault, now: int, olderThan: int)
    requires Inv(s) && BootStep(s, s', fault, now, olderThan)
    ensures Inv(s')
  {
    if !fault.Lost? {
      forall id | id in s.rows
        ensures RowOk(s'.rows[id], s'.ledger[id], Loose) && Provenance(s'.evidence, id, s'.rows[id])
      {
        assert RowOk(s.rows[id], s.ledger[id], Loose) && Provenance(s.evidence, id, s.rows[id]);
        if Stale(s.rows[id], now, olderThan) {
          assert s'.rows[id].status.Pending?;
        }
      }
    }
  }

  lemma WritesKeepContent(s: State, s': State, step: Step)
    requires Takes(s, s', step) && (step.Retry? || step.Claim? || step.RecordReply? || step.FulRecord?)
    ensures SameContent(s.rows, s'.rows) && s'.lines == s.lines
  {
  }

  lemma OthersKeepRows(s: State, s': State, step: Step)
    requires Takes(s, s', step) && !step.Stage? && !step.Boot?
    requires !step.Retry? && !step.Claim? && !step.RecordReply? && !step.FulRecord?
    ensures s'.rows == s.rows && s'.lines == s.lines
  {
  }

  /** No step but staging touches what CreateOrder wrote, or the lines table. */
  lemma OtherStepsKeepContent(s: State, s': State, step: Step)
    requires Takes(s, s', step) && !step.Stage?
    ensures SameContent(s.rows, s'.rows) && s'.lines == s.lines
  {
    if step.Boot? {
      StaleResetKeepsContent(s.rows, step.now, step.olderThan);
    } else if step.Retry? || step.Claim? || step.RecordReply? || step.FulRecord? {
      WritesKeepContent(s, s', step);
    } else {
      OthersKeepRows(s, s', step);
    }
  }

  predicate ByFulfilment(step: Step) {
    step.FulFetch? || step.FulQuery? || step.FulSkip? || step.FulLocate? || step.FulCreate? || step.FulRecord? || step.FulDone?
  }

  lemma FulStepKeepsInv(s: State, s': State, step: Step)
    requires Inv(s) && Takes(s, s', step) && ByFulfilment(step)
    ensures Inv(s')
  {
    match step
    case FulFetch(ids) => FulFetchKeeps(s, s', ids);
    case FulQuery(ok, found) => FulQueryKeeps(s, s', ok, found);
    case FulSkip => FulSkipKeeps(s, s');
    case FulLocate => FulLocateKeeps(s, s');
    case FulCreate(outcome) => FulCreateKeeps(s, s', outcome);
    case FulRecord(fault, now) => FulRecordKeeps(s, s', fault, now);
    case FulDone => FulSkipKeeps(s, s');
  }

  lemma StepKeepsInv(s: State, s': State, step: Step)
    requires Inv(s) && Takes(s, s', step)
    ensures Inv(s')
  {
    if ByFulfilment(step) {
      FulStepKeepsInv(s, s', step);
    } else {
      match step
      case Boot(fault, now, olderThan) => BootKeeps(s, s', fault, now, olderThan);
      case Crash => CrashKeeps(s, s');
      case Shop(_, _) => ShopKeeps(s, s');
      case Stage(id, order, added, now) => StageKeeps(s, s', id, order, added, now);
      case Retry(id, now) => RetryKeeps(s, s', id, now);
      case Fetch(ids) => FetchKeeps(s, s', ids);
      case Open(ok) => BatchMoveKeeps(s, s');
      case Claim(fault, now) => ClaimKeeps(s, s', fault, now);
      case Call(reply, booked) => CallKeeps(s, s', reply, booked);
      case RecordReply(fault, now) => RecordKeeps(s, s', fault, now);
      case Stop => BatchMoveKeeps(s, s');
      case Close => BatchMoveKeeps(s, s');
    }
  }
}
