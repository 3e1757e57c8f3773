/** Schedules of the lock protocol: any number of settlements and acceptances, interleaved move by move
    with each other and with whole service calls.  Every schedule is equivalent to a serial run, no
    transaction waits in a cycle, and all of them can always be finished. */
module Schedules {
  import opened Wrappers
  import opened Tables
  import opened Rules
  import opened Invariants
  import opened LockProtocol
  import opened LockProofs
  import opened Runs
  import MatchProofs
  import Money

  // ---- The system -----------------------------------------------------------------------

  /** One call in the order in which the calls took effect, and the transaction that made it. */
  datatype Entry = Entry(op: Op, maker: Option<TxnId>)

  datatype System = System(
    db: Db, locks: map<Lockable, TxnId>, txns: map<TxnId, Local>, history: seq<Entry>)

  /** `Begin` starts a transaction, `Advance` lets one make its next move, `Call` runs another service
      call as one step. */
  datatype Turn = Begin(id: TxnId, txn: Txn) | Advance(id: TxnId) | Call(op: Op)

  function Initial(start: Db): System {
    System(start, map[], map[], [])
  }

  function Calls(history: seq<Entry>): (ops: seq<Op>)
    ensures |ops| == |history| && forall i :: 0 <= i < |ops| ==> ops[i] == history[i].op
  {
    seq(|history|, i requires 0 <= i < |history| => history[i].op)
  }

  function Release(locks: map<Lockable, TxnId>, id: TxnId): map<Lockable, TxnId> {
    map r | r in locks && locks[r] != id :: locks[r]
  }

  function Finish(s: System, id: TxnId, after: Db, stage: Stage): System
    requires id in s.txns
  {
    System(after, Release(s.locks, id),
           s.txns[id := s.txns[id].(stage := stage, position := |s.history|)],
           s.history + [Entry(OpOf(s.txns[id].txn), Some(id))])
  }

  /** A transaction waits as long as somebody holds the row it wants. */
  function Perform(s: System, id: TxnId, move: Move): System
    requires id in s.txns
  {
    match move
    case Lock(row, next) =>
      if row in s.locks then s else s.(locks := s.locks[row := id], txns := s.txns[id := s.txns[id].(stage := next)])
    case Work(next) => s.(txns := s.txns[id := s.txns[id].(stage := next)])
    case Commit(after) => Finish(s, id, after, Committed)
    case Abort(error) => Finish(s, id, s.db, Aborted(error))
    case Idle => s
  }

  function AdvanceOne(s: System, id: TxnId): System
    requires id in s.txns
  {
    Perform(s, id, NextMove(s.db, s.txns[id]))
  }

  /** The call writes no locked row, and no fee row that changes a rate an open settlement has read. */
  predicate Unlocked(s: System, after: Db) {
    forall id :: id in s.txns ==>
      RatesKept(s.db, after, s.txns[id]) && forall r :: r in Held(s.txns[id]) ==> RowSame(s.db, after, r)
  }

  /** A turn that is not possible yet leaves the system as it is. */
  function Exec(s: System, turn: Turn): System {
    match turn
    case Begin(id, txn) => if id in s.txns then s else s.(txns := s.txns[id := Local(txn, Begun, 0)])
    case Advance(id) => if id in s.txns then AdvanceOne(s, id) else s
    case Call(op) =>
      if Unlocked(s, After(s.db, op)) then s.(db := After(s.db, op), history := s.history + [Entry(op, None)]) else s
  }

  function ExecAll(s: System, turns: seq<Turn>): System {
    if turns == [] then s else Exec(ExecAll(s, turns[..|turns| - 1]), turns[|turns| - 1])
  }

  // ---- The invariant --------------------------------------------------------------------

  ghost predicate AllFresh(s: System) {
    forall id :: id in s.txns ==> Fresh(s.db, s.txns[id])
  }

  /** The lock table lists exactly what the transactions hold, each row once. */
  predicate LocksOk(s: System) {
    && (forall r :: r in s.locks ==> s.locks[r] in s.txns && r in Held(s.txns[s.locks[r]]))
    && (forall id, r :: id in s.txns && r in Held(s.txns[id]) ==> r in s.locks && s.locks[r] == id)
  }

  /** The call a transaction made, run in the serial state at its position, ended as the transaction did. */
  predicate SerialAt(start: Db, ops: seq<Op>, l: Local) {
    && l.position < |ops| && ops[l.position] == OpOf(l.txn)
    && var r := Step(Run(start, ops[..l.position]), ops[l.position]);
       match l.stage
       case Committed => r.Ok?
       case Aborted(error) => r == Err(error)
       case _ => true
  }

  predicate Recorded(start: Db, s: System) {
    forall id :: id in s.txns && Finished(s.txns[id]) ==>
      && SerialAt(start, Calls(s.history), s.txns[id])
      && s.history[s.txns[id].position].maker == Some(id)
  }

  /** Every entry of the history is the call of a finished transaction, at its position, or an atomic call. */
  predicate Owned(s: System) {
    forall i :: 0 <= i < |s.history| && s.history[i].maker.Some? ==>
      var id := s.history[i].maker.value;
      id in s.txns && Finished(s.txns[id]) && s.txns[id].position == i
  }

  /** The database is the outcome of the history, run serially. */
  ghost predicate Serial(start: Db, s: System) {
    Inv(s.db) && Leads(start, Calls(s.history), s.db)
  }

  ghost predicate Live(s: System) {
    AllFresh(s) && LocksOk(s)
  }

  predicate Told(start: Db, s: System) {
    Recorded(start, s) && Owned(s)
  }

  ghost predicate SysInv(start: Db, s: System) {
    Serial(start, s) && Live(s) && Told(start, s)
  }

  lemma InitialInv(start: Db)
    requires Inv(start)
    ensures SysInv(start, Initial(start))
  {
    assert Calls([]) == [];
    RunIsTrace(start, []);
  }

  // ---- Preservation ---------------------------------------------------------------------

  lemma HistoryGrows(start: Db, history: seq<Entry>, entry: Entry)
    ensures Calls(history + [entry]) == Calls(history) + [entry.op]
    ensures Run(start, Calls(history + [entry])) == After(Run(start, Calls(history)), entry.op)
  {
    var ops := Calls(history) + [entry.op];
    assert ops[..|ops| - 1] == Calls(history);
  }

  lemma SerialStays(start: Db, ops: seq<Op>, op: Op, l: Local)
    requires SerialAt(start, ops, l)
    ensures SerialAt(start, ops + [op], l)
  {
    assert (ops + [op])[..l.position] == ops[..l.position];
  }

  lemma RecordedStays(start: Db, s: System, entry: Entry)
    requires Recorded(start, s)
    ensures Recorded(start, s.(history := s.history + [entry]))
  {
    HistoryGrows(start, s.history, entry);
    forall id | id in s.txns && Finished(s.txns[id])
      ensures SerialAt(start, Calls(s.history + [entry]), s.txns[id])
      ensures (s.history + [entry])[s.txns[id].position].maker == Some(id)
    {
      SerialStays(start, Calls(s.history), entry.op, s.txns[id]);
    }
  }

  lemma SerialGrows(start: Db, s: System, entry: Entry, t: System)
    requires Serial(start, s)
    requires t.db == After(s.db, entry.op) && t.history == s.history + [entry]
    ensures Serial(start, t)
  {
    StepKeepsInv(s.db, entry.op);
    LeadsIffRun(start, Calls(s.history), s.db);
    HistoryGrows(start, s.history, entry);
    RunIsTrace(start, Calls(t.history));
  }

  lemma CallKeepsFresh(s: System, after: Db, history: seq<Entry>)
    requires AllFresh(s) && VerdictsOk(s.db) && Unlocked(s, after)
    requires MatchProofs.AllFrozen(s.db.matches, after.matches)
    ensures AllFresh(s.(db := after, history := history))
  {
    forall id | id in s.txns ensures Fresh(after, s.txns[id]) {
      FreshStays(s.db, after, s.txns[id]);
    }
  }

  lemma CallIsTold(start: Db, s: System, op: Op, after: Db)
    requires Told(start, s)
    ensures Told(start, s.(db := after, history := s.history + [Entry(op, None)]))
  {
    RecordedStays(start, s, Entry(op, None));
    var t := s.(db := after, history := s.history + [Entry(op, None)]);
    forall id | id in t.txns && Finished(t.txns[id])
      ensures SerialAt(start, Calls(t.history), t.txns[id]) && t.history[t.txns[id].position].maker == Some(id)
    {
      assert SerialAt(start, Calls(s.history + [Entry(op, None)]), s.txns[id]);
    }
  }

  lemma SameLocks(s: System, t: System)
    requires LocksOk(s) && t.locks == s.locks && t.txns == s.txns
    ensures LocksOk(t)
  {
  }

  lemma CallIsLive(s: System, op: Op, t: System)
    requires Inv(s.db) && Live(s) && Unlocked(s, t.db) && t.db == After(s.db, op)
    requires t == s.(db := t.db, history := t.history)
    ensures Live(t)
  {
    assert ConfirmedOk(s.db) && VerdictsOk(s.db) by {
      InvRows(s.db);
    }
    StepFreezes(s.db, op);
    CallKeepsFresh(s, t.db, t.history);
    SameLocks(s, t);
  }

  lemma CallKeepsInv(start: Db, s: System, op: Op, after: Db)
    requires SysInv(start, s) && after == After(s.db, op) && Unlocked(s, after)
    ensures SysInv(start, s.(db := after, history := s.history + [Entry(op, None)]))
  {
    var t := s.(db := after, history := s.history + [Entry(op, None)]);
    SerialGrows(start, s, Entry(op, None), t);
    CallIsLive(s, op, t);
    CallIsTold(start, s, op, after);
  }

  lemma BeginIsLive(s: System, id: TxnId, txn: Txn)
    requires Live(s) && id !in s.txns
    ensures Live(s.(txns := s.txns[id := Local(txn, Begun, 0)]))
  {
  }

  /** Changing the table entry of an unfinished transaction to an unfinished one records nothing. */
  lemma UnfinishedIsTold(start: Db, s: System, id: TxnId, l: Local, locks: map<Lockable, TxnId>)
    requires Told(start, s) && (id in s.txns ==> !Finished(s.txns[id])) && !Finished(l)
    ensures Told(start, s.(locks := locks, txns := s.txns[id := l]))
  {
  }

  /** A move that does not end the transaction. */
  lemma MoveIsLive(s: System, id: TxnId, next: Stage, locks: map<Lockable, TxnId>)
    requires Live(s) && id in s.txns && Fresh(s.db, s.txns[id].(stage := next))
    requires LocksOk(s.(locks := locks, txns := s.txns[id := s.txns[id].(stage := next)]))
    ensures Live(s.(locks := locks, txns := s.txns[id := s.txns[id].(stage := next)]))
  {
  }

  lemma LockKeepsLocksOk(s: System, id: TxnId, row: Lockable, next: Stage)
    requires LocksOk(s) && id in s.txns && row !in s.locks
    requires Held(s.txns[id].(stage := next)) == Held(s.txns[id]) + {row}
    ensures LocksOk(s.(locks := s.locks[row := id], txns := s.txns[id := s.txns[id].(stage := next)]))
  {
  }

  lemma WorkKeepsLocksOk(s: System, id: TxnId, next: Stage)
    requires LocksOk(s) && id in s.txns && Held(s.txns[id].(stage := next)) == Held(s.txns[id])
    ensures LocksOk(s.(locks := s.locks, txns := s.txns[id := s.txns[id].(stage := next)]))
  {
  }

  lemma FinishKeepsLocksOk(s: System, id: TxnId, after: Db, stage: Stage)
    requires LocksOk(s) && id in s.txns && (stage.Committed? || stage.Aborted?)
    ensures LocksOk(Finish(s, id, after, stage))
  {
    var t := Finish(s, id, after, stage);
    forall k, r | k in t.txns && r in Held(t.txns[k]) ensures r in t.locks && t.locks[r] == k {
      assert k != id;
    }
  }

  /** No two transactions hold the same row. */
  lemma OthersApart(s: System, id: TxnId, k: TxnId)
    requires LocksOk(s) && id in s.txns && k in s.txns && k != id
    ensures forall r :: r in Held(s.txns[k]) ==> r !in Held(s.txns[id])
  {
    forall r | r in Held(s.txns[k]) ensures r !in Held(s.txns[id]) {
      assert s.locks[r] == k;
    }
  }

  lemma FinishKeepsFresh(s: System, id: TxnId, after: Db, stage: Stage)
    requires AllFresh(s) && LocksOk(s) && VerdictsOk(s.db) && id in s.txns && (stage.Committed? || stage.Aborted?)
    requires after.fees == s.db.fees && after.matches == s.db.matches
    requires forall r :: r !in Held(s.txns[id]) ==> RowSame(s.db, after, r)
    ensures AllFresh(Finish(s, id, after, stage))
  {
    forall k | k in s.txns && k != id ensures Fresh(after, s.txns[k]) {
      OthersApart(s, id, k);
      FreshStays(s.db, after, s.txns[k]);
    }
  }

  /** The history after transaction `id` has made its call. */
  function Longer(s: System, id: TxnId): seq<Entry>
    requires id in s.txns
  {
    s.history + [Entry(OpOf(s.txns[id].txn), Some(id))]
  }

  /** The entry of the finishing transaction says how its call ends. */
  lemma FinisherRecorded(start: Db, s: System, id: TxnId, after: Db, stage: Stage)
    requires id in s.txns && Leads(start, Calls(s.history), s.db) && (stage.Committed? || stage.Aborted?)
    requires Step(s.db, OpOf(s.txns[id].txn)) == if stage.Committed? then Ok(after) else Err(stage.error)
    ensures SerialAt(start, Calls(Longer(s, id)), s.txns[id].(stage := stage, position := |s.history|))
  {
    LeadsIffRun(start, Calls(s.history), s.db);
    HistoryGrows(start, s.history, Entry(OpOf(s.txns[id].txn), Some(id)));
    assert Calls(Longer(s, id))[..|s.history|] == Calls(s.history);
  }

  /** The other entries stay what they were. */
  lemma OthersRecorded(start: Db, s: System, id: TxnId, after: Db, stage: Stage)
    requires Recorded(start, s) && id in s.txns
    requires SerialAt(start, Calls(Longer(s, id)), s.txns[id].(stage := stage, position := |s.history|))
    ensures Recorded(start, Finish(s, id, after, stage))
  {
    RecordedStays(start, s, Entry(OpOf(s.txns[id].txn), Some(id)));
    var t, u := Finish(s, id, after, stage), s.(history := Longer(s, id));
    forall k | k in t.txns && Finished(t.txns[k])
      ensures SerialAt(start, Calls(t.history), t.txns[k]) && t.history[t.txns[k].position].maker == Some(k)
    {
      if k != id {
        assert SerialAt(start, Calls(u.history), s.txns[k]);
      }
    }
  }

  lemma FinishOwned(s: System, id: TxnId, after: Db, stage: Stage)
    requires Owned(s) && id in s.txns && !Finished(s.txns[id]) && (stage.Committed? || stage.Aborted?)
    ensures Owned(Finish(s, id, after, stage))
  {
  }

  lemma FinishKeepsInv(start: Db, s: System, id: TxnId, after: Db, stage: Stage)
    requires SysInv(start, s) && id in s.txns && !Finished(s.txns[id])
    requires stage.Committed? || (stage.Aborted? && after == s.db)
    requires Step(s.db, OpOf(s.txns[id].txn)) == if stage.Committed? then Ok(after) else Err(stage.error)
    requires after.fees == s.db.fees && after.matches == s.db.matches
    requires forall r :: r !in Held(s.txns[id]) ==> RowSame(s.db, after, r)
    ensures SysInv(start, Finish(s, id, after, stage))
  {
    InvRows(s.db);
    SerialGrows(start, s, Entry(OpOf(s.txns[id].txn), Some(id)), Finish(s, id, after, stage));
    FinishKeepsLocksOk(s, id, after, stage);
    FinishKeepsFresh(s, id, after, stage);
    FinisherRecorded(start, s, id, after, stage);
    OthersRecorded(start, s, id, after, stage);
    FinishOwned(s, id, after, stage);
  }

  lemma CommitTouchesRowsOnly(db: Db, l: Local)
    requires NextMove(db, l).Commit?
    ensures NextMove(db, l).after.fees == db.fees && NextMove(db, l).after.matches == db.matches
  {
  }

  /** A commit writes nothing but what the transaction has locked. */
  ghost predicate TouchesHeld(db: Db, l: Local, after: Db) {
    && after.fees == db.fees && after.matches == db.matches
    && forall r :: r !in Held(l) ==> RowSame(db, after, r)
  }

  lemma CommitsTouchHeld(db: Db, l: Local)
    requires Fresh(db, l) && NextMove(db, l).Commit?
    ensures TouchesHeld(db, l, NextMove(db, l).after)
  {
    forall r | r !in Held(l) ensures RowSame(db, NextMove(db, l).after, r) {
      CommitTouchesHeld(db, l, r);
    }
    CommitTouchesRowsOnly(db, l);
  }

  lemma StayKeepsInv(start: Db, s: System, id: TxnId, next: Stage, locks: map<Lockable, TxnId>)
    requires SysInv(start, s) && id in s.txns && !Finished(s.txns[id])
    requires Fresh(s.db, s.txns[id].(stage := next)) && !Finished(s.txns[id].(stage := next))
    requires LocksOk(s.(locks := locks, txns := s.txns[id := s.txns[id].(stage := next)]))
    ensures SysInv(start, s.(locks := locks, txns := s.txns[id := s.txns[id].(stage := next)]))
  {
    MoveIsLive(s, id, next, locks);
    UnfinishedIsTold(start, s, id, s.txns[id].(stage := next), locks);
  }

  lemma LockKeepsInv(start: Db, s: System, id: TxnId, row: Lockable, next: Stage)
    requires SysInv(start, s) && id in s.txns && !Finished(s.txns[id])
    requires AdvanceOk(s.db, s.txns[id], Lock(row, next))
    ensures SysInv(start, Perform(s, id, Lock(row, next)))
  {
    if row !in s.locks {
      LockKeepsLocksOk(s, id, row, next);
      StayKeepsInv(start, s, id, next, s.locks[row := id]);
    }
  }

  lemma WorkKeepsInv(start: Db, s: System, id: TxnId, next: Stage)
    requires SysInv(start, s) && id in s.txns && !Finished(s.txns[id])
    requires AdvanceOk(s.db, s.txns[id], Work(next))
    ensures SysInv(start, Perform(s, id, Work(next)))
  {
    WorkKeepsLocksOk(s, id, next);
    StayKeepsInv(start, s, id, next, s.locks);
  }

  lemma PerformKeepsInv(start: Db, s: System, id: TxnId, move: Move)
    requires SysInv(start, s) && id in s.txns && !Finished(s.txns[id])
    requires AdvanceOk(s.db, s.txns[id], move) && FinishOk(s.db, s.txns[id], move)
    requires move.Commit? ==> TouchesHeld(s.db, s.txns[id], move.after)
    ensures SysInv(start, Perform(s, id, move))
  {
    match move {
      case Lock(row, next) => LockKeepsInv(start, s, id, row, next);
      case Work(next) => WorkKeepsInv(start, s, id, next);
      case Commit(after) => FinishKeepsInv(start, s, id, after, Committed);
      case Abort(error) => FinishKeepsInv(start, s, id, s.db, Aborted(error));
      case Idle =>
    }
  }

  lemma AdvanceKeepsInv(start: Db, s: System, id: TxnId, move: Move)
    requires SysInv(start, s) && id in s.txns && !Finished(s.txns[id]) && move == NextMove(s.db, s.txns[id])
    ensures SysInv(start, Perform(s, id, move))
  {
    InvRows(s.db);
    MoveOk(s.db, s.txns[id]);
    if move.Commit? {
      CommitsTouchHeld(s.db, s.txns[id]);
    }
    PerformKeepsInv(start, s, id, move);
  }

  lemma FinishedIsIdle(s: System, id: TxnId)
    requires id in s.txns && Finished(s.txns[id])
    ensures AdvanceOne(s, id) == s
  {
  }

  lemma ExecKeepsInv(start: Db, s: System, turn: Turn)
    requires SysInv(start, s)
    ensures SysInv(start, Exec(s, turn))
  {
    match turn {
      case Begin(id, txn) =>
        if id !in s.txns {
          BeginIsLive(s, id, txn);
          UnfinishedIsTold(start, s, id, Local(txn, Begun, 0), s.locks);
        }
      case Advance(id) =>
        if id in s.txns {
          if Finished(s.txns[id]) {
            FinishedIsIdle(s, id);
          } else {
            AdvanceKeepsInv(start, s, id, NextMove(s.db, s.txns[id]));
          }
        }
      case Call(op) =>
        if Unlocked(s, After(s.db, op)) {
          CallKeepsInv(start, s, op, After(s.db, op));
        }
    }
  }

  lemma {:induction false} ExecAllKeepsInv(start: Db, s: System, turns: seq<Turn>)
    requires SysInv(start, s)
    ensures SysInv(start, ExecAll(s, turns))
  {
    if turns != [] {
      ExecAllKeepsInv(start, s, turns[..|turns| - 1]);
      ExecKeepsInv(start, ExecAll(s, turns[..|turns| - 1]), turns[|turns| - 1]);
    }
  }

  // ---- Fee rows during open settlements -------------------------------------------------

  lemma LateRowKeepsRate(fees: seq<FeeRow>, row: FeeRow, feeType: FeeType, now: int)
    requires now < row.effectiveFrom
    ensures ActiveRate(fees + [row], feeType, now) == ActiveRate(fees, feeType, now)
  {
    assert (fees + [row])[..|fees|] == fees;
  }

  /** A fee row that takes effect after every open settlement's own time can be inserted at any point. */
  lemma LateFeeRowRuns(s: System, row: FeeRow)
    requires 0 <= row.rate <= Money.RATE_SCALE
    requires forall id :: id in s.txns && s.txns[id].txn.Settle? ==> s.txns[id].txn.now < row.effectiveFrom
    ensures Exec(s, Call(OpAddFee(row))).db == After(s.db, OpAddFee(row))
    ensures Exec(s, Call(OpAddFee(row))).db.fees == s.db.fees + [row]
  {
    var after := After(s.db, OpAddFee(row));
    assert after == s.db.(fees := s.db.fees + [row]);
    forall id | id in s.txns ensures RatesKept(s.db, after, s.txns[id]) {
      if s.txns[id].txn.Settle? {
        LateRowKeepsRate(s.db.fees, row, WinnerFee, s.txns[id].txn.now);
        LateRowKeepsRate(s.db.fees, row, NoWinnerFee, s.txns[id].txn.now);
      }
    }
  }

  // ---- Serializability ------------------------------------------------------------------

  /** The transaction's call, made in `before`, ends as the transaction did. */
  predicate EndsAs(before: Db, l: Local) {
    match l.stage
    case Committed => Step(before, OpOf(l.txn)).Ok?
    case Aborted(error) => Step(before, OpOf(l.txn)) == Err(error)
    case _ => true
  }

  /** The transaction owns one entry of the history and ended as its call does at that point of the
      serial run. */
  ghost predicate EndsInSeries(start: Db, s: System, id: TxnId) {
    && id in s.txns && s.txns[id].position < |s.history|
    && s.history[s.txns[id].position] == Entry(OpOf(s.txns[id].txn), Some(id))
    && exists before :: Leads(start, Calls(s.history)[..s.txns[id].position], before) && EndsAs(before, s.txns[id])
  }

  /** The entries that belong to no transaction. */
  function Atomic(history: seq<Entry>): seq<Op> {
    if history == [] then []
    else
      var last := history[|history| - 1];
      Atomic(history[..|history| - 1]) + if last.maker.None? then [last.op] else []
  }

  /** The atomic calls of a schedule that could run when their turn came. */
  function Ran(s: System, turns: seq<Turn>): seq<Op> {
    if turns == [] then []
    else
      var before, last := ExecAll(s, turns[..|turns| - 1]), turns[|turns| - 1];
      Ran(s, turns[..|turns| - 1])
      + if last.Call? && Unlocked(before, After(before.db, last.op)) then [last.op] else []
  }

  lemma AtomicGrows(history: seq<Entry>, entry: Entry)
    ensures Atomic(history + [entry]) == Atomic(history) + if entry.maker.None? then [entry.op] else []
  {
    assert (history + [entry])[..|history|] == history;
  }

  lemma TurnAddsAtomic(s: System, turn: Turn)
    ensures Atomic(Exec(s, turn).history)
            == Atomic(s.history)
               + if turn.Call? && Unlocked(s, After(s.db, turn.op)) then [turn.op] else []
  {
    match turn {
      case Begin(_, _) =>
      case Advance(id) =>
        if id in s.txns {
          PerformAddsNoAtomic(s, id, NextMove(s.db, s.txns[id]));
        }
      case Call(op) => AtomicGrows(s.history, Entry(op, None));
    }
  }

  lemma PerformAddsNoAtomic(s: System, id: TxnId, move: Move)
    requires id in s.txns
    ensures Atomic(Perform(s, id, move).history) == Atomic(s.history)
  {
    AtomicGrows(s.history, Entry(OpOf(s.txns[id].txn), Some(id)));
  }

  /** The history's other entries are exactly the atomic calls of the schedule that ran, in their order. */
  lemma {:induction false} AtomicCallsRan(start: Db, turns: seq<Turn>)
    ensures Atomic(ExecAll(Initial(start), turns).history) == Ran(Initial(start), turns)
  {
    if turns != [] {
      AtomicCallsRan(start, turns[..|turns| - 1]);
      TurnAddsAtomic(ExecAll(Initial(start), turns[..|turns| - 1]), turns[|turns| - 1]);
    }
  }

  /** Every schedule ends in the state of a serial run of whole calls.  The finished transactions and the
      entries they made in that run correspond one to one, and each transaction ended, with success or
      with its error, as its call does there.  All other entries are the atomic calls that ran, in order. */
  lemma Serializable(start: Db, turns: seq<Turn>, s: System)
    requires Inv(start) && s == ExecAll(Initial(start), turns)
    ensures Leads(start, Calls(s.history), s.db)
    ensures forall id :: id in s.txns && Finished(s.txns[id]) ==> EndsInSeries(start, s, id)
    ensures Owned(s) && Atomic(s.history) == Ran(Initial(start), turns)
  {
    InitialInv(start);
    ExecAllKeepsInv(start, Initial(start), turns);
    AtomicCallsRan(start, turns);
    forall id | id in s.txns && Finished(s.txns[id]) ensures EndsInSeries(start, s, id) {
      RecordedInSeries(start, s, id);
    }
  }

  lemma RecordedInSeries(start: Db, s: System, id: TxnId)
    requires Recorded(start, s) && id in s.txns && Finished(s.txns[id])
    ensures EndsInSeries(start, s, id)
  {
    var ops, k := Calls(s.history), s.txns[id].position;
    var before := Run(start, ops[..k]);
    LeadsIffRun(start, ops[..k], before);
    assert SerialAt(start, ops, s.txns[id]);
    assert EndsAs(before, s.txns[id]);
  }

  predicate CommittedOn(s: System, id: TxnId, b: BetId) {
    id in s.txns && s.txns[id].stage.Committed? && s.txns[id].txn.bet == b
  }

  /** In every schedule each bet is paid by at most one transaction and taken by at most one. */
  lemma PaidAndTakenAtMostOnce(start: Db, turns: seq<Turn>, one: TxnId, other: TxnId, b: BetId)
    requires Inv(start)
    requires var s := ExecAll(Initial(start), turns);
             CommittedOn(s, one, b) && CommittedOn(s, other, b) && s.txns[one].txn.Settle? == s.txns[other].txn.Settle?
    ensures one == other
  {
    InitialInv(start);
    ExecAllKeepsInv(start, Initial(start), turns);
    var s := ExecAll(Initial(start), turns);
    var ops, i, j := Calls(s.history), s.txns[one].position, s.txns[other].position;
    if one != other {
      assert i != j;
      CommittedSucceeded(start, ops, s.txns[one]);
      CommittedSucceeded(start, ops, s.txns[other]);
      if i < j {
        MovedAtMostOnce(start, ops, i, j, b);
      } else {
        MovedAtMostOnce(start, ops, j, i, b);
      }
      assert false;
    }
  }

  lemma CommittedSucceeded(start: Db, ops: seq<Op>, l: Local)
    requires l.stage.Committed? && SerialAt(start, ops, l)
    ensures Succeeds(start, ops, l.position) && Mover(ops[l.position]) == Some(l.txn.bet)
    ensures ops[l.position].OpAcceptBet? == l.txn.Accept?
  {
  }

  /** The late guard never fires: whoever holds all locks of a settlement finds the bet still queued. */
  lemma LateGuardNeverFires(start: Db, turns: seq<Turn>, id: TxnId)
    requires Inv(start)
    requires var s := ExecAll(Initial(start), turns); id in s.txns && s.txns[id].stage.PlatformRead?
    ensures var s := ExecAll(Initial(start), turns);
            var b := s.txns[id].txn.bet;
            b in s.db.bets && s.db.bets[b].status == BetStatus.PendingSettlement
  {
    InitialInv(start);
    ExecAllKeepsInv(start, Initial(start), turns);
    var s := ExecAll(Initial(start), turns);
    CommitMoves(s.db, s.txns[id]);
  }
}
