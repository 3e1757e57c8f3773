/** Waiting for locks: no cycle of waiting transactions can arise, and every system of transactions
    can always be run to the end. */
module Waiting {
  import opened Wrappers
  import opened Tables
  import opened Invariants
  import opened Sums
  import opened LockProtocol
  import opened LockProofs
  import opened Schedules

  /** The row whose holder keeps the transaction from moving. */
  function Blocker(s: System, id: TxnId): Option<Lockable> {
    if id !in s.txns then None
    else match NextMove(s.db, s.txns[id])
         case Lock(row, _) => if row in s.locks then Some(row) else None
         case _ => None
  }

  predicate Waits(s: System, id: TxnId) {
    Blocker(s, id).Some?
  }

  predicate WaitsFor(s: System, id: TxnId, other: TxnId) {
    Waits(s, id) && s.locks[Blocker(s, id).value] == other
  }

  /** What waiting looks like in the protocol: holders are unfinished, and what a waiting transaction
      wants comes after all it holds. */
  ghost predicate Ordered(s: System) {
    && (forall id :: Waits(s, id) ==>
          var other := s.locks[Blocker(s, id).value];
          other in s.txns && !Finished(s.txns[other]) && Blocker(s, id).value in Held(s.txns[other]))
    && (forall id, r :: Waits(s, id) && r in Held(s.txns[id]) ==> Before(r, Blocker(s, id).value))
  }

  lemma BlockerIsLater(db: Db, l: Local, r: Lockable)
    requires BetsOk(db) && Fresh(db, l) && NextMove(db, l).Lock? && r in Held(l)
    ensures Before(r, NextMove(db, l).row)
  {
    MoveOk(db, l);
  }

  lemma AlwaysOrdered(start: Db, s: System)
    requires SysInv(start, s)
    ensures Ordered(s)
  {
    InvRows(s.db);
    forall id, r | Waits(s, id) && r in Held(s.txns[id]) ensures Before(r, Blocker(s, id).value) {
      BlockerIsLater(s.db, s.txns[id], r);
    }
  }

  lemma BeforeTransitive(a: Lockable, b: Lockable, c: Lockable)
    requires Before(a, b) && Before(b, c)
    ensures Before(a, c)
  {
  }

  // ---- No cyclic wait -------------------------------------------------------------------

  /** A chain of transactions, each waiting for the next. */
  predicate Chain(s: System, ids: seq<TxnId>) {
    forall i :: 0 <= i < |ids| - 1 ==> WaitsFor(s, ids[i], ids[i + 1])
  }

  lemma {:induction false} WantsRise(s: System, ids: seq<TxnId>)
    requires Ordered(s) && Chain(s, ids) && |ids| >= 2 && Waits(s, ids[|ids| - 1])
    ensures Waits(s, ids[0])
    ensures Before(Blocker(s, ids[0]).value, Blocker(s, ids[|ids| - 1]).value)
  {
    assert WaitsFor(s, ids[0], ids[1]);
    if |ids| > 2 {
      WantsRise(s, ids[1..]);
      BeforeTransitive(Blocker(s, ids[0]).value, Blocker(s, ids[1]).value, Blocker(s, ids[|ids| - 1]).value);
    }
  }

  /** In no schedule do transactions wait for each other in a cycle, of whatever length. */
  lemma NoCyclicWait(start: Db, turns: seq<Turn>, ids: seq<TxnId>)
    requires Inv(start) && ids != []
    ensures var s := ExecAll(Initial(start), turns);
            !(Chain(s, ids) && WaitsFor(s, ids[|ids| - 1], ids[0]))
  {
    InitialInv(start);
    ExecAllKeepsInv(start, Initial(start), turns);
    var s := ExecAll(Initial(start), turns);
    AlwaysOrdered(start, s);
    if Chain(s, ids) && WaitsFor(s, ids[|ids| - 1], ids[0]) {
      var round := ids + [ids[0]];
      forall i | 0 <= i < |round| - 1 ensures WaitsFor(s, round[i], round[i + 1]) {
        assert i < |ids| - 1 ==> WaitsFor(s, ids[i], ids[i + 1]);
      }
      assert Waits(s, ids[0]) by {
        assert WaitsFor(s, round[0], round[1]);
      }
      WantsRise(s, round);
    }
  }

  // ---- Progress -------------------------------------------------------------------------

  /** Follows the waiting from `id` until a transaction that can move; wants rise, so none recurs. */
  lemma {:induction false} SomeoneMoves(s: System, id: TxnId, seen: set<TxnId>) returns (mover: TxnId)
    requires Ordered(s) && id in s.txns && !Finished(s.txns[id]) && id !in seen
    requires forall k :: k in seen ==>
      Waits(s, k) && (Waits(s, id) ==> Before(Blocker(s, k).value, Blocker(s, id).value))
    ensures mover in s.txns && !Finished(s.txns[mover]) && !Waits(s, mover)
    decreases s.txns.Keys - seen
  {
    if !Waits(s, id) {
      return id;
    }
    var want := Blocker(s, id).value;
    var next := s.locks[want];
    if Waits(s, next) {
      assert Before(want, Blocker(s, next).value);
      forall k | k in seen ensures Before(Blocker(s, k).value, Blocker(s, next).value) {
        BeforeTransitive(Blocker(s, k).value, want, Blocker(s, next).value);
      }
    }
    mover := SomeoneMoves(s, next, seen + {id});
  }

  /** How many moves a stage is away from the end at most. */
  function Remaining(): Local -> int {
    (l: Local) =>
      match l.stage
      case Begun => 7
      case BetRead(_) => 6
      case Judged(_, _) => 5
      case FirstRead(_, _, _) => 4
      case WalletsRead(_, _, _, _) => 3
      case Checked(_, _, _, _) => 2
      case PlatformRead(_, _, _, _, _) => 1
      case Admitted(_) => 2
      case TakerRead(_, _) => 1
      case Committed => 0
      case Aborted(_) => 0
  }

  predicate Approaches(l: Local, move: Move) {
    match move
    case Lock(_, next) => Remaining()(l.(stage := next)) < Remaining()(l)
    case Work(next) => Remaining()(l.(stage := next)) < Remaining()(l)
    case Idle => false
    case _ => 0 < Remaining()(l)
  }

  /** Every move of a transaction brings it closer to its end. */
  lemma MoveApproachesEnd(db: Db, l: Local)
    requires Fresh(db, l) && !Finished(l)
    ensures Approaches(l, NextMove(db, l))
  {
  }

  lemma LowerLowersSum(txns: map<TxnId, Local>, id: TxnId, l: Local)
    requires id in txns && Remaining()(l) < Remaining()(txns[id])
    ensures 0 <= Sum(txns[id := l], Remaining()) < Sum(txns, Remaining())
  {
    SumPut(txns, id, l, Remaining());
    SumZero(txns[id := l]);
    SumAtMost(txns[id := l], Zero<Local>(), Remaining());
  }

  lemma PerformApproachesEnd(s: System, id: TxnId, move: Move)
    requires id in s.txns && Approaches(s.txns[id], move) && (move.Lock? ==> move.row !in s.locks)
    ensures Perform(s, id, move).txns.Keys == s.txns.Keys
    ensures 0 <= Sum(Perform(s, id, move).txns, Remaining()) < Sum(s.txns, Remaining())
  {
    var l := Perform(s, id, move).txns[id];
    assert Perform(s, id, move).txns == s.txns[id := l];
    LowerLowersSum(s.txns, id, l);
  }

  lemma AdvanceApproachesEnd(s: System, id: TxnId)
    requires AllFresh(s) && id in s.txns && !Finished(s.txns[id]) && !Waits(s, id)
    ensures AdvanceOne(s, id).txns.Keys == s.txns.Keys
    ensures 0 <= Sum(AdvanceOne(s, id).txns, Remaining()) < Sum(s.txns, Remaining())
  {
    MoveApproachesEnd(s.db, s.txns[id]);
    PerformApproachesEnd(s, id, NextMove(s.db, s.txns[id]));
  }

  lemma ExecAllJoin(s: System, turn: Turn, turns: seq<Turn>)
    ensures ExecAll(s, [turn] + turns) == ExecAll(Exec(s, turn), turns)
  {
    var all := [turn] + turns;
    if turns == [] {
      assert all[..0] == [];
    } else {
      assert all[..|all| - 1] == [turn] + turns[..|turns| - 1];
      ExecAllJoin(s, turn, turns[..|turns| - 1]);
    }
  }

  predicate AllFinished(s: System) {
    forall id :: id in s.txns ==> Finished(s.txns[id])
  }

  predicate OnlyAdvances(turns: seq<Turn>) {
    forall i :: 0 <= i < |turns| ==> turns[i].Advance?
  }

  /** At most `remaining` moves are left to make. */
  ghost predicate Within(s: System, remaining: int) {
    Sum(s.txns, Remaining()) <= remaining
  }

  predicate Finishes(s: System, turns: seq<Turn>) {
    OnlyAdvances(turns) && ExecAll(s, turns).txns.Keys == s.txns.Keys && AllFinished(ExecAll(s, turns))
  }

  lemma FinishesLater(s: System, turn: Turn, t: System, rest: seq<Turn>)
    requires turn.Advance? && t == Exec(s, turn) && t.txns.Keys == s.txns.Keys && Finishes(t, rest)
    ensures Finishes(s, [turn] + rest)
  {
    ExecAllJoin(s, turn, rest);
  }

  lemma AlreadyFinished(s: System)
    requires AllFinished(s)
    ensures Finishes(s, [])
  {
  }

  /** Unless all have finished, some transaction can move, and its move brings the end nearer. */
  lemma SomeTurn(start: Db, s: System, remaining: int) returns (turn: Turn, t: System)
    requires SysInv(start, s) && !AllFinished(s) && Within(s, remaining)
    ensures SysInv(start, t) && 0 < remaining && Within(t, remaining - 1)
    ensures forall rest :: Finishes(t, rest) ==> Finishes(s, [turn] + rest)
  {
    var id :| id in s.txns && !Finished(s.txns[id]);
    AlwaysOrdered(start, s);
    var mover := SomeoneMoves(s, id, {});
    turn, t := Advance(mover), Exec(s, Advance(mover));
    AdvanceApproachesEnd(s, mover);
    ExecKeepsInv(start, s, turn);
    forall rest | Finishes(t, rest) ensures Finishes(s, [turn] + rest) {
      FinishesLater(s, turn, t, rest);
    }
  }

  /** From any reachable point some schedule of moves alone finishes every transaction begun so far. */
  lemma {:induction false} CanFinish(start: Db, s: System, remaining: nat) returns (turns: seq<Turn>)
    requires SysInv(start, s) && Within(s, remaining)
    ensures Finishes(s, turns)
    decreases remaining
  {
    if AllFinished(s) {
      AlreadyFinished(s);
      return [];
    }
    var turn, t := SomeTurn(start, s, remaining);
    var rest := CanFinish(start, t, remaining - 1);
    turns := [turn] + rest;
  }

  /** Deadlock freedom: after any schedule the open transactions can all be run to their ends. */
  lemma DeadlockFree(start: Db, turns: seq<Turn>)
    requires Inv(start)
    ensures exists more :: Finishes(ExecAll(Initial(start), turns), more)
  {
    InitialInv(start);
    ExecAllKeepsInv(start, Initial(start), turns);
    var s := ExecAll(Initial(start), turns);
    SumZero(s.txns);
    SumAtMost(s.txns, Zero<Local>(), Remaining());
    var more := CanFinish(start, s, Sum(s.txns, Remaining()));
  }
}
