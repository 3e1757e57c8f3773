/** A settlement run: one transaction confirms the result and queues the bets, then one transaction per
    bet settles it.  Any other service calls may run between these transactions. */
module MatchSettlementService {
  import opened Wrappers
  import opened Tables
  import opened Rules
  import opened Invariants
  import opened Runs
  import opened Sessions
  import opened ResultConfirmation
  import Requests
  import SettlementService
  import OrderIndependence

  datatype SettlementResult = SettlementResult(
    found: nat, settled: nat, alreadySettled: nat, failed: seq<BetId>, reasons: map<BetId, Error>)

  function ErrorOf(r: Result<Db>): Option<Error> {
    if r.Err? then Some(r.error) else None
  }

  // ---- One bet --------------------------------------------------------------------------

  /** Settles one bet in a transaction of its own; a failed attempt changes nothing. */
  method SettleSingleBet(s: Session, b: BetId, now: int) returns (ending: Option<Error>)
    requires s.Valid()
    modifies s
    ensures s.Valid() && s.State() == After(old(s.State()), OpSettleBet(b, now))
    ensures ending == ErrorOf(Step(old(s.State()), OpSettleBet(b, now)))
    ensures ending.Some? ==> s.State() == old(s.State())
  {
    var saved := s.State();
    InvRows(saved);
    var r := SettlementService.SettleBet(s, b, now);
    if r.Err? {
      s.Restore(saved);
      ending := Some(r.error);
    } else {
      ending := None;
    }
    StepKeepsInv(saved, OpSettleBet(b, now));
  }

  // ---- The account of a run -------------------------------------------------------------

  predicate Fails(ending: Option<Error>) {
    ending.Some? && ending != Some(Idempotency)
  }

  /** An attempt that does not fail finds or leaves its bet settled. */
  lemma AttemptSettles(db: Db, b: BetId, now: int)
    requires Underway(db, b) && !Fails(ErrorOf(SettleBet(db, b, now)))
    ensures SettledIn(Keep(db, SettleBet(db, b, now)), b)
  {
  }

  /** The bets of the failed attempts, in order. */
  function Failures(queued: seq<BetId>, endings: seq<Option<Error>>): seq<BetId>
    requires |queued| == |endings|
  {
    if queued == [] then []
    else
      var last := |queued| - 1;
      Failures(queued[..last], endings[..last]) + if Fails(endings[last]) then [queued[last]] else []
  }

  lemma {:induction false} FailuresFail(queued: seq<BetId>, endings: seq<Option<Error>>, i: nat)
    requires |queued| == |endings| && i < |queued|
    ensures Fails(endings[i]) ==> queued[i] in Failures(queued, endings)
  {
    if i < |queued| - 1 {
      FailuresFail(queued[..|queued| - 1], endings[..|queued| - 1], i);
    }
  }

  /** The run's calls, and where among them and how each attempt ended. */
  datatype Log = Log(trace: seq<Op>, at: seq<nat>, endings: seq<Option<Error>>)

  /** Attempt `i` is the call that settles bet `i` at its reading of the clock, and its recorded ending is
      that of the call in the state it ran in. */
  predicate Attempted(db: Db, log: Log, queued: seq<BetId>, clock: nat -> int) {
    && |log.at| == |log.endings| <= |queued|
    && forall i :: 0 <= i < |log.at| ==>
         && log.at[i] < |log.trace| && log.trace[log.at[i]] == OpSettleBet(queued[i], clock(i))
         && log.endings[i] == ErrorOf(Step(Run(db, log.trace[..log.at[i]]), log.trace[log.at[i]]))
  }

  /** The counts say how the attempts ended; together they cover every bet tried so far. */
  ghost predicate Counted(result: SettlementResult, queued: seq<BetId>, endings: seq<Option<Error>>) {
    && |endings| <= |queued|
    && result.settled == multiset(endings)[None]
    && result.alreadySettled == multiset(endings)[Some(Idempotency)]
    && result.failed == Failures(queued[..|endings|], endings)
    && result.settled + result.alreadySettled + |result.failed| == |endings|
    && (forall b :: b in result.reasons <==> b in result.failed)
    && forall i :: 0 <= i < |endings| && Fails(endings[i]) ==>
         queued[i] in result.reasons && result.reasons[queued[i]] == endings[i].value
  }

  /** Files one attempt under its ending. */
  method File(result: SettlementResult, queued: seq<BetId>, i: nat, ending: Option<Error>,
              ghost endings: seq<Option<Error>>) returns (next: SettlementResult)
    requires i == |endings| < |queued| && OrderIndependence.Distinct(queued) && Counted(result, queued, endings)
    ensures Counted(next, queued, endings + [ending]) && next.found == result.found
  {
    ghost var all := endings + [ending];
    assert all[..i] == endings && queued[..i + 1][..i] == queued[..i];
    if ending.None? {
      next := result.(settled := result.settled + 1);
    } else if ending == Some(Idempotency) {
      next := result.(alreadySettled := result.alreadySettled + 1);
    } else {
      next := result.(failed := result.failed + [queued[i]], reasons := result.reasons[queued[i] := ending.value]);
    }
  }

  lemma TraceGrows(db: Db, log: Log, queued: seq<BetId>, clock: nat -> int, more: seq<Op>, mid: Db)
    requires Attempted(db, log, queued, clock) && |log.at| < |queued| && mid == Run(Run(db, log.trace), more)
    ensures var op := OpSettleBet(queued[|log.at|], clock(|log.at|));
            var ending := ErrorOf(Step(mid, op));
            var next := Log(log.trace + more + [op], log.at + [|log.trace + more|], log.endings + [ending]);
            Attempted(db, next, queued, clock) && Run(db, next.trace) == After(mid, op)
  {
    var op := OpSettleBet(queued[|log.at|], clock(|log.at|));
    var trace := log.trace + more + [op];
    RunSplit(db, log.trace, more);
    assert trace[..|log.trace + more|] == log.trace + more;
    forall i | 0 <= i < |log.at| ensures trace[..log.at[i]] == log.trace[..log.at[i]] {
    }
  }

  // ---- The run --------------------------------------------------------------------------

  /** The state of a run between two attempts: the whole of it is a run of service calls. */
  ghost predicate RunningOk(before: Db, now: Db, log: Log, queued: seq<BetId>, clock: nat -> int) {
    && now == Run(before, log.trace) && Attempted(before, log, queued, clock)
    && AllUnderway(now, queued) && TriedSettled(now, queued, log.endings)
  }

  ghost predicate AllUnderway(db: Db, queued: seq<BetId>) {
    forall b :: b in queued ==> Underway(db, b)
  }

  /** Every attempt that did not fail has its bet settled by now. */
  ghost predicate TriedSettled(db: Db, queued: seq<BetId>, endings: seq<Option<Error>>)
    requires |endings| <= |queued|
  {
    forall i :: 0 <= i < |endings| && !Fails(endings[i]) ==> SettledIn(db, queued[i])
  }

  lemma StaysTried(before: Db, after: Db, queued: seq<BetId>, endings: seq<Option<Error>>)
    requires |endings| <= |queued| && TriedSettled(before, queued, endings)
    requires forall b :: b in queued ==> SettledIn(before, b) ==> SettledIn(after, b)
    ensures TriedSettled(after, queued, endings)
  {
  }

  lemma OthersKeep(start: Db, more: seq<Op>, mid: Db, queued: seq<BetId>, endings: seq<Option<Error>>)
    requires Inv(start) && mid == Run(start, more)
    requires |endings| <= |queued| && AllUnderway(start, queued) && TriedSettled(start, queued, endings)
    ensures AllUnderway(mid, queued) && TriedSettled(mid, queued, endings)
  {
    AllStayUnderway(start, more, queued, mid);
    StaysTried(start, mid, queued, endings);
  }

  lemma AttemptAdds(mid: Db, b: BetId, now: int, after: Db, queued: seq<BetId>, endings: seq<Option<Error>>,
                    ending: Option<Error>)
    requires Inv(mid) && after == After(mid, OpSettleBet(b, now)) && ending == ErrorOf(SettleBet(mid, b, now))
    requires |endings| < |queued| && queued[|endings|] == b
    requires AllUnderway(mid, queued) && TriedSettled(mid, queued, endings)
    ensures AllUnderway(after, queued) && TriedSettled(after, queued, endings + [ending])
  {
    RunsOne(mid, OpSettleBet(b, now));
    OthersKeep(mid, [OpSettleBet(b, now)], after, queued, endings);
    if !Fails(ending) {
      AttemptSettles(mid, b, now);
    }
  }

  /** One round: whatever else happens first, then one attempt. */
  method Attempt(s: Session, ghost before: Db, ghost log: Log, queued: seq<BetId>, i: nat,
                 others: nat -> seq<Op>, clock: nat -> int)
    returns (ending: Option<Error>, ghost next: Log)
    requires s.Valid() && i == |log.at| < |queued| && RunningOk(before, s.State(), log, queued, clock)
    modifies s
    ensures s.Valid() && RunningOk(before, s.State(), next, queued, clock)
    ensures next.endings == log.endings + [ending]
    ensures next.trace == log.trace + others(i) + [OpSettleBet(queued[i], clock(i))]
  {
    ghost var start := s.State();
    Requests.HandleAll(s, others(i));
    ghost var mid := s.State();
    ending := SettleSingleBet(s, queued[i], clock(i));
    next := Log(log.trace + others(i) + [OpSettleBet(queued[i], clock(i))], log.at + [|log.trace + others(i)|],
                log.endings + [ending]);
    TraceGrows(before, log, queued, clock, others(i), mid);
    OthersKeep(start, others(i), mid, queued, log.endings);
    AttemptAdds(mid, queued[i], clock(i), s.State(), queued, log.endings, ending);
  }

  lemma RunsOne(db: Db, op: Op)
    ensures Run(db, [op]) == After(db, op)
  {
    assert [op][..0] == [];
  }

  /** Right after the confirmation every queued bet waits for its settlement. */
  lemma ConfirmQueues(before: Db, matchId: MatchId, outcome: Outcome, home: int, away: int, now: int,
                      queued: seq<BetId>)
    requires Confirm(before, matchId, outcome, home, away, now).Ok? && QueuedFrom(before.bets, matchId, queued)
    ensures forall b :: b in queued ==> Underway(Confirm(before, matchId, outcome, home, away, now).value, b)
  {
  }

  lemma ConfirmedOk(before: Db, after: Db, op: Op, queued: seq<BetId>, clock: nat -> int)
    requires op.OpConfirm? && Step(before, op) == Ok(after) && QueuedFrom(before.bets, op.matchId, queued)
    ensures RunningOk(before, after, Log([op], [], []), queued, clock)
  {
    RunsOne(before, op);
    ConfirmQueues(before, op.matchId, op.outcome, op.home, op.away, op.now, queued);
  }

  /** The calls of a run after `n` attempts: the confirmation, and for each attempt whatever else runs before it. */
  function CallsOf(first: Op, queued: seq<BetId>, others: nat -> seq<Op>, clock: nat -> int, n: nat): seq<Op>
    requires n <= |queued|
  {
    if n == 0 then [first]
    else CallsOf(first, queued, others, clock, n - 1) + others(n - 1) + [OpSettleBet(queued[n - 1], clock(n - 1))]
  }

  /** Transaction A commits as a whole or is rolled back. */
  method ConfirmInTransaction(s: Session, matchId: MatchId, outcome: Outcome, home: int, away: int, now: int)
    returns (r: Result<()>, queued: seq<BetId>)
    requires s.Valid()
    modifies s
    ensures s.Valid()
    ensures r.Ok? ==> Confirm(old(s.State()), matchId, outcome, home, away, now) == Ok(s.State())
                      && QueuedFrom(old(s.bets), matchId, queued)
    ensures r.Err? ==> Confirm(old(s.State()), matchId, outcome, home, away, now) == Err(r.error)
                       && s.State() == old(s.State())
  {
    var saved := s.State();
    r, queued := ResultConfirmation.ConfirmResult(s, matchId, outcome, home, away, now);
    if r.Err? {
      s.Restore(saved);
    }
    StepKeepsInv(saved, OpConfirm(matchId, outcome, home, away, now));
  }

  /** An attempt that is not listed as failed has left its bet settled. */
  lemma UnlistedIsSettled(db: Db, queued: seq<BetId>, endings: seq<Option<Error>>, failed: seq<BetId>, b: BetId)
    requires |endings| == |queued| && TriedSettled(db, queued, endings) && failed == Failures(queued, endings)
    requires b in queued && b !in failed
    ensures SettledIn(db, b)
  {
    var i :| 0 <= i < |queued| && queued[i] == b;
    FailuresFail(queued, endings, i);
  }

  /** One attempt per queued bet, each in a transaction of its own. */
  method SettleQueued(s: Session, ghost before: Db, ghost first: Op, queued: seq<BetId>,
                      others: nat -> seq<Op>, clock: nat -> int)
    returns (result: SettlementResult, ghost log: Log)
    requires s.Valid() && RunningOk(before, s.State(), Log([first], [], []), queued, clock)
    requires OrderIndependence.Distinct(queued)
    modifies s
    ensures s.Valid() && RunningOk(before, s.State(), log, queued, clock) && |log.at| == |queued|
    ensures log.trace == CallsOf(first, queued, others, clock, |queued|)
    ensures Counted(result, queued, log.endings) && result.found == |queued|
  {
    log := Log([first], [], []);
    result := SettlementResult(|queued|, 0, 0, [], map[]);
    for i := 0 to |queued|
      invariant s.Valid() && RunningOk(before, s.State(), log, queued, clock) && |log.at| == i
      invariant log.trace == CallsOf(first, queued, others, clock, i)
      invariant Counted(result, queued, log.endings) && result.found == |queued|
    {
      var ending;
      ghost var next;
      ending, next := Attempt(s, before, log, queued, i, others, clock);
      result := File(result, queued, i, ending, log.endings);
      log := next;
    }
  }

  /** Confirms the result and settles every queued bet, with `others(i)` running before the attempt on bet
      `i`, whose clock shows `clock(i)`.  Every bet found is counted once: as settled, as settled already by
      somebody else, or as failed; and every bet not listed as failed is settled at the end. */
  method ConfirmAndSettle(s: Session, matchId: MatchId, outcome: Outcome, home: int, away: int, now: int,
                          others: nat -> seq<Op>, clock: nat -> int)
    returns (r: Result<SettlementResult>, ghost queued: seq<BetId>, ghost log: Log)
    requires s.Valid()
    modifies s
    ensures s.Valid()
    ensures r.Err? ==> Confirm(old(s.State()), matchId, outcome, home, away, now) == Err(r.error)
                       && s.State() == old(s.State())
    ensures r.Ok? ==>
      && s.State() == Run(old(s.State()), log.trace)
      && log.trace == CallsOf(OpConfirm(matchId, outcome, home, away, now), queued, others, clock, |queued|)
      && QueuedFrom(old(s.bets), matchId, queued)
      && |log.at| == |queued| && Attempted(old(s.State()), log, queued, clock)
    ensures r.Ok? ==>
      && Counted(r.value, queued, log.endings) && r.value.found == |queued|
      && r.value.found == r.value.settled + r.value.alreadySettled + |r.value.failed|
      && forall b :: b in queued && b !in r.value.failed ==> SettledIn(s.State(), b)
  {
    ghost var before := s.State();
    var confirmed, bets := ConfirmInTransaction(s, matchId, outcome, home, away, now);
    queued := bets;
    if confirmed.Err? {
      log := Log([], [], []);
      return Err(confirmed.error), queued, log;
    }
    ghost var first := OpConfirm(matchId, outcome, home, away, now);
    ConfirmedOk(before, s.State(), first, queued, clock);
    var result;
    result, log := SettleQueued(s, before, first, bets, others, clock);
    assert queued[..|queued|] == queued;
    forall b | b in queued && b !in result.failed ensures SettledIn(s.State(), b) {
      UnlistedIsSettled(s.State(), queued, log.endings, result.failed, b);
    }
    r := Ok(result);
  }
}
