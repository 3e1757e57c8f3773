/** What synchronisation keeps: the end of a match, and the consistency of the results it writes. */
module SyncProofs {
  import opened Wrappers
  import opened Tables
  import opened Rules
  import opened Runs

  // ---- Terminal matches -----------------------------------------------------------------

  predicate Over(m: Match) {
    m.status in {MatchStatus.Completed, MatchStatus.Cancelled, MatchStatus.Abandoned}
  }

  predicate StaysOver(m: Match, n: Match) {
    Over(m) ==> n.status == m.status || (n.status == MatchStatus.Completed && n.confirmedAt.Some?)
  }

  lemma {:induction false} SyncKeepsOver(matches: map<MatchId, Match>, payloads: seq<Payload>, now: int)
    ensures forall m :: m in matches ==>
      && m in SyncAll(matches, payloads, now)
      && (Over(matches[m]) ==> SyncAll(matches, payloads, now)[m].status == matches[m].status)
  {
    if payloads != [] {
      SyncKeepsOver(matches, payloads[..|payloads| - 1], now);
    }
  }

  lemma StepKeepsOver(db: Db, op: Op, m: MatchId)
    requires m in db.matches
    ensures m in After(db, op).matches && StaysOver(db.matches[m], After(db, op).matches[m])
    ensures db.matches[m].confirmedAt.Some? ==> After(db, op).matches[m].confirmedAt.Some?
  {
    if op.OpSync? {
      SyncKeepsOver(db.matches, op.payloads, op.now);
      ConfirmationStays(db.matches, op.payloads, op.now, m);
    } else if op.OpConfirm? {
      ConfirmStaysOver(db, op.matchId, op.outcome, op.home, op.away, op.now, m);
    } else {
      MatchesKept(db, op);
    }
  }

  lemma ConfirmStaysOver(db: Db, matchId: MatchId, outcome: Outcome, home: int, away: int, now: int, m: MatchId)
    requires m in db.matches
    ensures var after := Keep(db, Confirm(db, matchId, outcome, home, away, now));
            m in after.matches && StaysOver(db.matches[m], after.matches[m])
            && (db.matches[m].confirmedAt.Some? ==> after.matches[m].confirmedAt.Some?)
  {
  }

  lemma {:induction false} ConfirmationStays(matches: map<MatchId, Match>, payloads: seq<Payload>, now: int, m: MatchId)
    requires m in matches
    ensures m in SyncAll(matches, payloads, now)
    ensures SyncAll(matches, payloads, now)[m].confirmedAt == matches[m].confirmedAt
  {
    if payloads != [] {
      ConfirmationStays(matches, payloads[..|payloads| - 1], now, m);
    }
  }

  /** No run moves a finished, cancelled or abandoned match anywhere else; only the confirmation of a
      result may still turn it into a completed one. */
  lemma {:induction false} OverForEver(db: Db, ops: seq<Op>, m: MatchId)
    requires m in db.matches
    ensures m in Run(db, ops).matches && StaysOver(db.matches[m], Run(db, ops).matches[m])
    ensures db.matches[m].confirmedAt.Some? ==> Run(db, ops).matches[m].confirmedAt.Some?
  {
    if ops != [] {
      OverForEver(db, ops[..|ops| - 1], m);
      StepKeepsOver(Run(db, ops[..|ops| - 1]), ops[|ops| - 1], m);
    }
  }

  // ---- Consistency of results -----------------------------------------------------------

  function DeriveOutcome(home: Option<int>, away: Option<int>): Option<Outcome> {
    if home.None? || away.None? then None
    else if home.value > away.value then Some(HomeWin)
    else if away.value > home.value then Some(AwayWin)
    else Some(Draw)
  }

  /** A result needs both scores, and is a win exactly of the side that scored more. */
  lemma OutcomeOfScores(home: Option<int>, away: Option<int>)
    ensures DeriveOutcome(home, away).Some? <==> home.Some? && away.Some?
    ensures home.Some? && away.Some? ==>
      && (DeriveOutcome(home, away) == Some(HomeWin) <==> home.value > away.value)
      && (DeriveOutcome(home, away) == Some(AwayWin) <==> home.value < away.value)
  {
  }

  /** Until it is confirmed, a match carries the outcome its scores say. */
  predicate Consistent(matches: map<MatchId, Match>) {
    forall m :: m in matches && matches[m].confirmedAt.None? ==>
      matches[m].outcome == DeriveOutcome(matches[m].homeScore, matches[m].awayScore)
  }

  predicate Derived(payloads: seq<Payload>) {
    forall i :: 0 <= i < |payloads| ==>
      payloads[i].outcome == DeriveOutcome(payloads[i].homeScore, payloads[i].awayScore)
  }

  lemma {:induction false} SyncKeepsConsistent(matches: map<MatchId, Match>, payloads: seq<Payload>, now: int)
    requires Consistent(matches) && Derived(payloads)
    ensures Consistent(SyncAll(matches, payloads, now))
  {
    if payloads != [] {
      SyncKeepsConsistent(matches, payloads[..|payloads| - 1], now);
    }
  }

  lemma ConfirmKeepsConsistent(db: Db, matchId: MatchId, outcome: Outcome, home: int, away: int, now: int)
    requires Consistent(db.matches)
    ensures Consistent(Keep(db, Confirm(db, matchId, outcome, home, away, now)).matches)
  {
  }

  lemma StepKeepsConsistent(db: Db, op: Op)
    requires Consistent(db.matches) && (op.OpSync? ==> Derived(op.payloads))
    ensures Consistent(After(db, op).matches)
  {
    if op.OpSync? {
      SyncKeepsConsistent(db.matches, op.payloads, op.now);
    } else if op.OpConfirm? {
      ConfirmKeepsConsistent(db, op.matchId, op.outcome, op.home, op.away, op.now);
    } else {
      MatchesKept(db, op);
    }
  }

  /** Whatever other calls come between: if every payload's outcome is derived from its scores, every
      match that is not confirmed stays consistent. */
  lemma {:induction false} RunKeepsConsistent(db: Db, ops: seq<Op>)
    requires Consistent(db.matches)
    requires forall i :: 0 <= i < |ops| && ops[i].OpSync? ==> Derived(ops[i].payloads)
    ensures Consistent(Run(db, ops).matches)
  {
    if ops != [] {
      RunKeepsConsistent(db, ops[..|ops| - 1]);
      StepKeepsConsistent(Run(db, ops[..|ops| - 1]), ops[|ops| - 1]);
    }
  }
}
