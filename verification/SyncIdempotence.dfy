/** When synchronising the same fixtures twice changes nothing: the exact condition on the payloads. */
module SyncIdempotence {
  import opened Wrappers
  import opened Tables
  import opened Rules

  /** What a run did with each payload. */
  function Actions(matches: map<MatchId, Match>, payloads: seq<Payload>, now: int): seq<Action> {
    if payloads == [] then []
    else
      var before := payloads[..|payloads| - 1];
      Actions(matches, before, now) + [ActionOf(SyncAll(matches, before, now), payloads[|payloads| - 1], now)]
  }

  /** Equal but for the synchronisation time. */
  predicate SameFixture(m: Match, n: Match) {
    n.(lastSynced := m.lastSynced) == m
  }

  predicate SameFixtures(matches: map<MatchId, Match>, others: map<MatchId, Match>) {
    matches.Keys == others.Keys && forall m :: m in matches ==> SameFixture(matches[m], others[m])
  }

  predicate AllSkipped(actions: seq<Action>) {
    forall i :: 0 <= i < |actions| ==> actions[i] == Skipped
  }

  /** The claim: the second run creates and updates nothing and only synchronisation times differ. */
  predicate SecondRunSkips(matches: map<MatchId, Match>, payloads: seq<Payload>, first: int, second: int) {
    var once := SyncAll(matches, payloads, first);
    AllSkipped(Actions(once, payloads, second)) && SameFixtures(once, SyncAll(once, payloads, second))
  }

  // ---- One payload ----------------------------------------------------------------------

  predicate SameNames(p: Payload, homeTeam: string, awayTeam: string, competition: string) {
    p.homeTeam == homeTeam && p.awayTeam == awayTeam && p.competition == competition
  }

  /** The payload leaves the match as it is. */
  predicate Rests(m: Match, p: Payload) {
    && SameNames(p, m.homeTeam, m.awayTeam, m.competition)
    && Distance(m.kickoff, p.kickoff) <= 60
    && p.status !in AllowedTransitions(m.status)
    && (WritesResult(m, p) ==> p.outcome == m.outcome && p.homeScore == m.homeScore && p.awayScore == m.awayScore)
  }

  lemma RestsIffSkipped(m: Match, n: Match, p: Payload, now: int)
    requires SameFixture(m, n)
    ensures Rests(m, p) <==> UpdatedFixture(n, p, now).(lastSynced := n.lastSynced) == n
    ensures Rests(m, p) ==> SameFixture(m, UpdatedFixture(n, p, now))
  {
  }

  // ---- From resting to skipping and back ------------------------------------------------

  predicate AllRest(matches: map<MatchId, Match>, payloads: seq<Payload>) {
    forall i :: 0 <= i < |payloads| ==>
      payloads[i].externalId in matches && Rests(matches[payloads[i].externalId], payloads[i])
  }

  lemma {:induction false} RestingSkips(matches: map<MatchId, Match>, payloads: seq<Payload>, now: int)
    requires AllRest(matches, payloads)
    ensures AllSkipped(Actions(matches, payloads, now)) && SameFixtures(matches, SyncAll(matches, payloads, now))
  {
    if payloads != [] {
      var before, last := payloads[..|payloads| - 1], payloads[|payloads| - 1];
      RestingSkips(matches, before, now);
      RestsIffSkipped(matches[last.externalId], SyncAll(matches, before, now)[last.externalId], last, now);
    }
  }

  lemma {:induction false} SkippingRests(matches: map<MatchId, Match>, payloads: seq<Payload>, now: int)
    requires AllSkipped(Actions(matches, payloads, now))
    ensures AllRest(matches, payloads) && SameFixtures(matches, SyncAll(matches, payloads, now))
  {
    if payloads != [] {
      var before, last := payloads[..|payloads| - 1], payloads[|payloads| - 1];
      var middle := SyncAll(matches, before, now);
      LastSkipped(Actions(matches, before, now), ActionOf(middle, last, now));
      SkippingRests(matches, before, now);
      SkippedRests(matches, middle, last, now);
      AllRestGrows(matches, payloads);
    }
  }

  lemma LastSkipped(actions: seq<Action>, last: Action)
    requires AllSkipped(actions + [last])
    ensures AllSkipped(actions) && last == Skipped
  {
    assert (actions + [last])[|actions|] == last;
    assert forall i :: 0 <= i < |actions| ==> (actions + [last])[i] == actions[i];
  }

  lemma SkippedRests(matches: map<MatchId, Match>, middle: map<MatchId, Match>, p: Payload, now: int)
    requires SameFixtures(matches, middle) && ActionOf(middle, p, now) == Skipped
    ensures p.externalId in matches && Rests(matches[p.externalId], p)
    ensures SameFixtures(matches, Upserted(middle, p, now))
  {
    RestsIffSkipped(matches[p.externalId], middle[p.externalId], p, now);
  }

  lemma AllRestGrows(matches: map<MatchId, Match>, payloads: seq<Payload>)
    requires payloads != [] && AllRest(matches, payloads[..|payloads| - 1])
    requires var last := payloads[|payloads| - 1];
             last.externalId in matches && Rests(matches[last.externalId], last)
    ensures AllRest(matches, payloads)
  {
    var before := payloads[..|payloads| - 1];
    forall i | 0 <= i < |payloads|
      ensures payloads[i].externalId in matches && Rests(matches[payloads[i].externalId], payloads[i])
    {
      if i < |before| {
        assert before[i] == payloads[i];
      }
    }
  }

  // ---- The condition --------------------------------------------------------------------

  predicate SameResult(p: Payload, q: Payload) {
    p.outcome.Some? && q.outcome.Some? ==>
      p.outcome == q.outcome && p.homeScore == q.homeScore && p.awayScore == q.awayScore
  }

  /** Payloads for one fixture name it alike, put its kickoff within a minute and give one result. */
  predicate Agree(payloads: seq<Payload>) {
    forall i, j :: 0 <= i < |payloads| && 0 <= j < |payloads| && payloads[i].externalId == payloads[j].externalId ==>
      && SameNames(payloads[i], payloads[j].homeTeam, payloads[j].awayTeam, payloads[j].competition)
      && Distance(payloads[i].kickoff, payloads[j].kickoff) <= 60
      && SameResult(payloads[i], payloads[j])
  }

  /** Where the status moves of one fixture's payloads lead from a given status. */
  function EndStatus(start: MatchStatus, payloads: seq<Payload>, id: MatchId): MatchStatus {
    if payloads == [] then start
    else
      var before, last := EndStatus(start, payloads[..|payloads| - 1], id), payloads[|payloads| - 1];
      if last.externalId == id && last.status in AllowedTransitions(before) then last.status else before
  }

  /** From whatever status a fixture starts, where its payloads lead none of them can move it on. */
  predicate ComesToRest(payloads: seq<Payload>) {
    forall i, start: MatchStatus :: 0 <= i < |payloads| ==>
      payloads[i].status !in AllowedTransitions(EndStatus(start, payloads, payloads[i].externalId))
  }

  /** The exact condition, on the payloads alone. */
  predicate Steady(payloads: seq<Payload>) {
    Agree(payloads) && ComesToRest(payloads)
  }

  // ---- What a run leaves in a fixture ---------------------------------------------------

  lemma {:induction false} EveryFixtureIsThere(matches: map<MatchId, Match>, payloads: seq<Payload>, now: int)
    ensures matches.Keys <= SyncAll(matches, payloads, now).Keys
    ensures forall i :: 0 <= i < |payloads| ==> payloads[i].externalId in SyncAll(matches, payloads, now)
  {
    if payloads != [] {
      EveryFixtureIsThere(matches, payloads[..|payloads| - 1], now);
    }
  }

  /** Names, kickoff and result fit every payload of the fixture. */
  predicate Fits(m: Match, p: Payload) {
    && SameNames(p, m.homeTeam, m.awayTeam, m.competition)
    && Distance(m.kickoff, p.kickoff) <= 60
    && (WritesResult(m, p) ==> p.outcome == m.outcome && p.homeScore == m.homeScore && p.awayScore == m.awayScore)
  }

  lemma {:induction false} AgreementFits(matches: map<MatchId, Match>, payloads: seq<Payload>, now: int)
    requires Agree(payloads)
    ensures forall i :: 0 <= i < |payloads| ==>
      payloads[i].externalId in SyncAll(matches, payloads, now)
      && Fits(SyncAll(matches, payloads, now)[payloads[i].externalId], payloads[i])
  {
    if payloads != [] {
      var n := |payloads| - 1;
      var before, last := payloads[..n], payloads[n];
      AgreementFits(matches, before, now);
      var middle := SyncAll(matches, before, now);
      forall i | 0 <= i < |payloads|
        ensures payloads[i].externalId in SyncAll(matches, payloads, now)
        ensures Fits(SyncAll(matches, payloads, now)[payloads[i].externalId], payloads[i])
      {
        assert i < n ==> before[i] == payloads[i];
        if payloads[i].externalId == last.externalId {
          FitsNext(middle, payloads[i], last, now, i < n);
        }
      }
    }
  }

  lemma FitsNext(matches: map<MatchId, Match>, p: Payload, last: Payload, now: int, earlier: bool)
    requires p.externalId == last.externalId
    requires if earlier then p.externalId in matches && Fits(matches[p.externalId], p) else p == last
    requires SameNames(p, last.homeTeam, last.awayTeam, last.competition) && SameResult(p, last)
    requires Distance(p.kickoff, last.kickoff) <= 60
    ensures Fits(Upserted(matches, last, now)[p.externalId], p)
  {
  }

  lemma {:induction false} UnnamedKeepsStatus(start: MatchStatus, payloads: seq<Payload>, id: MatchId)
    requires forall i :: 0 <= i < |payloads| ==> payloads[i].externalId != id
    ensures EndStatus(start, payloads, id) == start
  {
    if payloads != [] {
      UnnamedKeepsStatus(start, payloads[..|payloads| - 1], id);
    }
  }

  lemma {:induction false} KnownStatus(matches: map<MatchId, Match>, payloads: seq<Payload>, now: int, id: MatchId)
    requires id in matches
    ensures id in SyncAll(matches, payloads, now)
    ensures SyncAll(matches, payloads, now)[id].status == EndStatus(matches[id].status, payloads, id)
  {
    if payloads != [] {
      KnownStatus(matches, payloads[..|payloads| - 1], now, id);
    }
  }

  /** A fixture ends where its payloads lead from its own status or, if new, from that of its first payload. */
  lemma {:induction false} SomeStatus(matches: map<MatchId, Match>, payloads: seq<Payload>, now: int, id: MatchId)
    requires id in SyncAll(matches, payloads, now)
    ensures exists start :: SyncAll(matches, payloads, now)[id].status == EndStatus(start, payloads, id)
  {
    if payloads == [] {
      assert SyncAll(matches, payloads, now)[id].status == EndStatus(matches[id].status, payloads, id);
    } else {
      var n := |payloads| - 1;
      var before, last := payloads[..n], payloads[n];
      if id in SyncAll(matches, before, now) {
        SomeStatus(matches, before, now, id);
        var start :| SyncAll(matches, before, now)[id].status == EndStatus(start, before, id);
        assert SyncAll(matches, payloads, now)[id].status == EndStatus(start, payloads, id);
      } else {
        EveryFixtureIsThere(matches, before, now);
        UnnamedKeepsStatus(last.status, before, id);
        assert SyncAll(matches, payloads, now)[id].status == EndStatus(last.status, payloads, id);
      }
    }
  }

  // ---- Steady payloads ------------------------------------------------------------------

  /** With steady payloads the second run skips everything, whatever was stored before. */
  lemma SteadySkips(matches: map<MatchId, Match>, payloads: seq<Payload>, first: int, second: int)
    requires Steady(payloads)
    ensures SecondRunSkips(matches, payloads, first, second)
  {
    var once := SyncAll(matches, payloads, first);
    AgreementFits(matches, payloads, first);
    forall i | 0 <= i < |payloads| ensures Rests(once[payloads[i].externalId], payloads[i]) {
      SomeStatus(matches, payloads, first, payloads[i].externalId);
    }
    RestingSkips(once, payloads, second);
  }

  // ---- Payloads that are not steady -----------------------------------------------------

  /** The table an earlier run over one payload leaves in an empty database. */
  function Known(p: Payload): map<MatchId, Match> {
    Upserted(map[], p, 0)
  }

  /** Some payload of the fixture puts the kickoff where it is, and another one over a minute away. */
  predicate Torn(payloads: seq<Payload>, id: MatchId, kickoff: int) {
    && (exists a :: 0 <= a < |payloads| && payloads[a].externalId == id && payloads[a].kickoff == kickoff)
    && (exists b :: 0 <= b < |payloads| && payloads[b].externalId == id && Distance(kickoff, payloads[b].kickoff) > 60)
  }

  /** A kickoff that some payload contradicts can only move to another one of this kind. */
  lemma {:induction false} StaysTorn(
    matches: map<MatchId, Match>, payloads: seq<Payload>, n: nat, now: int, id: MatchId)
    requires n <= |payloads| && id in matches && Torn(payloads, id, matches[id].kickoff)
    ensures id in SyncAll(matches, payloads[..n], now)
    ensures Torn(payloads, id, SyncAll(matches, payloads[..n], now)[id].kickoff)
  {
    if n > 0 {
      assert payloads[..n][..n - 1] == payloads[..n - 1];
      StaysTorn(matches, payloads, n - 1, now, id);
      var middle := SyncAll(matches, payloads[..n - 1], now);
      var last := payloads[n - 1];
      if last.externalId == id && Distance(middle[id].kickoff, last.kickoff) > 60 {
        var a :| 0 <= a < |payloads| && payloads[a].externalId == id && payloads[a].kickoff == middle[id].kickoff;
        assert Distance(last.kickoff, payloads[a].kickoff) > 60;
        assert payloads[n - 1].kickoff == last.kickoff;
      }
    }
  }

  lemma TornFails(payloads: seq<Payload>, i: nat, j: nat, first: int)
    requires i < |payloads| && j < |payloads| && payloads[i].externalId == payloads[j].externalId
    requires Distance(payloads[i].kickoff, payloads[j].kickoff) > 60
    ensures !AllRest(SyncAll(Known(payloads[i]), payloads, first), payloads)
  {
    var id := payloads[i].externalId;
    StaysTorn(Known(payloads[i]), payloads, |payloads|, first, id);
    assert payloads[..|payloads|] == payloads;
    var kickoff := SyncAll(Known(payloads[i]), payloads, first)[id].kickoff;
    var b :| 0 <= b < |payloads| && payloads[b].externalId == id && Distance(kickoff, payloads[b].kickoff) > 60;
    assert !Rests(SyncAll(Known(payloads[i]), payloads, first)[id], payloads[b]);
  }

  lemma {:induction false} StaysUnconfirmed(matches: map<MatchId, Match>, payloads: seq<Payload>, now: int, id: MatchId)
    requires id in matches && matches[id].confirmedAt.None?
    ensures id in SyncAll(matches, payloads, now) && SyncAll(matches, payloads, now)[id].confirmedAt.None?
  {
    if payloads != [] {
      StaysUnconfirmed(matches, payloads[..|payloads| - 1], now, id);
    }
  }

  /** Two payloads that name the fixture differently or give it different results cannot both rest. */
  lemma DisagreementFails(payloads: seq<Payload>, i: nat, j: nat, first: int)
    requires i < |payloads| && j < |payloads| && payloads[i].externalId == payloads[j].externalId
    requires !SameNames(payloads[i], payloads[j].homeTeam, payloads[j].awayTeam, payloads[j].competition)
             || !SameResult(payloads[i], payloads[j])
    ensures !AllRest(SyncAll(Known(payloads[i]), payloads, first), payloads)
  {
    var id := payloads[i].externalId;
    StaysUnconfirmed(Known(payloads[i]), payloads, first, id);
    var m := SyncAll(Known(payloads[i]), payloads, first)[id];
    assert !(Rests(m, payloads[i]) && Rests(m, payloads[j]));
  }

  lemma RestlessFails(payloads: seq<Payload>, i: nat, start: MatchStatus, first: int)
    requires i < |payloads|
    requires payloads[i].status in AllowedTransitions(EndStatus(start, payloads, payloads[i].externalId))
    ensures !AllRest(SyncAll(Known(payloads[i].(status := start)), payloads, first), payloads)
  {
    var id := payloads[i].externalId;
    KnownStatus(Known(payloads[i].(status := start)), payloads, first, id);
    assert !Rests(SyncAll(Known(payloads[i].(status := start)), payloads, first)[id], payloads[i]);
  }

  /** Whichever part of the condition fails, some table left by an earlier synchronisation shows it. */
  lemma UnsteadyFails(payloads: seq<Payload>, first: int, second: int) returns (earlier: Payload)
    requires !Steady(payloads)
    ensures !SecondRunSkips(Known(earlier), payloads, first, second)
  {
    if !Agree(payloads) {
      var i, j :| 0 <= i < |payloads| && 0 <= j < |payloads| && payloads[i].externalId == payloads[j].externalId
        && (!SameNames(payloads[i], payloads[j].homeTeam, payloads[j].awayTeam, payloads[j].competition)
            || Distance(payloads[i].kickoff, payloads[j].kickoff) > 60 || !SameResult(payloads[i], payloads[j]));
      earlier := payloads[i];
      if Distance(payloads[i].kickoff, payloads[j].kickoff) > 60 {
        TornFails(payloads, i, j, first);
      } else {
        DisagreementFails(payloads, i, j, first);
      }
    } else {
      var i, start: MatchStatus :| 0 <= i < |payloads|
        && payloads[i].status in AllowedTransitions(EndStatus(start, payloads, payloads[i].externalId));
      earlier := payloads[i].(status := start);
      RestlessFails(payloads, i, start, first);
    }
    if SecondRunSkips(Known(earlier), payloads, first, second) {
      SkippingRests(SyncAll(Known(earlier), payloads, first), payloads, second);
    }
  }

  // ---- The result -----------------------------------------------------------------------

  /** Synchronising twice changes nothing, whatever was stored before, if and only if the payloads are steady. */
  lemma SyncIdempotentIff(payloads: seq<Payload>, first: int, second: int)
    ensures (forall matches :: SecondRunSkips(matches, payloads, first, second)) <==> Steady(payloads)
  {
    if Steady(payloads) {
      forall matches ensures SecondRunSkips(matches, payloads, first, second) {
        SteadySkips(matches, payloads, first, second);
      }
    } else {
      var earlier := UnsteadyFails(payloads, first, second);
    }
  }

  predicate DistinctFixtures(payloads: seq<Payload>) {
    forall i, j :: 0 <= i < j < |payloads| ==> payloads[i].externalId != payloads[j].externalId
  }

  lemma {:induction false} OnePayloadRests(payloads: seq<Payload>, i: nat, start: MatchStatus)
    requires DistinctFixtures(payloads) && i < |payloads|
    ensures payloads[i].status !in AllowedTransitions(EndStatus(start, payloads, payloads[i].externalId))
  {
    var n := |payloads| - 1;
    var before := payloads[..n];
    if i < n {
      assert before[i] == payloads[i];
      OnePayloadRests(before, i, start);
    } else {
      assert payloads[i].status !in AllowedTransitions(payloads[i].status);
    }
  }

  /** The case the synchroniser relies on: distinct external ids are always steady. */
  lemma SyncIdempotent(matches: map<MatchId, Match>, payloads: seq<Payload>, first: int, second: int)
    requires DistinctFixtures(payloads)
    ensures Steady(payloads) && SecondRunSkips(matches, payloads, first, second)
  {
    forall i, start: MatchStatus | 0 <= i < |payloads|
      ensures payloads[i].status !in AllowedTransitions(EndStatus(start, payloads, payloads[i].externalId))
    {
      OnePayloadRests(payloads, i, start);
    }
    SteadySkips(matches, payloads, first, second);
  }

  /** Two payloads for one fixture that disagree undo each other for ever. */
  lemma RepeatedFixtureKeepsUpdating(now: int)
    ensures var p := Payload("1", "p", "A", "B", "C", 0, MatchStatus.Live, None, None, None);
            var q := p.(homeTeam := "Z");
            var once := SyncAll(map[], [p, q], now);
            Actions(once, [p, q], now) == [Updated, Updated]
  {
    var p := Payload("1", "p", "A", "B", "C", 0, MatchStatus.Live, None, None, None);
    var q := p.(homeTeam := "Z");
    assert [p, q][..1] == [p] && [p][..0] == [];
    var m := NewFixture(p, now);
    assert SyncAll(map[], [p], now) == map["1" := m];
    var n := UpdatedFixture(m, q, now);
    assert n == m.(homeTeam := "Z");
    var once := SyncAll(map[], [p, q], now);
    assert once == map["1" := n];
    assert UpdatedFixture(n, p, now) == m;
    assert SyncAll(once, [p], now) == map["1" := m];
    assert Actions(once, [p], now) == [Updated];
  }
}
