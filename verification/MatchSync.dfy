/** Synchronising fixtures from a provider: one upsert per payload, with counts of what happened. */
module MatchSync {
  import opened Wrappers
  import opened Tables
  import opened Rules
  import opened SyncIdempotence
  import opened Sessions

  method CreateFixture(s: Session, p: Payload, now: int) returns (action: Action)
    modifies s
    ensures s.State() == old(s.State()).(matches := old(s.matches)[p.externalId := NewFixture(p, now)])
    ensures action == Action.Created
  {
    var m := Match(Some(p.provider), p.homeTeam, p.awayTeam, p.competition, p.kickoff, p.status,
                   None, None, None, None, Some(now));
    if p.outcome.Some? {
      m := m.(outcome := p.outcome, homeScore := p.homeScore, awayScore := p.awayScore);
    }
    s.matches := s.matches[p.externalId := m];
    return Action.Created;
  }

  /** Team and competition names. */
  method CorrectNames(m: Match, p: Payload) returns (n: Match, changed: bool)
    ensures n == m.(homeTeam := p.homeTeam, awayTeam := p.awayTeam, competition := p.competition)
    ensures changed <==> n != m
  {
    n, changed := m, false;
    if n.homeTeam != p.homeTeam {
      n := n.(homeTeam := p.homeTeam);
      changed := true;
    }
    if n.awayTeam != p.awayTeam {
      n := n.(awayTeam := p.awayTeam);
      changed := true;
    }
    if n.competition != p.competition {
      n := n.(competition := p.competition);
      changed := true;
    }
  }

  /** A shift of the kickoff by more than a minute, and a status move if it is an allowed one. */
  method Reschedule(m: Match, p: Payload) returns (n: Match, changed: bool)
    ensures n == m.(kickoff := if Distance(m.kickoff, p.kickoff) > 60 then p.kickoff else m.kickoff,
                    status := if p.status in AllowedTransitions(m.status) then p.status else m.status)
    ensures changed <==> n != m
  {
    n, changed := m, false;
    if Distance(n.kickoff, p.kickoff) > 60 {
      n := n.(kickoff := p.kickoff);
      changed := true;
    }
    if n.status != p.status {
      if p.status in AllowedTransitions(n.status) {
        n := n.(status := p.status);
        changed := true;
      }
    }
  }

  /** The result, as long as it is not confirmed. */
  method WriteResult(m: Match, p: Payload) returns (n: Match, changed: bool)
    ensures n == if WritesResult(m, p)
                 then m.(outcome := p.outcome, homeScore := p.homeScore, awayScore := p.awayScore) else m
    ensures changed <==> n != m
  {
    n, changed := m, false;
    if p.outcome.Some? && m.confirmedAt.None? {
      if n.outcome != p.outcome {
        n := n.(outcome := p.outcome);
        changed := true;
      }
      if n.homeScore != p.homeScore {
        n := n.(homeScore := p.homeScore);
        changed := true;
      }
      if n.awayScore != p.awayScore {
        n := n.(awayScore := p.awayScore);
        changed := true;
      }
    }
  }

  method UpdateFixture(s: Session, p: Payload, now: int) returns (action: Action)
    requires p.externalId in s.matches
    modifies s
    ensures s.State() == old(s.State()).(matches := Upserted(old(s.matches), p, now))
    ensures action == ActionOf(old(s.matches), p, now)
  {
    var existing := s.matches[p.externalId];
    var named, renamed := CorrectNames(existing, p);
    var timed, moved := Reschedule(named, p);
    var written, scored := WriteResult(timed, p);
    s.matches := s.matches[p.externalId := written.(lastSynced := Some(now))];
    action := if renamed || moved || scored then Updated else Skipped;
  }

  method UpsertFixture(s: Session, p: Payload, now: int) returns (action: Action)
    modifies s
    ensures s.State() == old(s.State()).(matches := Upserted(old(s.matches), p, now))
    ensures action == ActionOf(old(s.matches), p, now)
  {
    if p.externalId !in s.matches {
      action := CreateFixture(s, p, now);
    } else {
      action := UpdateFixture(s, p, now);
    }
  }

  datatype SyncResult = SyncResult(created: nat, updated: nat, skipped: nat)

  function Counts(actions: seq<Action>): SyncResult {
    SyncResult(multiset(actions)[Action.Created], multiset(actions)[Updated], multiset(actions)[Skipped])
  }

  method Count(result: SyncResult, action: Action, ghost actions: seq<Action>) returns (next: SyncResult)
    requires result == Counts(actions)
    ensures next == Counts(actions + [action])
  {
    match action {
      case Created => next := result.(created := result.created + 1);
      case Updated => next := result.(updated := result.updated + 1);
      case Skipped => next := result.(skipped := result.skipped + 1);
    }
  }

  lemma {:induction false} EveryActionCounted(actions: seq<Action>)
    ensures var c := Counts(actions); c.created + c.updated + c.skipped == |actions|
  {
    if actions != [] {
      var before, last := actions[..|actions| - 1], actions[|actions| - 1];
      EveryActionCounted(before);
      assert actions == before + [last];
      assert multiset(actions) == multiset(before)[last := multiset(before)[last] + 1];
      assert last.Created? || last.Updated? || last.Skipped?;
    }
  }

  lemma {:induction false} ActionsLength(matches: map<MatchId, Match>, payloads: seq<Payload>, now: int)
    ensures |Actions(matches, payloads, now)| == |payloads|
  {
    if payloads != [] {
      ActionsLength(matches, payloads[..|payloads| - 1], now);
    }
  }

  lemma OneMore(matches: map<MatchId, Match>, payloads: seq<Payload>, i: nat, now: int)
    requires i < |payloads|
    ensures SyncAll(matches, payloads[..i + 1], now) == Upserted(SyncAll(matches, payloads[..i], now), payloads[i], now)
    ensures Actions(matches, payloads[..i + 1], now)
            == Actions(matches, payloads[..i], now) + [ActionOf(SyncAll(matches, payloads[..i], now), payloads[i], now)]
  {
    assert payloads[..i + 1][..i] == payloads[..i];
  }

  /** One round of the loop. */
  method ProcessPayload(s: Session, payloads: seq<Payload>, i: nat, now: int, before: SyncResult,
                        ghost matches: map<MatchId, Match>) returns (result: SyncResult)
    requires i < |payloads| && s.matches == SyncAll(matches, payloads[..i], now)
    requires before == Counts(Actions(matches, payloads[..i], now))
    modifies s
    ensures s.State() == old(s.State()).(matches := SyncAll(matches, payloads[..i + 1], now))
    ensures result == Counts(Actions(matches, payloads[..i + 1], now))
  {
    OneMore(matches, payloads, i, now);
    var action := UpsertFixture(s, payloads[i], now);
    result := Count(before, action, Actions(matches, payloads[..i], now));
  }

  /** The loop over all payloads: every one is counted exactly once, under what it did. */
  method ProcessPayloads(s: Session, payloads: seq<Payload>, now: int) returns (result: SyncResult)
    modifies s
    ensures s.State() == old(s.State()).(matches := SyncAll(old(s.matches), payloads, now))
    ensures var actions := multiset(Actions(old(s.matches), payloads, now));
            result == SyncResult(actions[Action.Created], actions[Updated], actions[Skipped])
    ensures result.created + result.updated + result.skipped == |payloads|
  {
    ghost var matches := s.matches;
    result := SyncResult(0, 0, 0);
    for i := 0 to |payloads|
      invariant s.State() == old(s.State()).(matches := SyncAll(matches, payloads[..i], now))
      invariant result == Counts(Actions(matches, payloads[..i], now))
    {
      result := ProcessPayload(s, payloads, i, now, result, matches);
    }
    assert payloads[..|payloads|] == payloads;
    ActionsLength(matches, payloads, now);
    EveryActionCounted(Actions(matches, payloads, now));
  }
}
