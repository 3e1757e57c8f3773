/** The lock plans of the services and exactly which sets of calls can deadlock. */
module CallPlans {
  import opened Tables
  import opened Rules
  import opened LockProtocol
  import opened LockPlans
  import opened LockChains
  import ExampleRuns
  import LockProofs
  import Runs

  // ---- The plans ------------------------------------------------------------------------

  datatype Call =
    | Voiding(id: BetId, bet: Bet)
    | Settling(id: BetId, bet: Bet, judged: bool)
    | Accepting(id: BetId, user: UserId, admitted: bool)
    | Cancelling(id: BetId, bet: Bet)

  predicate Paired(bet: Bet) {
    bet.opponent.Some? && bet.opponent.value != bet.creator
  }

  /** Voiding locks the bet, then, unless its status refuses, the creator's wallet and, if the bet is matched,
      the opponent's. */
  function VoidPlan(id: BetId, bet: Bet): seq<Lockable> {
    if bet.status == BetStatus.Matched && Paired(bet)
    then [BetLock(id), WalletLock(bet.creator), WalletLock(bet.opponent.value)]
    else if bet.status == BetStatus.Matched || bet.status == BetStatus.Open then [BetLock(id), WalletLock(bet.creator)]
    else [BetLock(id)]
  }

  /** Settlement locks the bet, then, if it comes to a verdict, the wallets in ascending order, then the
      platform account. */
  function SettlePlan(id: BetId, bet: Bet, judged: bool): seq<Lockable> {
    if judged && Paired(bet)
    then [BetLock(id), WalletLock(First(bet)), WalletLock(Second(bet)), PlatformLock]
    else [BetLock(id)]
  }

  function AcceptPlan(id: BetId, user: UserId, admitted: bool): seq<Lockable> {
    if admitted then [BetLock(id), WalletLock(user)] else [BetLock(id)]
  }

  /** Cancelling reads its bet without a lock, unlocks the stake in the creator's wallet and then writes the
      bet; a bet that is not open is refused before any lock. */
  function CancelPlan(id: BetId, bet: Bet): seq<Lockable> {
    if bet.status == BetStatus.Open then [WalletLock(bet.creator), BetLock(id)] else []
  }

  function PlanOf(call: Call): seq<Lockable> {
    match call
    case Voiding(id, bet) => VoidPlan(id, bet)
    case Settling(id, bet, judged) => SettlePlan(id, bet, judged)
    case Accepting(id, user, admitted) => AcceptPlan(id, user, admitted)
    case Cancelling(id, bet) => CancelPlan(id, bet)
  }

  function Plans(calls: seq<Call>): (plans: seq<seq<Lockable>>)
    ensures |plans| == |calls| && forall i :: 0 <= i < |calls| ==> plans[i] == PlanOf(calls[i])
  {
    seq(|calls|, i requires 0 <= i < |calls| => PlanOf(calls[i]))
  }

  // ---- The plans are what the protocol locks --------------------------------------------

  function TxnPlan(db: Db, txn: Txn): seq<Lockable> {
    match txn
    case Settle(id, now) =>
      if id in db.bets then SettlePlan(id, db.bets[id], JudgeMove(db, db.bets[id], now).Work?) else []
    case Accept(id, _, user, prediction, now) =>
      if id in db.bets then AcceptPlan(id, user, AcceptRefusal(db.bets[id], user, prediction, now).None?) else []
  }

  /** The transaction holds a beginning of the plan, and the row is the next one on it. */
  predicate IsNext(plan: seq<Lockable>, n: nat, held: set<Lockable>, row: Lockable) {
    n < |plan| && plan[n] == row && held == set r | r in plan[..n]
  }

  /** Settlement and acceptance request their locks exactly in the order of their plans. */
  lemma FollowsPlan(db: Db, l: Local) returns (n: nat)
    requires LockProofs.Fresh(db, l) && NextMove(db, l).Lock?
    ensures IsNext(TxnPlan(db, l.txn), n, Held(l), NextMove(db, l).row)
  {
    var plan := TxnPlan(db, l.txn);
    match l.stage {
      case Begun => n := 0;
      case Judged(_, _) =>
        n := 1;
        assert plan[..1] == [plan[0]];
      case FirstRead(_, _, _) =>
        n := 2;
        assert plan[..2] == [plan[0], plan[1]];
      case Checked(_, _, _, _) =>
        n := 3;
        assert plan[..3] == [plan[0], plan[1], plan[2]];
      case Admitted(_) =>
        n := 1;
        assert plan[..1] == [plan[0]];
    }
  }

  // ---- Which calls deadlock -------------------------------------------------------------

  /** The call locks two wallets, one after the other. */
  predicate Wide(call: Call) {
    match call
    case Voiding(_, bet) => bet.status == BetStatus.Matched && Paired(bet)
    case Settling(_, bet, judged) => judged && Paired(bet)
    case _ => false
  }

  function From(call: Call): UserId
    requires Wide(call)
  {
    if call.Voiding? then call.bet.creator else First(call.bet)
  }

  function To(call: Call): UserId
    requires Wide(call)
  {
    if call.Voiding? then call.bet.opponent.value else Second(call.bet)
  }

  lemma WidePlan(call: Call)
    requires Wide(call)
    ensures From(call) != To(call) && |PlanOf(call)| >= 3
    ensures PlanOf(call)[..2] == [BetLock(call.id), WalletLock(From(call))] && PlanOf(call)[2] == WalletLock(To(call))
  {
  }

  /** Cancellations aside, no two of these calls are about the same bet. */
  predicate OnDifferentBets(calls: seq<Call>, on: seq<nat>) {
    forall k, l :: 0 <= k < |on| && 0 <= l < |on| ==> Different(calls, on[k], on[l])
  }

  predicate Different(calls: seq<Call>, i: nat, j: nat) {
    i < |calls| && j < |calls| && i != j ==>
      calls[i].Cancelling? || calls[j].Cancelling? || calls[i].id != calls[j].id
  }

  lemma PlanHasNoRepeats(call: Call, n: nat)
    requires n < |PlanOf(call)|
    ensures PlanOf(call)[n] !in PlanOf(call)[..n]
  {
  }

  lemma PlansHaveNoRepeats(calls: seq<Call>)
    ensures NoRepeats(Plans(calls))
  {
    forall i, n | 0 <= i < |calls| && 0 <= n < |Plans(calls)[i]| ensures Plans(calls)[i][n] !in Plans(calls)[i][..n] {
      PlanHasNoRepeats(calls[i], n);
    }
  }

  lemma FirstIsBet(call: Call)
    requires !call.Cancelling?
    ensures |PlanOf(call)| >= 1 && PlanOf(call)[0] == BetLock(call.id)
  {
  }

  lemma HeldBetsDiffer(calls: seq<Call>, at: seq<nat>, i: nat, j: nat)
    requires Fits(Plans(calls), at) && Apart(Plans(calls), at) && i < |calls| && j < |calls|
    requires at[i] > 0 && at[j] > 0
    ensures Different(calls, i, j)
  {
    var plans := Plans(calls);
    if i != j && !calls[i].Cancelling? && !calls[j].Cancelling? {
      FirstIsBet(calls[i]);
      FirstIsBet(calls[j]);
      assert Disjoint(Has(plans, at, i), Has(plans, at, j));
      assert Has(plans, at, i)[0] == BetLock(calls[i].id) && Has(plans, at, j)[0] == BetLock(calls[j].id);
      assert BetLock(calls[i].id) in Has(plans, at, i) && BetLock(calls[j].id) in Has(plans, at, j);
    }
  }

  lemma StuckOnDifferentBets(calls: seq<Call>, at: seq<nat>, round: seq<nat>)
    requires Fits(Plans(calls), at) && Apart(Plans(calls), at) && Deadlocked(Plans(calls), at, round)
    ensures OnDifferentBets(calls, round)
  {
    StuckIsChain(Plans(calls), at, round);
    forall k, l | 0 <= k < |round| && 0 <= l < |round| ensures Different(calls, round[k], round[l]) {
      IsWanted(Plans(calls), LinksOf(at, round), k);
      IsWanted(Plans(calls), LinksOf(at, round), l);
      HeldBetsDiffer(calls, at, round[k], round[l]);
    }
  }

  // ---- Shortening a chain ---------------------------------------------------------------

  lemma PartKeepsBets(calls: seq<Call>, chain: seq<Link>, part: seq<Link>)
    requires OnDifferentBets(calls, TxnsOn(chain)) && FromChain(chain, part)
    ensures OnDifferentBets(calls, TxnsOn(part))
  {
    var on := TxnsOn(part);
    forall k, l | 0 <= k < |on| && 0 <= l < |on| ensures Different(calls, on[k], on[l]) {
      assert part[k].txn in TxnsOn(chain) && part[l].txn in TxnsOn(chain);
    }
  }

  /** Nobody waits for anything with the platform account in hand. */
  lemma PlatformIsLast(call: Call, n: nat)
    requires n < |PlanOf(call)|
    ensures PlatformLock !in PlanOf(call)[..n]
  {
  }

  lemma ThirdIsLast(call: Call, n: nat)
    requires 2 <= n < |PlanOf(call)|
    ensures Wide(call) && (n == 2 || PlanOf(call)[n] == PlatformLock)
  {
  }

  /** Only a call that locks two wallets is on a chain with more than one row in hand. */
  lemma SecondLink(calls: seq<Call>, l: Link, next: Link)
    requires Linked(Plans(calls), l, next) && l.n >= 2
    ensures Wide(calls[l.txn]) && l.n == 2 && Want(Plans(calls), l) == WalletLock(To(calls[l.txn]))
    ensures Kept(Plans(calls), l) == [BetLock(calls[l.txn].id), WalletLock(From(calls[l.txn]))]
  {
    PlatformIsLast(calls[next.txn], next.n);
    ThirdIsLast(calls[l.txn], l.n);
    WidePlan(calls[l.txn]);
  }

  /** The links share a row, and the row that each is waited for is not the other's. */
  predicate Crossing(plans: seq<seq<Lockable>>, before: Link, a: Link, prior: Link, b: Link, r: Lockable) {
    && Linked(plans, before, a) && Linked(plans, prior, b)
    && r in Kept(plans, a) && r in Kept(plans, b)
    && Want(plans, before) !in Kept(plans, b) && Want(plans, prior) !in Kept(plans, a)
  }

  lemma TwoRows(rows: seq<Lockable>, r: Lockable, q: Lockable)
    requires r in rows && q in rows && r != q
    ensures |rows| >= 2
  {
  }

  /** Then both hold a bet and a wallet, and the wallet is what they share. */
  lemma CrossingWallets(calls: seq<Call>, before: Link, a: Link, prior: Link, b: Link, r: Lockable, x: Link, y: Link)
    requires Crossing(Plans(calls), before, a, prior, b, r) && Different(calls, a.txn, b.txn)
    requires Linked(Plans(calls), a, x) && Linked(Plans(calls), b, y)
    ensures a.n == 2 && Wide(calls[a.txn]) && r == WalletLock(From(calls[a.txn]))
    ensures Want(Plans(calls), before) == BetLock(calls[a.txn].id)
    ensures Want(Plans(calls), prior).BetLock? && Want(Plans(calls), a).WalletLock?
  {
    TwoRows(Kept(Plans(calls), a), r, Want(Plans(calls), before));
    TwoRows(Kept(Plans(calls), b), r, Want(Plans(calls), prior));
    SecondLink(calls, a, x);
    SecondLink(calls, b, y);
    assert a.txn != b.txn;
  }

  /** So the first one need not have gone beyond its bet. */
  lemma StepBack(calls: seq<Call>, before: Link, a: Link, prior: Link, b: Link, r: Lockable, x: Link, y: Link)
    requires Crossing(Plans(calls), before, a, prior, b, r) && Different(calls, a.txn, b.txn)
    requires Linked(Plans(calls), a, x) && Linked(Plans(calls), b, y)
    ensures prior != a
    ensures Linked(Plans(calls), Link(a.txn, 1), b) && Linked(Plans(calls), before, Link(a.txn, 1))
  {
    CrossingWallets(calls, before, a, prior, b, r, x, y);
    WidePlan(calls[a.txn]);
    assert Kept(Plans(calls), Link(a.txn, 1)) == [BetLock(calls[a.txn].id)];
  }

  predicate Share(plans: seq<seq<Lockable>>, chain: seq<Link>, k: nat, l: nat, r: Lockable)
    requires Chain(plans, chain)
  {
    k < l < |chain| && r in Kept(plans, chain[k]) && r in Kept(plans, chain[l])
  }

  lemma CrossCut(calls: seq<Call>, chain: seq<Link>, l: nat, r: Lockable) returns (short: seq<Link>)
    requires Chain(Plans(calls), chain) && 0 < l < |chain| && Different(calls, chain[0].txn, chain[l].txn)
    requires Crossing(Plans(calls), chain[|chain| - 1], chain[0], chain[l - 1], chain[l], r)
    ensures Chain(Plans(calls), short) && FromChain(chain, short) && |short| < |chain|
  {
    assert LinkedAt(Plans(calls), chain, l) && LinkedAt(Plans(calls), chain, 0);
    var head := Link(chain[0].txn, 1);
    StepBack(calls, chain[|chain| - 1], chain[0], chain[l - 1], chain[l], r, chain[1], chain[Onward(l, |chain|)]);
    TailIsChain(Plans(calls), chain, head, l);
    FromTail(chain, head, 0, l);
    short := [head] + chain[l..];
  }

  lemma Shortcut(calls: seq<Call>, chain: seq<Link>, l: nat, r: Lockable) returns (short: seq<Link>)
    requires Chain(Plans(calls), chain) && Share(Plans(calls), chain, 0, l, r)
    requires Different(calls, chain[0].txn, chain[l].txn)
    ensures Chain(Plans(calls), short) && FromChain(chain, short) && |short| < |chain|
  {
    IsWanted(Plans(calls), chain, 0);
    IsWanted(Plans(calls), chain, l);
    if Linked(Plans(calls), chain[l - 1], chain[0]) {
      HeadIsChain(Plans(calls), chain, l);
      FromHead(chain, l);
      short := chain[..l];
    } else if Linked(Plans(calls), chain[|chain| - 1], chain[l]) {
      PlansHaveNoRepeats(calls);
      short := TailCut(Plans(calls), chain, l);
    } else {
      short := CrossCut(calls, chain, l, r);
    }
  }

  lemma RotatedShares(calls: seq<Call>, chain: seq<Link>, k: nat, l: nat, r: Lockable)
    requires Chain(Plans(calls), chain) && OnDifferentBets(calls, TxnsOn(chain))
    requires Share(Plans(calls), chain, k, l, r)
    ensures var rotated := Rotated(chain, k);
            && Chain(Plans(calls), rotated) && Share(Plans(calls), rotated, 0, l - k, r)
            && OnDifferentBets(calls, TxnsOn(rotated)) && Different(calls, rotated[0].txn, rotated[l - k].txn)
  {
    RotatedIsChain(Plans(calls), chain, k);
    FromRotated(chain, k);
    PartKeepsBets(calls, chain, Rotated(chain, k));
    assert Different(calls, TxnsOn(chain)[k], TxnsOn(chain)[l]);
  }

  lemma {:induction false} Shorten(calls: seq<Call>, chain: seq<Link>) returns (short: seq<Link>)
    requires Chain(Plans(calls), chain) && OnDifferentBets(calls, TxnsOn(chain))
    ensures Chain(Plans(calls), short) && Clean(Plans(calls), short)
    decreases |chain|
  {
    if k: nat, l: nat, r :| Share(Plans(calls), chain, k, l, r) {
      var rotated := Rotated(chain, k);
      RotatedShares(calls, chain, k, l, r);
      var cut := Shortcut(calls, rotated, l - k, r);
      PartKeepsBets(calls, rotated, cut);
      short := Shorten(calls, cut);
    } else {
      short := chain;
      forall k, l | 0 <= k < l < |chain| ensures Disjoint(Kept(Plans(calls), chain[k]), Kept(Plans(calls), chain[l])) {
        forall r | r in Kept(Plans(calls), chain[k]) ensures r !in Kept(Plans(calls), chain[l]) {
          assert !Share(Plans(calls), chain, k, l, r);
        }
      }
    }
  }

  /** Any number of voids, settlements, acceptances and cancellations can deadlock if and only if some of them,
      the cancellations aside on different bets, form a closed chain on which each locks the row that the one
      before it wants earlier than the row that it wants itself. */
  lemma CallsDeadlockIff(calls: seq<Call>)
    ensures CanDeadlock(Plans(calls)) <==>
            exists chain :: Chain(Plans(calls), chain) && OnDifferentBets(calls, TxnsOn(chain))
  {
    if CanDeadlock(Plans(calls)) {
      CanDeadlockIff(Plans(calls));
      var at, round :| Fits(Plans(calls), at) && Apart(Plans(calls), at) && Deadlocked(Plans(calls), at, round);
      StuckIsChain(Plans(calls), at, round);
      StuckOnDifferentBets(calls, at, round);
    }
    if chain :| Chain(Plans(calls), chain) && OnDifferentBets(calls, TxnsOn(chain)) {
      var short := Shorten(calls, chain);
      PlansHaveNoRepeats(calls);
      CleanChainDeadlocks(Plans(calls), short);
    }
  }

  // ---- Without cancellations ------------------------------------------------------------

  predicate BetFirst(calls: seq<Call>) {
    forall i :: 0 <= i < |calls| ==> !calls[i].Cancelling?
  }

  /** The steps from first to second wallet of the calls on the walk form a closed loop. */
  predicate Loop(calls: seq<Call>, walk: seq<nat>) {
    && walk != []
    && (forall k :: 0 <= k < |walk| ==> walk[k] < |calls| && Wide(calls[walk[k]]))
    && (forall k :: 0 <= k < |walk| ==> To(calls[walk[k]]) == From(calls[walk[Onward(k, |walk|)]]))
  }

  lemma LaterAreWallets(call: Call, n: nat)
    requires !call.Cancelling? && 1 <= n <= 2 && n < |PlanOf(call)|
    ensures PlanOf(call)[n].WalletLock?
  {
  }

  /** Where nobody wants a bet with a row in hand, everybody on a chain holds its bet and its first wallet. */
  lemma LinkIsWide(calls: seq<Call>, chain: seq<Link>, k: nat)
    requires BetFirst(calls) && Chain(Plans(calls), chain) && k < |chain|
    ensures chain[k].n == 2 && Wide(calls[chain[k].txn])
  {
    var p := Prior(k, |chain|);
    IsWanted(Plans(calls), chain, k);
    IsWanted(Plans(calls), chain, p);
    assert LinkedAt(Plans(calls), chain, k);
    if chain[p].n >= 2 {
      SecondLink(calls, chain[p], chain[k]);
    }
    LaterAreWallets(calls[chain[p].txn], chain[p].n);
    FirstIsBet(calls[chain[k].txn]);
    SecondLink(calls, chain[k], chain[Onward(k, |chain|)]);
  }

  lemma StepOnChain(calls: seq<Call>, chain: seq<Link>, k: nat)
    requires BetFirst(calls) && Chain(Plans(calls), chain) && k < |chain|
    ensures Wide(calls[chain[k].txn]) && Wide(calls[chain[Onward(k, |chain|)].txn])
    ensures To(calls[chain[k].txn]) == From(calls[chain[Onward(k, |chain|)].txn])
  {
    var next := Onward(k, |chain|);
    assert LinkedAt(Plans(calls), chain, k) && LinkedAt(Plans(calls), chain, next);
    LinkIsWide(calls, chain, k);
    LinkIsWide(calls, chain, next);
    SecondLink(calls, chain[k], chain[next]);
    SecondLink(calls, chain[next], chain[Onward(next, |chain|)]);
  }

  lemma ChainIsLoop(calls: seq<Call>, chain: seq<Link>)
    requires BetFirst(calls) && Chain(Plans(calls), chain)
    ensures Loop(calls, TxnsOn(chain))
  {
    var walk := TxnsOn(chain);
    forall k | 0 <= k < |walk| ensures walk[k] < |calls| && Wide(calls[walk[k]]) {
      LinkIsWide(calls, chain, k);
    }
    forall k | 0 <= k < |walk| ensures To(calls[walk[k]]) == From(calls[walk[Onward(k, |walk|)]]) {
      StepOnChain(calls, chain, k);
    }
  }

  lemma LoopIsChain(calls: seq<Call>, walk: seq<nat>) returns (chain: seq<Link>)
    requires Loop(calls, walk)
    ensures Chain(Plans(calls), chain) && TxnsOn(chain) == walk
  {
    chain := seq(|walk|, k requires 0 <= k < |walk| => Link(walk[k], 2));
    forall k | 0 <= k < |chain| ensures OnPlan(Plans(calls), chain[k]) {
      WidePlan(calls[walk[k]]);
    }
    forall k | 0 <= k < |chain| ensures LinkedAt(Plans(calls), chain, k) {
      var next := Onward(k, |chain|);
      WidePlan(calls[walk[k]]);
      WidePlan(calls[walk[next]]);
      assert Kept(Plans(calls), chain[next])[1] == WalletLock(From(calls[walk[next]]));
    }
  }

  /** Any number of voids, settlements and acceptances can deadlock if and only if the steps from first to
      second wallet of some of them, on different bets, form a closed loop of users. */
  lemma BetFirstDeadlockIff(calls: seq<Call>)
    requires BetFirst(calls)
    ensures CanDeadlock(Plans(calls)) <==> exists walk :: Loop(calls, walk) && OnDifferentBets(calls, walk)
  {
    CallsDeadlockIff(calls);
    if chain :| Chain(Plans(calls), chain) && OnDifferentBets(calls, TxnsOn(chain)) {
      ChainIsLoop(calls, chain);
    }
    if walk :| Loop(calls, walk) && OnDifferentBets(calls, walk) {
      var chain := LoopIsChain(calls, walk);
    }
  }

  /** Settlements and acceptances alone never deadlock: their edges all rise. */
  lemma WithoutVoidsNoDeadlock(calls: seq<Call>)
    requires forall i :: 0 <= i < |calls| ==> calls[i].Settling? || calls[i].Accepting?
    ensures !CanDeadlock(Plans(calls))
  {
    forall i | 0 <= i < |calls| ensures Ascending(Plans(calls)[i]) {
    }
    AscendingNeverDeadlock(Plans(calls));
  }

  // ---- Two calls ------------------------------------------------------------------------

  lemma LoopOfTwo(calls: seq<Call>, walk: seq<nat>)
    requires |calls| == 2 && Loop(calls, walk) && OnDifferentBets(calls, walk)
    ensures Wide(calls[0]) && Wide(calls[1]) && calls[0].id != calls[1].id
    ensures To(calls[0]) == From(calls[1]) && To(calls[1]) == From(calls[0])
  {
    var k := Onward(0, |walk|);
    var l := Onward(k, |walk|);
    StepDiffers(calls, walk, 0);
    StepDiffers(calls, walk, k);
    assert walk[0] == 0 || walk[0] == 1;
    assert walk[k] == 1 - walk[0] && walk[l] == walk[0];
  }

  lemma StepDiffers(calls: seq<Call>, walk: seq<nat>, k: nat)
    requires Loop(calls, walk) && k < |walk|
    ensures walk[k] < |calls| && walk[Onward(k, |walk|)] < |calls| && walk[k] != walk[Onward(k, |walk|)]
    ensures Wide(calls[walk[k]]) && To(calls[walk[k]]) == From(calls[walk[Onward(k, |walk|)]])
  {
    WidePlan(calls[walk[k]]);
  }

  lemma TwoCallsLoopIff(a: Call, b: Call)
    ensures (exists walk :: Loop([a, b], walk) && OnDifferentBets([a, b], walk)) <==>
            Wide(a) && Wide(b) && To(a) == From(b) && To(b) == From(a) && a.id != b.id
  {
    if walk :| Loop([a, b], walk) && OnDifferentBets([a, b], walk) {
      LoopOfTwo([a, b], walk);
    }
    if Wide(a) && Wide(b) && To(a) == From(b) && To(b) == From(a) && a.id != b.id {
      assert Loop([a, b], [0, 1]) && OnDifferentBets([a, b], [0, 1]);
    }
  }

  /** Two voids can deadlock if and only if they are of different bets, both matched, between the same two
      users with the roles exchanged. */
  lemma VoidsDeadlockIff(id: BetId, bet: Bet, other: BetId, that: Bet)
    ensures CanDeadlock(Plans([Voiding(id, bet), Voiding(other, that)])) <==>
            id != other && Wide(Voiding(id, bet)) && Wide(Voiding(other, that))
            && bet.creator == that.opponent.value && that.creator == bet.opponent.value
  {
    BetFirstDeadlockIff([Voiding(id, bet), Voiding(other, that)]);
    TwoCallsLoopIff(Voiding(id, bet), Voiding(other, that));
  }

  /** The void of a matched bet and a settlement that comes to a verdict can deadlock if and only if they are of
      different bets between the same two users and the voided bet's creator has the higher id. */
  lemma VoidAndSettleDeadlockIff(id: BetId, bet: Bet, other: BetId, that: Bet, judged: bool)
    ensures CanDeadlock(Plans([Voiding(id, bet), Settling(other, that, judged)])) <==>
            id != other && Wide(Voiding(id, bet)) && Wide(Settling(other, that, judged))
            && {bet.creator, bet.opponent.value} == {that.creator, that.opponent.value}
            && bet.opponent.value < bet.creator
  {
    BetFirstDeadlockIff([Voiding(id, bet), Settling(other, that, judged)]);
    TwoCallsLoopIff(Voiding(id, bet), Settling(other, that, judged));
    if Wide(Voiding(id, bet)) && Wide(Settling(other, that, judged)) {
      SameUsers(bet, that);
    }
  }

  lemma SameUsers(bet: Bet, that: Bet)
    requires Paired(bet) && Paired(that)
    ensures bet.creator == Second(that) && bet.opponent.value == First(that) <==>
            {bet.creator, bet.opponent.value} == {that.creator, that.opponent.value}
            && bet.opponent.value < bet.creator
  {
    if {bet.creator, bet.opponent.value} == {that.creator, that.opponent.value} {
      assert bet.creator in {that.creator, that.opponent.value};
      assert bet.opponent.value in {that.creator, that.opponent.value};
    }
  }

  /** Three voids in a ring of three users deadlock although no two of them can. */
  lemma ThreeVoidsDeadlock(one: Bet, two: Bet, three: Bet)
    requires Wide(Voiding(1, one)) && Wide(Voiding(2, two)) && Wide(Voiding(3, three))
    requires one.opponent.value == two.creator && two.opponent.value == three.creator
    requires three.opponent.value == one.creator
    ensures CanDeadlock(Plans([Voiding(1, one), Voiding(2, two), Voiding(3, three)]))
    ensures !CanDeadlock(Plans([Voiding(1, one), Voiding(2, two)]))
    ensures !CanDeadlock(Plans([Voiding(2, two), Voiding(3, three)]))
    ensures !CanDeadlock(Plans([Voiding(1, one), Voiding(3, three)]))
  {
    var calls := [Voiding(1, one), Voiding(2, two), Voiding(3, three)];
    assert Loop(calls, [0, 1, 2]) && OnDifferentBets(calls, [0, 1, 2]);
    BetFirstDeadlockIff(calls);
    VoidsDeadlockIff(1, one, 2, two);
    VoidsDeadlockIff(2, two, 3, three);
    VoidsDeadlockIff(1, one, 3, three);
  }

  /** A reachable database holds two matched bets whose voids can deadlock. */
  lemma CrossedVoidsAreReachable()
    ensures exists db, b, c ::
      && Runs.Reachable(db) && b in db.bets && c in db.bets
      && CanDeadlock(Plans([Voiding(b, db.bets[b]), Voiding(c, db.bets[c])]))
  {
    var db := Run(EMPTY, ExampleRuns.CROSSED);
    ExampleRuns.RunCrosses();
    Runs.RunReaches(EMPTY, ExampleRuns.CROSSED);
    assert db.bets[1] == ExampleRuns.Taken(1, 2) && db.bets[2] == ExampleRuns.Taken(2, 1);
    VoidsDeadlockIff(1, ExampleRuns.Taken(1, 2), 2, ExampleRuns.Taken(2, 1));
    assert CanDeadlock(Plans([Voiding(1, db.bets[1]), Voiding(2, db.bets[2])]));
  }

  // ---- Cancelling -----------------------------------------------------------------------

  /** Two plans can deadlock if and only if disjoint beginnings of them leave each wanting a row the other has. */
  lemma TwoPlansDeadlockIff(p: seq<Lockable>, q: seq<Lockable>)
    ensures CanDeadlock([p, q]) <==>
            exists m: nat, n: nat :: m < |p| && n < |q| && p[m] in q[..n] && q[n] in p[..m] && Disjoint(p[..m], q[..n])
  {
    var plans := [p, q];
    CanDeadlockIff(plans);
    if CanDeadlock(plans) {
      var at, round :| Fits(plans, at) && Apart(plans, at) && Deadlocked(plans, at, round);
      TwoPlansStuck(p, q, at, round);
    }
    if m: nat, n: nat :| m < |p| && n < |q| && p[m] in q[..n] && q[n] in p[..m] && Disjoint(p[..m], q[..n]) {
      var at := [m, n];
      assert Fits(plans, at) && Has(plans, at, 0) == p[..m] && Has(plans, at, 1) == q[..n];
      assert Apart(plans, at) && Deadlocked(plans, at, [0, 1]);
    }
  }

  lemma TwoPlansStuck(p: seq<Lockable>, q: seq<Lockable>, at: seq<nat>, round: seq<nat>)
    requires Fits([p, q], at) && Apart([p, q], at) && Deadlocked([p, q], at, round)
    ensures at[0] < |p| && at[1] < |q| && p[at[0]] in q[..at[1]] && q[at[1]] in p[..at[0]]
    ensures Disjoint(p[..at[0]], q[..at[1]])
  {
    var k := Onward(0, |round|);
    assert WaitsFor([p, q], at, round[0], round[k]);
    assert WaitsFor([p, q], at, round[k], round[Onward(k, |round|)]);
    assert Disjoint(Has([p, q], at, 0), Has([p, q], at, 1));
  }

  function Wallets(call: Call): set<UserId> {
    match call
    case Voiding(_, bet) =>
      if Wide(call) then {bet.creator, bet.opponent.value}
      else if bet.status == BetStatus.Matched || bet.status == BetStatus.Open then {bet.creator}
      else {}
    case Settling(_, bet, _) => if Wide(call) then {bet.creator, bet.opponent.value} else {}
    case Accepting(_, user, admitted) => if admitted then {user} else {}
    case Cancelling(_, bet) => if bet.status == BetStatus.Open then {bet.creator} else {}
  }

  /** A cancellation of an open bet can deadlock with another call if and only if that call first locks the
      same bet and then the canceller's wallet; two cancellations never do. */
  lemma CancelDeadlocksIff(id: BetId, bet: Bet, call: Call)
    ensures CanDeadlock([CancelPlan(id, bet), PlanOf(call)]) <==>
            bet.status == BetStatus.Open && !call.Cancelling? && call.id == id && bet.creator in Wallets(call)
  {
    var p, q := CancelPlan(id, bet), PlanOf(call);
    TwoPlansDeadlockIff(p, q);
    if bet.status == BetStatus.Open && !call.Cancelling? && call.id == id && bet.creator in Wallets(call) {
      CancelCrosses(id, bet, call);
    }
  }

  lemma CancelCrosses(id: BetId, bet: Bet, call: Call)
    requires bet.status == BetStatus.Open && !call.Cancelling? && call.id == id && bet.creator in Wallets(call)
    ensures var p, q := CancelPlan(id, bet), PlanOf(call);
            exists m: nat, n: nat :: m < |p| && n < |q| && p[m] in q[..n] && q[n] in p[..m] && Disjoint(p[..m], q[..n])
  {
    var p, q := CancelPlan(id, bet), PlanOf(call);
    assert p[..1] == [WalletLock(bet.creator)] && q[0] == BetLock(id);
    if q[1] == WalletLock(bet.creator) {
      assert q[..1] == [q[0]];
      assert p[1] in q[..1] && q[1] in p[..1] && Disjoint(p[..1], q[..1]);
    } else {
      WidePlan(call);
      assert q[..2] == [q[0], q[1]] && q[2] == WalletLock(bet.creator);
      assert p[1] in q[..2] && q[2] in p[..1] && Disjoint(p[..1], q[..2]);
    }
  }
}
