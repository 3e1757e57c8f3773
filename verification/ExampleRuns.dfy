/** Runs from the empty database that the failing cases start from: two funded users, a fixture, and bets
    between them. */
module ExampleRuns {
  import opened Wrappers
  import opened Tables
  import opened Rules
  import opened Runs
  import Movements

  const FEES := [FeeRow(WinnerFee, 1000, 0), FeeRow(NoWinnerFee, 500, 0)]
  const FIXTURE := Payload("1", "p", "A", "B", "C", 10000, MatchStatus.Scheduled, None, None, None)

  const COMMON := [
    OpOpenWallet(1), OpOpenWallet(2), OpOpenPlatform, OpAddFee(FEES[0]), OpAddFee(FEES[1]),
    OpCreateDeposit(1, 1, 2000, None), OpCompleteDeposit(1, None),
    OpCreateDeposit(2, 2, 2000, None), OpCompleteDeposit(2, None),
    OpSync([FIXTURE], 0)]

  /** User 1 offers bet 1 and user 2 takes it; user 2 offers bet 2 and user 1 takes it. */
  const OFFER := OpCreateBet(1, true, 1, "1", HomeWin, 1000, 0)
  const TAKE := OpAcceptBet(1, true, 2, AwayWin, 0)
  const COUNTER_OFFER := OpCreateBet(2, true, 2, "1", HomeWin, 1000, 0)
  const COUNTER_TAKE := OpAcceptBet(2, true, 1, AwayWin, 0)
  const CONFIRM_DRAW := OpConfirm("1", Draw, 1, 1, 20000)

  const OFFERED := COMMON + [OFFER]
  const DRAWN := COMMON + [OFFER] + [TAKE] + [CONFIRM_DRAW]
  const HALF_CROSSED := COMMON + [OFFER] + [COUNTER_OFFER] + [COUNTER_TAKE]
  const CROSSED := COMMON + [OFFER] + [COUNTER_OFFER] + [COUNTER_TAKE] + [TAKE]

  function Bare(a: int, b: int): map<UserId, Wallet> {
    map[1 := Wallet(a, 0), 2 := Wallet(b, 0)]
  }

  predicate Configured(db: Db) {
    db.platform == Some(0) && db.fees == FEES && db.bets == map[]
  }

  predicate Opened(db: Db) {
    Configured(db) && db.wallets == Bare(0, 0) && db.deposits == map[] && db.matches == map[]
  }

  predicate Requested(db: Db) {
    Configured(db) && db.wallets == Bare(0, 0) && db.matches == map[]
    && db.deposits == map[1 := Deposit(1, 2000, DepositStatus.Pending, None, None)]
  }

  predicate FirstFunded(db: Db) {
    Configured(db) && db.wallets == Bare(2000, 0) && db.deposits.Keys == {1} && db.matches == map[]
  }

  predicate Funded(db: Db) {
    Configured(db) && db.wallets == Bare(2000, 2000) && db.matches == map[]
  }

  predicate Ready(db: Db) {
    Configured(db) && db.wallets == Bare(2000, 2000) && db.matches == map["1" := NewFixture(FIXTURE, 0)]
  }

  function Offer(user: UserId): Bet {
    OpenBet(user, "1", HomeWin, 1000, 10000)
  }

  function Taken(user: UserId, opponent: UserId): Bet {
    MatchedBet(Offer(user), opponent, AwayWin)
  }

  /** The wallets and bets of a state in which the fixture is still open. */
  predicate State(db: Db, one: Wallet, two: Wallet, bets: map<BetId, Bet>) {
    db.wallets == map[1 := one, 2 := two] && db.bets == bets && db.platform == Some(0) && db.fees == FEES
    && db.matches == map["1" := NewFixture(FIXTURE, 0)]
  }

  // ---- Up to the fixture ----------------------------------------------------------------

  predicate Empty(db: Db) {
    db.bets == map[] && db.deposits == map[] && db.matches == map[]
  }

  lemma OpensWallets(db: Db)
    requires Empty(db) && db.wallets == map[] && db.platform == None && db.fees == []
    ensures var after := After(After(db, OpOpenWallet(1)), OpOpenWallet(2));
            Empty(after) && after.wallets == Bare(0, 0) && after.platform == None && after.fees == []
  {
    assert After(db, OpOpenWallet(1)) == db.(wallets := map[1 := Wallet(0, 0)]);
  }

  lemma OpensPlatform(db: Db)
    requires Empty(db) && db.wallets == Bare(0, 0) && db.platform == None && db.fees == []
    ensures Opened(After(After(After(db, OpOpenPlatform), OpAddFee(FEES[0])), OpAddFee(FEES[1])))
  {
    var a := After(db, OpOpenPlatform);
    assert a == db.(platform := Some(0));
    var b := After(a, OpAddFee(FEES[0]));
    assert b == a.(fees := [FEES[0]]);
    assert After(b, OpAddFee(FEES[1])) == b.(fees := FEES);
  }

  lemma RunOpensWallets()
    ensures var db := Run(EMPTY, COMMON[..2]);
            Empty(db) && db.wallets == Bare(0, 0) && db.platform == None && db.fees == []
  {
    RunNext(EMPTY, COMMON, 0);
    RunNext(EMPTY, COMMON, 1);
    assert COMMON[..0] == [];
    OpensWallets(EMPTY);
  }

  lemma RunOpens()
    ensures Opened(Run(EMPTY, COMMON[..5]))
  {
    RunOpensWallets();
    RunNext(EMPTY, COMMON, 2);
    RunNext(EMPTY, COMMON, 3);
    RunNext(EMPTY, COMMON, 4);
    OpensPlatform(Run(EMPTY, COMMON[..2]));
  }

  lemma Requests(db: Db)
    requires Opened(db)
    ensures Requested(After(db, OpCreateDeposit(1, 1, 2000, None)))
  {
  }

  lemma FundsFirst(db: Db)
    requires Requested(db)
    ensures FirstFunded(After(db, OpCompleteDeposit(1, None)))
  {
    Movements.DepositMoves(db.wallets, db.deposits[1], None);
  }

  lemma FundsSecond(db: Db)
    requires FirstFunded(db)
    ensures Funded(After(After(db, OpCreateDeposit(2, 2, 2000, None)), OpCompleteDeposit(2, None)))
  {
    var mid := After(db, OpCreateDeposit(2, 2, 2000, None));
    assert mid == db.(deposits := db.deposits[2 := Deposit(2, 2000, DepositStatus.Pending, None, None)]);
    Movements.DepositMoves(mid.wallets, mid.deposits[2], None);
  }

  lemma Schedules(db: Db)
    requires Funded(db)
    ensures Ready(After(db, OpSync([FIXTURE], 0)))
  {
    assert [FIXTURE][..0] == [];
    assert SyncAll(db.matches, [FIXTURE], 0) == map["1" := NewFixture(FIXTURE, 0)];
  }

  /** A deposit is requested and not yet completed. */
  lemma RunRequests()
    ensures Requested(Run(EMPTY, COMMON[..6]))
  {
    RunOpens();
    RunNext(EMPTY, COMMON, 5);
    Requests(Run(EMPTY, COMMON[..5]));
  }

  lemma RunFundsFirst()
    ensures FirstFunded(Run(EMPTY, COMMON[..7]))
  {
    RunRequests();
    RunNext(EMPTY, COMMON, 6);
    FundsFirst(Run(EMPTY, COMMON[..6]));
  }

  lemma RunFunds()
    ensures Funded(Run(EMPTY, COMMON[..9]))
  {
    RunFundsFirst();
    RunNext(EMPTY, COMMON, 7);
    RunNext(EMPTY, COMMON, 8);
    FundsSecond(Run(EMPTY, COMMON[..7]));
  }

  lemma RunReady()
    ensures Ready(Run(EMPTY, COMMON))
  {
    RunFunds();
    RunNext(EMPTY, COMMON, 9);
    Schedules(Run(EMPTY, COMMON[..9]));
    assert COMMON[..10] == COMMON;
  }

  // ---- Bets -----------------------------------------------------------------------------

  lemma Offers(db: Db)
    requires Ready(db)
    ensures State(After(db, OFFER), Wallet(1000, 1000), Wallet(2000, 0), map[1 := Offer(1)])
  {
    Movements.OpeningMoves(db.wallets, Offer(1));
  }

  lemma RunOffers()
    ensures State(Run(EMPTY, OFFERED), Wallet(1000, 1000), Wallet(2000, 0), map[1 := Offer(1)])
  {
    RunReady();
    RunMore(EMPTY, COMMON, OFFER);
    Offers(Run(EMPTY, COMMON));
  }

  lemma Takes(db: Db)
    requires State(db, Wallet(1000, 1000), Wallet(2000, 0), map[1 := Offer(1)])
    ensures State(After(db, TAKE), Wallet(1000, 1000), Wallet(1000, 1000), map[1 := Taken(1, 2)])
  {
    assert AcceptRefusal(Offer(1), 2, AwayWin, 0).None?;
    Movements.AcceptingMoves(db.wallets, Offer(1), 2, AwayWin);
    assert db.bets[1 := Taken(1, 2)] == map[1 := Taken(1, 2)];
  }

  /** Bet 1 is queued on a draw that nobody predicted. */
  predicate Drawn(db: Db) {
    db.platform == Some(0) && db.fees == FEES && db.bets == map[1 := QueuedBet(Taken(1, 2))]
    && db.matches == map["1" := ConfirmedMatch(NewFixture(FIXTURE, 0), Draw, 1, 1, 20000)]
  }

  lemma Draws(db: Db)
    requires State(db, Wallet(1000, 1000), Wallet(1000, 1000), map[1 := Taken(1, 2)])
    ensures Drawn(After(db, CONFIRM_DRAW))
  {
  }

  lemma RunTakes()
    ensures State(Run(EMPTY, OFFERED + [TAKE]), Wallet(1000, 1000), Wallet(1000, 1000), map[1 := Taken(1, 2)])
  {
    RunOffers();
    RunMore(EMPTY, OFFERED, TAKE);
    Takes(Run(EMPTY, OFFERED));
  }

  lemma RunDraws()
    ensures Drawn(Run(EMPTY, DRAWN))
  {
    RunTakes();
    RunMore(EMPTY, OFFERED + [TAKE], CONFIRM_DRAW);
    Draws(Run(EMPTY, OFFERED + [TAKE]));
  }

  lemma CounterOffers(db: Db)
    requires State(db, Wallet(1000, 1000), Wallet(2000, 0), map[1 := Offer(1)])
    ensures State(After(db, COUNTER_OFFER), Wallet(1000, 1000), Wallet(1000, 1000), map[1 := Offer(1), 2 := Offer(2)])
  {
    Movements.OpeningMoves(db.wallets, Offer(2));
    assert db.bets[2 := Offer(2)] == map[1 := Offer(1), 2 := Offer(2)];
  }

  lemma CounterTakes(db: Db)
    requires State(db, Wallet(1000, 1000), Wallet(1000, 1000), map[1 := Offer(1), 2 := Offer(2)])
    ensures State(After(db, COUNTER_TAKE), Wallet(0, 2000), Wallet(1000, 1000), map[1 := Offer(1), 2 := Taken(2, 1)])
  {
    assert AcceptRefusal(Offer(2), 1, AwayWin, 0).None?;
    Movements.AcceptingMoves(db.wallets, Offer(2), 1, AwayWin);
    assert db.bets[2 := Taken(2, 1)] == map[1 := Offer(1), 2 := Taken(2, 1)];
  }

  lemma RunCounterOffers()
    ensures State(Run(EMPTY, OFFERED + [COUNTER_OFFER]), Wallet(1000, 1000), Wallet(1000, 1000),
                  map[1 := Offer(1), 2 := Offer(2)])
  {
    RunOffers();
    RunMore(EMPTY, OFFERED, COUNTER_OFFER);
    CounterOffers(Run(EMPTY, OFFERED));
  }

  /** User 1 has bet 1 still open and has taken bet 2. */
  lemma RunHalfCrosses()
    ensures State(Run(EMPTY, HALF_CROSSED), Wallet(0, 2000), Wallet(1000, 1000), map[1 := Offer(1), 2 := Taken(2, 1)])
  {
    RunCounterOffers();
    RunMore(EMPTY, OFFERED + [COUNTER_OFFER], COUNTER_TAKE);
    CounterTakes(Run(EMPTY, OFFERED + [COUNTER_OFFER]));
  }

  lemma Crosses(db: Db)
    requires State(db, Wallet(0, 2000), Wallet(1000, 1000), map[1 := Offer(1), 2 := Taken(2, 1)])
    ensures State(After(db, TAKE), Wallet(0, 2000), Wallet(0, 2000), map[1 := Taken(1, 2), 2 := Taken(2, 1)])
  {
    assert AcceptRefusal(Offer(1), 2, AwayWin, 0).None?;
    Movements.AcceptingMoves(db.wallets, Offer(1), 2, AwayWin);
    assert db.bets[1 := Taken(1, 2)] == map[1 := Taken(1, 2), 2 := Taken(2, 1)];
  }

  /** Two matched bets between the same two users with the roles exchanged. */
  lemma RunCrosses()
    ensures State(Run(EMPTY, CROSSED), Wallet(0, 2000), Wallet(0, 2000), map[1 := Taken(1, 2), 2 := Taken(2, 1)])
  {
    RunHalfCrosses();
    RunMore(EMPTY, HALF_CROSSED, TAKE);
    Crosses(Run(EMPTY, HALF_CROSSED));
  }
}
