/** The database session: the tables, updated in place, and the repository calls the services use. */
module Sessions {
  import opened Wrappers
  import opened Tables
  import opened Invariants
  import opened Money
  import Runs

  class Session {
    var wallets: map<UserId, Wallet>
    var bets: map<BetId, Bet>
    var deposits: map<DepositId, Deposit>
    var withdrawals: map<WithdrawalId, Withdrawal>
    var matches: map<MatchId, Match>
    var fees: seq<FeeRow>
    var ledger: seq<LedgerEntry>
    var platform: Option<int>
    var platformLedger: seq<PlatformEntry>

    function State(): Db
      reads this
    {
      Db(wallets, bets, deposits, withdrawals, matches, fees, ledger, platform, platformLedger)
    }

    ghost predicate Valid()
      reads this
    {
      Inv(State())
    }

    constructor ()
      ensures State() == EMPTY && Valid()
    {
      wallets, bets, deposits, withdrawals, matches := map[], map[], map[], map[], map[];
      fees, ledger, platform, platformLedger := [], [], None, [];
      new;
      Runs.EmptyInv();
    }

    /** Rollback. */
    method Restore(saved: Db)
      modifies this
      ensures State() == saved
    {
      wallets, bets, deposits, withdrawals := saved.wallets, saved.bets, saved.deposits, saved.withdrawals;
      matches, fees, ledger := saved.matches, saved.fees, saved.ledger;
      platform, platformLedger := saved.platform, saved.platformLedger;
    }

    // ---- Wallet repository --------------------------------------------------------------

    /** Updates only the balances that are given. */
    method UpdateBalances(u: UserId, available: Option<int>, locked: Option<int>) returns (w: Wallet)
      requires u in wallets
      modifies this
      ensures State() == old(State()).(wallets := old(wallets)[u := w])
      ensures w.available == if available.Some? then available.value else old(wallets[u].available)
      ensures w.locked == if locked.Some? then locked.value else old(wallets[u].locked)
    {
      w := wallets[u];
      if available.Some? {
        w := w.(available := available.value);
      }
      if locked.Some? {
        w := w.(locked := locked.value);
      }
      wallets := wallets[u := w];
    }

    // ---- Ledger repository --------------------------------------------------------------

    /** Appends one entry with the given wallet's balances as snapshots. */
    method CreateEntry(line: Line, kind: ReferenceType, ref: Ref, w: Wallet)
      modifies this
      ensures State() == old(State()).(ledger := old(ledger) + [LedgerEntry(line, kind, ref, w.available, w.locked)])
    {
      ledger := ledger + [LedgerEntry(line, kind, ref, w.available, w.locked)];
    }

    // ---- Platform repository ------------------------------------------------------------

    method CreditFee(amount: int) returns (balance: int)
      requires platform.Some?
      modifies this
      ensures balance == old(platform.value) + amount
      ensures State() == old(State()).(platform := Some(balance))
    {
      balance := SafeAdd(platform.value, amount);
      platform := Some(balance);
    }

    method WriteFeeEntry(kind: PlatformEntryType, amount: int, bet: BetId, balance: int, path: SettlementPath)
      modifies this
      ensures State()
              == old(State()).(platformLedger :=
                   old(platformLedger) + [PlatformEntry(kind, amount, bet, balance, path)])
    {
      platformLedger := platformLedger + [PlatformEntry(kind, amount, bet, balance, path)];
    }

    // ---- Bet repository -----------------------------------------------------------------

    method PutBet(id: BetId, bet: Bet)
      modifies this
      ensures State() == old(State()).(bets := old(bets)[id := bet])
    {
      bets := bets[id := bet];
    }

    /** Appends to the audit trail of the bet. */
    method WriteBetEvent(id: BetId, event: BetEvent)
      requires id in bets
      modifies this
      ensures State()
              == old(State()).(bets := old(bets)[id := old(bets[id]).(events := old(bets[id]).events + [event])])
    {
      bets := bets[id := bets[id].(events := bets[id].events + [event])];
    }
  }

  /** The call ended as its specification says.  A refused call may leave anything behind: whoever owns
      the transaction rolls it back. */
  predicate Ends(r: Result<()>, spec: Result<Db>, after: Db) {
    match spec
    case Ok(db) => r.Ok? && after == db
    case Err(e) => r == Err(e)
  }
}
