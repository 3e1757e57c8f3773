/** Deadlocks of fixed lock plans as closed chains of transactions, each wanting a row that the next one has
    locked, and ways to make such a chain shorter. */
module LockChains {
  import opened LockProtocol
  import opened LockPlans

  /** A transaction that has locked the first `n` rows of its plan and wants the next one. */
  datatype Link = Link(txn: nat, n: nat)

  predicate OnPlan(plans: seq<seq<Lockable>>, l: Link) {
    l.txn < |plans| && l.n < |plans[l.txn]|
  }

  function Kept(plans: seq<seq<Lockable>>, l: Link): seq<Lockable>
    requires OnPlan(plans, l)
  {
    plans[l.txn][..l.n]
  }

  function Want(plans: seq<seq<Lockable>>, l: Link): Lockable
    requires OnPlan(plans, l)
  {
    plans[l.txn][l.n]
  }

  /** The next transaction locks the row wanted here before the row that it wants itself. */
  predicate Linked(plans: seq<seq<Lockable>>, l: Link, next: Link) {
    OnPlan(plans, l) && OnPlan(plans, next) && Want(plans, l) in Kept(plans, next)
  }

  predicate LinkedAt(plans: seq<seq<Lockable>>, chain: seq<Link>, k: nat)
    requires k < |chain|
  {
    Linked(plans, chain[k], chain[Onward(k, |chain|)])
  }

  predicate Chain(plans: seq<seq<Lockable>>, chain: seq<Link>) {
    && chain != []
    && (forall k :: 0 <= k < |chain| ==> OnPlan(plans, chain[k]))
    && (forall k :: 0 <= k < |chain| ==> LinkedAt(plans, chain, k))
  }

  function TxnsOn(chain: seq<Link>): (on: seq<nat>)
    ensures |on| == |chain| && forall k :: 0 <= k < |chain| ==> on[k] == chain[k].txn
  {
    seq(|chain|, k requires 0 <= k < |chain| => chain[k].txn)
  }

  /** No plan locks a row twice. */
  predicate NoRepeats(plans: seq<seq<Lockable>>) {
    forall i, n :: 0 <= i < |plans| && 0 <= n < |plans[i]| ==> plans[i][n] !in plans[i][..n]
  }

  function Prior(k: nat, n: nat): (prior: nat)
    requires k < n
    ensures prior < n && Onward(prior, n) == k
  {
    if k == 0 then n - 1 else k - 1
  }

  /** Whoever is on a chain has locked something, which the one before it wants. */
  lemma IsWanted(plans: seq<seq<Lockable>>, chain: seq<Link>, k: nat)
    requires Chain(plans, chain) && k < |chain|
    ensures Linked(plans, chain[Prior(k, |chain|)], chain[k]) && chain[k].n > 0
  {
    assert LinkedAt(plans, chain, Prior(k, |chain|));
  }

  // ---- From a deadlock to a chain -------------------------------------------------------

  function LinksOf(at: seq<nat>, round: seq<nat>): (chain: seq<Link>)
    requires forall k :: 0 <= k < |round| ==> round[k] < |at|
    ensures |chain| == |round| && forall k :: 0 <= k < |round| ==> chain[k] == Link(round[k], at[round[k]])
  {
    seq(|round|, k requires 0 <= k < |round| => Link(round[k], at[round[k]]))
  }

  lemma StuckIsChain(plans: seq<seq<Lockable>>, at: seq<nat>, round: seq<nat>)
    requires Fits(plans, at) && Deadlocked(plans, at, round)
    ensures forall k :: 0 <= k < |round| ==> round[k] < |at|
    ensures Chain(plans, LinksOf(at, round)) && TxnsOn(LinksOf(at, round)) == round
  {
    forall k | 0 <= k < |round| ensures round[k] < |at| && at[round[k]] < |plans[round[k]]| {
      assert WaitsFor(plans, at, round[k], round[Onward(k, |round|)]);
    }
    var chain := LinksOf(at, round);
    forall k | 0 <= k < |chain| ensures LinkedAt(plans, chain, k) {
      assert WaitsFor(plans, at, round[k], round[Onward(k, |round|)]);
    }
  }

  // ---- From a chain to a deadlock -------------------------------------------------------

  /** No two links of the chain hold the same row. */
  predicate Clean(plans: seq<seq<Lockable>>, chain: seq<Link>)
    requires Chain(plans, chain)
  {
    forall k, l :: 0 <= k < l < |chain| ==> Disjoint(Kept(plans, chain[k]), Kept(plans, chain[l]))
  }

  lemma CleanTxnsDiffer(plans: seq<seq<Lockable>>, chain: seq<Link>, k: nat, l: nat)
    requires Chain(plans, chain) && Clean(plans, chain) && k < l < |chain|
    ensures chain[k].txn != chain[l].txn
  {
    IsWanted(plans, chain, k);
    IsWanted(plans, chain, l);
    assert Disjoint(Kept(plans, chain[k]), Kept(plans, chain[l]));
    assert Kept(plans, chain[k])[0] in Kept(plans, chain[k]) && Kept(plans, chain[l])[0] in Kept(plans, chain[l]);
  }

  /** How far the transaction has come on the chain. */
  function PlaceOf(chain: seq<Link>, txn: nat): (n: nat)
    ensures n == 0 || Link(txn, n) in chain
  {
    if chain == [] then 0 else if chain[0].txn == txn then chain[0].n else PlaceOf(chain[1..], txn)
  }

  lemma {:induction false} PlaceOnChain(chain: seq<Link>, k: nat)
    requires k < |chain| && forall m :: 0 <= m < k ==> chain[m].txn != chain[k].txn
    ensures PlaceOf(chain, chain[k].txn) == chain[k].n
  {
    if k > 0 {
      PlaceOnChain(chain[1..], k - 1);
    }
  }

  /** Everybody on the chain holds what its link says; nobody else holds anything. */
  function Places(plans: seq<seq<Lockable>>, chain: seq<Link>): (at: seq<nat>)
    ensures |at| == |plans| && forall i :: 0 <= i < |plans| ==> at[i] == PlaceOf(chain, i)
  {
    seq(|plans|, i requires 0 <= i < |plans| => PlaceOf(chain, i))
  }

  lemma PlacesFit(plans: seq<seq<Lockable>>, chain: seq<Link>)
    requires Chain(plans, chain)
    ensures Fits(plans, Places(plans, chain))
  {
    var at := Places(plans, chain);
    forall i | 0 <= i < |plans| ensures at[i] <= |plans[i]| {
      if at[i] != 0 {
        var k :| 0 <= k < |chain| && chain[k] == Link(i, at[i]);
        assert OnPlan(plans, chain[k]);
      }
    }
  }

  lemma PlacesApart(plans: seq<seq<Lockable>>, chain: seq<Link>)
    requires Chain(plans, chain) && Clean(plans, chain) && Fits(plans, Places(plans, chain))
    ensures Apart(plans, Places(plans, chain))
  {
    var at := Places(plans, chain);
    forall i, j | 0 <= i < |plans| && 0 <= j < |plans| && i != j
      ensures Disjoint(Has(plans, at, i), Has(plans, at, j))
    {
      if at[i] != 0 && at[j] != 0 {
        var k :| 0 <= k < |chain| && chain[k] == Link(i, at[i]);
        var l :| 0 <= l < |chain| && chain[l] == Link(j, at[j]);
        LinksDisjoint(plans, chain, k, l);
      }
    }
  }

  lemma LinksDisjoint(plans: seq<seq<Lockable>>, chain: seq<Link>, k: nat, l: nat)
    requires Chain(plans, chain) && Clean(plans, chain) && k < |chain| && l < |chain| && k != l
    ensures Disjoint(Kept(plans, chain[k]), Kept(plans, chain[l]))
  {
    if k < l {
      assert Disjoint(Kept(plans, chain[k]), Kept(plans, chain[l]));
    } else {
      assert Disjoint(Kept(plans, chain[l]), Kept(plans, chain[k]));
    }
  }

  lemma LinkIsPlaced(plans: seq<seq<Lockable>>, chain: seq<Link>, k: nat)
    requires Chain(plans, chain) && Clean(plans, chain) && k < |chain|
    ensures Places(plans, chain)[chain[k].txn] == chain[k].n
  {
    forall m | 0 <= m < k ensures chain[m].txn != chain[k].txn {
      CleanTxnsDiffer(plans, chain, m, k);
    }
    PlaceOnChain(chain, k);
  }

  lemma NeighboursDiffer(plans: seq<seq<Lockable>>, chain: seq<Link>, k: nat)
    requires NoRepeats(plans) && Chain(plans, chain) && Clean(plans, chain) && k < |chain|
    ensures chain[k].txn != chain[Onward(k, |chain|)].txn
  {
    var next := Onward(k, |chain|);
    assert LinkedAt(plans, chain, k);
    if k < next {
      CleanTxnsDiffer(plans, chain, k, next);
    } else if next < k {
      CleanTxnsDiffer(plans, chain, next, k);
    }
  }

  lemma ChainIsStuck(plans: seq<seq<Lockable>>, chain: seq<Link>)
    requires NoRepeats(plans) && Chain(plans, chain) && Clean(plans, chain) && Fits(plans, Places(plans, chain))
    ensures Deadlocked(plans, Places(plans, chain), TxnsOn(chain))
  {
    var at, round := Places(plans, chain), TxnsOn(chain);
    forall k | 0 <= k < |round| ensures WaitsFor(plans, at, round[k], round[Onward(k, |round|)]) {
      assert LinkedAt(plans, chain, k);
      LinkIsPlaced(plans, chain, k);
      LinkIsPlaced(plans, chain, Onward(k, |chain|));
      NeighboursDiffer(plans, chain, k);
    }
  }

  lemma CleanChainDeadlocks(plans: seq<seq<Lockable>>, chain: seq<Link>)
    requires NoRepeats(plans) && Chain(plans, chain) && Clean(plans, chain)
    ensures CanDeadlock(plans)
  {
    PlacesFit(plans, chain);
    PlacesApart(plans, chain);
    ChainIsStuck(plans, chain);
    CanDeadlockIff(plans);
  }

  // ---- Cutting chains -------------------------------------------------------------------

  function Rotated(chain: seq<Link>, k: nat): (rotated: seq<Link>)
    requires k < |chain|
    ensures |rotated| == |chain|
    ensures forall m :: 0 <= m < |chain| ==> rotated[m] == chain[if k + m < |chain| then k + m else k + m - |chain|]
  {
    chain[k..] + chain[..k]
  }

  lemma RotatedIsChain(plans: seq<seq<Lockable>>, chain: seq<Link>, k: nat)
    requires Chain(plans, chain) && k < |chain|
    ensures Chain(plans, Rotated(chain, k))
  {
    var n, rotated := |chain|, Rotated(chain, k);
    forall m | 0 <= m < n ensures LinkedAt(plans, rotated, m) {
      var at := if k + m < n then k + m else k + m - n;
      assert LinkedAt(plans, chain, at);
      assert rotated[m] == chain[at] && rotated[Onward(m, n)] == chain[Onward(at, n)];
    }
  }

  /** The beginning of a chain closes if its last row is held where the chain begins. */
  lemma HeadIsChain(plans: seq<seq<Lockable>>, chain: seq<Link>, l: nat)
    requires Chain(plans, chain) && 0 < l <= |chain| && Linked(plans, chain[l - 1], chain[0])
    ensures Chain(plans, chain[..l])
  {
    var head := chain[..l];
    forall m | 0 <= m < l ensures LinkedAt(plans, head, m) {
      assert LinkedAt(plans, chain, m);
    }
  }

  /** The end of a chain behind another beginning. */
  lemma TailIsChain(plans: seq<seq<Lockable>>, chain: seq<Link>, head: Link, l: nat)
    requires Chain(plans, chain) && 0 < l < |chain|
    requires Linked(plans, head, chain[l]) && Linked(plans, chain[|chain| - 1], head)
    ensures Chain(plans, [head] + chain[l..])
  {
    var tail := [head] + chain[l..];
    assert forall m :: 1 <= m < |tail| ==> tail[m] == chain[l + m - 1];
    forall m | 0 <= m < |tail| ensures LinkedAt(plans, tail, m) {
      if m > 0 {
        assert LinkedAt(plans, chain, l + m - 1);
      }
    }
  }

  /** Every transaction on the part is on the chain. */
  predicate FromChain(chain: seq<Link>, part: seq<Link>) {
    forall m :: 0 <= m < |part| ==> part[m].txn in TxnsOn(chain)
  }

  lemma FromRotated(chain: seq<Link>, k: nat)
    requires k < |chain|
    ensures FromChain(chain, Rotated(chain, k))
  {
    forall m | 0 <= m < |chain| ensures Rotated(chain, k)[m].txn in TxnsOn(chain) {
      assert TxnsOn(chain)[if k + m < |chain| then k + m else k + m - |chain|] == Rotated(chain, k)[m].txn;
    }
  }

  lemma FromHead(chain: seq<Link>, l: nat)
    requires l <= |chain|
    ensures FromChain(chain, chain[..l])
  {
    forall m | 0 <= m < l ensures chain[..l][m].txn in TxnsOn(chain) {
      assert TxnsOn(chain)[m] == chain[..l][m].txn;
    }
  }

  lemma FromTail(chain: seq<Link>, head: Link, k: nat, l: nat)
    requires k < |chain| && l <= |chain| && head.txn == chain[k].txn
    ensures FromChain(chain, [head] + chain[l..])
  {
    var tail := [head] + chain[l..];
    assert TxnsOn(chain)[k] == head.txn;
    forall m | 1 <= m < |tail| ensures tail[m].txn in TxnsOn(chain) {
      assert TxnsOn(chain)[l + m - 1] == tail[m].txn;
    }
  }

  /** A chain can begin at any link that holds what its last one wants. */
  lemma TailCut(plans: seq<seq<Lockable>>, chain: seq<Link>, l: nat) returns (tail: seq<Link>)
    requires NoRepeats(plans) && Chain(plans, chain) && 0 < l < |chain|
    requires Linked(plans, chain[|chain| - 1], chain[l])
    ensures Chain(plans, tail) && FromChain(chain, tail) && |tail| < |chain|
  {
    assert LinkedAt(plans, chain, l);
    TailIsChain(plans, chain, chain[l], l + 1);
    FromTail(chain, chain[l], l, l + 1);
    tail := [chain[l]] + chain[l + 1..];
  }
}
