/**
 * What the program's instructions do to their callers: in every state the program can be in,
 * each is accepted exactly when its user-visible conditions hold. None of the overflow and
 * consistency checks behind them can refuse it.
 */
module Instructions {
  import opened Program
  import opened Wrappers
  import opened Solvency
  import opened Sums

  /** A state that runs can reach. */
  ghost predicate Sound(p: Project) { Invariant(p) && p.totalShares < U64_LIMIT }

  lemma {:induction false} RunIsSound(launch: Launch, run: seq<Instruction>)
    ensures Sound(Run(launch, run).project)
  {
    RunKeeps(launch, run);
  }

  /** A canonical account, if there is one, holds what the position does. */
  lemma {:induction false} BalanceMatches(p: Project, w: Wallet)
    requires AccountsMatch(p)
    ensures Balance(p, w) == if w in p.positions then p.positions[w].shares else 0
  {}

  lemma {:induction false} SharesWithin(p: Project, w: Wallet)
    requires Sound(p) && w in p.positions
    ensures p.positions[w].shares <= p.sold - p.refunded - p.retired < U64_LIMIT
  {
    hide TotalWeight, TotalShares, Weight, Dust, Scale;
    WithinTotals(p, w);
  }

  /** Nothing of the revenue ledger moved. */
  predicate SameRevenue(p: Project, q: Project) {
    && q.acc == p.acc && q.depositedNet == p.depositedNet && q.claimed == p.claimed && q.revenueVault == p.revenueVault
    && q.received == p.received && q.periodCount == p.periodCount
  }

  predicate OnlyChanges(p: Project, q: Project, w: Wallet) {
    && p.positions.Keys <= q.positions.Keys <= p.positions.Keys + {w}
    && forall v :: v in p.positions && v != w ==> q.positions[v] == p.positions[v]
  }

  /** Anyone may open a position while the raise or the operation is on; it starts empty at the accumulator. */
  lemma {:induction false} OpenIff(p: Project, w: Wallet)
    requires Sound(p)
    ensures Execute(p, OpenPosition(w)).Some? <==> p.phase == Fundraising || p.phase == Operating
    ensures Execute(p, OpenPosition(w)).Some? ==>
      var q := Execute(p, OpenPosition(w)).value.project;
      && SameRevenue(p, q) && OnlyChanges(p, q, w) && q.phase == p.phase && q.escrow == p.escrow && q.sold == p.sold
      && q.positions[w] == (if w in p.positions then p.positions[w] else Position(0, p.acc, 0, 0))
      && Thawed(q, w) && Execute(p, OpenPosition(w)).value.events == (if w in p.positions then [] else [PositionOpened(w)])
  {
    hide TotalWeight, TotalShares, Weight, Dust, Scale, RevenueCovered, SharesConserved, EscrowCovered;
    BalanceMatches(p, w);
  }

  /** Shares can be bought while the raise is on and some are left, at their price, which goes to the escrow. */
  lemma {:induction false} BuyIff(p: Project, w: Wallet, shares: u64)
    requires Sound(p)
    ensures Execute(p, BuyShares(w, shares)).Some? <==>
      p.phase == Fundraising && shares > 0 && p.sold + shares <= p.totalShares && shares * p.pricePerShare < U64_LIMIT
    ensures Execute(p, BuyShares(w, shares)).Some? ==>
      var q := Execute(p, BuyShares(w, shares)).value.project;
      && SameRevenue(p, q) && OnlyChanges(p, q, w)
      && w in q.positions && q.positions[w].shares == (if w in p.positions then p.positions[w].shares else 0) + shares
      && p.escrow.Some? && q.escrow == Some(p.escrow.value + shares * p.pricePerShare)
      && q.sold == p.sold + shares && q.phase == (if q.sold == p.totalShares then Funded else Fundraising)
      && Execute(p, BuyShares(w, shares)).value.events == (if w in p.positions then [] else [PositionOpened(w)]) + [SharesPurchased(w, shares)]
  {
    hide TotalWeight, TotalShares, Weight, Dust, Scale, RevenueCovered;
    BalanceMatches(p, w);
    if w in p.positions {
      SharesWithin(p, w);
    }
  }

  /** After a failed raise every holder gets back the price of all their shares, once. */
  lemma {:induction false} RefundIff(p: Project, w: Wallet)
    requires Sound(p)
    ensures Execute(p, Refund(w)).Some? <==>
      p.phase == Failed && w in p.positions && p.positions[w].shares > 0 && w !in p.sanctioned
      && p.positions[w].shares * p.pricePerShare < U64_LIMIT
    ensures Execute(p, Refund(w)).Some? ==>
      var q := Execute(p, Refund(w)).value.project;
      && SameRevenue(p, q) && OnlyChanges(p, q, w) && q.positions[w] == p.positions[w].(shares := 0) && q.phase == p.phase
      && p.escrow.Some? && q.escrow.Some? && p.escrow.value - q.escrow.value == p.positions[w].shares * p.pricePerShare
      && Execute(p, Refund(w)).value.events == [Refunded(w, p.positions[w].shares)]
  {
    hide TotalWeight, TotalShares, Weight, Dust, Scale, RevenueCovered;
    if w in p.positions {
      BalanceMatches(p, w);
      SharesWithin(p, w);
      if p.phase == Failed {
        ValueAdd(p.sold - p.refunded - p.positions[w].shares, p.positions[w].shares, p.pricePerShare);
      }
    }
  }

  /** A funded project can always be activated: the escrow holds what the sold shares cost. */
  lemma {:induction false} ActivateIff(p: Project)
    requires Sound(p)
    ensures Execute(p, ActivateProject).Some? <==> p.phase == Funded && (p.sold - p.refunded) * p.pricePerShare < U64_LIMIT
    ensures Execute(p, ActivateProject).Some? ==>
      Execute(p, ActivateProject).value.project == p.(phase := Operating, escrow := None)
  {
    hide TotalWeight, TotalShares, Weight, Dust, Scale, RevenueCovered;
  }

  /** The part of a deposit that goes to the holders: the fee is rounded down. */
  predicate IsNet(gross: nat, bps: nat, net: nat) {
    net <= gross && 10_000 * (gross - net) <= gross * bps < 10_000 * (gross - net + 1)
  }

  lemma {:induction false} NetIs(gross: nat, bps: nat, net: nat)
    requires bps <= 10_000 && IsNet(gross, bps, net)
    ensures NetOf(gross, bps) == Some(net)
  {
    assert gross * bps / 10_000 == gross - net;
  }

  lemma {:induction false} FeeIsPart(gross: nat, bps: nat)
    requires bps <= 10_000
    ensures NetOf(gross, bps).Some? && IsNet(gross, bps, NetOf(gross, bps).value)
  {
    var fee := gross * bps / 10_000;
    assert gross * bps <= gross * 10_000;
    assert 10_000 * fee <= gross * bps < 10_000 * (fee + 1);
  }

  /** The raise of the accumulator by a deposit: the most per share that the net amount covers. */
  predicate IsIncrement(net: nat, supply: nat, increment: nat) {
    increment * supply <= net * 0x1_0000_0000_0000_0000 < (increment + 1) * supply
  }

  lemma {:induction false} IncrementIs(net: nat, supply: nat)
    requires supply > 0
    ensures AccIncrement(net, supply).Some? && IsIncrement(net, supply, AccIncrement(net, supply).value)
  {
    FloorDivision(Scale(net), supply);
    var increment := Scale(net) / supply;
    assert (increment + 1) * supply == supply * increment + supply;
  }

  /** The accumulator cannot overflow before the deposits do. */
  lemma {:induction false} IncrementFits(p: Project, net: nat, supply: nat)
    requires RevenueCovered(p) && supply > 0 && p.depositedNet + net < U64_LIMIT
    ensures AccIncrement(net, supply).Some? && p.acc + AccIncrement(net, supply).value < U128_LIMIT
  {
    hide TotalWeight, Weight, Dust;
    AtMost(Scale(net), supply);
    ScaleAdd(p.depositedNet, net);
  }

  /** A deposit is taken while the project operates and someone holds shares; the platform takes its fee and no more. */
  lemma {:induction false} DepositIff(p: Project, gross: u64)
    requires Sound(p) && p.revenueFeeBps <= 10_000
    ensures Execute(p, DepositRevenue(gross)).Some? <==>
      && p.phase == Operating && gross > 0 && p.sold - p.refunded - p.retired > 0
      && forall net :: IsNet(gross, p.revenueFeeBps, net) ==> p.depositedNet + net < U64_LIMIT
    ensures Execute(p, DepositRevenue(gross)).Some? ==>
      var out := Execute(p, DepositRevenue(gross)).value;
      var q, supply, net := out.project, p.sold - p.refunded - p.retired, out.project.depositedNet - p.depositedNet;
      && 0 <= net <= gross && 10_000 * (gross - net) <= gross * p.revenueFeeBps < 10_000 * (gross - net + 1)
      && q.revenueVault == p.revenueVault + net && q.periodCount == p.periodCount + 1
      && p.acc <= q.acc && IsIncrement(net, supply, q.acc - p.acc)
      && q.positions == p.positions && q.claimed == p.claimed && q.received == p.received
      && out.events == [RevenueDeposited(p.periodCount, net, supply, q.acc)]
  {
    FeeIsPart(gross, p.revenueFeeBps);
    var net := NetOf(gross, p.revenueFeeBps).value;
    var supply := p.sold - p.refunded - p.retired;
    assert IsNet(gross, p.revenueFeeBps, net);
    forall n | IsNet(gross, p.revenueFeeBps, n) ensures n == net {
      NetIs(gross, p.revenueFeeBps, n);
    }
    if supply > 0 {
      IncrementIs(net, supply);
      if p.depositedNet + net < U64_LIMIT {
        IncrementFits(p, net, supply);
      }
    }
    hide TotalWeight, TotalShares, Weight, Dust, Scale, RevenueCovered, EscrowCovered, AccountsMatch, NetOf, AccIncrement, IsIncrement;
  }

  lemma {:induction false} TwoOf<K>(m: map<K, int>, a: K, b: K)
    requires a in m && b in m && a != b && forall k | k in m :: 0 <= m[k]
    ensures m[a] + m[b] <= Sum(m)
  {
    SumRemove(m, a);
    SumNonNegative(m - {a});
    assert (m - {a})[b] == m[b];
  }

  /** Two positions together hold no more than all, and are owed no more than all. */
  lemma {:induction false} TwoWithin(p: Project, a: Wallet, b: Wallet)
    requires Sound(p) && a in p.positions && b in p.positions && a != b
    ensures p.positions[a].shares + p.positions[b].shares <= p.sold - p.refunded - p.retired < U64_LIMIT
    ensures Pending(p.positions[a], p.acc) + Pending(p.positions[b], p.acc) <= p.depositedNet - p.claimed < U64_LIMIT
  {
    hide Pending, TotalWeight, Weight, Dust, AccountsMatch, EscrowCovered;
    forall w | w in p.positions ensures 0 <= Pending(p.positions[w], p.acc) {
      PendingWithinWeight(p.positions[w], p.acc);
    }
    TwoOf(Shares(p.positions), a, b);
    TwoOf(Pendings(p.positions, p.acc), a, b);
    SurplusIsDust(p);
  }

  /** Right after a settlement everything owed is in `accrued`. */
  lemma {:induction false} NothingSince(p: Position, acc: nat)
    ensures p.checkpoint == acc ==> Pending(p, acc) == p.accrued
  {}

  lemma {:induction false} SettlesTo(p: Project, w: Wallet)
    requires Sound(p) && w in p.positions
    ensures Settle(p.positions[w], p.acc) == Some(p.positions[w].(accrued := Pending(p.positions[w], p.acc), checkpoint := p.acc))
    ensures 0 <= Pending(p.positions[w], p.acc) <= p.depositedNet - p.claimed < U64_LIMIT
    ensures Balance(p, w) == p.positions[w].shares <= p.sold - p.refunded - p.retired < U64_LIMIT
  {
    SettleNeverFails(p, w);
    SettleWeight(p.positions[w], p.acc);
    BalanceMatches(p, w);
    SharesWithin(p, w);
  }

  /** Shares move between open positions with thawed accounts, as many as the sender has, while the project operates. */
  lemma {:induction false} TransferIff(p: Project, from: Wallet, to: Wallet, amount: u64)
    requires Sound(p)
    ensures Execute(p, Transfer(from, to, amount)).Some? <==>
      p.phase == Operating && from in p.positions && to in p.positions && Thawed(p, from) && Thawed(p, to)
      && amount <= p.positions[from].shares
    ensures Execute(p, Transfer(from, to, amount)).Some? ==>
      var q := Execute(p, Transfer(from, to, amount)).value.project;
      && SameRevenue(p, q) && q.phase == p.phase && q.positions.Keys == p.positions.Keys
      && (forall v :: v in p.positions && v != from && v != to ==> q.positions[v] == p.positions[v])
      && (forall v :: v in p.positions ==> Pending(q.positions[v], q.acc) == Pending(p.positions[v], p.acc))
      && (from == to ==> q.positions[from].shares == p.positions[from].shares)
      && (from != to ==> q.positions[from].shares == p.positions[from].shares - amount
                         && q.positions[to].shares == p.positions[to].shares + amount)
      && Execute(p, Transfer(from, to, amount)).value.events == [SharesTransferred(from, to, amount)]
  {
    if from in p.positions && to in p.positions {
      SettlesTo(p, from);
      SettlesTo(p, to);
      if from != to {
        TwoWithin(p, from, to);
      }
    }
    hide TotalWeight, TotalShares, Weight, Dust, Scale, CheckpointsBehind, RevenueCovered, SharesConserved, AccountsMatch, EscrowCovered;
    hide Settle, Pending, Balance, SetBalance;
    if from in p.positions && to in p.positions && Execute(p, Transfer(from, to, amount)).Some? {
      var q := Execute(p, Transfer(from, to, amount)).value.project;
      NothingSince(q.positions[from], p.acc);
      NothingSince(q.positions[to], p.acc);
    }
  }

  /** Whoever is owed something and is not frozen is paid all of it once the project has been activated. */
  lemma {:induction false} ClaimIff(p: Project, w: Wallet)
    requires Sound(p)
    ensures Execute(p, Claim(w)).Some? <==>
      && p.phase != Fundraising && p.phase != Funded && p.phase != Failed
      && w in p.positions && w !in p.sanctioned && Pending(p.positions[w], p.acc) > 0
    ensures Execute(p, Claim(w)).Some? ==>
      var q, owed := Execute(p, Claim(w)).value.project, Pending(p.positions[w], p.acc);
      && q.revenueVault == p.revenueVault - owed && q.claimed == p.claimed + owed
      && q.acc == p.acc && q.depositedNet == p.depositedNet && q.phase == p.phase && q.escrow == p.escrow
      && OnlyChanges(p, q, w) && q.positions[w].shares == p.positions[w].shares && Pending(q.positions[w], q.acc) == 0
      && q.received == p.received[w := (if w in p.received then p.received[w] else 0) + owed]
      && Execute(p, Claim(w)).value.events == [Claimed(w, owed)]
  {
    hide TotalWeight, TotalShares, Weight, Dust, Scale, EscrowCovered, AccountsMatch, Settle;
    if w in p.positions {
      SettleNeverFails(p, w);
      SettleWeight(p.positions[w], p.acc);
    }
  }

  /** An owner can close a position that is owed nothing, once the raise is over; with shares left only after the project closed. */
  lemma {:induction false} ClosePositionIff(p: Project, w: Wallet)
    requires Sound(p)
    ensures Execute(p, ClosePosition(w)).Some? <==>
      p.phase != Fundraising && p.phase != Funded && w in p.positions && Pending(p.positions[w], p.acc) == 0
      && (p.phase == Closed || p.positions[w].shares == 0)
    ensures Execute(p, ClosePosition(w)).Some? ==>
      var q := Execute(p, ClosePosition(w)).value.project;
      && SameRevenue(p, q) && q.positions == p.positions - {w} && q.retired == p.retired + p.positions[w].shares
      && q.phase == p.phase && Ata(w) !in q.accounts
      && Execute(p, ClosePosition(w)).value.events == [PositionClosed(w, p.positions[w].shares)]
  {
    hide TotalWeight, TotalShares, Weight, Dust, Scale, EscrowCovered, Settle;
    if w in p.positions {
      SettleNeverFails(p, w);
      SettleWeight(p.positions[w], p.acc);
      BalanceMatches(p, w);
      SharesWithin(p, w);
    }
  }

  lemma {:induction false} ProRataIs(amount: nat, part: nat, whole: nat)
    requires 0 < whole && part <= whole && amount < U64_LIMIT
    ensures ProRata(amount, part, whole).Some?
    ensures var moved := ProRata(amount, part, whole).value;
      moved <= amount && moved * whole <= amount * part < (moved + 1) * whole
  {
    var moved := amount * part / whole;
    FloorDivision(amount * part, whole);
    assert amount * part <= amount * whole;
    assert moved * whole == whole * moved && (moved + 1) * whole == whole * moved + whole;
    CancelFactor(moved, amount, whole);
  }

  lemma {:induction false} CancelFactor(x: nat, y: nat, d: nat)
    requires d > 0 && d * x <= y * d
    ensures x <= y
  {
    assert d * (x - y) <= 0;
  }

  /** A recovery moves shares of a position that has them to another owner, with their part of what is owed, rounded down. */
  lemma {:induction false} RecoverIff(p: Project, from: Wallet, to: Wallet, shares: u64)
    requires Sound(p)
    ensures Execute(p, ExecuteRecovery(from, to, shares)).Some? <==>
      from != to && shares > 0 && from in p.positions && from !in p.sanctioned && shares <= p.positions[from].shares
    ensures Execute(p, ExecuteRecovery(from, to, shares)).Some? ==>
      var q := Execute(p, ExecuteRecovery(from, to, shares)).value.project;
      var owed, owedTo := Pending(p.positions[from], p.acc), if to in p.positions then Pending(p.positions[to], p.acc) else 0;
      && SameRevenue(p, q) && q.phase == p.phase && q.positions.Keys == p.positions.Keys + {to}
      && (forall v :: v in p.positions && v != from && v != to ==> q.positions[v] == p.positions[v])
      && q.positions[from].shares == p.positions[from].shares - shares
      && q.positions[to].shares == (if to in p.positions then p.positions[to].shares else 0) + shares
      && var moved := owed - Pending(q.positions[from], q.acc);
      && Pending(q.positions[to], q.acc) == owedTo + moved
      && moved * p.positions[from].shares <= owed * shares < (moved + 1) * p.positions[from].shares
      && moved >= 0 && Execute(p, ExecuteRecovery(from, to, shares)).value.events
                       == (if to in p.positions then [] else [PositionOpened(to)]) + [RecoveryExecuted(from, to, shares, moved)]
  {
    hide TotalWeight, TotalShares, Weight, Dust, Scale, CheckpointsBehind, RevenueCovered, SharesConserved, AccountsMatch, EscrowCovered;
    hide Settle, Pending, ProRata, Balance, SetBalance;
    if from != to && shares > 0 && from in p.positions && shares <= p.positions[from].shares {
      RecoveryFits(p, from, to, shares);
      if from !in p.sanctioned {
        var q := Execute(p, ExecuteRecovery(from, to, shares)).value.project;
        NothingSince(q.positions[from], p.acc);
        NothingSince(q.positions[to], p.acc);
      }
    }
  }

  /** What the instruction computes on its way, in a state in which it has something to move. */
  lemma {:induction false} RecoveryFits(p: Project, from: Wallet, to: Wallet, shares: u64)
    requires Sound(p) && from != to && from in p.positions && 0 < shares <= p.positions[from].shares
    ensures var o := Opened(p, to).project;
      && Balance(p, from) == p.positions[from].shares && Balance(p, to) == o.positions[to].shares
      && Settle(p.positions[from], p.acc) == Some(p.positions[from].(accrued := Pending(p.positions[from], p.acc), checkpoint := p.acc))
      && Settle(o.positions[to], p.acc) == Some(o.positions[to].(accrued := Pending(o.positions[to], p.acc), checkpoint := p.acc))
      && Pending(o.positions[to], p.acc) == (if to in p.positions then Pending(p.positions[to], p.acc) else 0)
      && o.positions[to].shares + shares < U64_LIMIT
      && (var owed := Pending(p.positions[from], p.acc);
          && ProRata(owed, shares, p.positions[from].shares).Some?
          && var moved := ProRata(owed, shares, p.positions[from].shares).value;
          && moved <= owed && Pending(o.positions[to], p.acc) + moved < U64_LIMIT
          && moved * p.positions[from].shares <= owed * shares < (moved + 1) * p.positions[from].shares)
  {
    SettlesTo(p, from);
    BalanceMatches(p, to);
    if to in p.positions {
      SettlesTo(p, to);
      TwoWithin(p, from, to);
    } else {
      EmptyIsSettled(p.acc);
    }
    hide TotalWeight, TotalShares, Weight, Dust, Scale, CheckpointsBehind, RevenueCovered, SharesConserved, AccountsMatch, EscrowCovered;
    hide Settle, Balance, Pending, ProRata;
    ProRataIs(Pending(p.positions[from], p.acc), shares, p.positions[from].shares);
  }

  lemma {:induction false} EmptyIsSettled(acc: nat)
    ensures Settle(NewPosition(acc), acc) == Some(NewPosition(acc)) && Pending(NewPosition(acc), acc) == 0
  {}

  // ---- the life of a project ----

  /** What can come after a phase. */
  predicate CanFollow(before: Phase, after: Phase) {
    match before
    case Fundraising => after == Funded || after == Failed
    case Funded => after == Operating || after == Failed
    case Operating => after == Paused || after == Closed
    case Paused => after == Operating || after == Closed
    case Failed => false
    case Closed => false
  }

  /** Each phase is left for exactly the phases that can follow it, and by the instruction for it. */
  lemma {:induction false} LeavesPhaseIff(p: Project, i: Instruction)
    requires Sound(p) && Execute(p, i).Some?
    ensures var q := Execute(p, i).value.project;
      && (q.phase == p.phase || CanFollow(p.phase, q.phase))
      && (q.phase != p.phase <==>
            || i.FinalizeRaise? || i.CancelRaise? || i.ActivateProject? || i.Pause? || i.Resume? || i.CloseProject?
            || (i.BuyShares? && p.sold + i.shares == p.totalShares))
      && (i.CancelRaise? ==> q.phase == Failed) && (i.FinalizeRaise? ==> q.phase == i.outcome)
      && (i.Pause? ==> q.phase == Paused) && (i.Resume? ==> q.phase == Operating) && (i.CloseProject? ==> q.phase == Closed)
  {
    hide TotalWeight, TotalShares, Weight, Dust, Scale, RevenueCovered, SharesConserved, AccountsMatch, EscrowCovered, Settle;
  }

  /** Every phase that can follow is reached; closing and pausing lose nothing. */
  lemma {:induction false} PhaseStepIff(p: Project)
    requires Sound(p)
    ensures forall outcome: Phase :: Execute(p, FinalizeRaise(outcome)).Some? <==> CanFollow(p.phase, outcome) && (outcome == Funded || outcome == Failed)
    ensures Execute(p, CancelRaise).Some? <==> CanFollow(p.phase, Failed)
    ensures Execute(p, Pause).Some? <==> p.phase == Operating
    ensures Execute(p, Resume).Some? <==> p.phase == Paused
    ensures Execute(p, CloseProject).Some? <==> CanFollow(p.phase, Closed)
    ensures forall i: Instruction :: (i.FinalizeRaise? || i.CancelRaise? || i.Pause? || i.Resume? || i.CloseProject?) && Execute(p, i).Some? ==>
      Execute(p, i).value.project == p.(phase := Execute(p, i).value.project.phase)
  {
    hide TotalWeight, TotalShares, Weight, Dust, Scale, SharesConserved, AccountsMatch, EscrowCovered;
  }

  /** What was paid in, paid out and credited only ever grows; and the rest of the world cannot undo any of it. */
  lemma {:induction false} RevenueOnlyGrows(p: Project, i: Instruction)
    requires Sound(p) && Execute(p, i).Some?
    ensures var q := Execute(p, i).value.project;
      && p.acc <= q.acc && p.depositedNet <= q.depositedNet && p.claimed <= q.claimed
      && (q.depositedNet != p.depositedNet || q.acc != p.acc ==> i.DepositRevenue?)
      && (q.claimed != p.claimed ==> i.Claim?)
      && (q.revenueVault < p.revenueVault ==> i.Claim?)
      && (q.sold != p.sold ==> i.BuyShares?) && (q.refunded != p.refunded ==> i.Refund?)
  {
    hide TotalWeight, TotalShares, Weight, Dust, Scale, AccountsMatch, EscrowCovered, Settle, AccIncrement;
    if i.DepositRevenue? {
      NetIsPart(i.gross, p.revenueFeeBps);
    }
  }

  lemma {:induction false} NetIsPart(gross: nat, bps: nat)
    ensures NetOf(gross, bps).Some? ==> NetOf(gross, bps).value <= gross
  {}

  /** Whatever others do around the program takes nothing from anyone: revenue, positions and balances stay. */
  lemma {:induction false} OthersTakeNothing(p: Project, i: Instruction)
    requires Sound(p) && Execute(p, i).Some?
    requires i.DonateRevenue? || i.DonateEscrow? || i.CreateShareAccount? || i.CloseEmptyShareAccount? || i.SetSanctioned?
    ensures var q := Execute(p, i).value.project;
      && q.positions == p.positions && q.phase == p.phase && q.mintSupply == p.mintSupply
      && SameRevenue(p.(revenueVault := q.revenueVault), q)
      && q.revenueVault == p.revenueVault + (if i.DonateRevenue? then i.amount else 0)
      && q.escrow.Some? == p.escrow.Some?
      && (p.escrow.Some? ==> q.escrow.value == p.escrow.value + (if i.DonateEscrow? then i.amount else 0))
      && (forall w :: Balance(q, w) == Balance(p, w))
      && (forall w :: Balance(p, w) > 0 ==> Thawed(q, w) == Thawed(p, w))
      && (forall w :: w in q.sanctioned <==> if i.SetSanctioned? && w == i.wallet then i.frozen else w in p.sanctioned)
      && Execute(p, i).value.events == []
  {
    hide TotalWeight, TotalShares, Weight, Dust, Scale, RevenueCovered, SharesConserved, EscrowCovered;
  }
}
