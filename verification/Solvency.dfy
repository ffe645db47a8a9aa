/**
 * What every instruction of the program keeps: the ledger invariants I1-I5 of the design,
 * the bound on rounding dust, and that a holder's claim is always paid in full.
 */
module Solvency {
  import opened Program
  import opened Wrappers
  import opened Sums

  /** Revenue of a position at `acc`, times 2^64, before any rounding. */
  ghost function Weight(p: Position, acc: nat): int {
    Scale(p.accrued) + p.shares * (acc - p.checkpoint)
  }

  /** What a claim would pay: `accrued + floor(shares * (acc - checkpoint) / 2^64)`. */
  function Pending(p: Position, acc: nat): int
  {
    if acc < p.checkpoint then p.accrued else p.accrued + Floor64(p.shares * (acc - p.checkpoint))
  }

  ghost function Weights(ps: map<Wallet, Position>, acc: nat): map<Wallet, int> {
    map w | w in ps :: Weight(ps[w], acc)
  }

  ghost function Shares(ps: map<Wallet, Position>): map<Wallet, int> {
    map w | w in ps :: ps[w].shares
  }

  ghost function Pendings(ps: map<Wallet, Position>, acc: nat): map<Wallet, int> {
    map w | w in ps :: Pending(ps[w], acc)
  }

  ghost function TotalWeight(ps: map<Wallet, Position>, acc: nat): int { Sum(Weights(ps, acc)) }
  ghost function TotalShares(ps: map<Wallet, Position>): int { Sum(Shares(ps)) }
  ghost function TotalPending(ps: map<Wallet, Position>, acc: nat): int { Sum(Pendings(ps, acc)) }

  /** `n` roundings, each below one base unit, scaled by 2^64. */
  ghost function Dust(n: nat): nat { n * 0xFFFF_FFFF_FFFF_FFFF }

  // ---- the invariant ----

  /** I5: no checkpoint is ahead; and before activation there is no revenue at all. */
  ghost predicate CheckpointsBehind(p: Project) {
    && (forall w | w in p.positions :: p.positions[w].checkpoint <= p.acc)
    && (!Activated(p.phase) ==> p.acc == 0 && p.depositedNet == 0 && p.claimed == 0)
  }

  /** I2: the positions add up to the shares sold and neither refunded nor retired. */
  ghost predicate SharesConserved(p: Project) {
    && p.refunded + p.retired <= p.sold < U64_LIMIT
    && p.mintSupply == TotalShares(p.positions) == p.sold - p.refunded - p.retired
  }

  /** I1, scaled by 2^64; and what rounding has taken so far. */
  ghost predicate RevenueCovered(p: Project) {
    && p.claimed <= p.depositedNet < U64_LIMIT
    && p.depositedNet - p.claimed <= p.revenueVault
    && TotalWeight(p.positions, p.acc) <= Scale(p.depositedNet - p.claimed)
    && Scale(p.depositedNet - p.claimed) - TotalWeight(p.positions, p.acc) <= Dust(p.periodCount + p.settles)
    && (forall w | w in p.positions :: p.positions[w].totalClaimed <= p.claimed)
    && p.acc <= Scale(p.depositedNet)
  }

  /** I3: share balances equal positions, and nothing else ever holds shares. */
  ghost predicate AccountsMatch(p: Project) {
    && (forall w | w in p.positions && p.positions[w].shares > 0 :: Thawed(p, w))
    && (forall a | a in p.accounts ::
          && (a.Ata? ==> p.accounts[a].owner == a.owner)
          && (p.accounts[a].frozen ==> p.accounts[a].amount == 0)
          && (!p.accounts[a].frozen ==>
                a.Ata? && a.owner in p.positions && p.accounts[a].amount == p.positions[a.owner].shares))
  }

  /** I4: the escrow is what the sold shares cost, and whatever else was sent to it. */
  ghost predicate EscrowCovered(p: Project) {
    && (Activated(p.phase) <==> p.escrow.None?)
    && (p.escrow.Some? ==> p.refunded <= p.sold && p.escrow.value == Value(p.sold - p.refunded, p.pricePerShare) + p.escrowDonated)
    && (p.phase != Closed ==> p.retired == 0)
  }

  ghost predicate Invariant(p: Project) {
    CheckpointsBehind(p) && SharesConserved(p) && RevenueCovered(p) && AccountsMatch(p) && EscrowCovered(p)
  }

  // ---- arithmetic ----

  lemma {:induction false} ScaleAdd(a: nat, b: nat)
    ensures Scale(a + b) == Scale(a) + Scale(b)
  {}

  lemma {:induction false} DustAdd(n: nat, more: nat)
    ensures Dust(n + more) == Dust(n) + more * 0xFFFF_FFFF_FFFF_FFFF
  {}

  lemma {:induction false} ValueAdd(a: nat, b: nat, price: nat)
    ensures Value(a + b, price) == Value(a, price) + Value(b, price)
  {
    Distribute(price, a, b);
  }

  lemma {:induction false} FloorBounds(x: nat)
    ensures Scale(Floor64(x)) <= x <= Scale(Floor64(x)) + 0xFFFF_FFFF_FFFF_FFFF
  {}

  lemma {:induction false} FloorDivision(x: nat, d: nat)
    requires d > 0
    ensures d * (x / d) <= x < d * (x / d) + d
  {}

  lemma {:induction false} AtMost(x: nat, d: nat)
    requires d > 0
    ensures x / d <= x
  {
    FloorDivision(x, d);
    Times(d, x / d);
  }

  lemma {:induction false} Times(d: nat, q: nat)
    requires d > 0
    ensures q <= d * q
  {}

  // ---- one position ----

  /** A position whose checkpoint is the accumulator weighs what it has accrued. */
  lemma {:induction false} FlatWeight(p: Position, acc: nat)
    requires p.checkpoint == acc
    ensures Weight(p, acc) == Scale(p.accrued)
  {}

  /** Settling keeps the weight but for less than one base unit, which it never exceeds. */
  lemma {:induction false} SettleWeight(p: Position, acc: nat)
    requires Settle(p, acc).Some?
    ensures p.checkpoint <= acc
    ensures Settle(p, acc).value == p.(accrued := Pending(p, acc), checkpoint := acc)
    ensures Weight(Settle(p, acc).value, acc) <= Weight(p, acc) <= Weight(Settle(p, acc).value, acc) + 0xFFFF_FFFF_FFFF_FFFF
  {
    hide Scale, Floor64;
    var earned := p.shares * (acc - p.checkpoint);
    FloorBounds(earned);
    ScaleAdd(p.accrued, Floor64(earned));
    FlatWeight(Settle(p, acc).value, acc);
  }

  lemma {:induction false} PutTotals(ps: map<Wallet, Position>, w: Wallet, p: Position, acc: nat)
    ensures TotalShares(ps[w := p]) == TotalShares(ps) + p.shares - (if w in ps then ps[w].shares else 0)
    ensures TotalWeight(ps[w := p], acc) == TotalWeight(ps, acc) + Weight(p, acc) - (if w in ps then Weight(ps[w], acc) else 0)
  {
    hide Weight;
    SumUpdate(Shares(ps), w, p.shares);
    assert Shares(ps[w := p]) == Shares(ps)[w := p.shares];
    SumUpdate(Weights(ps, acc), w, Weight(p, acc));
    assert Weights(ps[w := p], acc) == Weights(ps, acc)[w := Weight(p, acc)];
  }

  lemma {:induction false} DropTotals(ps: map<Wallet, Position>, w: Wallet, acc: nat)
    requires w in ps
    ensures TotalShares(ps - {w}) == TotalShares(ps) - ps[w].shares
    ensures TotalWeight(ps - {w}, acc) == TotalWeight(ps, acc) - Weight(ps[w], acc)
  {
    hide Weight;
    SumRemove(Shares(ps), w);
    assert Shares(ps - {w}) == Shares(ps) - {w};
    SumRemove(Weights(ps, acc), w);
    assert Weights(ps - {w}, acc) == Weights(ps, acc) - {w};
  }

  lemma {:induction false} WeightNonNegative(p: Position, acc: nat)
    requires p.checkpoint <= acc
    ensures 0 <= Weight(p, acc)
  {
    assert 0 <= p.shares * (acc - p.checkpoint);
  }

  /** No position outweighs the whole ledger. */
  lemma {:induction false} WithinTotals(p: Project, w: Wallet)
    requires (forall v | v in p.positions :: p.positions[v].checkpoint <= p.acc) && w in p.positions
    ensures 0 <= Weight(p.positions[w], p.acc) <= TotalWeight(p.positions, p.acc)
    ensures p.positions[w].shares <= TotalShares(p.positions)
  {
    hide Weight;
    forall v | v in p.positions ensures 0 <= Weight(p.positions[v], p.acc) {
      WeightNonNegative(p.positions[v], p.acc);
    }
    SumNonNegative(Weights(p.positions, p.acc));
    SumNonNegative(Shares(p.positions));
    assert Weights(p.positions, p.acc)[w] == Weight(p.positions[w], p.acc);
    assert Shares(p.positions)[w] == p.positions[w].shares;
  }

  /** What one position is owed is covered by its weight. */
  lemma {:induction false} PendingWithinWeight(p: Position, acc: nat)
    requires p.checkpoint <= acc
    ensures 0 <= Pending(p, acc)
    ensures Scale(Pending(p, acc)) <= Weight(p, acc) <= Scale(Pending(p, acc)) + 0xFFFF_FFFF_FFFF_FFFF
    ensures p.shares * (acc - p.checkpoint) <= Weight(p, acc)
  {
    hide Scale, Floor64;
    var earned := p.shares * (acc - p.checkpoint);
    assert 0 <= earned;
    FloorBounds(earned);
    ScaleAdd(p.accrued, Floor64(earned));
  }

  lemma {:induction false} ScaleMonotone(a: int, b: nat)
    requires 0 <= a && Scale(a) <= Scale(b)
    ensures a <= b
  {}

  /** The overflow bound of `math.rs`: in a sound ledger no settlement can fail. */
  lemma {:induction false} SettleNeverFails(p: Project, w: Wallet)
    requires CheckpointsBehind(p) && RevenueCovered(p) && w in p.positions
    ensures Settle(p.positions[w], p.acc).Some?
    ensures 0 <= Pending(p.positions[w], p.acc) <= p.depositedNet - p.claimed
  {
    hide TotalWeight, Weight, Dust;
    var q := p.positions[w];
    WithinTotals(p, w);
    PendingWithinWeight(q, p.acc);
    ScaleMonotone(Pending(q, p.acc), p.depositedNet - p.claimed);
  }

  // ---- each instruction keeps the invariant ----

  lemma {:induction false} OpenedKeeps(p: Project, w: Wallet)
    requires CheckpointsBehind(p) && SharesConserved(p) && RevenueCovered(p)
    ensures var q := Opened(p, w).project;
      && CheckpointsBehind(q) && SharesConserved(q) && RevenueCovered(q)
  {
    hide TotalWeight, TotalShares, Weight, Dust;
    PutTotals(p.positions, w, NewPosition(p.acc), p.acc);
    FlatWeight(NewPosition(p.acc), p.acc);
  }

  /** A position written together with its account keeps I3. */
  lemma {:induction false} PutAccount(p: Project, w: Wallet, position: Position, q: Project)
    requires AccountsMatch(p)
    requires q.positions == p.positions[w := position]
    requires q.accounts == p.accounts[Ata(w) := ShareAccount(w, position.shares, false)]
    ensures AccountsMatch(q)
  {
    forall v | v in q.positions && q.positions[v].shares > 0 ensures Thawed(q, v) {
      if v != w {
        assert v in p.positions && Thawed(p, v);
      }
    }
  }

  /** What a move of shares between two owners leaves of I3, whatever happens to the revenue. */
  lemma {:induction false} MoveAccounts(p: Project, from: Wallet, less: Position, to: Wallet, more: Position, q: Project)
    requires AccountsMatch(p) && from != to
    requires q.positions == p.positions[from := less][to := more]
    requires q.accounts == p.accounts[Ata(from) := ShareAccount(from, less.shares, false)]
                                     [Ata(to) := ShareAccount(to, more.shares, false)]
    ensures AccountsMatch(q)
  {
    forall w | w in q.positions && q.positions[w].shares > 0 ensures Thawed(q, w) {
      if w != from && w != to {
        assert w in p.positions && Thawed(p, w);
      }
    }
  }

  lemma {:induction false} OpenKeeps(p: Project, w: Wallet)
    requires Invariant(p) && DoOpen(p, w).Some?
    ensures Invariant(DoOpen(p, w).value.project)
  {
    hide TotalWeight, TotalShares, Weight, Scale, Dust, Value, AccountsMatch;
    OpenedKeeps(p, w);
    var q := DoOpen(p, w).value.project;
    PutAccount(p, w, q.positions[w], q);
  }

  lemma {:induction false} BuyRevenueKeeps(p: Project, w: Wallet, shares: u64)
    requires Invariant(p) && p.totalShares < U64_LIMIT && DoBuy(p, w, shares).Some?
    ensures var q := DoBuy(p, w, shares).value.project;
      CheckpointsBehind(q) && SharesConserved(q) && RevenueCovered(q) && EscrowCovered(q)
  {
    hide TotalWeight, TotalShares, Weight, Scale, Dust, Value, AccountsMatch, SetBalance;
    OpenedKeeps(p, w);
    var o := Opened(p, w).project;
    var q := o.positions[w];
    var bought := q.(shares := q.shares + shares);
    PutTotals(o.positions, w, bought, p.acc);
    FlatWeight(q, p.acc);
    FlatWeight(bought, p.acc);
    ValueAdd(p.sold - p.refunded, shares, p.pricePerShare);
  }

  lemma {:induction false} BuyKeeps(p: Project, w: Wallet, shares: u64)
    requires Invariant(p) && p.totalShares < U64_LIMIT && DoBuy(p, w, shares).Some?
    ensures Invariant(DoBuy(p, w, shares).value.project)
  {
    hide CheckpointsBehind, SharesConserved, RevenueCovered, EscrowCovered, AccountsMatch, Value;
    BuyRevenueKeeps(p, w, shares);
    var q := DoBuy(p, w, shares).value.project;
    assert q.accounts == SetBalance(p, w, q.positions[w].shares);
    PutAccount(p, w, q.positions[w], q);
  }

  lemma {:induction false} RefundKeeps(p: Project, w: Wallet)
    requires Invariant(p)
    ensures DoRefund(p, w).Some? ==> Invariant(DoRefund(p, w).value.project)
  {
    hide TotalWeight, TotalShares, Weight, Scale, Dust, Value, AccountsMatch;
    if DoRefund(p, w).Some? {
      var q := p.positions[w];
      PutAccount(p, w, q.(shares := 0), DoRefund(p, w).value.project);
      WithinTotals(p, w);
      PutTotals(p.positions, w, q.(shares := 0), p.acc);
      FlatWeight(q, p.acc);
      FlatWeight(q.(shares := 0), p.acc);
      ValueAdd(p.sold - p.refunded - q.shares, q.shares, p.pricePerShare);
    }
  }

  lemma {:induction false} ActivateKeeps(p: Project)
    requires Invariant(p) && DoActivate(p).Some?
    ensures Invariant(DoActivate(p).value.project)
  {
    hide TotalWeight, TotalShares, Weight, Scale, Dust, Value;
  }

  lemma {:induction false} DepositWeights(ps: map<Wallet, Position>, acc: nat, inc: nat)
    ensures TotalWeight(ps, acc + inc) == TotalWeight(ps, acc) + inc * TotalShares(ps)
  {
    var grown := map w | w in ps :: inc * ps[w].shares;
    SumTimes(Shares(ps), grown, inc);
    forall w | w in ps ensures Weight(ps[w], acc + inc) == Weight(ps[w], acc) + grown[w] {
      Distribute(ps[w].shares, acc - ps[w].checkpoint, inc);
    }
    SumAdd(Weights(ps, acc), Weights(ps, acc + inc), grown);
  }

  /** A deposit raises every weight by `shares * increment`; `supply * increment` fits in the net amount. */
  lemma {:induction false} DepositKeeps(p: Project, gross: u64)
    requires Invariant(p) && DoDeposit(p, gross).Some?
    ensures Invariant(DoDeposit(p, gross).value.project)
  {
    hide TotalWeight, TotalShares, Weight, Scale, Dust, Value, NetOf;
    var supply := Outstanding(p).value;
    var net := NetOf(gross, p.revenueFeeBps).value;
    DepositWeights(p.positions, p.acc, Scale(net) / supply);
    FloorDivision(Scale(net), supply);
    AtMost(Scale(net), supply);
    ScaleAdd(p.depositedNet, net);
    ScaleAdd(p.depositedNet - p.claimed, net);
    DustAdd(p.periodCount + p.settles, 1);
  }

  lemma {:induction false} TransferRevenueKeeps(p: Project, from: Wallet, to: Wallet, amount: u64)
    requires Invariant(p) && DoTransfer(p, from, to, amount).Some?
    ensures var q := DoTransfer(p, from, to, amount).value.project;
      CheckpointsBehind(q) && SharesConserved(q) && RevenueCovered(q) && EscrowCovered(q)
  {
    hide TotalWeight, TotalShares, Weight, Scale, Dust, Value, Settle, Pending, AccountsMatch, SetBalance;
    var source := Settle(p.positions[from], p.acc).value;
    SettleWeight(p.positions[from], p.acc);
    if from == to {
      PutTotals(p.positions, from, source, p.acc);
      DustAdd(p.periodCount + p.settles, 1);
    } else {
      var destination := Settle(p.positions[to], p.acc).value;
      SettleWeight(p.positions[to], p.acc);
      var less := source.(shares := source.shares - amount);
      var more := destination.(shares := destination.shares + amount);
      PutTotals(p.positions, from, less, p.acc);
      PutTotals(p.positions[from := less], to, more, p.acc);
      FlatWeight(source, p.acc);
      FlatWeight(less, p.acc);
      FlatWeight(destination, p.acc);
      FlatWeight(more, p.acc);
      DustAdd(p.periodCount + p.settles, 2);
    }
  }

  lemma {:induction false} TransferKeeps(p: Project, from: Wallet, to: Wallet, amount: u64)
    requires Invariant(p) && DoTransfer(p, from, to, amount).Some?
    ensures Invariant(DoTransfer(p, from, to, amount).value.project)
  {
    hide CheckpointsBehind, SharesConserved, RevenueCovered, EscrowCovered, Settle, Pending;
    TransferRevenueKeeps(p, from, to, amount);
    SettleWeight(p.positions[from], p.acc);
    SettleWeight(p.positions[to], p.acc);
    var q := DoTransfer(p, from, to, amount).value.project;
    if from != to {
      hide AccountsMatch;
      MoveAccounts(p, from, q.positions[from], to, q.positions[to], q);
    }
  }

  lemma {:induction false} ClaimKeeps(p: Project, w: Wallet)
    requires Invariant(p) && DoClaim(p, w).Some?
    ensures Invariant(DoClaim(p, w).value.project)
  {
    hide TotalWeight, TotalShares, Weight, Scale, Dust, Value, Settle, Pending;
    var settled := Settle(p.positions[w], p.acc).value;
    var amount := settled.accrued;
    var paid := settled.(accrued := 0, totalClaimed := settled.totalClaimed + amount);
    SettleWeight(p.positions[w], p.acc);
    SettleNeverFails(p, w);
    PutTotals(p.positions, w, paid, p.acc);
    FlatWeight(settled, p.acc);
    FlatWeight(paid, p.acc);
    ScaleAdd(0, 0);
    ScaleAdd(p.depositedNet - p.claimed - amount, amount);
    DustAdd(p.periodCount + p.settles, 1);
  }

  lemma {:induction false} ClosePositionKeeps(p: Project, w: Wallet)
    requires Invariant(p) && DoClosePosition(p, w).Some?
    ensures Invariant(DoClosePosition(p, w).value.project)
  {
    hide TotalWeight, TotalShares, Weight, Scale, Dust, Value, Settle, Pending;
    SettleWeight(p.positions[w], p.acc);
    FlatWeight(Settle(p.positions[w], p.acc).value, p.acc);
    ScaleAdd(0, 0);
    WithinTotals(p, w);
    DropTotals(p.positions, w, p.acc);
    DustAdd(p.periodCount + p.settles, 1);
  }

  lemma {:induction false} RecoverRevenueKeeps(p: Project, from: Wallet, to: Wallet, shares: u64)
    requires Invariant(p)
    ensures DoRecover(p, from, to, shares).Some? ==>
      var q := DoRecover(p, from, to, shares).value.project;
      CheckpointsBehind(q) && SharesConserved(q) && RevenueCovered(q)
  {
    hide TotalWeight, TotalShares, Weight, Scale, Dust, Value, Settle, Pending, ProRata, SetBalance, AccountsMatch, EscrowCovered;
    if DoRecover(p, from, to, shares).Some? {
      OpenedKeeps(p, to);
      var o := Opened(p, to).project;
      var source := Settle(p.positions[from], p.acc).value;
      var destination := Settle(o.positions[to], p.acc).value;
      SettleWeight(p.positions[from], p.acc);
      SettleWeight(o.positions[to], p.acc);
      var moved := ProRata(source.accrued, shares, source.shares).value;
      var less := source.(shares := source.shares - shares, accrued := source.accrued - moved);
      var more := destination.(shares := destination.shares + shares, accrued := destination.accrued + moved);
      PutTotals(o.positions, from, less, p.acc);
      PutTotals(o.positions[from := less], to, more, p.acc);
      FlatWeight(source, p.acc);
      FlatWeight(less, p.acc);
      FlatWeight(destination, p.acc);
      FlatWeight(more, p.acc);
      ScaleAdd(less.accrued, moved);
      ScaleAdd(destination.accrued, moved);
      DustAdd(p.periodCount + p.settles, 2);
    }
  }

  lemma {:induction false} RecoverAccountsKeeps(p: Project, from: Wallet, to: Wallet, shares: u64)
    requires Invariant(p)
    ensures DoRecover(p, from, to, shares).Some? ==>
      var q := DoRecover(p, from, to, shares).value.project;
      AccountsMatch(q) && EscrowCovered(q)
  {
    hide SharesConserved, RevenueCovered, CheckpointsBehind, AccountsMatch, Value, Settle, Pending, ProRata;
    if DoRecover(p, from, to, shares).Some? {
      SettleWeight(p.positions[from], p.acc);
      SettleWeight(Opened(p, to).project.positions[to], p.acc);
      var q := DoRecover(p, from, to, shares).value.project;
      MoveAccounts(p, from, q.positions[from], to, q.positions[to], q);
    }
  }

  lemma {:induction false} RecoverKeeps(p: Project, from: Wallet, to: Wallet, shares: u64)
    requires Invariant(p)
    ensures DoRecover(p, from, to, shares).Some? ==> Invariant(DoRecover(p, from, to, shares).value.project)
  {
    RecoverRevenueKeeps(p, from, to, shares);
    RecoverAccountsKeeps(p, from, to, shares);
  }

  lemma {:induction false} AccountStepKeeps(p: Project, i: Instruction)
    requires i.DonateRevenue? || i.DonateEscrow? || i.CreateShareAccount? || i.CloseEmptyShareAccount? || i.SetSanctioned?
    requires Invariant(p) && Execute(p, i).Some?
    ensures Invariant(Execute(p, i).value.project)
  {
    hide TotalWeight, TotalShares, Weight, Scale, Dust, Value;
  }

  lemma {:induction false} PhaseStepKeeps(p: Project, i: Instruction)
    requires i.FinalizeRaise? || i.CancelRaise? || i.Pause? || i.Resume? || i.CloseProject?
    requires Invariant(p) && Execute(p, i).Some?
    ensures Invariant(Execute(p, i).value.project)
  {
    hide TotalWeight, TotalShares, Weight, Scale, Dust, Value;
  }

  lemma {:induction false} ExecuteKeeps(p: Project, i: Instruction)
    requires Invariant(p) && p.totalShares < U64_LIMIT && Execute(p, i).Some?
    ensures Invariant(Execute(p, i).value.project)
    ensures Execute(p, i).value.project.totalShares == p.totalShares
  {
    hide Invariant;
    match i
    case OpenPosition(w) => OpenKeeps(p, w);
    case BuyShares(w, shares) => BuyKeeps(p, w, shares);
    case Refund(w) => RefundKeeps(p, w);
    case ActivateProject => ActivateKeeps(p);
    case DepositRevenue(gross) => DepositKeeps(p, gross);
    case Transfer(from, to, amount) => TransferKeeps(p, from, to, amount);
    case Claim(w) => ClaimKeeps(p, w);
    case ClosePosition(w) => ClosePositionKeeps(p, w);
    case ExecuteRecovery(from, to, shares) => RecoverKeeps(p, from, to, shares);
    case FinalizeRaise(_) => PhaseStepKeeps(p, i);
    case CancelRaise => PhaseStepKeeps(p, i);
    case Pause => PhaseStepKeeps(p, i);
    case Resume => PhaseStepKeeps(p, i);
    case CloseProject => PhaseStepKeeps(p, i);
    case DonateRevenue(_) => AccountStepKeeps(p, i);
    case DonateEscrow(_) => AccountStepKeeps(p, i);
    case CreateShareAccount(_, _) => AccountStepKeeps(p, i);
    case CloseEmptyShareAccount(_) => AccountStepKeeps(p, i);
    case SetSanctioned(_, _) => AccountStepKeeps(p, i);
  }

  // ---- whole runs ----

  lemma {:induction false} RunKeeps(launch: Launch, run: seq<Instruction>)
    ensures var p := Run(launch, run).project;
      Invariant(p) && p.totalShares == launch.totalShares
  {
    if run == [] {
      assert Weights(map[], 0) == map[] && Shares(map[]) == map[];
    } else {
      var before := run[..|run| - 1];
      RunKeeps(launch, before);
      hide Invariant, Execute;
      var p := Run(launch, before).project;
      if Execute(p, run[|run| - 1]).Some? {
        ExecuteKeeps(p, run[|run| - 1]);
      }
    }
  }

  /** The exact sum of the weights, compared with what holders are owed after rounding. */
  lemma {:induction false} PendingAgainstWeight(ps: map<Wallet, Position>, acc: nat)
    requires forall w | w in ps :: ps[w].checkpoint <= acc
    ensures 0 <= TotalPending(ps, acc)
    ensures Scale(TotalPending(ps, acc)) <= TotalWeight(ps, acc)
    ensures TotalWeight(ps, acc) <= Scale(TotalPending(ps, acc)) + Dust(|ps|)
  {
    hide Weight, Pending;
    forall w | w in ps
      ensures 0 <= Pending(ps[w], acc)
      ensures Scale(Pending(ps[w], acc)) <= Weight(ps[w], acc) <= Scale(Pending(ps[w], acc)) + 0xFFFF_FFFF_FFFF_FFFF
    {
      PendingWithinWeight(ps[w], acc);
    }
    SumNonNegative(Pendings(ps, acc));
    var scaled := map w | w in ps :: 0x1_0000_0000_0000_0000 * Pendings(ps, acc)[w];
    SumTimes(Pendings(ps, acc), scaled, 0x1_0000_0000_0000_0000);
    SumCompare(scaled, Weights(ps, acc), 0);
    SumCompare(Weights(ps, acc), scaled, 0xFFFF_FFFF_FFFF_FFFF);
    assert Weights(ps, acc).Keys == ps.Keys;
  }

  /**
   * I1 with the size of the surplus: holders are never owed more than was deposited and not yet
   * claimed, and what rounding keeps back is below one base unit per deposit, settlement and
   * open position.
   */
  lemma {:induction false} SurplusIsDust(p: Project)
    requires Invariant(p)
    ensures TotalPending(p.positions, p.acc) <= p.depositedNet - p.claimed <= p.revenueVault
    ensures var roundings := p.periodCount + p.settles + |p.positions|;
      var surplus := p.depositedNet - p.claimed - TotalPending(p.positions, p.acc);
      surplus < roundings || surplus == roundings == 0
  {
    hide TotalWeight, TotalShares, TotalPending;
    PendingAgainstWeight(p.positions, p.acc);
    ScaleMonotone(TotalPending(p.positions, p.acc), p.depositedNet - p.claimed);
    DustAdd(p.periodCount + p.settles, |p.positions|);
  }

  lemma {:induction false} RunIsSolvent(launch: Launch, run: seq<Instruction>)
    ensures var p := Run(launch, run).project;
      && TotalPending(p.positions, p.acc) <= p.depositedNet - p.claimed <= p.revenueVault
      && (var roundings := p.periodCount + p.settles + |p.positions|;
          var surplus := p.depositedNet - p.claimed - TotalPending(p.positions, p.acc);
          surplus < roundings || surplus == roundings == 0)
      && (forall w | w in p.positions :: p.positions[w].checkpoint <= p.acc)
      && TotalShares(p.positions) == p.sold - p.refunded - p.retired
  {
    RunKeeps(launch, run);
    SurplusIsDust(Run(launch, run).project);
  }

  /**
   * After any run, whoever claims first: an owner who is owed something and is not frozen is
   * paid exactly what the replay shows as pending, and owed nothing afterwards.
   */
  lemma {:induction false} ClaimAlwaysPays(launch: Launch, run: seq<Instruction>, w: Wallet)
    requires var p := Run(launch, run).project;
      Activated(p.phase) && w in p.positions && w !in p.sanctioned && Pending(p.positions[w], p.acc) > 0
    ensures var p := Run(launch, run).project;
      var owed := Pending(p.positions[w], p.acc);
      && Execute(p, Claim(w)).Some?
      && Execute(p, Claim(w)).value.events == [Claimed(w, owed)]
      && (var q := Execute(p, Claim(w)).value.project;
          && q.received == p.received[w := (if w in p.received then p.received[w] else 0) + owed]
          && q.revenueVault == p.revenueVault - owed
          && w in q.positions && Pending(q.positions[w], q.acc) == 0
          && (forall v | v in p.positions && v != w :: v in q.positions && Pending(q.positions[v], q.acc) == Pending(p.positions[v], p.acc)))
  {
    RunKeeps(launch, run);
    var p := Run(launch, run).project;
    hide TotalWeight, TotalShares, Run;
    SettleNeverFails(p, w);
    SettleWeight(p.positions[w], p.acc);
  }
}
