/**
 * The backend's replay of one wallet's position from indexed events, and its agreement with
 * the program that wrote them.
 */
module Payouts {
  import opened Program
  import opened Wrappers
  import Solvency
  import Sums

  /** A row of the event index; `id`s grow in chain order. */
  datatype StoredEvent = StoredEvent(id: nat, project: string, event: Event)

  /** A deposit made while the wallet held shares, with the wallet's part of it. */
  datatype PeriodPayout = PeriodPayout(id: nat, index: nat, net: nat, supply: nat, earned: int)

  datatype ClaimPayout = ClaimPayout(id: nat, amount: nat)

  datatype ProjectPayout = ProjectPayout(project: string, mint: Option<string>, shares: int, claimed: nat, pending: int)

  /** `(shares * (acc - checkpoint)) >> 64` on signed big integers. */
  function Earned(shares: int, acc: int, checkpoint: int): int {
    shares * (acc - checkpoint) / 0x1_0000_0000_0000_0000
  }

  // ---- what a replay is ----

  datatype Replayed = Replayed(
    mint: Option<string>, acc: nat, shares: int, checkpoint: nat, accrued: int, claimed: nat,
    periods: seq<PeriodPayout>, claims: seq<ClaimPayout>)
  {
    function Pending(): int { accrued + Earned(shares, acc, checkpoint) }

    function Settled(): Replayed { this.(accrued := Pending(), checkpoint := acc) }

    function Emptied(): Replayed { this.(shares := 0, checkpoint := acc, accrued := 0) }

    function Apply(wallet: Wallet, stored: StoredEvent): Replayed {
      match stored.event
      case ProjectCreated(shareMint) => this.(mint := Some(shareMint))
      case RevenueDeposited(index, net, supply, accAfter) =>
        var payout := PeriodPayout(stored.id, index, net, supply, Earned(shares, accAfter, acc));
        this.(acc := accAfter, periods := if shares > 0 then periods + [payout] else periods)
      case PositionOpened(owner) => if owner == wallet then Emptied() else this
      case PositionClosed(owner, _) => if owner == wallet then Emptied() else this
      case SharesPurchased(owner, bought) => if owner == wallet then this.(shares := shares + bought) else this
      case Refunded(owner, _) => if owner == wallet then this.(shares := 0) else this
      case SharesTransferred(from, to, amount) =>
        if from == wallet || to == wallet
        then Settled().(shares := shares + (if to == wallet then amount else 0) - (if from == wallet then amount else 0))
        else this
      case Claimed(owner, amount) =>
        if owner == wallet
        then Settled().(accrued := 0, claimed := claimed + amount, claims := claims + [ClaimPayout(stored.id, amount)])
        else this
      case RecoveryExecuted(from, to, moved, accruedMoved) =>
        if from == wallet || to == wallet then
          var sign := if to == wallet then 1 else -1;
          Settled().(shares := shares + sign * moved, accrued := Pending() + sign * accruedMoved)
        else this
      case Lifecycle(_) => this
    }
  }

  const FRESH := Replayed(None, 0, 0, 0, 0, 0, [], [])

  function Fold(r: Replayed, wallet: Wallet, events: seq<StoredEvent>): Replayed {
    if events == [] then r
    else Fold(r, wallet, events[..|events| - 1]).Apply(wallet, events[|events| - 1])
  }

  function Replay(wallet: Wallet, events: seq<StoredEvent>): Replayed { Fold(FRESH, wallet, events) }

  /** `replayPosition`: the loop over a wallet's events. */
  method ReplayPosition(project: string, wallet: Wallet, events: seq<StoredEvent>)
    returns (summary: ProjectPayout, periods: seq<PeriodPayout>, claims: seq<ClaimPayout>)
    ensures var r := Replay(wallet, events);
      && summary == ProjectPayout(project, r.mint, r.shares, r.claimed, r.Pending())
      && periods == r.periods && claims == r.claims
  {
    var acc: nat := 0;
    var shares, checkpoint: nat, accrued := 0, acc, 0;
    var mint: Option<string> := None;
    var claimed: nat := 0;
    periods, claims := [], [];
    for i := 0 to |events|
      invariant Replay(wallet, events[..i]) == Replayed(mint, acc, shares, checkpoint, accrued, claimed, periods, claims)
    {
      assert events[..i + 1][..i] == events[..i];
      match events[i].event {
        case ProjectCreated(shareMint) => mint := Some(shareMint);
        case RevenueDeposited(index, net, supply, accAfter) =>
          if shares > 0 {
            periods := periods + [PeriodPayout(events[i].id, index, net, supply, Earned(shares, accAfter, acc))];
          }
          acc := accAfter;
        case PositionOpened(owner) =>
          if owner == wallet {
            shares, checkpoint, accrued := 0, acc, 0;
          }
        case PositionClosed(owner, _) =>
          if owner == wallet {
            shares, checkpoint, accrued := 0, acc, 0;
          }
        case SharesPurchased(owner, bought) =>
          if owner == wallet {
            shares := shares + bought;
          }
        case Refunded(owner, _) =>
          if owner == wallet {
            shares := 0;
          }
        case SharesTransferred(from, to, amount) =>
          if from == wallet || to == wallet {
            accrued, checkpoint := accrued + Earned(shares, acc, checkpoint), acc;
            shares := shares + (if to == wallet then amount else 0) - (if from == wallet then amount else 0);
          }
        case Claimed(owner, amount) =>
          if owner == wallet {
            accrued, checkpoint := accrued + Earned(shares, acc, checkpoint), acc;
            accrued := 0;
            claimed := claimed + amount;
            claims := claims + [ClaimPayout(events[i].id, amount)];
          }
        case RecoveryExecuted(from, to, moved, accruedMoved) =>
          if from == wallet || to == wallet {
            accrued, checkpoint := accrued + Earned(shares, acc, checkpoint), acc;
            var sign := if to == wallet then 1 else -1;
            shares := shares + sign * moved;
            accrued := accrued + sign * accruedMoved;
          }
        case Lifecycle(_) =>
      }
    }
    assert events[..|events|] == events;
    summary := ProjectPayout(project, mint, shares, claimed, accrued + Earned(shares, acc, checkpoint));
  }

  lemma {:induction false} FoldConcat(r: Replayed, wallet: Wallet, a: seq<StoredEvent>, b: seq<StoredEvent>)
    ensures Fold(r, wallet, a + b) == Fold(Fold(r, wallet, a), wallet, b)
  {
    if b == [] {
      assert a + b == a;
    } else {
      assert (a + b)[..|a + b| - 1] == a + b[..|b| - 1];
      FoldConcat(r, wallet, a, b[..|b| - 1]);
    }
  }

  // ---- the rows `positionEvents` selects ----

  /** The `owner` column of a row. */
  function OwnerColumn(e: Event): Option<Wallet> {
    match e
    case PositionOpened(owner) => Some(owner)
    case PositionClosed(owner, _) => Some(owner)
    case SharesPurchased(owner, _) => Some(owner)
    case Refunded(owner, _) => Some(owner)
    case Claimed(owner, _) => Some(owner)
    case _ => None
  }

  /** The `WHERE` clause of `positionEvents`. */
  predicate Selected(project: string, wallet: Wallet, row: StoredEvent) {
    && row.project == project
    && (|| row.event.ProjectCreated? || row.event.RevenueDeposited?
        || OwnerColumn(row.event) == Some(wallet)
        || (row.event.SharesTransferred? && (wallet == row.event.from || wallet == row.event.to))
        || (row.event.RecoveryExecuted? && (wallet == row.event.fromOwner || wallet == row.event.toOwner)))
  }

  function PositionEvents(project: string, wallet: Wallet, table: seq<StoredEvent>): seq<StoredEvent> {
    if table == [] then [] else
    var rest := PositionEvents(project, wallet, table[..|table| - 1]);
    var row := table[|table| - 1];
    if Selected(project, wallet, row) then rest + [row] else rest
  }

  function ProjectRows(project: string, table: seq<StoredEvent>): seq<StoredEvent> {
    if table == [] then [] else
    var rest := ProjectRows(project, table[..|table| - 1]);
    var row := table[|table| - 1];
    if row.project == project then rest + [row] else rest
  }

  lemma {:induction false} UnselectedChangesNothing(r: Replayed, project: string, wallet: Wallet, row: StoredEvent)
    requires row.project == project && !Selected(project, wallet, row)
    ensures r.Apply(wallet, row) == r
  {}

  /** The rows the query leaves out cannot change the replay: it is the replay of the project's whole log. */
  lemma {:induction false} SelectionIsEnough(project: string, wallet: Wallet, table: seq<StoredEvent>)
    ensures Replay(wallet, PositionEvents(project, wallet, table)) == Replay(wallet, ProjectRows(project, table))
  {
    if table != [] {
      var before := table[..|table| - 1];
      var row := table[|table| - 1];
      SelectionIsEnough(project, wallet, before);
      hide Fold, Replayed.Apply, Selected;
      FoldConcat(FRESH, wallet, PositionEvents(project, wallet, before), [row]);
      FoldConcat(FRESH, wallet, ProjectRows(project, before), [row]);
      FoldOne(Replay(wallet, ProjectRows(project, before)), wallet, row);
      if row.project == project && !Selected(project, wallet, row) {
        UnselectedChangesNothing(Replay(wallet, ProjectRows(project, before)), project, wallet, row);
      } else if row.project != project {
        OtherProjectIsNotSelected(project, wallet, row);
      }
    }
  }

  lemma {:induction false} OtherProjectIsNotSelected(project: string, wallet: Wallet, row: StoredEvent)
    requires row.project != project
    ensures !Selected(project, wallet, row)
  {}

  lemma {:induction false} FoldOne(r: Replayed, wallet: Wallet, row: StoredEvent)
    ensures Fold(r, wallet, [row]) == r.Apply(wallet, row)
  {
    assert [row][..0] == [];
  }

  lemma {:induction false} FoldTwo(r: Replayed, wallet: Wallet, a: StoredEvent, b: StoredEvent)
    ensures Fold(r, wallet, [a, b]) == r.Apply(wallet, a).Apply(wallet, b)
  {
    assert [a, b][..1] == [a];
    FoldOne(r, wallet, a);
  }

  // ---- agreement with the program ----

  /** The replay holds the wallet's account: the same position, or an empty one while none is open. */
  ghost predicate Agrees(r: Replayed, p: Project, w: Wallet) {
    && r.acc == p.acc
    && r.claimed == (if w in p.received then p.received[w] else 0)
    && if w in p.positions
       then r.shares == p.positions[w].shares && r.checkpoint == p.positions[w].checkpoint
            && r.accrued == p.positions[w].accrued
       else r.shares == 0 && r.accrued == 0 && r.checkpoint <= p.acc
  }

  /** `es` are the rows the index made of the events one instruction wrote. */
  ghost predicate Carries(es: seq<StoredEvent>, events: seq<Event>) {
    |es| == |events| && forall k | 0 <= k < |es| :: es[k].event == events[k]
  }

  /** Everything the wallet's deposits earned it. */
  function TotalEarned(periods: seq<PeriodPayout>): int {
    if periods == [] then 0 else TotalEarned(periods[..|periods| - 1]) + periods[|periods| - 1].earned
  }

  function MovedBy(w: Wallet, e: Event): int {
    if !e.RecoveryExecuted? then 0 else
    var moved: int := e.accruedMoved;
    if e.toOwner == w then moved else if e.fromOwner == w then -moved else 0
  }

  /** Unclaimed revenue recoveries moved to the wallet, less what they moved away. */
  function Recovered(w: Wallet, es: seq<StoredEvent>): int {
    if es == [] then 0 else Recovered(w, es[..|es| - 1]) + MovedBy(w, es[|es| - 1].event)
  }

  /** What the wallet has been paid and can claim beyond what its listed deposits earned it. */
  function Excess(r: Replayed): int { r.claimed + r.Pending() - TotalEarned(r.periods) }

  /** One instruction seen by the replay: agreement stays, and each deposit rounds once more. */
  ghost predicate Follows(r: Replayed, p: Project, w: Wallet, es: seq<StoredEvent>, q: Project) {
    var s := Fold(r, w, es);
    && Agrees(s, q, w)
    && |r.periods| <= |s.periods|
    && 0 <= Excess(s) - Excess(r) - Recovered(w, es) <= |s.periods| - |r.periods|
  }

  lemma {:induction false} PendingAgrees(r: Replayed, p: Project, w: Wallet)
    requires Solvency.CheckpointsBehind(p) && Agrees(r, p, w)
    ensures r.Pending() == if w in p.positions then Solvency.Pending(p.positions[w], p.acc) else 0
  {
    if w !in p.positions {
      assert 0 * (r.acc - r.checkpoint) == 0;
    }
  }

  /** No growth earns nothing, and no shares earn nothing. */
  lemma {:induction false} EarnedNothing(shares: int, acc: int, checkpoint: int)
    requires shares == 0 || acc == checkpoint
    ensures Earned(shares, acc, checkpoint) == 0
  {
    assert shares * (acc - checkpoint) == 0;
  }

  /** Splitting growth in two floors twice, which loses at most one unit. */
  lemma {:induction false} EarnedSplits(shares: int, a: int, b: int, c: int)
    ensures 0 <= Earned(shares, c, a) - Earned(shares, b, a) - Earned(shares, c, b) <= 1
  {
    Sums.Distribute(shares, b - a, c - b);
    FloorSum(shares * (b - a), shares * (c - b));
  }

  lemma {:induction false} FloorSum(x: int, y: int)
    ensures 0 <= (x + y) / 0x1_0000_0000_0000_0000 - x / 0x1_0000_0000_0000_0000 - y / 0x1_0000_0000_0000_0000 <= 1
  {}

  lemma {:induction false} TwoEvents(r: Replayed, w: Wallet, es: seq<StoredEvent>)
    requires |es| <= 2
    ensures |es| == 0 ==> Fold(r, w, es) == r && Recovered(w, es) == 0
    ensures |es| == 1 ==> Fold(r, w, es) == r.Apply(w, es[0]) && Recovered(w, es) == MovedBy(w, es[0].event)
    ensures |es| == 2 ==> Fold(r, w, es) == r.Apply(w, es[0]).Apply(w, es[1])
                          && Recovered(w, es) == MovedBy(w, es[0].event) + MovedBy(w, es[1].event)
  {
    if |es| == 1 {
      assert es == [es[0]] && es[..0] == [];
      FoldOne(r, w, es[0]);
    } else if |es| == 2 {
      assert es == [es[0], es[1]];
      assert es[..1] == [es[0]] && [es[0]][..0] == [];
      assert Recovered(w, es[..1]) == MovedBy(w, es[0].event);
      FoldTwo(r, w, es[0], es[1]);
    }
  }

  /** Opening an account that is missing makes it empty, as the replay has it. */
  lemma {:induction false} OpenedFollows(r: Replayed, p: Project, w: Wallet, owner: Wallet, e: StoredEvent)
    requires Solvency.CheckpointsBehind(p) && Agrees(r, p, w) && owner !in p.positions && e.event == PositionOpened(owner)
    ensures Agrees(r.Apply(w, e), Opened(p, owner).project, w)
    ensures Excess(r.Apply(w, e)) == Excess(r) && r.Apply(w, e).periods == r.periods
  {
    hide Earned, TotalEarned;
    if owner == w {
      EarnedNothing(r.shares, r.acc, r.checkpoint);
      EarnedNothing(0, r.acc, r.acc);
    }
  }

  lemma {:induction false} OpenFollows(r: Replayed, p: Project, w: Wallet, owner: Wallet, es: seq<StoredEvent>)
    requires Solvency.Invariant(p) && Agrees(r, p, w) && DoOpen(p, owner).Some? && Carries(es, DoOpen(p, owner).value.events)
    ensures Follows(r, p, w, es, DoOpen(p, owner).value.project)
  {
    hide Earned, TotalEarned, Solvency.SharesConserved, Solvency.RevenueCovered, Solvency.AccountsMatch, Solvency.EscrowCovered;
    TwoEvents(r, w, es);
    if owner !in p.positions {
      OpenedFollows(r, p, w, owner, es[0]);
    }
  }

  lemma {:induction false} BuyFollows(r: Replayed, p: Project, w: Wallet, owner: Wallet, shares: u64, es: seq<StoredEvent>)
    requires Solvency.Invariant(p) && Agrees(r, p, w) && DoBuy(p, owner, shares).Some?
    requires Carries(es, DoBuy(p, owner, shares).value.events)
    ensures Follows(r, p, w, es, DoBuy(p, owner, shares).value.project)
  {
    hide Earned, TotalEarned, Solvency.SharesConserved, Solvency.RevenueCovered, Solvency.AccountsMatch, Solvency.EscrowCovered, Value;
    TwoEvents(r, w, es);
    if owner in p.positions {
      PurchaseRow(r, w, es[0]);
    } else {
      OpenedFollows(r, p, w, owner, es[0]);
      PurchaseRow(r.Apply(w, es[0]), w, es[1]);
    }
    hide Replayed.Apply, Excess;
  }

  /** Before the first deposit there is nothing to settle, so a purchase adds its shares and no more. */
  lemma {:induction false} PurchaseRow(r: Replayed, w: Wallet, e: StoredEvent)
    requires e.event.SharesPurchased? && r.acc == r.checkpoint
    ensures r.Apply(w, e) == r.(shares := if e.event.owner == w then r.shares + e.event.shares else r.shares)
    ensures Excess(r.Apply(w, e)) == Excess(r)
  {
    hide Earned, TotalEarned;
    EarnedNothing(r.shares, r.acc, r.checkpoint);
    EarnedNothing(r.Apply(w, e).shares, r.acc, r.checkpoint);
  }

  lemma {:induction false} RefundFollows(r: Replayed, p: Project, w: Wallet, owner: Wallet, es: seq<StoredEvent>)
    requires Solvency.CheckpointsBehind(p) && Agrees(r, p, w)
    ensures DoRefund(p, owner).Some? && Carries(es, DoRefund(p, owner).value.events) ==>
      Follows(r, p, w, es, DoRefund(p, owner).value.project)
  {
    hide Earned, TotalEarned, Value;
    if DoRefund(p, owner).Some? && Carries(es, DoRefund(p, owner).value.events) {
      TwoEvents(r, w, es);
      EarnedNothing(0, r.acc, r.checkpoint);
      if owner == w {
        EarnedNothing(r.shares, r.acc, r.checkpoint);
      }
    }
  }

  /** A deposit raises the accumulator and touches no position. */
  lemma {:induction false} DepositEffect(p: Project, gross: u64)
    ensures DoDeposit(p, gross).Some? ==>
      var out := DoDeposit(p, gross).value;
      && out.project.positions == p.positions && out.project.received == p.received && p.acc <= out.project.acc
      && |out.events| == 1 && out.events[0].RevenueDeposited? && out.events[0].accAfter == out.project.acc
  {
    hide NetOf, AccIncrement, Outstanding;
  }

  /** The row of a deposit lists it if the wallet held shares, and then loses at most one unit of it. */
  lemma {:induction false} DepositRow(r: Replayed, w: Wallet, e: StoredEvent)
    requires e.event.RevenueDeposited? && 0 <= r.shares
    ensures var s := r.Apply(w, e);
      && s.acc == e.event.accAfter && s.shares == r.shares && s.checkpoint == r.checkpoint && s.accrued == r.accrued
      && s.claimed == r.claimed && |s.periods| == |r.periods| + (if r.shares > 0 then 1 else 0)
      && 0 <= Excess(s) - Excess(r) <= |s.periods| - |r.periods|
  {
    hide Earned;
    var s := r.Apply(w, e);
    if r.shares > 0 {
      EarnedSplits(r.shares, r.checkpoint, r.acc, s.acc);
      assert s.periods[..|s.periods| - 1] == r.periods;
    } else {
      EarnedNothing(0, s.acc, r.checkpoint);
      EarnedNothing(0, r.acc, r.checkpoint);
    }
  }

  lemma {:induction false} DepositFollows(r: Replayed, p: Project, w: Wallet, gross: u64, es: seq<StoredEvent>)
    requires Solvency.CheckpointsBehind(p) && Agrees(r, p, w)
    ensures DoDeposit(p, gross).Some? && Carries(es, DoDeposit(p, gross).value.events) ==>
      Follows(r, p, w, es, DoDeposit(p, gross).value.project)
  {
    DepositEffect(p, gross);
    hide DoDeposit, Replayed.Apply, Excess;
    if DoDeposit(p, gross).Some? && Carries(es, DoDeposit(p, gross).value.events) {
      TwoEvents(r, w, es);
      DepositRow(r, w, es[0]);
    }
  }

  /** A settlement in the program is the settlement of the replay. */
  lemma {:induction false} SettleAgrees(r: Replayed, p: Project, w: Wallet)
    requires Solvency.CheckpointsBehind(p) && Agrees(r, p, w) && w in p.positions && Settle(p.positions[w], p.acc).Some?
    ensures r.Pending() == Settle(p.positions[w], p.acc).value.accrued
    ensures Settle(p.positions[w], p.acc).value == p.positions[w].(accrued := r.Pending(), checkpoint := p.acc)
    ensures Earned(r.shares, r.acc, r.acc) == 0
  {
    EarnedNothing(r.shares, r.acc, r.acc);
  }

  lemma {:induction false} TransferFollows(r: Replayed, p: Project, w: Wallet, from: Wallet, to: Wallet, amount: u64, es: seq<StoredEvent>)
    requires Solvency.Invariant(p) && Agrees(r, p, w) && DoTransfer(p, from, to, amount).Some?
    requires Carries(es, DoTransfer(p, from, to, amount).value.events)
    ensures Follows(r, p, w, es, DoTransfer(p, from, to, amount).value.project)
  {
    hide Earned, TotalEarned, Solvency.SharesConserved, Solvency.RevenueCovered, Solvency.AccountsMatch, Solvency.EscrowCovered;
    TwoEvents(r, w, es);
    Solvency.SettleWeight(p.positions[from], p.acc);
    Solvency.SettleWeight(p.positions[to], p.acc);
    if w == from || w == to {
      SettleAgrees(r, p, w);
      var s := r.Apply(w, es[0]);
      hide Settle;
      EarnedNothing(s.shares, s.acc, s.acc);
    }
  }

  lemma {:induction false} ClaimFollows(r: Replayed, p: Project, w: Wallet, owner: Wallet, es: seq<StoredEvent>)
    requires Solvency.Invariant(p) && Agrees(r, p, w) && DoClaim(p, owner).Some?
    requires Carries(es, DoClaim(p, owner).value.events)
    ensures Follows(r, p, w, es, DoClaim(p, owner).value.project)
  {
    hide Earned, TotalEarned, Solvency.SharesConserved, Solvency.RevenueCovered, Solvency.AccountsMatch, Solvency.EscrowCovered;
    TwoEvents(r, w, es);
    if w == owner {
      SettleAgrees(r, p, w);
    }
  }

  lemma {:induction false} ClosePositionFollows(r: Replayed, p: Project, w: Wallet, owner: Wallet, es: seq<StoredEvent>)
    requires Solvency.Invariant(p) && Agrees(r, p, w) && DoClosePosition(p, owner).Some?
    requires Carries(es, DoClosePosition(p, owner).value.events)
    ensures Follows(r, p, w, es, DoClosePosition(p, owner).value.project)
  {
    hide Earned, TotalEarned, Solvency.SharesConserved, Solvency.RevenueCovered, Solvency.AccountsMatch, Solvency.EscrowCovered;
    TwoEvents(r, w, es);
    EarnedNothing(0, r.acc, r.acc);
    if w == owner {
      SettleAgrees(r, p, w);
    }
  }

  /** What a recovery leaves of the two positions, in terms of what each was owed. */
  ghost predicate RecoveryOf(o: Project, e: Event, q: Project) {
    && e.RecoveryExecuted? && e.fromOwner in o.positions && e.toOwner in o.positions && e.fromOwner != e.toOwner
    && q.acc == o.acc && q.received == o.received && q.positions.Keys == o.positions.Keys
    && (forall v | v in o.positions && v != e.fromOwner && v != e.toOwner :: q.positions[v] == o.positions[v])
    && (var source := q.positions[e.fromOwner];
        && source.shares == o.positions[e.fromOwner].shares - e.shares && source.checkpoint == o.acc
        && source.accrued == Solvency.Pending(o.positions[e.fromOwner], o.acc) - e.accruedMoved)
    && (var destination := q.positions[e.toOwner];
        && destination.shares == o.positions[e.toOwner].shares + e.shares && destination.checkpoint == o.acc
        && destination.accrued == Solvency.Pending(o.positions[e.toOwner], o.acc) + e.accruedMoved)
  }

  lemma {:induction false} RecoverEffect(p: Project, from: Wallet, to: Wallet, shares: u64)
    requires Solvency.Invariant(p)
    ensures DoRecover(p, from, to, shares).Some? ==>
      var o := Opened(p, to);
      var out := DoRecover(p, from, to, shares).value;
      && |out.events| == |o.events| + 1
      && out.events == o.events + [out.events[|o.events|]]
      && RecoveryOf(o.project, out.events[|o.events|], out.project)
  {
    hide Solvency.SharesConserved, Solvency.RevenueCovered, Solvency.AccountsMatch, Solvency.EscrowCovered;
    hide ProRata, Solvency.Pending, Settle, Balance, SetBalance;
    if DoRecover(p, from, to, shares).Some? {
      Solvency.SettleWeight(p.positions[from], p.acc);
      Solvency.SettleWeight(Opened(p, to).project.positions[to], p.acc);
    }
  }

  lemma {:induction false} RecoveryRowFollows(r: Replayed, o: Project, w: Wallet, e: StoredEvent, q: Project)
    requires Solvency.CheckpointsBehind(o) && Agrees(r, o, w) && RecoveryOf(o, e.event, q)
    ensures Agrees(r.Apply(w, e), q, w) && r.Apply(w, e).periods == r.periods
    ensures Excess(r.Apply(w, e)) == Excess(r) + MovedBy(w, e.event)
  {
    PendingAgrees(r, o, w);
    hide Earned, TotalEarned, Solvency.Pending;
    var s := r.Apply(w, e);
    EarnedNothing(s.shares, s.acc, s.acc);
  }

  lemma {:induction false} RecoverFollows(r: Replayed, p: Project, w: Wallet, from: Wallet, to: Wallet, shares: u64, es: seq<StoredEvent>)
    requires Solvency.Invariant(p) && Agrees(r, p, w) && DoRecover(p, from, to, shares).Some?
    requires Carries(es, DoRecover(p, from, to, shares).value.events)
    ensures Follows(r, p, w, es, DoRecover(p, from, to, shares).value.project)
  {
    RecoverEffect(p, from, to, shares);
    var o := Opened(p, to);
    var q := DoRecover(p, from, to, shares).value.project;
    TwoEvents(r, w, es);
    if to in p.positions {
      RecoveryRowFollows(r, p, w, es[0], q);
    } else {
      OpenedFollows(r, p, w, to, es[0]);
      RecoveryRowFollows(r.Apply(w, es[0]), o.project, w, es[1], q);
    }
    hide Earned, DoRecover, Replayed.Apply, Replayed.Pending, Agrees, Excess;
  }

  lemma {:induction false} ExecuteFollows(r: Replayed, p: Project, w: Wallet, i: Instruction, es: seq<StoredEvent>)
    requires Solvency.Invariant(p) && Agrees(r, p, w) && Execute(p, i).Some?
    requires Carries(es, Execute(p, i).value.events)
    ensures Follows(r, p, w, es, Execute(p, i).value.project)
  {
    assert Solvency.CheckpointsBehind(p);
    hide Follows, Solvency.Invariant, Solvency.CheckpointsBehind, Earned, Agrees;
    match i
    case OpenPosition(owner) => OpenFollows(r, p, w, owner, es);
    case BuyShares(owner, shares) => BuyFollows(r, p, w, owner, shares, es);
    case Refund(owner) => RefundFollows(r, p, w, owner, es);
    case DepositRevenue(gross) => DepositFollows(r, p, w, gross, es);
    case Transfer(from, to, amount) => TransferFollows(r, p, w, from, to, amount, es);
    case Claim(owner) => ClaimFollows(r, p, w, owner, es);
    case ClosePosition(owner) => ClosePositionFollows(r, p, w, owner, es);
    case ExecuteRecovery(from, to, shares) => RecoverFollows(r, p, w, from, to, shares, es);
    case _ => QuietFollows(r, p, w, i, es);
  }

  predicate IsQuiet(i: Instruction) {
    i.FinalizeRaise? || i.CancelRaise? || i.ActivateProject? || i.Pause? || i.Resume? || i.CloseProject?
    || i.DonateRevenue? || i.DonateEscrow? || i.CreateShareAccount? || i.CloseEmptyShareAccount? || i.SetSanctioned?
  }

  /** Instructions that touch no position write at most one event, and not of a position. */
  lemma {:induction false} QuietEffect(p: Project, i: Instruction)
    requires IsQuiet(i)
    ensures Execute(p, i).Some? ==>
      var out := Execute(p, i).value;
      && out.project.acc == p.acc && out.project.received == p.received && out.project.positions == p.positions
      && |out.events| <= 1 && forall k | 0 <= k < |out.events| :: out.events[k].Lifecycle?
  {
    hide Value;
  }

  lemma {:induction false} QuietFollows(r: Replayed, p: Project, w: Wallet, i: Instruction, es: seq<StoredEvent>)
    requires IsQuiet(i) && Agrees(r, p, w)
    requires Execute(p, i).Some? && Carries(es, Execute(p, i).value.events)
    ensures Follows(r, p, w, es, Execute(p, i).value.project)
  {
    QuietEffect(p, i);
    hide Earned, TotalEarned, Execute;
    TwoEvents(r, w, es);
  }

  // ---- whole logs ----

  lemma {:induction false} RecoveredConcat(w: Wallet, a: seq<StoredEvent>, b: seq<StoredEvent>)
    ensures Recovered(w, a + b) == Recovered(w, a) + Recovered(w, b)
  {
    if b == [] {
      assert a + b == a;
    } else {
      assert (a + b)[..|a + b| - 1] == a + b[..|b| - 1];
      RecoveredConcat(w, a, b[..|b| - 1]);
    }
  }

  lemma {:induction false} LogFollows(launch: Launch, run: seq<Instruction>, w: Wallet, log: seq<StoredEvent>)
    requires Carries(log, Run(launch, run).events)
    ensures var r := Replay(w, log);
      && Agrees(r, Run(launch, run).project, w)
      && 0 <= Excess(r) - Recovered(w, log) <= |r.periods|
  {
    Solvency.RunKeeps(launch, run);
    if run == [] {
      FoldOne(FRESH, w, log[0]);
      assert log == [log[0]];
      assert log[..0] == [];
      EarnedNothing(0, 0, 0);
    } else {
      var before := run[..|run| - 1];
      Solvency.RunKeeps(launch, before);
      var p := Run(launch, before);
      var o := Execute(p.project, run[|run| - 1]);
      hide Execute, Solvency.Invariant, Agrees, Excess, Replayed.Apply;
      if o.None? {
        LogFollows(launch, before, w, log);
      } else {
        var older := log[..|p.events|];
        var newer := log[|p.events|..];
        assert log == older + newer;
        LogFollows(launch, before, w, older);
        ExecuteFollows(Replay(w, older), p.project, w, run[|run| - 1], newer);
        FoldConcat(FRESH, w, older, newer);
        RecoveredConcat(w, older, newer);
      }
    }
  }

  /**
   * What the backend shows a wallet is the chain's own state: after any run of the program, the
   * replay of the rows the index query selects has the position's shares, checkpoint and accrued
   * revenue, all that the vault has paid the wallet, and as pending what a claim would pay.
   */
  lemma {:induction false} ReplayIsThePosition(launch: Launch, run: seq<Instruction>, project: string, w: Wallet, table: seq<StoredEvent>)
    requires Carries(ProjectRows(project, table), Run(launch, run).events)
    ensures var p := Run(launch, run).project;
      var r := Replay(w, PositionEvents(project, w, table));
      && r.acc == p.acc
      && r.claimed == (if w in p.received then p.received[w] else 0)
      && (w in p.positions ==>
            && r.shares == p.positions[w].shares && r.checkpoint == p.positions[w].checkpoint
            && r.accrued == p.positions[w].accrued && r.Pending() == Solvency.Pending(p.positions[w], p.acc))
      && (w !in p.positions ==> r.shares == 0 && r.Pending() == 0)
  {
    SelectionIsEnough(project, w, table);
    LogFollows(launch, run, w, ProjectRows(project, table));
    Solvency.RunKeeps(launch, run);
    PendingAgrees(Replay(w, ProjectRows(project, table)), Run(launch, run).project, w);
  }

  /**
   * The listed periods explain the money: what the wallet was paid and can still claim is what
   * its deposits earned plus what recoveries moved to it, and at most one base unit a listed
   * deposit more, however transfers and claims are interleaved.
   */
  lemma {:induction false} PeriodsExplainPayouts(launch: Launch, run: seq<Instruction>, project: string, w: Wallet, table: seq<StoredEvent>)
    requires Carries(ProjectRows(project, table), Run(launch, run).events)
    ensures var r := Replay(w, PositionEvents(project, w, table));
      var explained := TotalEarned(r.periods) + Recovered(w, ProjectRows(project, table));
      explained <= r.claimed + r.Pending() <= explained + |r.periods|
  {
    SelectionIsEnough(project, w, table);
    LogFollows(launch, run, w, ProjectRows(project, table));
  }

  // ---- the lists of a replay ----

  /** The claim a row of the log is, seen by its owner. */
  predicate IsClaim(wallet: Wallet, row: StoredEvent, c: ClaimPayout) {
    row.id == c.id && row.event == Claimed(wallet, c.amount)
  }

  /** The deposit a row of the log is, seen by a holder of `shares` with the accumulator at `acc`. */
  predicate IsPeriod(shares: int, acc: int, row: StoredEvent, p: PeriodPayout) {
    && row.id == p.id && row.event.RevenueDeposited?
    && row.event.index == p.index && row.event.net == p.net && row.event.supply == p.supply && shares > 0
    && p.earned * 0x1_0000_0000_0000_0000 <= shares * (row.event.accAfter - acc) < (p.earned + 1) * 0x1_0000_0000_0000_0000
  }

  ghost predicate ClaimsListed(wallet: Wallet, events: seq<StoredEvent>, claims: seq<ClaimPayout>) {
    && (forall c :: c in claims <==> exists k :: 0 <= k < |events| && IsClaim(wallet, events[k], c))
    && (forall i, j :: 0 <= i < j < |claims| ==> claims[i].id < claims[j].id)
  }

  ghost predicate PeriodsListed(wallet: Wallet, events: seq<StoredEvent>, periods: seq<PeriodPayout>) {
    && (forall p :: p in periods <==>
          exists k :: 0 <= k < |events| && IsPeriod(Replay(wallet, events[..k]).shares, Replay(wallet, events[..k]).acc, events[k], p))
    && (forall i, j :: 0 <= i < j < |periods| ==> periods[i].id < periods[j].id)
  }

  function TotalClaimed(claims: seq<ClaimPayout>): nat {
    if claims == [] then 0 else TotalClaimed(claims[..|claims| - 1]) + claims[|claims| - 1].amount
  }

  /**
   * The lists beside a replay are the rows of the log: each of the wallet's claims, which add up
   * to what it was paid, and each deposit made while it held shares, with its part of it.
   */
  lemma {:induction false} ListsAreTheRows(wallet: Wallet, events: seq<StoredEvent>)
    requires forall i, j :: 0 <= i < j < |events| ==> events[i].id < events[j].id
    ensures ClaimsListed(wallet, events, Replay(wallet, events).claims)
    ensures TotalClaimed(Replay(wallet, events).claims) == Replay(wallet, events).claimed
    ensures PeriodsListed(wallet, events, Replay(wallet, events).periods)
  {
    if events == [] {
      NothingListed(wallet);
    } else {
      var before, row := events[..|events| - 1], events[|events| - 1];
      ListsAreTheRows(wallet, before);
      ClaimListed(wallet, before, row);
      PeriodListed(wallet, before, row);
      assert before + [row] == events;
    }
  }

  lemma {:induction false} NothingListed(wallet: Wallet)
    ensures Replay(wallet, []) == FRESH && TotalClaimed([]) == 0
    ensures ClaimsListed(wallet, [], []) && PeriodsListed(wallet, [], [])
  {}

  lemma {:induction false} LastApplied(wallet: Wallet, before: seq<StoredEvent>, row: StoredEvent)
    ensures Replay(wallet, before + [row]) == Replay(wallet, before).Apply(wallet, row)
  {
    assert (before + [row])[..|before|] == before;
  }

  lemma {:induction false} ClaimListed(wallet: Wallet, before: seq<StoredEvent>, row: StoredEvent)
    requires forall k :: 0 <= k < |before| ==> before[k].id < row.id
    requires ClaimsListed(wallet, before, Replay(wallet, before).claims)
    requires TotalClaimed(Replay(wallet, before).claims) == Replay(wallet, before).claimed
    ensures ClaimsListed(wallet, before + [row], Replay(wallet, before + [row]).claims)
    ensures TotalClaimed(Replay(wallet, before + [row]).claims) == Replay(wallet, before + [row]).claimed
  {
    LastApplied(wallet, before, row);
    var r := Replay(wallet, before);
    var s := r.Apply(wallet, row);
    var mine := if row.event.Claimed? && row.event.owner == wallet then [ClaimPayout(row.id, row.event.amount)] else [];
    assert s.claims == r.claims + mine;
    assert forall c :: IsClaim(wallet, row, c) <==> c in mine;
    if mine != [] {
      assert s.claims[..|s.claims| - 1] == r.claims;
    }
    hide Replay, Replayed.Apply, TotalClaimed, IsClaim, ClaimsListed;
    ClaimsGrow(wallet, before, row, r.claims, mine);
  }

  lemma {:induction false} ClaimsGrow(wallet: Wallet, before: seq<StoredEvent>, row: StoredEvent, claims: seq<ClaimPayout>, mine: seq<ClaimPayout>)
    requires forall k :: 0 <= k < |before| ==> before[k].id < row.id
    requires ClaimsListed(wallet, before, claims) && |mine| <= 1 && forall c :: IsClaim(wallet, row, c) <==> c in mine
    ensures ClaimsListed(wallet, before + [row], claims + mine)
  {
    var events := before + [row];
    assert forall k :: 0 <= k < |before| ==> events[k] == before[k];
    forall c | c in claims ensures c.id < row.id {
      var k :| 0 <= k < |before| && IsClaim(wallet, before[k], c);
    }
    forall c | c in mine ensures c.id == row.id {
      assert IsClaim(wallet, row, c);
    }
    hide IsClaim;
    forall c | c in claims + mine ensures exists k :: 0 <= k < |events| && IsClaim(wallet, events[k], c) {
      if c in mine {
        assert IsClaim(wallet, events[|before|], c);
      } else {
        var k :| 0 <= k < |before| && IsClaim(wallet, before[k], c);
        assert IsClaim(wallet, events[k], c);
      }
    }
  }

  lemma {:induction false} PeriodListed(wallet: Wallet, before: seq<StoredEvent>, row: StoredEvent)
    requires forall k :: 0 <= k < |before| ==> before[k].id < row.id
    requires PeriodsListed(wallet, before, Replay(wallet, before).periods)
    ensures PeriodsListed(wallet, before + [row], Replay(wallet, before + [row]).periods)
  {
    LastApplied(wallet, before, row);
    var r := Replay(wallet, before);
    var s := r.Apply(wallet, row);
    var mine := if row.event.RevenueDeposited? && r.shares > 0
                then [PeriodPayout(row.id, row.event.index, row.event.net, row.event.supply, Earned(r.shares, row.event.accAfter, r.acc))] else [];
    assert s.periods == r.periods + mine;
    forall p ensures IsPeriod(r.shares, r.acc, row, p) <==> p in mine {
      OnePeriod(r, row, p);
    }
    hide Replayed.Apply, Earned, IsPeriod;
    var events := before + [row];
    assert events[..|before|] == before;
    assert forall k :: 0 <= k < |before| ==> events[k] == before[k] && events[..k] == before[..k];
    hide Replay;
    forall p | p in s.periods
      ensures exists k :: 0 <= k < |events| && IsPeriod(Replay(wallet, events[..k]).shares, Replay(wallet, events[..k]).acc, events[k], p)
    {
      if p in mine {
        assert IsPeriod(Replay(wallet, events[..|before|]).shares, Replay(wallet, events[..|before|]).acc, events[|before|], p);
      } else {
        var k :| 0 <= k < |before| && IsPeriod(Replay(wallet, before[..k]).shares, Replay(wallet, before[..k]).acc, before[k], p);
        assert IsPeriod(Replay(wallet, events[..k]).shares, Replay(wallet, events[..k]).acc, events[k], p);
      }
    }
    PeriodsAscend(wallet, before, row, r.periods, mine);
  }

  lemma {:induction false} PeriodsAscend(wallet: Wallet, before: seq<StoredEvent>, row: StoredEvent, periods: seq<PeriodPayout>, mine: seq<PeriodPayout>)
    requires forall k :: 0 <= k < |before| ==> before[k].id < row.id
    requires PeriodsListed(wallet, before, periods) && |mine| <= 1 && forall p :: p in mine ==> p.id == row.id
    ensures forall i, j :: 0 <= i < j < |periods + mine| ==> (periods + mine)[i].id < (periods + mine)[j].id
  {
    hide Replay;
    forall p | p in periods ensures p.id < row.id {
      var k :| 0 <= k < |before| && IsPeriod(Replay(wallet, before[..k]).shares, Replay(wallet, before[..k]).acc, before[k], p);
    }
  }

  lemma {:induction false} Quotient(x: int, q: int)
    ensures q * 0x1_0000_0000_0000_0000 <= x < (q + 1) * 0x1_0000_0000_0000_0000 <==> x / 0x1_0000_0000_0000_0000 == q
  {}

  /** The part of a deposit is the whole number below it. */
  lemma {:induction false} OnePeriod(r: Replayed, row: StoredEvent, p: PeriodPayout)
    ensures IsPeriod(r.shares, r.acc, row, p) <==>
      row.event.RevenueDeposited? && r.shares > 0
      && p == PeriodPayout(row.id, row.event.index, row.event.net, row.event.supply, Earned(r.shares, row.event.accAfter, r.acc))
  {
    if row.event.RevenueDeposited? {
      Quotient(r.shares * (row.event.accAfter - r.acc), p.earned);
    }
  }

  /** A replay shows the share mint of the project's creation. */
  lemma {:induction false} MintIsTheProjects(wallet: Wallet, events: seq<StoredEvent>, k: nat)
    requires k < |events| && events[k].event.ProjectCreated?
    requires forall j :: k < j < |events| ==> !events[j].event.ProjectCreated?
    ensures Replay(wallet, events).mint == Some(events[k].event.shareMint)
  {
    if k < |events| - 1 {
      MintIsTheProjects(wallet, events[..|events| - 1], k);
    }
  }
}
