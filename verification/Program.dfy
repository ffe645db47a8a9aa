/**
 * The on-chain program `axel_v2` as the environment of the backend: the revenue ledger of one
 * project, moved by instructions, together with the token accounts it keeps in step. An
 * instruction the program refuses changes nothing and writes no event.
 *
 * Checks that only depend on time, on KYC eligibility or on the protocol's pause switch are
 * not modelled: every such check refuses more, so a run of the program is a run here.
 */
module Program {
  import opened Wrappers

  const U64_LIMIT: nat := 0x1_0000_0000_0000_0000
  const U128_LIMIT: nat := 0x1_0000_0000_0000_0000_0000_0000_0000_0000

  type u64 = x: nat | x < 0x1_0000_0000_0000_0000

  type Wallet = string

  /** An owner's associated token account, or any other address someone made a share account at. */
  datatype Address = Ata(owner: Wallet) | Extra(id: nat)

  datatype ShareAccount = ShareAccount(owner: Wallet, amount: nat, frozen: bool)

  datatype Phase = Fundraising | Funded | Operating | Paused | Failed | Closed

  datatype Position = Position(shares: nat, checkpoint: nat, accrued: nat, totalClaimed: nat)

  datatype Project = Project(
    phase: Phase,
    pricePerShare: nat,
    totalShares: nat,
    revenueFeeBps: nat,
    sold: nat,
    refunded: nat,
    retired: nat,
    mintSupply: nat,
    acc: nat,
    depositedNet: nat,
    claimed: nat,
    periodCount: nat,
    revenueVault: nat,
    escrow: Option<nat>,
    positions: map<Wallet, Position>,
    accounts: map<Address, ShareAccount>,
    sanctioned: set<Wallet>,
    // What a reader of the token accounts and of the log sees, not fields of the account:
    received: map<Wallet, nat>, // revenue paid out to each wallet
    escrowDonated: nat,         // sent to the escrow outside of `buy_shares`
    settles: nat)               // settlements carried out so far

  datatype Event =
    | ProjectCreated(shareMint: string)
    | RevenueDeposited(index: nat, net: nat, supply: nat, accAfter: nat)
    | PositionOpened(owner: Wallet)
    | PositionClosed(owner: Wallet, sharesBurned: nat)
    | SharesPurchased(owner: Wallet, shares: nat)
    | Refunded(owner: Wallet, shares: nat)
    | SharesTransferred(from: Wallet, to: Wallet, amount: nat)
    | Claimed(owner: Wallet, amount: nat)
    | RecoveryExecuted(fromOwner: Wallet, toOwner: Wallet, shares: nat, accruedMoved: nat)
    | Lifecycle(name: string)

  datatype Instruction =
    | OpenPosition(owner: Wallet)
    | BuyShares(owner: Wallet, shares: u64)
    | FinalizeRaise(outcome: Phase)
    | CancelRaise
    | ActivateProject
    | Pause
    | Resume
    | CloseProject
    | Refund(owner: Wallet)
    | DepositRevenue(gross: u64)
    | Transfer(from: Wallet, to: Wallet, amount: u64)
    | Claim(owner: Wallet)
    | ClosePosition(owner: Wallet)
    | ExecuteRecovery(fromOwner: Wallet, toOwner: Wallet, shares: u64)
    // What others can do to the accounts around the program:
    | DonateRevenue(amount: u64)
    | DonateEscrow(amount: u64)
    | CreateShareAccount(address: Address, owner: Wallet)
    | CloseEmptyShareAccount(address: Address)
    | SetSanctioned(wallet: Wallet, frozen: bool)

  datatype Outcome = Outcome(project: Project, events: seq<Event>)

  // ---- math.rs ----

  /** `x * 2^64`. */
  function Scale(x: nat): nat { x * 0x1_0000_0000_0000_0000 }

  /** `x >> 64`. */
  function Floor64(x: nat): nat { x / 0x1_0000_0000_0000_0000 }

  function Owed(shares: nat, acc: nat, checkpoint: nat): Option<nat> {
    if acc < checkpoint then None
    else if shares * (acc - checkpoint) >= U128_LIMIT then None
    else if Floor64(shares * (acc - checkpoint)) >= U64_LIMIT then None
    else Some(Floor64(shares * (acc - checkpoint)))
  }

  /** The part of `gross` left for holders after the platform fee. */
  function NetOf(gross: nat, bps: nat): Option<nat> {
    if bps > 10_000 then None else
    var fee := gross * bps / 10_000;
    if fee > gross then None else Some(gross - fee)
  }

  function AccIncrement(net: nat, supply: nat): Option<nat> {
    if supply == 0 then None else Some(Scale(net) / supply)
  }

  function ProRata(amount: nat, part: nat, whole: nat): Option<nat> {
    if whole == 0 then None else
    var value := amount * part / whole;
    if value >= U64_LIMIT then None else Some(value)
  }

  /** `shares * price` in base units of the payment mint. */
  function Value(shares: nat, price: nat): nat { shares * price }

  function SharesValue(shares: nat, price: nat): Option<nat> {
    if Value(shares, price) >= U64_LIMIT then None else Some(Value(shares, price))
  }

  // ---- state ----

  function NewPosition(acc: nat): Position { Position(0, acc, 0, 0) }

  function Settle(p: Position, acc: nat): Option<Position> {
    var earned :- Owed(p.shares, acc, p.checkpoint);
    if p.accrued + earned >= U64_LIMIT then None
    else Some(p.(accrued := p.accrued + earned, checkpoint := acc))
  }

  function Outstanding(p: Project): Option<nat> {
    if p.refunded + p.retired > p.sold then None else Some(p.sold - p.refunded - p.retired)
  }

  predicate Activated(phase: Phase) {
    phase == Operating || phase == Paused || phase == Closed
  }

  /** Balance of an owner's canonical account, which instructions create when it is missing. */
  function Balance(p: Project, owner: Wallet): nat {
    if Ata(owner) in p.accounts then p.accounts[Ata(owner)].amount else 0
  }

  predicate Thawed(p: Project, owner: Wallet) {
    Ata(owner) in p.accounts && !p.accounts[Ata(owner)].frozen
  }

  /** The owner's canonical account thawed and holding `amount`. */
  function SetBalance(p: Project, owner: Wallet, amount: nat): map<Address, ShareAccount> {
    p.accounts[Ata(owner) := ShareAccount(owner, amount, false)]
  }

  /** The position filled in if `init_if_needed` just made it, and the event of that. */
  function Opened(p: Project, owner: Wallet): Outcome {
    if owner in p.positions then Outcome(p, [])
    else Outcome(p.(positions := p.positions[owner := NewPosition(p.acc)]), [PositionOpened(owner)])
  }

  // ---- instructions ----

  function DoOpen(p: Project, w: Wallet): Option<Outcome> {
    if p.phase != Fundraising && p.phase != Operating then None else
    var o := Opened(p, w);
    if Balance(p, w) != o.project.positions[w].shares then None else
    Some(o.(project := o.project.(accounts := SetBalance(p, w, Balance(p, w)))))
  }

  function DoBuy(p: Project, w: Wallet, shares: u64): Option<Outcome> {
    if p.phase != Fundraising || shares == 0 || p.sold + shares > p.totalShares || p.escrow.None? then None else
    var cost :- SharesValue(shares, p.pricePerShare);
    var o := Opened(p, w);
    var position := o.project.positions[w];
    if Balance(p, w) != position.shares || position.shares + shares >= U64_LIMIT then None else
    Some(Outcome(
      o.project.(positions := o.project.positions[w := position.(shares := position.shares + shares)],
                 accounts := SetBalance(p, w, position.shares + shares),
                 escrow := Some(p.escrow.value + cost),
                 sold := p.sold + shares,
                 mintSupply := p.mintSupply + shares,
                 phase := if p.sold + shares == p.totalShares then Funded else Fundraising),
      o.events + [SharesPurchased(w, shares)]))
  }

  /** `finalize_raise` picks the outcome by the clock; here it is any the state allows. */
  function DoFinalize(p: Project, outcome: Phase): Option<Outcome> {
    if (p.phase == Fundraising && (outcome == Funded || outcome == Failed)) || (p.phase == Funded && outcome == Failed)
    then Some(Outcome(p.(phase := outcome), [Lifecycle("RaiseFinalized")]))
    else None
  }

  function DoCancel(p: Project): Option<Outcome> {
    if p.phase == Fundraising || p.phase == Funded
    then Some(Outcome(p.(phase := Failed), [Lifecycle("RaiseCancelled")]))
    else None
  }

  function DoActivate(p: Project): Option<Outcome> {
    if p.phase != Funded || p.escrow.None? then None else
    var outstanding :- Outstanding(p);
    var gross :- SharesValue(outstanding, p.pricePerShare);
    if p.escrow.value < gross then None else
    Some(Outcome(p.(phase := Operating, escrow := None), [Lifecycle("ProjectActivated")]))
  }

  function DoPause(p: Project): Option<Outcome> {
    if p.phase == Operating then Some(Outcome(p.(phase := Paused), [Lifecycle("ProjectPaused")])) else None
  }

  function DoResume(p: Project): Option<Outcome> {
    if p.phase == Paused then Some(Outcome(p.(phase := Operating), [Lifecycle("ProjectResumed")])) else None
  }

  function DoCloseProject(p: Project): Option<Outcome> {
    if p.phase != Operating && p.phase != Paused then None
    else if p.claimed > p.depositedNet then None
    else Some(Outcome(p.(phase := Closed), [Lifecycle("ProjectClosed")]))
  }

  function DoRefund(p: Project, w: Wallet): Option<Outcome> {
    if p.phase != Failed || w !in p.positions || w in p.sanctioned || p.escrow.None? then None else
    var position := p.positions[w];
    if position.shares == 0 || Balance(p, w) != position.shares || !Thawed(p, w) || p.mintSupply < position.shares then None else
    var amount :- SharesValue(position.shares, p.pricePerShare);
    if p.escrow.value < amount then None else
    Some(Outcome(
      p.(positions := p.positions[w := position.(shares := 0)],
         accounts := SetBalance(p, w, 0),
         escrow := Some(p.escrow.value - amount),
         refunded := p.refunded + position.shares,
         mintSupply := p.mintSupply - position.shares),
      [Refunded(w, position.shares)]))
  }

  function DoDeposit(p: Project, gross: u64): Option<Outcome> {
    if p.phase != Operating || gross == 0 then None else
    var supply :- Outstanding(p);
    var net :- NetOf(gross, p.revenueFeeBps);
    var increment :- AccIncrement(net, supply);
    if p.acc + increment >= U128_LIMIT || p.depositedNet + net >= U64_LIMIT then None else
    Some(Outcome(
      p.(acc := p.acc + increment,
         depositedNet := p.depositedNet + net,
         periodCount := p.periodCount + 1,
         revenueVault := p.revenueVault + net),
      [RevenueDeposited(p.periodCount, net, supply, p.acc + increment)]))
  }

  /** A share transfer: Token-2022 moves the balances and calls the hook, which moves the positions. */
  function DoTransfer(p: Project, from: Wallet, to: Wallet, amount: u64): Option<Outcome> {
    if p.phase != Operating || from !in p.positions || to !in p.positions || !Thawed(p, from) || !Thawed(p, to)
      || Balance(p, from) < amount
    then None
    else if from == to then
      var settled :- Settle(p.positions[from], p.acc);
      if Balance(p, from) != settled.shares then None else
      Some(Outcome(p.(positions := p.positions[from := settled], settles := p.settles + 1),
                   [SharesTransferred(from, to, amount)]))
    else
      var source :- Settle(p.positions[from], p.acc);
      var destination :- Settle(p.positions[to], p.acc);
      if source.shares < amount || destination.shares + amount >= U64_LIMIT
        || Balance(p, from) - amount != source.shares - amount
        || Balance(p, to) + amount != destination.shares + amount
      then None else
      var moved := p.(accounts := SetBalance(p, from, source.shares - amount));
      Some(Outcome(
        p.(positions := p.positions[from := source.(shares := source.shares - amount)]
                                   [to := destination.(shares := destination.shares + amount)],
           accounts := SetBalance(moved, to, destination.shares + amount),
           settles := p.settles + 2),
        [SharesTransferred(from, to, amount)]))
  }

  function DoClaim(p: Project, w: Wallet): Option<Outcome> {
    if !Activated(p.phase) || w !in p.positions || w in p.sanctioned then None else
    var settled :- Settle(p.positions[w], p.acc);
    var amount := settled.accrued;
    if amount == 0 || p.revenueVault < amount || settled.totalClaimed + amount >= U64_LIMIT
      || p.claimed + amount >= U64_LIMIT
    then None else
    Some(Outcome(
      p.(positions := p.positions[w := settled.(accrued := 0, totalClaimed := settled.totalClaimed + amount)],
         revenueVault := p.revenueVault - amount,
         claimed := p.claimed + amount,
         received := p.received[w := (if w in p.received then p.received[w] else 0) + amount],
         settles := p.settles + 1),
      [Claimed(w, amount)]))
  }

  function DoClosePosition(p: Project, w: Wallet): Option<Outcome> {
    if p.phase == Fundraising || p.phase == Funded || w !in p.positions then None else
    var shares := p.positions[w].shares;
    if p.phase != Closed && shares != 0 then None else
    var settled :- Settle(p.positions[w], p.acc);
    if settled.accrued != 0 || Balance(p, w) != shares || p.mintSupply < shares || p.retired + shares >= U64_LIMIT then None else
    Some(Outcome(
      p.(positions := p.positions - {w},
         accounts := p.accounts - {Ata(w)},
         retired := p.retired + shares,
         mintSupply := p.mintSupply - shares,
         settles := p.settles + 1),
      [PositionClosed(w, shares)]))
  }

  /** `propose_recovery` already refused no shares and equal owners. */
  function DoRecover(p: Project, from: Wallet, to: Wallet, shares: u64): Option<Outcome> {
    if from == to || shares == 0 || from !in p.positions || from in p.sanctioned then None else
    if p.positions[from].shares < shares then None else
    var o := Opened(p, to);
    if Balance(p, from) != p.positions[from].shares || Balance(p, to) != o.project.positions[to].shares then None else
    var source :- Settle(p.positions[from], p.acc);
    var accruedMoved :- ProRata(source.accrued, shares, source.shares);
    if accruedMoved > source.accrued then None else
    var destination :- Settle(o.project.positions[to], p.acc);
    if destination.shares + shares >= U64_LIMIT || destination.accrued + accruedMoved >= U64_LIMIT then None else
    var moved := p.(accounts := SetBalance(p, from, source.shares - shares));
    Some(Outcome(
      o.project.(
        positions := o.project.positions
          [from := source.(shares := source.shares - shares, accrued := source.accrued - accruedMoved)]
          [to := destination.(shares := destination.shares + shares, accrued := destination.accrued + accruedMoved)],
        accounts := SetBalance(moved, to, destination.shares + shares),
        settles := p.settles + 2),
      o.events + [RecoveryExecuted(from, to, shares, accruedMoved)]))
  }

  // ---- the accounts around the program ----

  function DoCreateAccount(p: Project, address: Address, owner: Wallet): Option<Outcome> {
    if address in p.accounts || (address.Ata? && address.owner != owner) then None
    else Some(Outcome(p.(accounts := p.accounts[address := ShareAccount(owner, 0, true)]), []))
  }

  function DoCloseAccount(p: Project, address: Address): Option<Outcome> {
    if address !in p.accounts || p.accounts[address].amount != 0 then None
    else Some(Outcome(p.(accounts := p.accounts - {address}), []))
  }

  function Execute(p: Project, i: Instruction): Option<Outcome> {
    match i
    case OpenPosition(w) => DoOpen(p, w)
    case BuyShares(w, shares) => DoBuy(p, w, shares)
    case FinalizeRaise(outcome) => DoFinalize(p, outcome)
    case CancelRaise => DoCancel(p)
    case ActivateProject => DoActivate(p)
    case Pause => DoPause(p)
    case Resume => DoResume(p)
    case CloseProject => DoCloseProject(p)
    case Refund(w) => DoRefund(p, w)
    case DepositRevenue(gross) => DoDeposit(p, gross)
    case Transfer(from, to, amount) => DoTransfer(p, from, to, amount)
    case Claim(w) => DoClaim(p, w)
    case ClosePosition(w) => DoClosePosition(p, w)
    case ExecuteRecovery(from, to, shares) => DoRecover(p, from, to, shares)
    case DonateRevenue(amount) => Some(Outcome(p.(revenueVault := p.revenueVault + amount), []))
    case DonateEscrow(amount) =>
      if p.escrow.None? then None else
      Some(Outcome(p.(escrow := Some(p.escrow.value + amount), escrowDonated := p.escrowDonated + amount), []))
    case CreateShareAccount(address, owner) => DoCreateAccount(p, address, owner)
    case CloseEmptyShareAccount(address) => DoCloseAccount(p, address)
    case SetSanctioned(w, frozen) =>
      Some(Outcome(p.(sanctioned := if frozen then p.sanctioned + {w} else p.sanctioned - {w}), []))
  }

  /** The arguments of `create_project` that the ledger depends on. */
  datatype Launch = Launch(shareMint: string, pricePerShare: nat, totalShares: u64, revenueFeeBps: nat)

  function Created(l: Launch): Project {
    Project(Fundraising, l.pricePerShare, l.totalShares, l.revenueFeeBps, 0, 0, 0, 0, 0, 0, 0, 0, 0, Some(0),
            map[], map[], {}, map[], 0, 0)
  }

  /** The project and the events in its log after a run of instructions, oldest first. */
  function Run(launch: Launch, run: seq<Instruction>): Outcome {
    if run == [] then Outcome(Created(launch), [ProjectCreated(launch.shareMint)]) else
    var before := Run(launch, run[..|run| - 1]);
    match Execute(before.project, run[|run| - 1])
    case None => before
    case Some(o) => Outcome(o.project, before.events + o.events)
  }
}
