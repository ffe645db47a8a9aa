/**
 * The solvency check of a project's snapshot (I1-I5): what each verdict means, and which
 * verdicts the states of the program can get.
 */
module ProjectCheck {
  import opened Wrappers
  import opened Program
  import Solvency
  import Sums

  datatype PositionSnapshot = PositionSnapshot(owner: Wallet, shares: int, checkpoint: int, accrued: int)

  datatype ShareAccountSnapshot = ShareAccountSnapshot(address: Address, owner: Wallet, amount: int, frozen: bool)

  datatype ProjectSnapshot = ProjectSnapshot(
    state: Phase, pricePerShare: int, sold: int, refunded: int, retired: int, acc: int, depositedNet: int,
    claimed: int, mintSupply: int, revenueVault: int, escrow: Option<int>,
    positions: seq<PositionSnapshot>, shareAccounts: seq<ShareAccountSnapshot>)

  datatype Problem =
    | NoThawedAccount(owner: Wallet)
    | WrongBalance(owner: Wallet)
    | FrozenHolds(address: Address)
    | NoPosition(address: Address)

  datatype ProjectReport = ProjectReport(
    holders: nat, supply: int, revenueVault: int, owed: int, surplus: int,
    i1: bool, i2: bool, i3: seq<Problem>, i4: bool, i5: bool)

  function Pending(p: PositionSnapshot, acc: int): int {
    p.accrued + p.shares * (acc - p.checkpoint) / 0x1_0000_0000_0000_0000
  }

  function OwedTo(positions: seq<PositionSnapshot>, acc: int): int {
    if positions == [] then 0
    else OwedTo(positions[..|positions| - 1], acc) + Pending(positions[|positions| - 1], acc)
  }

  function SharesOf(positions: seq<PositionSnapshot>): int {
    if positions == [] then 0
    else SharesOf(positions[..|positions| - 1]) + positions[|positions| - 1].shares
  }

  function Holders(positions: seq<PositionSnapshot>): nat {
    if positions == [] then 0
    else Holders(positions[..|positions| - 1]) + if positions[|positions| - 1].shares > 0 then 1 else 0
  }

  /** The account a reader finds at an address: of several rows, the last. */
  function AccountAt(accounts: seq<ShareAccountSnapshot>, address: Address): Option<ShareAccountSnapshot> {
    if accounts == [] then None
    else if accounts[|accounts| - 1].address == address then Some(accounts[|accounts| - 1])
    else AccountAt(accounts[..|accounts| - 1], address)
  }

  // ---- I1 to I5 as the design states them ----

  predicate I1(s: ProjectSnapshot) {
    OwedTo(s.positions, s.acc) <= s.depositedNet - s.claimed <= s.revenueVault
  }

  predicate I2(s: ProjectSnapshot) {
    s.mintSupply == s.sold - s.refunded - s.retired == SharesOf(s.positions)
  }

  predicate PositionBacked(s: ProjectSnapshot, p: PositionSnapshot) {
    match AccountAt(s.shareAccounts, Ata(p.owner))
    case None => p.shares <= 0
    case Some(account) => if account.frozen then p.shares <= 0 else account.amount == p.shares
  }

  predicate AccountOwned(s: ProjectSnapshot, a: ShareAccountSnapshot) {
    if a.frozen then a.amount == 0
    else a.address == Ata(a.owner) && exists k :: 0 <= k < |s.positions| && s.positions[k].owner == a.owner
  }

  predicate I3(s: ProjectSnapshot) {
    && (forall k :: 0 <= k < |s.positions| ==> PositionBacked(s, s.positions[k]))
    && (forall k :: 0 <= k < |s.shareAccounts| ==> AccountOwned(s, s.shareAccounts[k]))
  }

  predicate I4(s: ProjectSnapshot) {
    match s.escrow
    case None => Activated(s.state)
    case Some(amount) => !Activated(s.state) && amount == (s.sold - s.refunded) * s.pricePerShare
  }

  predicate I5(s: ProjectSnapshot) {
    forall k :: 0 <= k < |s.positions| ==> s.positions[k].checkpoint <= s.acc
  }

  /** `new Map(shareAccounts...)`: the index by address. */
  method ByAddress(accounts: seq<ShareAccountSnapshot>) returns (index: map<Address, ShareAccountSnapshot>)
    ensures forall a :: AccountAt(accounts, a) == if a in index then Some(index[a]) else None
  {
    index := map[];
    for i := 0 to |accounts|
      invariant forall a :: AccountAt(accounts[..i], a) == if a in index then Some(index[a]) else None
    {
      assert accounts[..i + 1][..i] == accounts[..i];
      index := index[accounts[i].address := accounts[i]];
    }
    assert accounts[..|accounts|] == accounts;
  }

  /** The first loop of I3: positions without their thawed account, or with another balance. */
  method UnbackedPositions(s: ProjectSnapshot) returns (problems: seq<Problem>)
    ensures problems == [] <==> forall k :: 0 <= k < |s.positions| ==> PositionBacked(s, s.positions[k])
  {
    var accounts := ByAddress(s.shareAccounts);
    problems := [];
    for i := 0 to |s.positions|
      invariant problems == [] <==> forall k :: 0 <= k < i ==> PositionBacked(s, s.positions[k])
    {
      var p := s.positions[i];
      var address := Ata(p.owner);
      if p.shares > 0 && (address !in accounts || accounts[address].frozen) {
        problems := problems + [NoThawedAccount(p.owner)];
        assert !PositionBacked(s, s.positions[i]);
      } else if address in accounts && !accounts[address].frozen && accounts[address].amount != p.shares {
        problems := problems + [WrongBalance(p.owner)];
        assert !PositionBacked(s, s.positions[i]);
      } else {
        assert PositionBacked(s, s.positions[i]);
      }
    }
  }

  /** The second loop of I3: accounts that hold shares and are no owner's. */
  method UnownedAccounts(s: ProjectSnapshot) returns (problems: seq<Problem>)
    ensures problems == [] <==> forall k :: 0 <= k < |s.shareAccounts| ==> AccountOwned(s, s.shareAccounts[k])
  {
    var owners: set<Wallet> := set k | 0 <= k < |s.positions| :: s.positions[k].owner;
    problems := [];
    for i := 0 to |s.shareAccounts|
      invariant problems == [] <==> forall k :: 0 <= k < i ==> AccountOwned(s, s.shareAccounts[k])
    {
      var a := s.shareAccounts[i];
      if a.frozen {
        if a.amount != 0 {
          problems := problems + [FrozenHolds(a.address)];
          assert !AccountOwned(s, s.shareAccounts[i]);
        }
      } else if a.owner !in owners || Ata(a.owner) != a.address {
        problems := problems + [NoPosition(a.address)];
        assert !AccountOwned(s, s.shareAccounts[i]);
      }
    }
  }

  /** `checkProject`: every verdict is exactly its invariant, and the amounts are the exact sums. */
  method CheckProject(s: ProjectSnapshot) returns (report: ProjectReport)
    ensures report.i1 <==> I1(s)
    ensures report.i2 <==> I2(s)
    ensures report.i3 == [] <==> I3(s)
    ensures report.i4 <==> I4(s)
    ensures report.i5 <==> I5(s)
    ensures report.owed == OwedTo(s.positions, s.acc)
    ensures report.surplus == s.revenueVault - OwedTo(s.positions, s.acc)
    ensures report.holders == Holders(s.positions) && report.supply == s.mintSupply && report.revenueVault == s.revenueVault
  {
    hide PositionBacked, AccountOwned, AccountAt, Pending;
    var owed, positionShares, holders, i5 := 0, 0, 0, true;
    for i := 0 to |s.positions|
      invariant owed == OwedTo(s.positions[..i], s.acc)
      invariant positionShares == SharesOf(s.positions[..i])
      invariant holders == Holders(s.positions[..i])
      invariant i5 <==> forall k :: 0 <= k < i ==> s.positions[k].checkpoint <= s.acc
    {
      assert s.positions[..i + 1][..i] == s.positions[..i];
      var p := s.positions[i];
      owed := owed + Pending(p, s.acc);
      positionShares := positionShares + p.shares;
      holders := holders + if p.shares > 0 then 1 else 0;
      i5 := i5 && p.checkpoint <= s.acc;
    }
    assert s.positions[..|s.positions|] == s.positions;

    var unbacked := UnbackedPositions(s);
    var unowned := UnownedAccounts(s);
    var escrowDue := (s.sold - s.refunded) * s.pricePerShare;
    var i4 := if s.escrow.None? then Activated(s.state)
              else !Activated(s.state) && s.escrow.value == escrowDue;
    var unclaimed := s.depositedNet - s.claimed;
    var outstanding := s.sold - s.refunded - s.retired;
    report := ProjectReport(
      holders, s.mintSupply, s.revenueVault, owed, s.revenueVault - owed,
      owed <= unclaimed && unclaimed <= s.revenueVault,
      s.mintSupply == outstanding && positionShares == outstanding,
      unbacked + unowned, i4, i5);
  }

  // ---- the snapshots of the program's states ----

  /** `s` is what reading every account of the project gives. */
  ghost predicate SnapshotOf(s: ProjectSnapshot, p: Project) {
    && s.state == p.phase && s.pricePerShare == p.pricePerShare && s.sold == p.sold && s.refunded == p.refunded
    && s.retired == p.retired && s.acc == p.acc && s.depositedNet == p.depositedNet && s.claimed == p.claimed
    && s.mintSupply == p.mintSupply && s.revenueVault == p.revenueVault
    && s.escrow.Some? == p.escrow.Some? && (p.escrow.Some? ==> s.escrow.value == p.escrow.value)
    && Lists(s.positions, p.positions)
    && (forall a :: a in p.accounts <==> AccountAt(s.shareAccounts, a).Some?)
    && (forall k :: 0 <= k < |s.shareAccounts| ==>
          var row := s.shareAccounts[k];
          row.address in p.accounts && AccountAt(s.shareAccounts, row.address) == Some(row)
          && row == ShareAccountSnapshot(row.address, p.accounts[row.address].owner, p.accounts[row.address].amount, p.accounts[row.address].frozen))
  }

  /** Every open position once, in any order. */
  ghost predicate Lists(rows: seq<PositionSnapshot>, ps: map<Wallet, Position>) {
    && (forall j, k :: 0 <= j < k < |rows| ==> rows[j].owner != rows[k].owner)
    && (forall w :: w in ps <==> exists k :: 0 <= k < |rows| && rows[k].owner == w)
    && (forall k :: 0 <= k < |rows| ==>
          rows[k].owner in ps && rows[k] == Row(rows[k].owner, ps[rows[k].owner]))
  }

  function Row(w: Wallet, p: Position): PositionSnapshot { PositionSnapshot(w, p.shares, p.checkpoint, p.accrued) }

  lemma {:induction false} ListsDropLast(rows: seq<PositionSnapshot>, ps: map<Wallet, Position>)
    requires rows != [] && Lists(rows, ps)
    ensures Lists(rows[..|rows| - 1], ps - {rows[|rows| - 1].owner})
  {
    var before, last := rows[..|rows| - 1], rows[|rows| - 1];
    forall w | w in ps - {last.owner} ensures exists k :: 0 <= k < |before| && before[k].owner == w {
      var k :| 0 <= k < |rows| && rows[k].owner == w;
      assert before[k].owner == w;
    }
  }

  lemma {:induction false} RowPending(w: Wallet, p: Position, acc: nat)
    requires p.checkpoint <= acc
    ensures Pending(Row(w, p), acc) == Solvency.Pending(p, acc)
  {}

  lemma {:induction false} DropOwner(ps: map<Wallet, Position>, w: Wallet, acc: nat)
    requires w in ps
    ensures Solvency.TotalPending(ps, acc) == Solvency.TotalPending(ps - {w}, acc) + Solvency.Pending(ps[w], acc)
    ensures Solvency.TotalShares(ps) == Solvency.TotalShares(ps - {w}) + ps[w].shares
  {
    hide Solvency.Pending;
    Sums.SumRemove(Solvency.Pendings(ps, acc), w);
    Sums.SumRemove(Solvency.Shares(ps), w);
    assert Solvency.Pendings(ps - {w}, acc) == Solvency.Pendings(ps, acc) - {w};
    assert Solvency.Shares(ps - {w}) == Solvency.Shares(ps) - {w};
  }

  lemma {:induction false} NoneListed(ps: map<Wallet, Position>, acc: nat)
    requires Lists([], ps)
    ensures Solvency.TotalPending(ps, acc) == 0 == Solvency.TotalShares(ps)
  {
    assert ps.Keys == {};
    assert Solvency.Pendings(ps, acc) == map[] && Solvency.Shares(ps) == map[];
  }

  lemma {:induction false} ListSums(rows: seq<PositionSnapshot>, ps: map<Wallet, Position>, acc: nat)
    requires Lists(rows, ps)
    ensures (forall w | w in ps :: ps[w].checkpoint <= acc) ==> OwedTo(rows, acc) == Solvency.TotalPending(ps, acc)
    ensures SharesOf(rows) == Solvency.TotalShares(ps)
  {
    if rows == [] {
      NoneListed(ps, acc);
    } else {
      var w := rows[|rows| - 1].owner;
      ListsDropLast(rows, ps);
      assert rows[|rows| - 1] == Row(w, ps[w]);
      if ps[w].checkpoint <= acc {
        RowPending(w, ps[w], acc);
      }
      hide Lists, Pending, Solvency.Pending, Solvency.TotalPending, Solvency.TotalShares;
      ListSums(rows[..|rows| - 1], ps - {w}, acc);
      DropOwner(ps, w, acc);
    }
  }

  /**
   * After any run of the program the check finds I1, I2, I3 and I5 to hold. I4 it finds broken
   * exactly when the escrow is open and someone sent payment tokens to it outside of a purchase,
   * which the program itself allows for.
   */
  lemma {:induction false} RunPassesTheCheck(launch: Launch, run: seq<Instruction>, s: ProjectSnapshot)
    requires SnapshotOf(s, Run(launch, run).project)
    ensures I1(s) && I2(s) && I3(s) && I5(s)
    ensures var p := Run(launch, run).project; I4(s) <==> p.escrow.None? || p.escrowDonated == 0
  {
    Solvency.RunKeeps(launch, run);
    hide *;
    StatePasses(Run(launch, run).project, s);
  }

  lemma {:induction false} StatePasses(p: Project, s: ProjectSnapshot)
    requires Solvency.Invariant(p) && SnapshotOf(s, p)
    ensures I1(s) && I2(s) && I3(s) && I5(s)
    ensures I4(s) <==> p.escrow.None? || p.escrowDonated == 0
  {
    hide Solvency.TotalPending, Solvency.TotalShares, Solvency.TotalWeight, OwedTo, SharesOf;
    assert I5(s);
    hide Lists;
    Solvency.SurplusIsDust(p);
    ListSums(s.positions, p.positions, p.acc);
    hide Solvency.RevenueCovered, Pending;
    AccountsPass(p, s);
    hide I3, Solvency.AccountsMatch;
  }

  lemma {:induction false} AccountsPass(p: Project, s: ProjectSnapshot)
    requires Solvency.AccountsMatch(p) && SnapshotOf(s, p)
    ensures I3(s)
  {
    forall k | 0 <= k < |s.positions| ensures PositionBacked(s, s.positions[k]) {
      var q := s.positions[k];
      var found := AccountAt(s.shareAccounts, Ata(q.owner));
      if found.Some? {
        Found(s.shareAccounts, Ata(q.owner));
      }
    }
  }

  lemma {:induction false} Found(accounts: seq<ShareAccountSnapshot>, a: Address)
    requires AccountAt(accounts, a).Some?
    ensures AccountAt(accounts, a).value in accounts && AccountAt(accounts, a).value.address == a
  {
    if accounts[|accounts| - 1].address != a {
      Found(accounts[..|accounts| - 1], a);
    }
  }

  /** The wallet's shares and its account say the same, an account that is missing or frozen that there are none. */
  predicate Backed(p: Project, w: Wallet)
    requires w in p.positions
  {
    p.positions[w].shares == if Ata(w) in p.accounts && !p.accounts[Ata(w)].frozen then p.accounts[Ata(w)].amount else 0
  }

  /**
   * In any state, reachable or not, each verdict is about the ledger: what all positions are
   * owed, their shares, their accounts, the price of what was sold, and their checkpoints.
   */
  lemma {:induction false} VerdictsAreExact(p: Project, s: ProjectSnapshot)
    requires SnapshotOf(s, p)
    ensures I5(s) <==> forall w :: w in p.positions ==> p.positions[w].checkpoint <= p.acc
    ensures I5(s) ==> (I1(s) <==> Solvency.TotalPending(p.positions, p.acc) <= p.depositedNet - p.claimed <= p.revenueVault)
    ensures I2(s) <==> p.mintSupply == p.sold - p.refunded - p.retired == Solvency.TotalShares(p.positions)
    ensures I3(s) <==>
      && (forall w :: w in p.positions ==> Backed(p, w))
      && (forall a :: a in p.accounts ==>
            if p.accounts[a].frozen then p.accounts[a].amount == 0
            else a == Ata(p.accounts[a].owner) && p.accounts[a].owner in p.positions)
    ensures I4(s) <==>
      if p.phase == Operating || p.phase == Paused || p.phase == Closed then p.escrow.None?
      else p.escrow == Some((p.sold - p.refunded) * p.pricePerShare)
  {
    hide Solvency.TotalPending, Solvency.TotalShares, OwedTo, SharesOf, Pending;
    assert I4(s) <==>
      if p.phase == Operating || p.phase == Paused || p.phase == Closed then p.escrow.None?
      else p.escrow == Some((p.sold - p.refunded) * p.pricePerShare);
    CheckpointVerdict(p, s);
    hide I3, I4, I5;
    ListSums(s.positions, p.positions, p.acc);
    AccountVerdict(p, s);
  }

  lemma {:induction false} CheckpointVerdict(p: Project, s: ProjectSnapshot)
    requires SnapshotOf(s, p)
    ensures I5(s) <==> forall w :: w in p.positions ==> p.positions[w].checkpoint <= p.acc
  {
    forall w | I5(s) && w in p.positions ensures p.positions[w].checkpoint <= p.acc {
      var k :| 0 <= k < |s.positions| && s.positions[k].owner == w;
    }
  }

  lemma {:induction false} AccountVerdict(p: Project, s: ProjectSnapshot)
    requires SnapshotOf(s, p)
    ensures I3(s) <==>
      && (forall w :: w in p.positions ==> Backed(p, w))
      && (forall a :: a in p.accounts ==>
            if p.accounts[a].frozen then p.accounts[a].amount == 0
            else a == Ata(p.accounts[a].owner) && p.accounts[a].owner in p.positions)
  {
    forall k | 0 <= k < |s.positions| ensures PositionBacked(s, s.positions[k]) <==> Backed(p, s.positions[k].owner) {
      var found := AccountAt(s.shareAccounts, Ata(s.positions[k].owner));
      if found.Some? {
        Found(s.shareAccounts, Ata(s.positions[k].owner));
      }
    }
    forall w | w in p.positions ensures exists k :: 0 <= k < |s.positions| && s.positions[k].owner == w {}
    forall k | 0 <= k < |s.shareAccounts| ensures s.shareAccounts[k].address in p.accounts {}
    forall a | a in p.accounts ensures exists k :: 0 <= k < |s.shareAccounts| && s.shareAccounts[k].address == a {
      Found(s.shareAccounts, a);
    }
    hide Lists, AccountAt, PositionBacked, Backed;
  }

  /** Of the accounts at an address a reader finds the last one listed, and one exactly if there is any. */
  lemma {:induction false} LastAtAddress(accounts: seq<ShareAccountSnapshot>, k: nat)
    requires k < |accounts| && forall j :: k < j < |accounts| ==> accounts[j].address != accounts[k].address
    ensures AccountAt(accounts, accounts[k].address) == Some(accounts[k])
  {
    if k < |accounts| - 1 {
      LastAtAddress(accounts[..|accounts| - 1], k);
    }
  }

  lemma {:induction false} NoneAtAddress(accounts: seq<ShareAccountSnapshot>, a: Address)
    requires forall k :: 0 <= k < |accounts| ==> accounts[k].address != a
    ensures AccountAt(accounts, a) == None
  {
    if accounts != [] {
      NoneAtAddress(accounts[..|accounts| - 1], a);
    }
  }

  /** The holders are the positions with shares. */
  lemma {:induction false} HoldersAreCounted(positions: seq<PositionSnapshot>)
    ensures Holders(positions) == |set k | 0 <= k < |positions| && positions[k].shares > 0|
  {
    if positions != [] {
      var last := |positions| - 1;
      HoldersAreCounted(positions[..last]);
      var before := set k | 0 <= k < last && positions[..last][k].shares > 0;
      var all := set k | 0 <= k < |positions| && positions[k].shares > 0;
      assert all == before + if positions[last].shares > 0 then {last} else {};
      assert last !in before;
    }
  }

  /** One unit sent to the escrow of a new project makes the check report I4. */
  lemma {:induction false} DonationBreaksI4(launch: Launch, s: ProjectSnapshot)
    requires SnapshotOf(s, Run(launch, [DonateEscrow(1)]).project)
    ensures !I4(s)
  {
    RunPassesTheCheck(launch, [DonateEscrow(1)], s);
    assert [DonateEscrow(1)][..0] == [];
    assert Run(launch, []).project == Created(launch);
  }
}
