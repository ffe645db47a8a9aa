/** Co-signing deposits, step for step: the checks, the signature, the save. */
module AttestationService {
  import opened Wrappers
  import opened HashChain
  import opened DepositStore
  import opened Attestation
  import opened AttestationTheorems

  datatype Refusal =
    | ReportMismatch | ForeignOracle | NotOperating | NothingToDistribute | ParamsMismatch
    | SoldAlready(index: nat) | PeriodCovered(index: nat)
    | DepositLanded(signature: Signature) | DepositCanStillLand(signature: Signature) | DraftCanStillLand(index: nat)
    | DraftedBefore

  /** The project's chain as the service meets it. */
  class ProjectChain {
    var chain: Chain

    constructor (chain: Chain)
      ensures this.chain == chain
    {
      this.chain := chain;
    }

    /** What the network and the operator do while a request waits. */
    method Act(moves: seq<Move>)
      modifies this
      ensures chain == DoMoves(old(chain), moves)
    {
      for k := 0 to |moves|
        invariant chain == DoMoves(old(chain), moves[..k])
      {
        assert moves[..k + 1][..k] == moves[..k];
        chain := DoMove(chain, moves[k]);
      }
      assert moves[..|moves|] == moves;
    }

    /** The answer carries the co-signed transaction to the operator. */
    method Release(id: TxId, tx: CoSigned)
      modifies this
      ensures chain == Released(old(chain), id, tx)
    {
      if id !in chain.txs {
        chain := chain.(txs := chain.txs[id := tx]);
      }
    }
  }

  function Moves(moves: seq<Move>): seq<Action> {
    seq(|moves|, k requires 0 <= k < |moves| => Network(moves[k]))
  }

  lemma {:induction false} MovesAreSteps(hash: ReportHash, s: System, moves: seq<Move>)
    ensures DoAll(hash, s, Moves(moves)) == s.(chain := DoMoves(s.chain, moves))
  {
    if moves != [] {
      var before := moves[..|moves| - 1];
      MovesAreSteps(hash, s, before);
      assert Moves(moves)[..|moves| - 1] == Moves(before);
    }
  }

  /** The run of one accepted request: its checks, what happens meanwhile, its save. */
  function Served(q: Request, built: StoredReport, forgotten: set<Signature>, moves: seq<Move>): seq<Action> {
    [Check(q, built, forgotten)] + Moves(moves) + [Save]
  }

  lemma {:induction false} DoAllConcat(hash: ReportHash, s: System, a: seq<Action>, b: seq<Action>)
    ensures DoAll(hash, s, a + b) == DoAll(hash, DoAll(hash, s, a), b)
  {
    if b == [] {
      assert a + b == a;
    } else {
      assert (a + b)[..|a + b| - 1] == a + b[..|b| - 1];
      DoAllConcat(hash, s, a, b[..|b| - 1]);
    }
  }

  lemma {:induction false} ServedRun(hash: ReportHash, s: System, q: Request, built: StoredReport, forgotten: set<Signature>, moves: seq<Move>)
    ensures var checked := Do(hash, s, Check(q, built, forgotten));
      DoAll(hash, s, Served(q, built, forgotten, moves)) == DoSave(checked.(chain := DoMoves(checked.chain, moves)))
  {
    var checked := Do(hash, s, Check(q, built, forgotten));
    var first := [Check(q, built, forgotten)];
    assert first[..0] == [];
    assert DoAll(hash, s, first) == checked;
    DoAllConcat(hash, s, first, Moves(moves));
    MovesAreSteps(hash, checked, moves);
    assert Served(q, built, forgotten, moves)[..|moves| + 1] == first + Moves(moves);
  }

  /** What a refusal of the overlap checks says is so, and no earlier check refused. */
  ghost predicate Blocks(c: Chain, t: Tables, built: StoredReport, target: Target, forgotten: set<Signature>, refusal: Refusal) {
    match refusal
    case SoldAlready(k) =>
      k < |c.periods| && c.periods[k].params.kind == Final && forall j :: 0 <= j < k ==> PeriodAllows(c.periods[j], built)
    case PeriodCovered(k) =>
      k < |c.periods| && c.periods[k].params.kind != Final && !PeriodAllows(c.periods[k], built)
      && forall j :: 0 <= j < k ==> PeriodAllows(c.periods[j], built)
    case DepositLanded(s) => BlocksAs(c, t, built, target, forgotten, s, Succeeded)
    case DepositCanStillLand(s) =>
      BlocksAs(c, t, built, target, forgotten, s, Unknown) && ValidBlockhash(c, t.attestations[s].blockhash)
    case DraftCanStillLand(k) =>
      && (forall j :: 0 <= j < |c.periods| ==> PeriodAllows(c.periods[j], built))
      && k == |c.periods| && target.periodIndex != Some(k)
      && exists s :: s in t.drafts && t.drafts[s].periodIndex == k && !DraftAllows(c, t, built, s)
    case _ => false
  }

  /** An earlier attestation whose deposit the report conflicts with, and what the node says of it. */
  ghost predicate BlocksAs(c: Chain, t: Tables, built: StoredReport, target: Target, forgotten: set<Signature>, s: Signature, status: Status) {
    && (forall j :: 0 <= j < |c.periods| ==> PeriodAllows(c.periods[j], built))
    && s in t.attestations && Some(s) != target.signature
    && t.Conflicts(t.attestations[s].reportHash, built.start, built.end) && StatusOf(c, s, forgotten) == status
  }

  /** The first of a request's checks that fails. */
  ghost predicate RefusedFor(hash: ReportHash, c: Chain, t: Tables, q: Request, built: StoredReport, forgotten: set<Signature>, refusal: Refusal) {
    var attestable := (q.Attest? ==> q.submitted == built) && c.ours && c.operating;
    match refusal
    case ReportMismatch => q.Attest? && q.submitted != built
    case ForeignOracle => (q.Attest? ==> q.submitted == built) && !c.ours
    case NotOperating => (q.Attest? ==> q.submitted == built) && c.ours && !c.operating
    case NothingToDistribute => attestable && built.distributable <= 0
    case ParamsMismatch => attestable && built.distributable > 0 && q.Attest? && q.params != ParamsOf(hash, built)
    case DraftedBefore => q.DraftDeposit? && q.oracleSignature in t.drafts && MayCosign(hash, c, t, q, built, forgotten)
    case _ =>
      && attestable && built.distributable > 0 && (q.Attest? ==> q.params == ParamsOf(hash, built))
      && Blocks(c, t, built, TargetOf(c, q), forgotten, refusal)
  }

  class AttestationService {
    const network: ProjectChain
    const store: ReportsStore
    const hash: ReportHash

    constructor (network: ProjectChain, store: ReportsStore, hash: ReportHash)
      ensures this.network == network && this.store == store && this.hash == hash
    {
      this.network, this.store, this.hash := network, store, hash;
    }

    ghost function World(): System
      reads network, store
    {
      System(network.chain, store.State(), Idle)
    }

    /**
     * One deposit per day of income, and nothing after the car's sale: refuses a period that
     * overlaps a deposit on-chain, or a co-signed deposit that can still land.
     */
    method CheckOverlaps(built: StoredReport, target: Target, forgotten: set<Signature>) returns (refusal: Option<Refusal>)
      ensures refusal.None? <==> NoOverlaps(network.chain, store.State(), built, target, forgotten)
      ensures refusal.Some? ==> Blocks(network.chain, store.State(), built, target, forgotten, refusal.value)
    {
      var c := network.chain;
      for k := 0 to |c.periods|
        invariant forall j :: 0 <= j < k ==> PeriodAllows(c.periods[j], built)
      {
        if c.periods[k].params.kind == Final {
          return Some(SoldAlready(k));
        }
        if c.periods[k].params.start <= built.end && c.periods[k].params.end >= built.start {
          return Some(PeriodCovered(k));
        }
      }
      refusal := CheckAttestations(built, target, forgotten);
      if refusal.Some? || target.periodIndex == Some(|c.periods|) {
        return;
      }
      refusal := CheckDrafts(built);
    }

    method CheckAttestations(built: StoredReport, target: Target, forgotten: set<Signature>) returns (refusal: Option<Refusal>)
      ensures refusal.None? <==> forall s :: s in store.attestations && Some(s) != target.signature ==>
        AttestationAllows(network.chain, store.State(), built, s, forgotten)
      ensures refusal.Some? && (forall j :: 0 <= j < |network.chain.periods| ==> PeriodAllows(network.chain.periods[j], built)) ==>
        Blocks(network.chain, store.State(), built, target, forgotten, refusal.value)
    {
      var found := store.ConflictingAttestations(built.start, built.end);
      var earlier := set s | s in found && Some(s) != target.signature;
      var rest := earlier;
      while rest != {}
        invariant rest <= earlier
        invariant forall s :: s in earlier && s !in rest ==> AttestationAllows(network.chain, store.State(), built, s, forgotten)
        decreases rest
      {
        var s :| s in rest;
        match StatusOf(network.chain, s, forgotten) {
          case Succeeded => return Some(DepositLanded(s));
          case Errored =>
          case Unknown =>
            if ValidBlockhash(network.chain, store.attestations[s].blockhash) {
              return Some(DepositCanStillLand(s));
            }
        }
        rest := rest - {s};
      }
      return None;
    }

    method CheckDrafts(built: StoredReport) returns (refusal: Option<Refusal>)
      ensures refusal.None? <==> forall s :: s in store.drafts ==> DraftAllows(network.chain, store.State(), built, s)
      ensures refusal.Some? ==>
        && refusal == Some(DraftCanStillLand(|network.chain.periods|))
        && exists s :: s in store.drafts && store.drafts[s].periodIndex == |network.chain.periods| && !DraftAllows(network.chain, store.State(), built, s)
    {
      var found := store.ConflictingDrafts(built.start, built.end);
      var drafts := set s | s in found && store.drafts[s].periodIndex == |network.chain.periods|;
      var rest := drafts;
      while rest != {}
        invariant rest <= drafts
        invariant forall s :: s in drafts && s !in rest ==> DraftAllows(network.chain, store.State(), built, s)
        decreases rest
      {
        var s :| s in rest;
        if ValidBlockhash(network.chain, store.drafts[s].blockhash) {
          return Some(DraftCanStillLand(store.drafts[s].periodIndex));
        }
        rest := rest - {s};
      }
      return None;
    }

    /** The project takes deposits, and this backend is the oracle that attests them. */
    method CheckAttestable() returns (refusal: Option<Refusal>)
      ensures refusal == if !network.chain.ours then Some(ForeignOracle) else if !network.chain.operating then Some(NotOperating) else None
    {
      return if !network.chain.ours then Some(ForeignOracle) else if !network.chain.operating then Some(NotOperating) else None;
    }

    /** Co-signs a deposit the operator has signed; `moves` is what happens between check and save. */
    method AttestDeposit(signature: Signature, index: nat, params: Params, blockhash: Blockhash, submitted: StoredReport,
                         built: StoredReport, forgotten: set<Signature>, moves: seq<Move>)
      returns (refusal: Option<Refusal>)
      requires built.start <= built.end
      requires NamesOneTransaction(hash, network.chain, Attest(signature, index, params, blockhash, submitted), built)
      modifies network, store
      ensures var q := Attest(signature, index, params, blockhash, submitted);
        && (refusal.None? <==> MayCosign(hash, old(network.chain), old(store.State()), q, built, forgotten))
        && World() == (if refusal.None? then DoAll(hash, old(World()), Served(q, built, forgotten, moves)) else old(World()))
        && (refusal.Some? ==> RefusedFor(hash, old(network.chain), old(store.State()), q, built, forgotten, refusal.value))
    {
      ghost var q := Attest(signature, index, params, blockhash, submitted);
      if submitted != built {
        return Some(ReportMismatch);
      }
      refusal := CheckAttestable();
      if refusal.Some? {
        return;
      }
      if built.distributable <= 0 {
        return Some(NothingToDistribute);
      }
      if params != ParamsOf(hash, built) {
        return Some(ParamsMismatch);
      }
      var next := |network.chain.periods|;
      refusal := CheckOverlaps(built, Target(Some(signature), if index == next then Some(next) else None), forgotten);
      if refusal.Some? {
        return;
      }
      ServedRun(hash, World(), q, built, forgotten, moves);
      hide DoAll, NoOverlaps;
      network.Act(moves);
      store.SaveAttested(built, signature, DepositStore.Attestation(params.reportHash, blockhash));
      network.Release(Deposit(signature), CoSigned(index, params, blockhash, Flying));
    }

    /** Builds the deposit of a report for the next index and co-signs it before the operator does. */
    method DraftDeposit(oracleSignature: Signature, blockhash: Blockhash, built: StoredReport, forgotten: set<Signature>, moves: seq<Move>)
      returns (refusal: Option<Refusal>, periodIndex: nat)
      requires built.start <= built.end
      requires NamesOneTransaction(hash, network.chain, Attestation.DraftDeposit(oracleSignature, blockhash), built)
      modifies network, store
      ensures var q := Attestation.DraftDeposit(oracleSignature, blockhash);
        && (refusal.None? || refusal == Some(DraftedBefore) <==> MayCosign(hash, old(network.chain), old(store.State()), q, built, forgotten))
        && (refusal.Some? ==> RefusedFor(hash, old(network.chain), old(store.State()), q, built, forgotten, refusal.value))
        && World() == (if refusal.None? || refusal == Some(DraftedBefore) then DoAll(hash, old(World()), Served(q, built, forgotten, moves)) else old(World()))
      ensures refusal.None? ==> periodIndex == |old(network.chain).periods|
    {
      ghost var q := Attestation.DraftDeposit(oracleSignature, blockhash);
      periodIndex := |network.chain.periods|;
      refusal := CheckAttestable();
      if refusal.Some? {
        return;
      }
      if built.distributable <= 0 {
        return Some(NothingToDistribute), periodIndex;
      }
      refusal := CheckOverlaps(built, Target(None, Some(periodIndex)), forgotten);
      if refusal.Some? {
        return;
      }
      ServedRun(hash, World(), q, built, forgotten, moves);
      hide DoAll, NoOverlaps;
      var tx := CoSigned(periodIndex, ParamsOf(hash, built), blockhash, Flying);
      network.Act(moves);
      var saved := store.SaveDraft(built, oracleSignature, Draft(tx.params.reportHash, periodIndex, blockhash));
      if !saved {
        return Some(DraftedBefore), periodIndex;
      }
      network.Release(OfDraft(oracleSignature), tx);
    }
  }

  /** What a refusal for an overlap means in days. */
  lemma {:induction false} RefusedForADay(c: Chain, t: Tables, built: StoredReport, target: Target, forgotten: set<Signature>, refusal: Refusal)
    requires Real(c, t) && built.start <= built.end && Blocks(c, t, built, target, forgotten, refusal)
    ensures match refusal
      case SoldAlready(k) => k < |c.periods| && c.periods[k].params.kind == Final
      case PeriodCovered(k) =>
        k < |c.periods| && ShareADay(built.start, built.end, c.periods[k].params.start, c.periods[k].params.end)
      case DepositLanded(s) =>
        s in t.attestations && Some(s) != target.signature && Excludes(t, t.attestations[s].reportHash, built)
        && Deposit(s) in c.txs && c.txs[Deposit(s)].fate == Landed
      case DepositCanStillLand(s) =>
        s in t.attestations && Some(s) != target.signature && Excludes(t, t.attestations[s].reportHash, built)
        && MayPay(c, s, t.attestations[s].blockhash, forgotten) && c.height <= t.attestations[s].blockhash.lastValid
      case DraftCanStillLand(k) =>
        k == |c.periods| && exists s :: s in t.drafts && t.drafts[s].periodIndex == k && Excludes(t, t.drafts[s].reportHash, built)
                                         && c.height <= t.drafts[s].blockhash.lastValid
      case _ => false
  {
    match refusal
    case PeriodCovered(k) => OverlapIsADay(built.start, built.end, c.periods[k].params.start, c.periods[k].params.end);
    case DepositLanded(s) => ExcludesIff(c, t, t.attestations[s].reportHash, built);
    case DepositCanStillLand(s) => ExcludesIff(c, t, t.attestations[s].reportHash, built);
    case DraftCanStillLand(k) =>
      var s :| s in t.drafts && t.drafts[s].periodIndex == k && !DraftAllows(c, t, built, s);
      ExcludesIff(c, t, t.drafts[s].reportHash, built);
    case _ =>
  }
}
