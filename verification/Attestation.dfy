/**
 * The oracle's co-signing of deposits as a state machine: the project's revenue periods, the
 * co-signed transactions in the hands of the operator, the store, and the one request in
 * progress (requests for a car run one at a time). Between the check of a request and the
 * moment it is saved, and between requests, the network and the operator act freely.
 *
 * Assumed of the environment: a signature names one transaction, a transaction lands at most
 * once, at the period index it was built for, and never past its blockhash; and nothing else
 * puts this backend's oracle signature on a deposit.
 */
module Attestation {
  import opened Decimals
  import opened Wrappers
  import opened HashChain
  import opened DepositStore

  /** A co-signed transaction: one the operator had signed, or a draft it signs later. */
  datatype TxId = Deposit(signature: Signature) | OfDraft(oracleSignature: Signature)

  /** The arguments of `deposit_revenue`. */
  datatype Params = Params(gross: nat, start: Date, end: Date, reportHash: Hash, kind: Kind)

  datatype Fate = Flying | Landed | Failed

  datatype CoSigned = CoSigned(index: nat, params: Params, blockhash: Blockhash, fate: Fate)

  /** A `RevenuePeriod`; its index is its place. `cosigned` is the transaction that made it, if this backend co-signed that. */
  datatype Period = Period(params: Params, cosigned: Option<TxId>)

  datatype Chain = Chain(
    periods: seq<Period>, height: nat,
    operating: bool, ours: bool, // the project operates; its oracle is this backend
    txs: map<TxId, CoSigned>)    // what this backend co-signed and stored

  datatype Request =
    | Attest(signature: Signature, index: nat, params: Params, blockhash: Blockhash, submitted: StoredReport)
    | DraftDeposit(oracleSignature: Signature, blockhash: Blockhash)

  /** A request between its checks and the save of the co-signed transaction. */
  datatype Memory = Idle | Signing(id: TxId, tx: CoSigned, built: StoredReport)

  datatype System = System(chain: Chain, store: Tables, memory: Memory)

  type ReportHash = StoredReport -> Hash

  ghost predicate Injective(hash: ReportHash) {
    forall r, s :: hash(r) == hash(s) ==> r == s
  }

  // ---- the deposit of a report ----

  function Gross(r: StoredReport): nat {
    if r.distributable > 0 then r.distributable * Pow10(r.decimals) else 0
  }

  /** `depositParams`. */
  function ParamsOf(hash: ReportHash, r: StoredReport): Params {
    Params(Gross(r), r.start, r.end, hash(r), r.kind)
  }

  // ---- the chain ----

  datatype Move =
    | Land(id: TxId)
    | Fail(id: TxId)
    | AdvanceBlocks(count: nat)
    | SetProject(operating: bool, ours: bool)
    | ForeignDeposit(params: Params) // attested by another oracle

  predicate ValidBlockhash(c: Chain, b: Blockhash) { c.height <= b.lastValid }

  /** The checks of `deposit_revenue`, and the address of the period it creates. */
  predicate Accepts(c: Chain, tx: CoSigned) {
    c.operating && c.ours && tx.index == |c.periods| && tx.params.gross > 0 && tx.params.start <= tx.params.end
  }

  function DoMove(c: Chain, m: Move): Chain {
    match m
    case Land(id) =>
      if id !in c.txs || c.txs[id].fate != Flying || !ValidBlockhash(c, c.txs[id].blockhash) || !Accepts(c, c.txs[id]) then c
      else c.(periods := c.periods + [Period(c.txs[id].params, Some(id))], txs := c.txs[id := c.txs[id].(fate := Landed)])
    case Fail(id) =>
      if id !in c.txs || c.txs[id].fate != Flying then c
      else c.(txs := c.txs[id := c.txs[id].(fate := Failed)])
    case AdvanceBlocks(count) => c.(height := c.height + count)
    case SetProject(operating, ours) => c.(operating := operating, ours := ours)
    case ForeignDeposit(params) =>
      if params.gross == 0 || params.start > params.end then c
      else c.(periods := c.periods + [Period(params, None)])
  }

  function DoMoves(c: Chain, moves: seq<Move>): Chain {
    if moves == [] then c else DoMove(DoMoves(c, moves[..|moves| - 1]), moves[|moves| - 1])
  }

  // ---- the checks of a request ----

  datatype Status = Unknown | Succeeded | Errored

  /** `getSignatureStatuses`; a node may have forgotten any signature. */
  function StatusOf(c: Chain, signature: Signature, forgotten: set<Signature>): Status {
    if Deposit(signature) !in c.txs || signature in forgotten then Unknown else
    match c.txs[Deposit(signature)].fate
    case Flying => Unknown
    case Landed => Succeeded
    case Failed => Errored
  }

  /** The deposit a co-signature is for: its transaction ID if it has one, its index if it is the next. */
  datatype Target = Target(signature: Option<Signature>, periodIndex: Option<nat>)

  predicate PeriodAllows(p: Period, r: StoredReport) {
    p.params.kind != Final && !Overlap(r.start, r.end, p.params.start, p.params.end)
  }

  predicate AttestationAllows(c: Chain, t: Tables, r: StoredReport, signature: Signature, forgotten: set<Signature>)
    requires signature in t.attestations
  {
    t.Conflicts(t.attestations[signature].reportHash, r.start, r.end) ==>
      match StatusOf(c, signature, forgotten)
      case Succeeded => false
      case Errored => true
      case Unknown => !ValidBlockhash(c, t.attestations[signature].blockhash)
  }

  predicate DraftAllows(c: Chain, t: Tables, r: StoredReport, oracleSignature: Signature)
    requires oracleSignature in t.drafts
  {
    var draft := t.drafts[oracleSignature];
    t.Conflicts(draft.reportHash, r.start, r.end) && draft.periodIndex == |c.periods| ==> !ValidBlockhash(c, draft.blockhash)
  }

  /** `checkOverlaps` passes. */
  ghost predicate NoOverlaps(c: Chain, t: Tables, r: StoredReport, target: Target, forgotten: set<Signature>) {
    && (forall k :: 0 <= k < |c.periods| ==> PeriodAllows(c.periods[k], r))
    && (forall s :: s in t.attestations && Some(s) != target.signature ==> AttestationAllows(c, t, r, s, forgotten))
    && (target.periodIndex == Some(|c.periods|) || forall s :: s in t.drafts ==> DraftAllows(c, t, r, s))
  }

  function TargetOf(c: Chain, q: Request): Target {
    match q
    case Attest(signature, index, _, _, _) => Target(Some(signature), if index == |c.periods| then Some(index) else None)
    case DraftDeposit(_, _) => Target(None, Some(|c.periods|))
  }

  /** What the request asks the oracle to sign, given the report rebuilt for it. */
  function Wanted(hash: ReportHash, c: Chain, q: Request, built: StoredReport): (TxId, CoSigned) {
    match q
    case Attest(signature, index, params, blockhash, _) => (Deposit(signature), CoSigned(index, params, blockhash, Flying))
    case DraftDeposit(oracleSignature, blockhash) =>
      (OfDraft(oracleSignature), CoSigned(|c.periods|, ParamsOf(hash, built), blockhash, Flying))
  }

  /** A signature names one transaction: a known one comes with the content it had. */
  predicate NamesOneTransaction(hash: ReportHash, c: Chain, q: Request, built: StoredReport) {
    var (id, tx) := Wanted(hash, c, q, built);
    id in c.txs ==> tx == c.txs[id].(fate := Flying)
  }

  /** Everything `attestDeposit` or `draftDeposit` checks before the oracle signs. */
  ghost predicate MayCosign(hash: ReportHash, c: Chain, t: Tables, q: Request, built: StoredReport, forgotten: set<Signature>) {
    && (q.Attest? ==> q.submitted == built && q.params == ParamsOf(hash, built))
    && c.ours && c.operating && built.distributable > 0
    && NoOverlaps(c, t, built, TargetOf(c, q), forgotten)
  }

  // ---- steps; one that is not possible changes nothing ----

  datatype Action =
    | Network(move: Move)
    | Check(request: Request, built: StoredReport, forgotten: set<Signature>)
    | Save
    | Forget // the process dies

  ghost function DoCheck(hash: ReportHash, s: System, q: Request, built: StoredReport, forgotten: set<Signature>): System {
    if !s.memory.Idle? || built.start > built.end || !NamesOneTransaction(hash, s.chain, q, built)
      || !MayCosign(hash, s.chain, s.store, q, built, forgotten)
    then s
    else
      var (id, tx) := Wanted(hash, s.chain, q, built);
      s.(memory := Signing(id, tx, built))
  }

  /** A co-signed transaction is out from the moment it is stored. */
  function Released(c: Chain, id: TxId, tx: CoSigned): Chain {
    if id in c.txs then c else c.(txs := c.txs[id := tx])
  }

  function Saved(t: Tables, id: TxId, tx: CoSigned, built: StoredReport): Tables {
    match id
    case Deposit(signature) => t.Attested(built, signature, DepositStore.Attestation(tx.params.reportHash, tx.blockhash))
    case OfDraft(signature) => t.Drafted(built, signature, Draft(tx.params.reportHash, tx.index, tx.blockhash))
  }

  function DoSave(s: System): System {
    if !s.memory.Signing? then s
    else if s.memory.id.OfDraft? && s.memory.id.oracleSignature in s.store.drafts then s.(memory := Idle) // the insert fails
    else System(Released(s.chain, s.memory.id, s.memory.tx), Saved(s.store, s.memory.id, s.memory.tx, s.memory.built), Idle)
  }

  ghost function Do(hash: ReportHash, s: System, a: Action): System {
    match a
    case Network(m) => s.(chain := DoMove(s.chain, m))
    case Check(request, built, forgotten) => DoCheck(hash, s, request, built, forgotten)
    case Save => DoSave(s)
    case Forget => s.(memory := Idle)
  }

  ghost function DoAll(hash: ReportHash, s: System, run: seq<Action>): System {
    if run == [] then s else Do(hash, DoAll(hash, s, run[..|run| - 1]), run[|run| - 1])
  }

  /** Before the first co-signature: any periods on-chain, nothing stored. */
  ghost predicate Initial(s: System) {
    && s.chain.txs == map[] && s.store == Tables(map[], map[], map[]) && s.memory == Idle
    && forall k :: 0 <= k < |s.chain.periods| ==> s.chain.periods[k].cosigned.None?
  }
}
