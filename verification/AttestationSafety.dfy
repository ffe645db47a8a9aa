/** What no interleaving of requests, landings, failures and expiries can break. */
module AttestationSafety {
  import opened Decimals
  import opened Wrappers
  import opened HashChain
  import opened DepositStore
  import opened Attestation

  // ---- the invariant ----

  predicate DaysOverlap(p: Params, q: Params) { Overlap(p.start, p.end, q.start, q.end) }

  /** On-chain, or still able to get there. */
  predicate Live(c: Chain, tx: CoSigned) {
    || tx.fate == Landed
    || (tx.fate == Flying && ValidBlockhash(c, tx.blockhash) && |c.periods| <= tx.index)
  }

  /** What keeps two co-signed deposits apart: of those for one index at most one lands. */
  predicate Apart(c: Chain, a: CoSigned, b: CoSigned) {
    DaysOverlap(a.params, b.params) && Live(c, a) && Live(c, b) ==> a.index == b.index
  }

  /** The store holds the report a transaction pays out, and the row the checks find it by. */
  ghost predicate Stored(hash: ReportHash, c: Chain, t: Tables, id: TxId)
    requires id in c.txs
  {
    var tx := c.txs[id];
    && tx.params.reportHash in t.reports && tx.params == ParamsOf(hash, t.reports[tx.params.reportHash])
    && match id
       case Deposit(s) => s in t.attestations && t.attestations[s] == DepositStore.Attestation(tx.params.reportHash, tx.blockhash)
       case OfDraft(s) => s in t.drafts && t.drafts[s] == Draft(tx.params.reportHash, tx.index, tx.blockhash) && tx.index <= |c.periods|
  }

  ghost predicate Ledger(c: Chain) {
    && (forall id :: id in c.txs && c.txs[id].fate == Landed ==>
          c.txs[id].index < |c.periods| && c.periods[c.txs[id].index].cosigned == Some(id))
    && (forall k :: 0 <= k < |c.periods| && c.periods[k].cosigned.Some? ==>
          var id := c.periods[k].cosigned.value;
          id in c.txs && c.txs[id].fate == Landed && c.txs[id].index == k && c.txs[id].params == c.periods[k].params)
  }

  /** `base` are the periods on-chain before the first co-signature; none of them is final if there is one. */
  ghost predicate Clear(base: seq<Period>, p: Params) {
    forall k :: 0 <= k < |base| ==> base[k].params.kind != Final && !DaysOverlap(base[k].params, p)
  }

  ghost predicate Signable(hash: ReportHash, base: seq<Period>, s: System, id: TxId, tx: CoSigned, built: StoredReport) {
    && tx.fate == Flying && tx.params == ParamsOf(hash, built) && tx.params.gross > 0 && built.start <= built.end
    && Clear(base, tx.params)
    && (id.OfDraft? ==> tx.index <= |s.chain.periods|)
    && (id in s.chain.txs ==> tx == s.chain.txs[id].(fate := Flying))
    && (forall x :: x in s.chain.txs && x != id ==> Apart(s.chain, s.chain.txs[x], tx))
  }

  ghost predicate AllStored(hash: ReportHash, c: Chain, t: Tables) {
    && (forall h :: h in t.reports ==> hash(t.reports[h]) == h)
    && (forall id :: id in c.txs ==> Stored(hash, c, t, id))
    && (forall x :: x in t.attestations ==> Deposit(x) in c.txs)
    && (forall x :: x in t.drafts ==> OfDraft(x) in c.txs)
  }

  ghost predicate AllClear(base: seq<Period>, c: Chain) {
    && base <= c.periods && (forall k :: 0 <= k < |base| ==> base[k].cosigned.None?)
    && (forall id :: id in c.txs ==> var p := c.txs[id].params; p.gross > 0 && p.start <= p.end && Clear(base, p))
  }

  ghost predicate AllApart(c: Chain) {
    forall x, y :: x in c.txs && y in c.txs && x != y ==> Apart(c, c.txs[x], c.txs[y])
  }

  ghost predicate Safe(hash: ReportHash, base: seq<Period>, s: System) {
    && Ledger(s.chain) && AllClear(base, s.chain) && AllApart(s.chain) && AllStored(hash, s.chain, s.store)
    && (s.memory.Signing? ==> Signable(hash, base, s, s.memory.id, s.memory.tx, s.memory.built))
  }

  // ---- the network's steps ----

  /** No step of the network makes a transaction live that was not. */
  lemma {:induction false} LiveFades(c: Chain, m: Move, id: TxId)
    requires id in c.txs && Live(DoMove(c, m), DoMove(c, m).txs[id])
    ensures Live(c, c.txs[id])
    ensures DoMove(c, m).txs[id] == c.txs[id].(fate := DoMove(c, m).txs[id].fate)
  {}

  lemma {:induction false} MoveKeepsLedger(c: Chain, m: Move)
    requires Ledger(c)
    ensures Ledger(DoMove(c, m))
  {
    hide ValidBlockhash;
    if m.Land? && DoMove(c, m) != c {
      var d := DoMove(c, m);
      forall id | id in d.txs && d.txs[id].fate == Landed
        ensures d.txs[id].index < |d.periods| && d.periods[d.txs[id].index].cosigned == Some(id) {
        assert id != m.id ==> c.txs[id].fate == Landed;
      }
    }
  }

  lemma {:induction false} MoveKeepsTxs(c: Chain, m: Move)
    ensures var d := DoMove(c, m); d.txs.Keys == c.txs.Keys && c.periods <= d.periods
    ensures forall id :: id in c.txs ==> DoMove(c, m).txs[id] == c.txs[id].(fate := DoMove(c, m).txs[id].fate)
  {}

  lemma {:induction false} MoveKeeps(hash: ReportHash, base: seq<Period>, s: System, m: Move)
    requires Safe(hash, base, s)
    ensures Safe(hash, base, Do(hash, s, Network(m)))
  {
    hide DoMove, Ledger, AllClear, AllApart, AllStored, Signable;
    MoveKeepsLedger(s.chain, m);
    MoveKeepsClear(base, s.chain, m);
    MoveKeepsAllApart(s.chain, m);
    MoveKeepsStored(hash, s.chain, s.store, m);
    if s.memory.Signing? {
      MoveKeepsSignable(hash, base, s, m);
    }
  }

  lemma {:induction false} MoveKeepsClear(base: seq<Period>, c: Chain, m: Move)
    requires AllClear(base, c)
    ensures AllClear(base, DoMove(c, m))
  {
    MoveKeepsTxs(c, m);
    hide DoMove, Clear;
  }

  lemma {:induction false} MoveKeepsAllApart(c: Chain, m: Move)
    requires AllApart(c)
    ensures AllApart(DoMove(c, m))
  {
    MoveKeepsTxs(c, m);
    hide DoMove, Apart;
    var d := DoMove(c, m);
    forall x, y | x in d.txs && y in d.txs && x != y ensures Apart(d, d.txs[x], d.txs[y]) {
      MoveKeepsApart(c, m, x, y);
    }
  }

  lemma {:induction false} MoveKeepsStored(hash: ReportHash, c: Chain, t: Tables, m: Move)
    requires AllStored(hash, c, t)
    ensures AllStored(hash, DoMove(c, m), t)
  {
    MoveKeepsTxs(c, m);
    hide DoMove, ParamsOf;
    forall id | id in DoMove(c, m).txs ensures Stored(hash, DoMove(c, m), t, id) {
      assert Stored(hash, c, t, id);
    }
  }

  lemma {:induction false} MoveKeepsApart(c: Chain, m: Move, x: TxId, y: TxId)
    requires x in c.txs && y in c.txs && Apart(c, c.txs[x], c.txs[y])
    ensures x in DoMove(c, m).txs && y in DoMove(c, m).txs
    ensures Apart(DoMove(c, m), DoMove(c, m).txs[x], DoMove(c, m).txs[y])
  {
    var d := DoMove(c, m);
    if Live(d, d.txs[x]) && Live(d, d.txs[y]) {
      LiveFades(c, m, x);
      LiveFades(c, m, y);
    }
  }

  lemma {:induction false} MoveKeepsSignable(hash: ReportHash, base: seq<Period>, s: System, m: Move)
    requires s.memory.Signing? && Signable(hash, base, s, s.memory.id, s.memory.tx, s.memory.built)
    ensures Signable(hash, base, s.(chain := DoMove(s.chain, m)), s.memory.id, s.memory.tx, s.memory.built)
  {
    var c, d := s.chain, DoMove(s.chain, m);
    MoveKeepsTxs(c, m);
    hide DoMove, Clear, Live, Apart;
    forall x | x in d.txs && x != s.memory.id ensures Apart(d, d.txs[x], s.memory.tx) {
      MoveKeepsSigning(c, m, x, s.memory.tx);
    }
  }

  lemma {:induction false} MoveKeepsSigning(c: Chain, m: Move, x: TxId, tx: CoSigned)
    requires x in c.txs && tx.fate == Flying && Apart(c, c.txs[x], tx)
    ensures x in DoMove(c, m).txs && Apart(DoMove(c, m), DoMove(c, m).txs[x], tx)
  {
    var d := DoMove(c, m);
    if Live(d, d.txs[x]) && Live(d, tx) {
      LiveFades(c, m, x);
    }
  }

  // ---- a request ----

  /** A transaction that overlaps the new one and is still live has the index it is built for. */
  lemma {:induction false} CheckedApart(hash: ReportHash, base: seq<Period>, s: System, q: Request, built: StoredReport, forgotten: set<Signature>, x: TxId)
    requires Safe(hash, base, s) && MayCosign(hash, s.chain, s.store, q, built, forgotten)
    requires x in s.chain.txs && x != Wanted(hash, s.chain, q, built).0
    ensures Apart(s.chain, s.chain.txs[x], Wanted(hash, s.chain, q, built).1)
  {
    var c, t := s.chain, s.store;
    var (id, tx) := Wanted(hash, c, q, built);
    var other := c.txs[x];
    assert Stored(hash, c, t, x);
    assert other.fate == Landed ==> PeriodAllows(c.periods[other.index], built);
    match x
    case Deposit(signature) =>
      assert AttestationAllows(c, t, built, signature, forgotten);
    case OfDraft(signature) =>
      assert DraftAllows(c, t, built, signature) || tx.index == |c.periods|;
  }

  lemma {:induction false} CheckKeeps(hash: ReportHash, base: seq<Period>, s: System, q: Request, built: StoredReport, forgotten: set<Signature>)
    requires Safe(hash, base, s)
    ensures Safe(hash, base, Do(hash, s, Check(q, built, forgotten)))
  {
    var r := Do(hash, s, Check(q, built, forgotten));
    if r != s {
      var (id, tx) := Wanted(hash, s.chain, q, built);
      forall x | x in s.chain.txs && x != id ensures Apart(s.chain, s.chain.txs[x], tx) {
        CheckedApart(hash, base, s, q, built, forgotten, x);
      }
      forall k | 0 <= k < |base| ensures base[k].params.kind != Final && !DaysOverlap(base[k].params, tx.params) {
        assert PeriodAllows(s.chain.periods[k], built);
      }
      GrossIsPositive(built);
      assert Signable(hash, base, r, id, tx, built);
    }
  }

  lemma {:induction false} GrossIsPositive(r: StoredReport)
    requires r.distributable > 0
    ensures Gross(r) > 0
  {
    Pow10IsPositive(r.decimals);
  }

  lemma {:induction false} SaveKeeps(hash: ReportHash, base: seq<Period>, s: System)
    requires Injective(hash) && Safe(hash, base, s)
    ensures Safe(hash, base, Do(hash, s, Save))
  {
    if s.memory.Signing? {
      var Signing(id, tx, built) := s.memory;
      hide Ledger, AllClear, AllApart, AllStored, Apart, Clear;
      ReleaseKeeps(base, s.chain, id, tx);
      SaveKeepsStored(hash, s.chain, s.store, id, tx, built);
    }
  }

  lemma {:induction false} ReleaseKeeps(base: seq<Period>, c: Chain, id: TxId, tx: CoSigned)
    requires Ledger(c) && AllClear(base, c) && AllApart(c)
    requires tx.fate == Flying && tx.params.gross > 0 && tx.params.start <= tx.params.end && Clear(base, tx.params)
    requires forall x :: x in c.txs && x != id ==> Apart(c, c.txs[x], tx)
    ensures Ledger(Released(c, id, tx)) && AllClear(base, Released(c, id, tx)) && AllApart(Released(c, id, tx))
  {
    ReleaseKeepsLedger(base, c, id, tx);
    hide Ledger, AllClear, Clear, Apart;
    var d := Released(c, id, tx);
    forall x, y | x in d.txs && y in d.txs && x != y ensures Apart(d, d.txs[x], d.txs[y]) {
      ReleasedApart(c, id, tx, x, y);
    }
  }

  lemma {:induction false} ReleaseKeepsLedger(base: seq<Period>, c: Chain, id: TxId, tx: CoSigned)
    requires Ledger(c) && AllClear(base, c) && tx.fate == Flying
    requires tx.params.gross > 0 && tx.params.start <= tx.params.end && Clear(base, tx.params)
    ensures Ledger(Released(c, id, tx)) && AllClear(base, Released(c, id, tx))
  {
    hide Clear;
  }

  lemma {:induction false} ReleasedApart(c: Chain, id: TxId, tx: CoSigned, x: TxId, y: TxId)
    requires AllApart(c) && forall x :: x in c.txs && x != id ==> Apart(c, c.txs[x], tx)
    requires x in Released(c, id, tx).txs && y in Released(c, id, tx).txs && x != y
    ensures Apart(Released(c, id, tx), Released(c, id, tx).txs[x], Released(c, id, tx).txs[y])
  {
    if x in c.txs && y in c.txs {
      assert Apart(c, c.txs[x], c.txs[y]);
    } else {
      assert Apart(c, c.txs[if x == id then y else x], tx);
    }
  }

  lemma {:induction false} SaveKeepsStored(hash: ReportHash, c: Chain, t: Tables, id: TxId, tx: CoSigned, built: StoredReport)
    requires Injective(hash) && AllStored(hash, c, t)
    requires tx.params == ParamsOf(hash, built) && (id.OfDraft? ==> tx.index <= |c.periods|)
    requires id in c.txs ==> tx == c.txs[id].(fate := Flying)
    ensures AllStored(hash, Released(c, id, tx), Saved(t, id, tx, built))
  {
    SavedTables(hash, c, t, id, tx, built);
    hide Stored, ParamsOf, Saved;
    var d, u := Released(c, id, tx), Saved(t, id, tx, built);
    forall x | x in d.txs ensures Stored(hash, d, u, x) {
      if x in c.txs {
        StoredStays(hash, c, t, id, tx, built, x);
      } else {
        StoredNew(hash, c, t, id, tx, built);
      }
    }
  }

  lemma {:induction false} SavedTables(hash: ReportHash, c: Chain, t: Tables, id: TxId, tx: CoSigned, built: StoredReport)
    requires AllStored(hash, c, t) && tx.params == ParamsOf(hash, built)
    ensures var u := Saved(t, id, tx, built);
      && (forall h :: h in u.reports ==> hash(u.reports[h]) == h)
      && (forall x :: x in u.attestations ==> x in t.attestations || Deposit(x) == id)
      && (forall x :: x in u.drafts ==> x in t.drafts || OfDraft(x) == id)
  {
    hide Stored;
  }

  lemma {:induction false} StoredStays(hash: ReportHash, c: Chain, t: Tables, id: TxId, tx: CoSigned, built: StoredReport, x: TxId)
    requires x in c.txs && Stored(hash, c, t, x)
    ensures Stored(hash, Released(c, id, tx), Saved(t, id, tx, built), x)
  {
    hide ParamsOf;
  }

  lemma {:induction false} StoredNew(hash: ReportHash, c: Chain, t: Tables, id: TxId, tx: CoSigned, built: StoredReport)
    requires Injective(hash) && AllStored(hash, c, t) && id !in c.txs
    requires tx.params == ParamsOf(hash, built) && (id.OfDraft? ==> tx.index <= |c.periods|)
    ensures Stored(hash, Released(c, id, tx), Saved(t, id, tx, built), id)
  {
    hide Stored;
    assert tx.params.reportHash in t.reports ==> t.reports[tx.params.reportHash] == built;
    assert match id case Deposit(s) => s !in t.attestations case OfDraft(s) => s !in t.drafts;
    hide AllStored;
    StoredRow(hash, c, t, id, tx, built);
  }

  lemma {:induction false} StoredRow(hash: ReportHash, c: Chain, t: Tables, id: TxId, tx: CoSigned, built: StoredReport)
    requires id !in c.txs && tx.params == ParamsOf(hash, built) && (id.OfDraft? ==> tx.index <= |c.periods|)
    requires tx.params.reportHash in t.reports ==> t.reports[tx.params.reportHash] == built
    requires match id case Deposit(s) => s !in t.attestations case OfDraft(s) => s !in t.drafts
    ensures Stored(hash, Released(c, id, tx), Saved(t, id, tx, built), id)
  {}
}
