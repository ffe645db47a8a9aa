/** Which deposits the oracle's co-signatures let onto the chain. */
module AttestationTheorems {
  import opened Decimals
  import opened Wrappers
  import opened HashChain
  import opened DepositStore
  import opened Attestation
  import opened AttestationSafety

  lemma {:induction false} DoKeeps(hash: ReportHash, base: seq<Period>, s: System, a: Action)
    requires Injective(hash) && Safe(hash, base, s)
    ensures Safe(hash, base, Do(hash, s, a))
  {
    hide Safe;
    match a
    case Network(m) => MoveKeeps(hash, base, s, m);
    case Check(q, built, forgotten) => CheckKeeps(hash, base, s, q, built, forgotten);
    case Save => SaveKeeps(hash, base, s);
    case Forget => ForgetKeeps(hash, base, s);
  }

  lemma {:induction false} ForgetKeeps(hash: ReportHash, base: seq<Period>, s: System)
    requires Safe(hash, base, s)
    ensures Safe(hash, base, s.(memory := Idle))
  {}

  lemma {:induction false} RunKeeps(hash: ReportHash, s: System, run: seq<Action>)
    requires Injective(hash) && Initial(s)
    ensures Safe(hash, s.chain.periods, DoAll(hash, s, run))
  {
    if run != [] {
      RunKeeps(hash, s, run[..|run| - 1]);
      DoKeeps(hash, s.chain.periods, DoAll(hash, s, run[..|run| - 1]), run[|run| - 1]);
    }
  }

  /**
   * Over any interleaving of requests, landings, on-chain failures and expiries: no two
   * co-signed deposits on-chain pay for the same day, and none pays for a day of a period that
   * was there before.
   */
  lemma {:induction false} CoSignedDepositsAreDisjoint(hash: ReportHash, s: System, run: seq<Action>, i: nat, j: nat)
    requires Injective(hash) && Initial(s)
    requires var periods := DoAll(hash, s, run).chain.periods;
      i < |periods| && j < |periods| && i != j && periods[j].cosigned.Some? && (i < |s.chain.periods| || periods[i].cosigned.Some?)
    ensures var periods := DoAll(hash, s, run).chain.periods; !DaysOverlap(periods[i].params, periods[j].params)
  {
    RunKeeps(hash, s, run);
    var c := DoAll(hash, s, run).chain;
    var y := c.periods[j].cosigned.value;
    if i < |s.chain.periods| {
      assert Clear(s.chain.periods, c.txs[y].params);
      assert c.periods[i] == s.chain.periods[i];
    } else {
      var x := c.periods[i].cosigned.value;
      assert Apart(c, c.txs[x], c.txs[y]);
    }
  }

  /** A co-signed deposit pays out exactly a report the backend published: its income, its days, its hash. */
  lemma {:induction false} DepositPaysItsReport(hash: ReportHash, s: System, run: seq<Action>, k: nat)
    requires Injective(hash) && Initial(s)
    requires var periods := DoAll(hash, s, run).chain.periods; k < |periods| && periods[k].cosigned.Some?
    ensures var r := DoAll(hash, s, run);
      && r.chain.periods[k].params.reportHash in r.store.reports
      && var report := r.store.reports[r.chain.periods[k].params.reportHash];
      && report.distributable > 0 && report.start <= report.end
      && r.chain.periods[k].params == Params(report.distributable * Pow10(report.decimals), report.start, report.end, hash(report), report.kind)
  {
    RunKeeps(hash, s, run);
    var r := DoAll(hash, s, run);
    var id := r.chain.periods[k].cosigned.value;
    assert Stored(hash, r.chain, r.store, id);
  }

  // ---- nothing after the sale ----

  /** Every deposit attested in the run was built for the next period when it was checked. */
  ghost predicate NextOnly(hash: ReportHash, s: System, run: seq<Action>) {
    forall k :: 0 <= k < |run| ==> StepIsNext(hash, DoAll(hash, s, run[..k]), run[k])
  }

  predicate StepIsNext(hash: ReportHash, s: System, a: Action) {
    a.Check? && a.request.Attest? ==> a.request.index == |s.chain.periods|
  }

  /** No transaction out there, and none being signed, is built for an index past `limit`. */
  ghost predicate IndexesUpTo(s: System, limit: nat) {
    && (forall id :: id in s.chain.txs ==> s.chain.txs[id].index <= limit)
    && (s.memory.Signing? ==> s.memory.tx.index <= limit)
  }

  ghost predicate SaleIsLast(s: System) {
    && IndexesUpTo(s, |s.chain.periods|)
    && (forall k :: 0 <= k < |s.chain.periods| && s.chain.periods[k].params.kind == Final ==> IndexesUpTo(s, k))
  }

  lemma {:induction false} StepKeepsSaleLast(hash: ReportHash, s: System, a: Action)
    requires SaleIsLast(s) && StepIsNext(hash, s, a)
    ensures SaleIsLast(Do(hash, s, a))
  {
    var r := Do(hash, s, a);
    assert IndexesUpTo(s, |s.chain.periods|);
    if a.Check? && r != s {
      assert forall k :: 0 <= k < |s.chain.periods| ==> PeriodAllows(s.chain.periods[k], a.built);
      hide DoCheck, NoOverlaps;
    } else if a.Network? {
      MoveKeepsTxs(s.chain, a.move);
      LandsAtNext(s.chain, a.move);
      hide DoMove;
    }
  }

  lemma {:induction false} LandsAtNext(c: Chain, m: Move)
    ensures |DoMove(c, m).periods| <= |c.periods| + 1
  {}

  lemma {:induction false} RunKeepsSaleLast(hash: ReportHash, s: System, run: seq<Action>)
    requires Initial(s) && NextOnly(hash, s, run)
    ensures SaleIsLast(DoAll(hash, s, run))
  {
    if run != [] {
      var before := run[..|run| - 1];
      assert NextOnly(hash, s, before) by {
        assert forall k :: 0 <= k < |before| ==> before[..k] == run[..k] && before[k] == run[k];
      }
      RunKeepsSaleLast(hash, s, before);
      assert StepIsNext(hash, DoAll(hash, s, run[..|run| - 1]), run[|run| - 1]);
      StepKeepsSaleLast(hash, DoAll(hash, s, before), run[|run| - 1]);
    }
  }

  /** When every attested deposit names the next index, no co-signed deposit follows a final one. */
  lemma {:induction false} NothingAfterTheSale(hash: ReportHash, s: System, run: seq<Action>, i: nat, j: nat)
    requires Injective(hash) && Initial(s) && NextOnly(hash, s, run)
    requires var periods := DoAll(hash, s, run).chain.periods; i < j < |periods| && periods[j].cosigned.Some?
    ensures DoAll(hash, s, run).chain.periods[i].params.kind != Final
  {
    RunKeeps(hash, s, run);
    RunKeepsSaleLast(hash, s, run);
    assert DoAll(hash, s, run).chain.periods[i].params.kind == Final ==> IndexesUpTo(DoAll(hash, s, run), i);
  }

  // ---- without that guard ----

  ghost predicate Sold(c: Chain) {
    exists k :: 0 <= k < |c.periods| && c.periods[k].params.kind == Final
  }

  /** A co-signed transaction built for this index or a later one, unexpired. */
  ghost predicate Outstanding(c: Chain, id: TxId) {
    id in c.txs && c.txs[id].fate == Flying && ValidBlockhash(c, c.txs[id].blockhash) && |c.periods| <= c.txs[id].index
  }

  /** The run puts another co-signed deposit on-chain. */
  ghost predicate AddsCoSigned(hash: ReportHash, s: System, run: seq<Action>) {
    var periods := DoAll(hash, s, run).chain.periods;
    exists k :: |s.chain.periods| <= k < |periods| && periods[k].cosigned.Some?
  }

  /** Once a sale is on-chain nothing more is co-signed, so only what is outstanding can follow it. */
  lemma {:induction false} NothingMoreLands(hash: ReportHash, s: System, run: seq<Action>)
    requires Sold(s.chain) && s.memory.Idle? && forall id :: !Outstanding(s.chain, id)
    ensures var r := DoAll(hash, s, run);
      && s.chain.periods <= r.chain.periods && r.memory.Idle? && (forall id :: !Outstanding(r.chain, id))
      && forall k :: |s.chain.periods| <= k < |r.chain.periods| ==> r.chain.periods[k].cosigned.None?
  {
    if run != [] {
      var before := DoAll(hash, s, run[..|run| - 1]);
      NothingMoreLands(hash, s, run[..|run| - 1]);
      var k :| 0 <= k < |s.chain.periods| && s.chain.periods[k].params.kind == Final;
      assert before.chain.periods[k].params.kind == Final;
      SoldStep(hash, before, run[|run| - 1], k);
    }
  }

  lemma {:induction false} SoldStep(hash: ReportHash, s: System, a: Action, k: nat)
    requires k < |s.chain.periods| && s.chain.periods[k].params.kind == Final
    requires s.memory.Idle? && forall id :: !Outstanding(s.chain, id)
    ensures var r := Do(hash, s, a);
      && s.chain.periods <= r.chain.periods && r.memory.Idle? && (forall id :: !Outstanding(r.chain, id))
      && forall i :: |s.chain.periods| <= i < |r.chain.periods| ==> r.chain.periods[i].cosigned.None?
  {
    if a.Check? {
      assert !PeriodAllows(s.chain.periods[k], a.built);
    } else if a.Network? && a.move.Land? {
      assert !Outstanding(s.chain, a.move.id);
    }
    hide NoOverlaps;
    var r := Do(hash, s, a);
    assert forall id :: Outstanding(r.chain, id) ==> Outstanding(s.chain, id);
  }

  /** Deposits of other oracles fill the periods up to the one `id` is built for. */
  lemma {:induction false} FillUp(hash: ReportHash, s: System, n: nat, filler: Params)
    requires filler.gross > 0 && filler.start <= filler.end
    ensures var run := seq(n, _ => Network(ForeignDeposit(filler)));
      DoAll(hash, s, run) == s.(chain := s.chain.(periods := s.chain.periods + seq(n, _ => Period(filler, None))))
  {
    var run := seq(n, _ => Network(ForeignDeposit(filler)));
    if n == 0 {
      assert s.chain.periods + seq(n, _ => Period(filler, None)) == s.chain.periods;
    } else {
      FillUp(hash, s, n - 1, filler);
      assert run[..|run| - 1] == seq(n - 1, _ => Network(ForeignDeposit(filler)));
      assert s.chain.periods + seq(n - 1, _ => Period(filler, None)) + [Period(filler, None)]
          == s.chain.periods + seq(n, _ => Period(filler, None));
    }
  }

  /** What the oracle signs pays something for at least a day. */
  ghost predicate AllPayable(c: Chain) {
    forall id :: id in c.txs ==> c.txs[id].params.gross > 0 && c.txs[id].params.start <= c.txs[id].params.end
  }

  /** So it is in every run. */
  lemma {:induction false} RunIsPayable(hash: ReportHash, s: System, run: seq<Action>)
    requires Injective(hash) && Initial(s)
    ensures AllPayable(DoAll(hash, s, run).chain)
  {
    RunKeeps(hash, s, run);
  }

  /**
   * After a sale, a co-signed deposit can still follow it exactly when one is outstanding: the
   * oracle signed it before, for a later index, and its blockhash has not expired.
   */
  lemma {:induction false} DepositCanFollowSaleIff(hash: ReportHash, s: System)
    requires AllPayable(s.chain) && Sold(s.chain) && s.memory.Idle?
    ensures (exists run :: AddsCoSigned(hash, s, run)) <==> (exists id :: Outstanding(s.chain, id))
  {
    if id :| Outstanding(s.chain, id) {
      var run := OutstandingLands(hash, s, id);
    } else {
      forall run ensures !AddsCoSigned(hash, s, run) {
        NothingMoreLands(hash, s, run);
      }
    }
  }

  lemma {:induction false} OutstandingLands(hash: ReportHash, s: System, id: TxId) returns (run: seq<Action>)
    requires AllPayable(s.chain) && Outstanding(s.chain, id)
    ensures AddsCoSigned(hash, s, run)
  {
    var tx := s.chain.txs[id];
    var n := tx.index - |s.chain.periods|;
    var fill := seq(n, _ => Network(ForeignDeposit(tx.params)));
    FillUp(hash, s, n, tx.params);
    var filled := s.(chain := s.chain.(periods := s.chain.periods + seq(n, _ => Period(tx.params, None))));
    run := fill + [Network(SetProject(true, true)), Network(Land(id))];
    assert run[..n + 1][..n] == fill && run[..|run| - 1] == run[..n + 1];
    var ready := filled.(chain := filled.chain.(operating := true, ours := true));
    assert DoAll(hash, s, run[..n + 1]) == ready;
    Lands(hash, ready, id);
    assert DoAll(hash, s, run) == Do(hash, ready, Network(Land(id)));
    assert DoAll(hash, s, run).chain.periods[tx.index].cosigned.Some?;
  }

  lemma {:induction false} Lands(hash: ReportHash, s: System, id: TxId)
    requires Outstanding(s.chain, id) && Accepts(s.chain, s.chain.txs[id])
    ensures Do(hash, s, Network(Land(id))).chain.periods == s.chain.periods + [Period(s.chain.txs[id].params, Some(id))]
  {}

  const JANUARY := StoredReport(Regular, 20260101, 20260131, 5, 0, "January")
  const SALE := StoredReport(Final, 20260201, 20260210, 9, 0, "sale")

  /** An operating project without periods, and the oracle's empty books. */
  const FRESH := System(Chain([], 7, true, true, map[]), Tables(map[], map[], map[]), Idle)

  /** A deposit for January, signed for index 1 while 0 is next, then the sale drafted for 0; both land. */
  function SaleThenJanuary(hash: ReportHash): seq<Action> {
    [Check(Attest("january", 1, ParamsOf(hash, JANUARY), Blockhash("b", 10), JANUARY), JANUARY, {}), Save,
     Check(DraftDeposit("sale", Blockhash("b", 10)), SALE, {}), Save,
     Network(Land(OfDraft("sale"))), Network(Land(Deposit("january")))]
  }

  lemma {:induction false} DoAllOne(hash: ReportHash, s: System, run: seq<Action>, k: nat)
    requires k < |run|
    ensures DoAll(hash, s, run[..k + 1]) == Do(hash, DoAll(hash, s, run[..k]), run[k])
  {
    assert run[..k + 1][..k] == run[..k];
  }

  /** Without the guard the promise fails: January's deposit lands after the car's sale. */
  lemma {:induction false} ADepositCanFollowTheSale(hash: ReportHash)
    requires Injective(hash)
    ensures Initial(FRESH)
    ensures var periods := DoAll(hash, FRESH, SaleThenJanuary(hash)).chain.periods;
      && |periods| == 2 && periods[0].params.kind == Final && periods[1].params.kind == Regular
      && periods[0].cosigned.Some? && periods[1].cosigned.Some?
  {
    var run := SaleThenJanuary(hash);
    var january := CoSigned(1, ParamsOf(hash, JANUARY), Blockhash("b", 10), Flying);
    var sale := CoSigned(0, ParamsOf(hash, SALE), Blockhash("b", 10), Flying);
    var s1 := FRESH.(memory := Signing(Deposit("january"), january, JANUARY));
    var s2 := System(FRESH.chain.(txs := map[Deposit("january") := january]),
                     Tables(map[hash(JANUARY) := JANUARY], map["january" := DepositStore.Attestation(hash(JANUARY), Blockhash("b", 10))], map[]),
                     Idle);
    var s3 := s2.(memory := Signing(OfDraft("sale"), sale, SALE));
    var s4 := System(s2.chain.(txs := s2.chain.txs[OfDraft("sale") := sale]),
                     s2.store.Drafted(SALE, "sale", Draft(hash(SALE), 0, Blockhash("b", 10))), Idle);
    var s5 := s4.(chain := DoMove(s4.chain, Land(OfDraft("sale"))));
    assert Do(hash, FRESH, run[0]) == s1;
    assert Do(hash, s1, run[1]) == s2;
    assert Do(hash, s2, run[2]) == s3;
    assert Do(hash, s3, run[3]) == s4;
    assert Do(hash, s4, run[4]) == s5 && s5.chain.periods == [Period(ParamsOf(hash, SALE), Some(OfDraft("sale")))];
    assert Do(hash, s5, run[5]).chain.periods == s5.chain.periods + [Period(ParamsOf(hash, JANUARY), Some(Deposit("january")))];
    hide Do, ParamsOf;
    forall k | 0 <= k < |run| ensures DoAll(hash, FRESH, run[..k + 1]) == Do(hash, DoAll(hash, FRESH, run[..k]), run[k]) {
      DoAllOne(hash, FRESH, run, k);
    }
    assert run[..0] == [] && run[..6] == run;
  }

  // ---- what is accepted, and what stands in the way, day by day ----

  predicate Covers(start: Date, end: Date, day: Date) { start <= day <= end }

  /** The two ranges have a day in common. */
  ghost predicate ShareADay(start: Date, end: Date, otherStart: Date, otherEnd: Date) {
    exists day :: Covers(start, end, day) && Covers(otherStart, otherEnd, day)
  }

  lemma {:induction false} OverlapIsADay(start: Date, end: Date, otherStart: Date, otherEnd: Date)
    requires start <= end && otherStart <= otherEnd
    ensures Overlap(start, end, otherStart, otherEnd) <==> ShareADay(start, end, otherStart, otherEnd)
  {
    var day: Date := if start <= otherStart then otherStart else start;
    assert Overlap(start, end, otherStart, otherEnd) ==> Covers(start, end, day) && Covers(otherStart, otherEnd, day);
  }

  /** No period on-chain and no stored report ends before it starts. */
  ghost predicate Real(c: Chain, t: Tables) {
    && (forall k :: 0 <= k < |c.periods| ==> c.periods[k].params.start <= c.periods[k].params.end)
    && (forall h :: h in t.reports ==> t.reports[h].start <= t.reports[h].end)
  }

  lemma {:induction false} RunIsReal(hash: ReportHash, s: System, run: seq<Action>)
    requires Injective(hash) && Initial(s) && Real(s.chain, s.store)
    ensures var r := DoAll(hash, s, run); Real(r.chain, r.store)
  {
    if run != [] {
      var before := run[..|run| - 1];
      RunIsReal(hash, s, before);
      RunKeeps(hash, s, before);
      hide Ledger, AllApart, AllStored, Apart, NoOverlaps, MayCosign;
      RealStep(hash, s.chain.periods, DoAll(hash, s, before), run[|run| - 1]);
    }
  }

  lemma {:induction false} RealStep(hash: ReportHash, base: seq<Period>, s: System, a: Action)
    requires Safe(hash, base, s) && Real(s.chain, s.store)
    ensures Real(Do(hash, s, a).chain, Do(hash, s, a).store)
  {
    hide Ledger, AllApart, AllStored, Apart, NoOverlaps, MayCosign, Live;
  }

  /** The stored report pays for a day of the new one, or paid out the car's sale. */
  ghost predicate Excludes(t: Tables, reportHash: Hash, built: StoredReport) {
    && reportHash in t.reports
    && (t.reports[reportHash].kind == Final
        || ShareADay(built.start, built.end, t.reports[reportHash].start, t.reports[reportHash].end))
  }

  lemma {:induction false} ExcludesIff(c: Chain, t: Tables, reportHash: Hash, built: StoredReport)
    requires Real(c, t) && built.start <= built.end
    ensures t.Conflicts(reportHash, built.start, built.end) <==> Excludes(t, reportHash, built)
  {
    if reportHash in t.reports {
      OverlapIsADay(built.start, built.end, t.reports[reportHash].start, t.reports[reportHash].end);
    }
  }

  /** The attested deposit may still pay, as far as a node that has forgotten some signatures can tell. */
  predicate MayPay(c: Chain, signature: Signature, blockhash: Blockhash, forgotten: set<Signature>) {
    var known := Deposit(signature) in c.txs && signature !in forgotten;
    if known && c.txs[Deposit(signature)].fate != Flying then c.txs[Deposit(signature)].fate == Landed
    else c.height <= blockhash.lastValid
  }

  /**
   * Exactly what is co-signed: a deposit of the report rebuilt for it, while the project takes
   * deposits attested by this backend and there is something to distribute, if no period
   * on-chain is final or shares a day with it, and neither does a report whose attested deposit
   * or, for another index than the draft's, whose draft may still pay.
   */
  lemma {:induction false} CoSignedIff(hash: ReportHash, c: Chain, t: Tables, q: Request, built: StoredReport, forgotten: set<Signature>)
    requires Real(c, t) && built.start <= built.end
    ensures MayCosign(hash, c, t, q, built, forgotten) <==>
      && (q.Attest? ==> q.submitted == built && q.params == ParamsOf(hash, built))
      && c.ours && c.operating && built.distributable > 0
      && (forall k :: 0 <= k < |c.periods| ==>
            c.periods[k].params.kind != Final && !ShareADay(built.start, built.end, c.periods[k].params.start, c.periods[k].params.end))
      && (forall s :: s in t.attestations && !(q.Attest? && s == q.signature) && Excludes(t, t.attestations[s].reportHash, built) ==>
            !MayPay(c, s, t.attestations[s].blockhash, forgotten))
      && (q.Attest? && q.index != |c.periods| ==>
            forall s :: s in t.drafts && t.drafts[s].periodIndex == |c.periods| && Excludes(t, t.drafts[s].reportHash, built) ==>
              c.height > t.drafts[s].blockhash.lastValid)
  {
    forall k | 0 <= k < |c.periods|
      ensures PeriodAllows(c.periods[k], built) <==>
        c.periods[k].params.kind != Final && !ShareADay(built.start, built.end, c.periods[k].params.start, c.periods[k].params.end)
    {
      OverlapIsADay(built.start, built.end, c.periods[k].params.start, c.periods[k].params.end);
    }
    forall s | s in t.attestations
      ensures AttestationAllows(c, t, built, s, forgotten) <==>
        (Excludes(t, t.attestations[s].reportHash, built) ==> !MayPay(c, s, t.attestations[s].blockhash, forgotten))
    {
      ExcludesIff(c, t, t.attestations[s].reportHash, built);
    }
    forall s | s in t.drafts
      ensures DraftAllows(c, t, built, s) <==>
        (t.drafts[s].periodIndex == |c.periods| && Excludes(t, t.drafts[s].reportHash, built) ==> c.height > t.drafts[s].blockhash.lastValid)
    {
      ExcludesIff(c, t, t.drafts[s].reportHash, built);
    }
    hide PeriodAllows, AttestationAllows, DraftAllows, Excludes, ShareADay, MayPay;
  }

  /** What may be co-signed is: saved with its report, and out for the operator to send. */
  lemma {:induction false} RequestIsCoSigned(hash: ReportHash, s: System, q: Request, built: StoredReport, forgotten: set<Signature>)
    requires s.memory.Idle? && built.start <= built.end && NamesOneTransaction(hash, s.chain, q, built)
    requires MayCosign(hash, s.chain, s.store, q, built, forgotten) && (q.DraftDeposit? ==> q.oracleSignature !in s.store.drafts)
    ensures var r := DoAll(hash, s, [Check(q, built, forgotten), Save]);
      && r.memory.Idle? && hash(built) in r.store.reports && r.chain.periods == s.chain.periods
      && match q {
           case Attest(signature, index, params, blockhash, _) =>
             && Deposit(signature) in r.chain.txs && r.chain.txs[Deposit(signature)].index == index
             && r.chain.txs[Deposit(signature)].params == params && signature in r.store.attestations
             && (signature !in s.store.attestations ==>
                   r.store.attestations[signature] == DepositStore.Attestation(params.reportHash, blockhash))
           case DraftDeposit(oracleSignature, blockhash) =>
             && OfDraft(oracleSignature) in r.chain.txs && r.chain.txs[OfDraft(oracleSignature)].index == |s.chain.periods|
             && r.chain.txs[OfDraft(oracleSignature)].params == ParamsOf(hash, built)
             && oracleSignature in r.store.drafts
             && r.store.drafts[oracleSignature] == Draft(hash(built), |s.chain.periods|, blockhash)
         }
  {
    var run := [Check(q, built, forgotten), Save];
    var checked := Do(hash, s, Check(q, built, forgotten));
    assert run[..1] == [Check(q, built, forgotten)] && run[..1][..0] == [];
    assert DoAll(hash, s, run[..1]) == checked;
    assert DoAll(hash, s, run) == DoSave(checked);
    hide MayCosign;
  }

  /**
   * A co-signed deposit lands exactly while its blockhash is valid, as the next period, on a
   * project that operates under this oracle; and it is then the newest period.
   */
  lemma {:induction false} LandsIff(c: Chain, id: TxId)
    ensures DoMove(c, Land(id)).periods != c.periods <==>
      && id in c.txs && c.txs[id].fate == Flying && c.height <= c.txs[id].blockhash.lastValid
      && c.operating && c.ours && c.txs[id].index == |c.periods|
      && c.txs[id].params.gross > 0 && c.txs[id].params.start <= c.txs[id].params.end
    ensures DoMove(c, Land(id)).periods != c.periods ==>
      DoMove(c, Land(id)).periods == c.periods + [Period(c.txs[id].params, Some(id))] && DoMove(c, Land(id)).txs[id].fate == Landed
  {
    if DoMove(c, Land(id)) != c {
      assert |DoMove(c, Land(id)).periods| == |c.periods| + 1;
    }
  }

  /** Until it has landed it may fail at any time, and never lands then. */
  lemma {:induction false} FailsForGood(c: Chain, id: TxId, moves: seq<Move>)
    requires id in c.txs && c.txs[id].fate == Flying
    ensures id in DoMoves(DoMove(c, Fail(id)), moves).txs && DoMoves(DoMove(c, Fail(id)), moves).txs[id].fate == Failed
  {
    MovesFade(DoMove(c, Fail(id)), moves, id);
  }

  // ---- the chain reads of one request ----

  /**
   * What `checkOverlaps` asks of an earlier transaction when its reads are apart: the periods
   * come from `c`, the status from `d`, and whether the blockhash is valid from `e`.
   */
  ghost predicate SplitAllows(c: Chain, d: Chain, e: Chain, id: TxId, forgotten: set<Signature>)
    requires id in c.txs
  {
    match id
    case Deposit(signature) =>
      match StatusOf(d, signature, forgotten) {
        case Succeeded => false
        case Errored => true
        case Unknown => !ValidBlockhash(e, c.txs[id].blockhash)
      }
    case OfDraft(_) => c.txs[id].index == |c.periods| ==> !ValidBlockhash(e, c.txs[id].blockhash)
  }

  lemma {:induction false} MovesFade(c: Chain, moves: seq<Move>, id: TxId)
    requires id in c.txs
    ensures var d := DoMoves(c, moves);
      && id in d.txs && |c.periods| <= |d.periods| && d.txs[id] == c.txs[id].(fate := d.txs[id].fate)
      && (c.txs[id].fate != Flying ==> d.txs[id].fate == c.txs[id].fate)
  {
    if moves != [] {
      MovesFade(c, moves[..|moves| - 1], id);
    }
  }

  /**
   * Without the one moment: a transaction for days of the report that passes the checks is out
   * of the way, unless it landed after the periods were read.
   */
  lemma {:induction false} SplitChecksAreSafeIff(hash: ReportHash, base: seq<Period>, s: System, built: StoredReport, id: TxId,
                                                 first: seq<Move>, second: seq<Move>, forgotten: set<Signature>)
    requires Safe(hash, base, s) && id in s.chain.txs && DaysOverlap(s.chain.txs[id].params, ParamsOf(hash, built))
    requires forall k :: 0 <= k < |s.chain.periods| ==> PeriodAllows(s.chain.periods[k], built)
    requires SplitAllows(s.chain, DoMoves(s.chain, first), DoMoves(DoMoves(s.chain, first), second), id, forgotten)
    ensures var later := DoMoves(DoMoves(s.chain, first), second);
      id in later.txs && (Live(later, later.txs[id]) <==> s.chain.txs[id].fate == Flying && later.txs[id].fate == Landed)
  {
    var c := s.chain;
    MovesFade(c, first, id);
    MovesFade(DoMoves(c, first), second, id);
    assert Stored(hash, c, s.store, id);
    assert c.txs[id].fate == Landed ==> PeriodAllows(c.periods[c.txs[id].index], built);
  }
}
