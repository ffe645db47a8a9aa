/**
 * Co-signing is never stuck: from any state its runs can leave, a report for days that no
 * period has paid can still be paid, unless the car was sold.
 */
module AttestationProgress {
  import opened Decimals
  import opened Wrappers
  import opened Signatures
  import opened HashChain
  import opened DepositStore
  import opened Attestation
  import opened AttestationSafety
  import opened AttestationTheorems
  import AttestationService

  lemma {:induction false} DoAllThen(hash: ReportHash, s: System, run: seq<Action>, a: Action)
    ensures DoAll(hash, s, run + [a]) == Do(hash, DoAll(hash, s, run), a) && DoAll(hash, s, []) == s
  {
    assert (run + [a])[..|run|] == run;
  }

  lemma {:induction false} StaysSafe(hash: ReportHash, base: seq<Period>, s: System, run: seq<Action>)
    requires Injective(hash) && Safe(hash, base, s)
    ensures Safe(hash, base, DoAll(hash, s, run))
  {
    if run != [] {
      StaysSafe(hash, base, s, run[..|run| - 1]);
      DoKeeps(hash, base, DoAll(hash, s, run[..|run| - 1]), run[|run| - 1]);
    }
  }

  /** A height past which no blockhash in use is valid. */
  lemma {:induction false} AllExpire(rows: map<Signature, DepositStore.Attestation>) returns (height: nat)
    ensures forall x :: x in rows ==> rows[x].blockhash.lastValid < height
    decreases |rows|
  {
    height := 0;
    if rows != map[] {
      var x :| x in rows;
      var rest := rows - {x};
      assert |rest| < |rows| by { assert rest.Keys == rows.Keys - {x}; }
      height := AllExpire(rest);
      height := if height <= rows[x].blockhash.lastValid then rows[x].blockhash.lastValid + 1 else height;
      forall y | y in rows ensures rows[y].blockhash.lastValid < height {
        assert y == x || (y in rest && rest[y] == rows[y]);
      }
    }
  }

  /** The project takes this oracle's deposits, nothing is being signed, and no attested deposit can land any more. */
  predicate Quiet(s: System) {
    && s.memory.Idle? && s.chain.operating && s.chain.ours
    && forall x :: x in s.store.attestations ==> s.store.attestations[x].blockhash.lastValid < s.chain.height
  }

  /** So it is once some time has passed. */
  lemma {:induction false} Waits(hash: ReportHash, s: System) returns (more: seq<Action>)
    ensures var t := DoAll(hash, s, more);
      Quiet(t) && t.store == s.store && t.chain.periods == s.chain.periods
  {
    var height := AllExpire(s.store.attestations);
    more := [Forget] + [Network(SetProject(true, true))] + [Network(AdvanceBlocks(height))];
    DoAllThen(hash, s, [], Forget);
    assert [] + [Forget] == [Forget];
    DoAllThen(hash, s, [Forget], Network(SetProject(true, true)));
    DoAllThen(hash, s, [Forget] + [Network(SetProject(true, true))], Network(AdvanceBlocks(height)));
    hide DoAll;
  }

  /** An attested deposit that landed is one of the periods. */
  lemma {:induction false} LandedIsAPeriod(hash: ReportHash, base: seq<Period>, s: System, x: Signature) returns (k: nat)
    requires Safe(hash, base, s) && x in s.store.attestations && s.chain.txs[Deposit(x)].fate == Landed
    ensures k < |s.chain.periods| && s.store.attestations[x].reportHash in s.store.reports
    ensures var report := s.store.reports[s.store.attestations[x].reportHash];
      var p := s.chain.periods[k].params;
      p.kind == report.kind && p.start == report.start && p.end == report.end
  {
    assert Stored(hash, s.chain, s.store, Deposit(x));
    k := s.chain.txs[Deposit(x)].index;
  }

  ghost predicate Unpaid(c: Chain, built: StoredReport) {
    forall k :: 0 <= k < |c.periods| ==>
      c.periods[k].params.kind != Final && !ShareADay(built.start, built.end, c.periods[k].params.start, c.periods[k].params.end)
  }

  lemma {:induction false} ADraftIsCosigned(hash: ReportHash, base: seq<Period>, s: System, built: StoredReport, y: Signature, blockhash: Blockhash)
    requires Safe(hash, base, s) && Real(s.chain, s.store) && Quiet(s)
    requires built.start <= built.end && built.distributable > 0 && Unpaid(s.chain, built)
    ensures MayCosign(hash, s.chain, s.store, DraftDeposit(y, blockhash), built, {})
  {
    forall x | x in s.store.attestations && Excludes(s.store, s.store.attestations[x].reportHash, built)
      ensures !MayPay(s.chain, x, s.store.attestations[x].blockhash, {})
    {
      assert Deposit(x) in s.chain.txs;
      if s.chain.txs[Deposit(x)].fate == Landed {
        var k := LandedIsAPeriod(hash, base, s, x);
        assert false;
      }
    }
    hide Safe, MayPay, Excludes, MayCosign;
    CoSignedIff(hash, s.chain, s.store, DraftDeposit(y, blockhash), built, {});
  }

  /** A draft for the report is co-signed, saved, sent and lands as the next period. */
  lemma {:induction false} Pays(hash: ReportHash, base: seq<Period>, s: System, built: StoredReport, y: Signature) returns (more: seq<Action>)
    requires Safe(hash, base, s) && Real(s.chain, s.store) && Quiet(s)
    requires built.start <= built.end && built.distributable > 0 && Unpaid(s.chain, built) && y !in s.store.drafts
    ensures DoAll(hash, s, more).chain.periods
      == s.chain.periods + [Period(Params(built.distributable * Pow10(built.decimals), built.start, built.end, hash(built), built.kind), Some(OfDraft(y)))]
  {
    var blockhash := Blockhash("b", s.chain.height);
    var q := DraftDeposit(y, blockhash);
    ADraftIsCosigned(hash, base, s, built, y, blockhash);
    assert OfDraft(y) !in s.chain.txs by {
      assert OfDraft(y) in s.chain.txs ==> Stored(hash, s.chain, s.store, OfDraft(y));
    }
    var tx := CoSigned(|s.chain.periods|, ParamsOf(hash, built), blockhash, Flying);
    var signing := Do(hash, s, Check(q, built, {}));
    assert signing == s.(memory := Signing(OfDraft(y), tx, built));
    hide MayCosign, Safe, Unpaid, Real;
    var saved := Do(hash, signing, Save);
    assert saved.chain == s.chain.(txs := s.chain.txs[OfDraft(y) := tx]);
    Positive(built);
    LandsIff(saved.chain, OfDraft(y));
    more := [Check(q, built, {})] + [Save] + [Network(Land(OfDraft(y)))];
    DoAllThen(hash, s, [], Check(q, built, {}));
    assert [] + [Check(q, built, {})] == [Check(q, built, {})];
    DoAllThen(hash, s, [Check(q, built, {})], Save);
    DoAllThen(hash, s, [Check(q, built, {})] + [Save], Network(Land(OfDraft(y))));
    hide DoAll;
  }

  lemma {:induction false} Positive(r: StoredReport)
    requires r.distributable > 0
    ensures Gross(r) > 0
  {
    Pow10IsPositive(r.decimals);
  }

  /**
   * Whatever was attested, drafted, landed, failed or lost before: some further run co-signs a
   * report for days that no period has paid and lands its deposit, which pays the report in full
   * for its days. Only the car's sale or a shared day can be in the way for good.
   */
  lemma {:induction false} EveryReportCanBePaid(hash: ReportHash, s: System, run: seq<Action>, built: StoredReport)
    requires Injective(hash) && Initial(s) && Real(s.chain, s.store)
    requires built.start <= built.end && built.distributable > 0
    requires forall k :: 0 <= k < |DoAll(hash, s, run).chain.periods| ==>
      var p := DoAll(hash, s, run).chain.periods[k].params;
      p.kind != Final && !ShareADay(built.start, built.end, p.start, p.end)
    ensures exists more, id ::
      DoAll(hash, DoAll(hash, s, run), more).chain.periods
      == DoAll(hash, s, run).chain.periods
         + [Period(Params(built.distributable * Pow10(built.decimals), built.start, built.end, hash(built), built.kind), Some(id))]
  {
    var r := DoAll(hash, s, run);
    RunKeeps(hash, s, run);
    RunIsReal(hash, s, run);
    hide DoAll, Safe, Initial, Real;
    var base := s.chain.periods;
    var wait := Waits(hash, r);
    var quiet := DoAll(hash, r, wait);
    StaysSafe(hash, base, r, wait);
    var y := FreshSignature(quiet.store.drafts.Keys);
    var more := Pays(hash, base, quiet, built, y);
    AttestationService.DoAllConcat(hash, r, wait, more);
  }
}
