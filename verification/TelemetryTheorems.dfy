/** The guarantees of the append protocol, and what they rest on. */
module TelemetryTheorems {
  import opened Wrappers
  import opened HashChain
  import opened TelemetryStore
  import opened TelemetryProtocol
  import opened TelemetrySafety
  import Dates

  /**
   * After any run, with crashes anywhere and any send outcome that is true: the store's confirmed days, then
   * the days of its one pending batch if there is one, form `all`, each at its chain position,
   * with the heads before and after it, no day twice; and the chain past the adopted tip is the
   * confirmed days, or those followed by that whole batch.
   */
  lemma {:induction false} ChainIsTheStore(step: ChainStep, s: System, run: seq<Action>)
    returns (all: seq<Entry>, n: nat, p: Option<Signature>)
    requires Initial(s) && HonestRun(step, s, run)
    ensures var r := DoAll(step, s, run);
      && r.chain.base == s.chain.base
      && Books(step, r.chain.base, r.store, all, n, p)
      && (r.chain.entries == all[..n] || (p.Some? && r.chain.entries == all))
  {
    all, n, p := RunKeeps(step, s, run);
    BaseStays(step, s, run);
  }

  lemma {:induction false} BaseStays(step: ChainStep, s: System, run: seq<Action>)
    ensures DoAll(step, s, run).chain.base == s.chain.base
  {
    if run != [] {
      BaseStays(step, s, run[..|run| - 1]);
    }
  }

  lemma {:induction false} AtMostOnePending(step: ChainStep, s: System, run: seq<Action>, a: Signature, b: Signature)
    requires Initial(s) && HonestRun(step, s, run)
    requires var t := DoAll(step, s, run).store; t.IsPending(a) && t.IsPending(b)
    ensures a == b
  {
    var all, n, p := RunKeeps(step, s, run);
    assert DoAll(step, s, run).store.IsPending(a) <==> Some(a) == p;
  }

  /**
   * The single writer never sees its chain as diverged, and `in_sync` is exact: the confirmed
   * days are then the chain's, and nothing is pending.
   */
  lemma {:induction false} ReconcileIsExact(step: ChainStep, s: System, run: seq<Action>, now: nat)
    requires Initial(s) && HonestRun(step, s, run) && DoAll(step, s, run).memory.Idle?
    ensures var r := DoAll(step, s, run);
      var (t, view) := Reconciled(r.store, TipOf(step, r.chain), r.chain.height, now);
      && view != Diverged
      && (view.InSync? ==> Books(step, r.chain.base, t, r.chain.entries, |r.chain.entries|, None))
      && (view.PendingBatch? ==> t == r.store && exists a :: t.IsPending(a))
  {
    var all, n, p := RunKeeps(step, s, run);
    var r := DoAll(step, s, run);
    var all', n', p' := ReconcileKeeps(step, r, all, n, p, now);
    var (t, view) := Reconciled(r.store, TipOf(step, r.chain), r.chain.height, now);
    if p'.None? {
      assert n' == |all'|;
    } else {
      assert t.IsPending(p'.value);
      PendingKeepsTables(r.store, TipOf(step, r.chain), r.chain.height, now);
    }
  }

  lemma {:induction false} PendingKeepsTables(t: Tables, tip: Tip, height: nat, now: nat)
    requires Reconciled(t, tip, height, now).1 == PendingBatch
    ensures Reconciled(t, tip, height, now).0 == t
  {}

  // ---- what the program accepts ----

  /** A batch lands exactly while its blockhash is valid, on a project that records for this oracle, if its days are real, go forwards and come after the last. */
  lemma {:induction false} BatchLandsIff(step: ChainStep, c: Chain, x: Signature)
    ensures DoMove(step, c, Land(x)).entries != c.entries <==>
      && x in c.txs && c.txs[x].fate == Flying && c.height <= c.txs[x].lastValid && c.ours && c.recordable
      && var batch := c.txs[x].entries;
      && 1 <= |batch| <= 20
      && (forall i :: 0 <= i < |batch| ==> Dates.IsDateNumber(batch[i].date))
      && (forall i :: 0 <= i < |batch| ==> (if c.entries == [] then c.base.lastDate else c.entries[|c.entries| - 1].date) < batch[i].date)
      && (forall i, j :: 0 <= i < j < |batch| ==> batch[i].date < batch[j].date)
    ensures DoMove(step, c, Land(x)).entries != c.entries ==>
      DoMove(step, c, Land(x)).entries == c.entries + c.txs[x].entries && DoMove(step, c, Land(x)).txs[x].fate == Landed
  {
    hide Dates.IsDateNumber, Head;
    if DoMove(step, c, Land(x)) != c {
      assert |DoMove(step, c, Land(x)).entries| > |c.entries|;
    }
  }

  ghost predicate BatchesAreSmall(c: Chain) { forall x :: x in c.txs ==> 1 <= |c.txs[x].entries| <= 20 }

  /** No transaction carries more days than the program takes, or none. */
  lemma {:induction false} BatchesFit(step: ChainStep, s: System, run: seq<Action>)
    requires Initial(s)
    ensures BatchesAreSmall(DoAll(step, s, run).chain)
  {
    if run != [] {
      BatchesFit(step, s, run[..|run| - 1]);
      BatchStaysSmall(step, DoAll(step, s, run[..|run| - 1]), run[|run| - 1]);
    }
  }

  lemma {:induction false} BatchStaysSmall(step: ChainStep, s: System, a: Action)
    requires BatchesAreSmall(s.chain)
    ensures BatchesAreSmall(Do(step, s, a).chain)
  {
    hide Accepts, Tables.Recorded, Reconciled;
  }

  /** Whatever the backend has pending, the program takes while its blockhash is valid and the project records for this oracle. */
  lemma {:induction false} PendingBatchIsAccepted(step: ChainStep, s: System, run: seq<Action>, p: Signature)
    requires Initial(s) && HonestRun(step, s, run) && DoAll(step, s, run).store.IsPending(p)
    requires forall d :: d in DoAll(step, s, run).store.days ==> Dates.IsDateNumber(d)
    ensures var c := DoAll(step, s, run).chain;
      && p in c.txs
      && (c.txs[p].fate == Flying && c.height <= c.txs[p].lastValid && c.ours && c.recordable ==>
            DoMove(step, c, Land(p)).entries == c.entries + c.txs[p].entries)
  {
    var all, n, q := RunKeeps(step, s, run);
    var r := DoAll(step, s, run);
    BatchesFit(step, s, run);
    BatchLandsIff(step, r.chain, p);
    hide DoAll, DoMove, Dates.IsDateNumber;
    assert q == Some(p) by { assert r.store.IsPending(p) <==> Some(p) == q; }
    if r.chain.txs[p].fate == Flying {
      PendingDays(step, r, all, n, p);
    }
  }

  lemma {:induction false} PendingDays(step: ChainStep, s: System, all: seq<Entry>, n: nat, p: Signature)
    requires Safe(step, s, all, n, Some(p)) && s.chain.txs[p].fate == Flying
    ensures p in s.chain.txs
    ensures var batch := s.chain.txs[p].entries;
      && (forall i :: 0 <= i < |batch| ==> batch[i].date in s.store.days)
      && (forall i :: 0 <= i < |batch| ==>
            (if s.chain.entries == [] then s.chain.base.lastDate else s.chain.entries[|s.chain.entries| - 1].date) < batch[i].date)
      && (forall i, j :: 0 <= i < j < |batch| ==> batch[i].date < batch[j].date)
  {
    forall i | n <= i < |all| ensures all[i].date in s.store.days {
      assert RowAt(step, s.chain.base, s.store, all, n, Some(p), i);
    }
    hide RowAt, Head;
  }

  // ---- what a reported outcome must mean ----

  /**
   * Settling a batch by what its send is reported to have done keeps store and chain in step
   * exactly when the report is true. An expiry in particular must not be of a landed batch,
   * whatever the height says.
   */
  lemma {:induction false} SettlingIsSafeIff(step: ChainStep, s: System, all: seq<Entry>, n: nat, p: Option<Signature>, outcome: SendOutcome, now: nat)
    requires Safe(step, s, all, n, p) && s.memory.Sending?
    ensures (exists all', n', p' :: Safe(step, Do(step, s, SettleBatch(outcome, now)), all', n', p'))
      <==> Reportable(s.chain, s.memory.signature, outcome)
    ensures p == Some(s.memory.signature) && p.value in s.chain.txs
    ensures s.chain.height > s.chain.txs[p.value].lastValid ==>
      (Reportable(s.chain, p.value, SendExpired) <==> s.chain.txs[p.value].fate != Landed)
  {
    var x := s.memory.signature;
    if Reportable(s.chain, x, outcome) {
      var all', n', p' := SettleKeeps(step, s, all, n, p, outcome, now);
    } else {
      forall all', n', p' ensures !Safe(step, Do(step, s, SettleBatch(outcome, now)), all', n', p') {
        if outcome.SendConfirmed? {
          FalselyConfirmed(step, s, all, n, x, now, all', n', p');
        } else {
          FalselyAbandoned(step, s, all, n, x, outcome, now, all', n', p');
        }
      }
    }
  }

  lemma {:induction false} ConfirmedIsOnChain(step: ChainStep, s: System, all: seq<Entry>, n: nat, p: Option<Signature>, d: Date)
    ensures Safe(step, s, all, n, p) && s.store.IsConfirmed(d) ==> exists i :: 0 <= i < |s.chain.entries| && s.chain.entries[i].date == d
  {
    if Safe(step, s, all, n, p) && s.store.IsConfirmed(d) {
      var i :| 0 <= i < |all| && all[i].date == d;
      assert RowAt(step, s.chain.base, s.store, all, n, p, i);
      assert s.chain.entries[i].date == d;
    }
  }

  lemma {:induction false} FalselyConfirmed(step: ChainStep, s: System, all: seq<Entry>, n: nat, x: Signature, now: nat,
                                            all': seq<Entry>, n': nat, p': Option<Signature>)
    requires Safe(step, s, all, n, Some(x)) && s.memory.Sending? && s.chain.txs[x].fate != Landed
    ensures !Safe(step, Do(step, s, SettleBatch(SendConfirmed, now)), all', n', p')
  {
    var r := Do(step, s, SettleBatch(SendConfirmed, now));
    assert RowAt(step, s.chain.base, s.store, all, n, Some(x), n);
    assert r.store.IsConfirmed(all[n].date) && r.chain.entries == all[..n];
    assert forall i :: 0 <= i < n ==> all[i].date < all[n].date;
    hide Safe;
    ConfirmedIsOnChain(step, r, all', n', p', all[n].date);
  }

  lemma {:induction false} FalselyAbandoned(step: ChainStep, s: System, all: seq<Entry>, n: nat, x: Signature, outcome: SendOutcome, now: nat,
                                            all': seq<Entry>, n': nat, p': Option<Signature>)
    requires Safe(step, s, all, n, Some(x)) && s.memory.Sending? && (outcome.SendFailed? || outcome.SendExpired?)
    requires !CannotLand(s.chain, x)
    ensures !Safe(step, Do(step, s, SettleBatch(outcome, now)), all', n', p')
  {
    var r := Do(step, s, SettleBatch(outcome, now));
    assert RowAt(step, s.chain.base, s.store, all, n, Some(x), n);
    assert r.store.days[all[n].date].link.None?;
    if s.chain.txs[x].fate == Landed {
      SafeChainIsLinked(step, r, all', n', p', n);
    } else {
      assert !r.store.IsPending(x) && !Dead(r.chain, x);
    }
  }

  // ---- what settling writes ----

  /** The tables after the submission `p` was settled as `outcome`: its days confirmed at `now` or given back, all else as before. */
  ghost predicate SettledAs(t: Tables, u: Tables, p: Signature, outcome: SubmissionOutcome, now: nat) {
    && u.submissions.Keys == t.submissions.Keys && u.days.Keys == t.days.Keys
    && (forall x :: x in t.submissions ==>
          && u.submissions[x].lastValidBlockHeight == t.submissions[x].lastValidBlockHeight
          && u.submissions[x].outcome == (if x == p then outcome else t.submissions[x].outcome))
    && (forall d :: d in t.days ==>
          var mine := t.days[d].link.Some? && t.days[d].link.value.txSignature == p;
          && u.days[d].dataHash == t.days[d].dataHash
          && u.days[d].link == (if mine && outcome != Confirmed then None else t.days[d].link)
          && u.days[d].confirmedAt == (if mine && outcome == Confirmed then Some(now) else t.days[d].confirmedAt))
  }

  /** A reported send writes the outcome it was reported with. */
  lemma {:induction false} SendIsSettledAs(step: ChainStep, s: System, outcome: SendOutcome, now: nat)
    requires s.memory.Sending? && s.memory.signature in s.store.submissions
    ensures var p := s.memory.signature;
      var u := Do(step, s, SettleBatch(outcome, now)).store;
      match outcome
      case SendConfirmed => SettledAs(s.store, u, p, Confirmed, now)
      case SendFailed => SettledAs(s.store, u, p, FailedOnChain, now)
      case SendExpired => SettledAs(s.store, u, p, Expired, now)
      case SendUnknown => u == s.store
  {}

  /** `reconcile` confirms a pending batch that landed, calls one expired that cannot land any more, and leaves one that may. */
  lemma {:induction false} ReconcileSettlesAs(step: ChainStep, s: System, all: seq<Entry>, n: nat, p: Option<Signature>, now: nat)
    requires Safe(step, s, all, n, p) && s.memory.Idle?
    ensures var u := Do(step, s, Reconcile(now)).store;
      if p.None? then u == s.store
      else if s.chain.txs[p.value].fate == Landed then SettledAs(s.store, u, p.value, Confirmed, now)
      else if s.chain.height > s.chain.txs[p.value].lastValid then SettledAs(s.store, u, p.value, Expired, now)
      else u == s.store
  {
    PendingIsSent(step, s, all, n, p);
    OnlyOnePending(step, s, all, n, p);
    if p.Some? {
      RowsSettled(s.store, p.value, now);
      if s.chain.txs[p.value].fate == Landed {
        LandedIsConfirmed(step, s, all, n, p.value, now);
      } else {
        EarlyTipAbandons(step, s, all, n, p.value, s.chain.height, now);
      }
    } else {
      NothingToSettle(s.store, TipOf(step, s.chain), s.chain.height, now);
    }
    hide Safe, SettledAs, Reconciled, TipOf;
  }

  lemma {:induction false} RowsSettled(t: Tables, p: Signature, now: nat)
    requires p in t.submissions
    ensures SettledAs(t, t.ConfirmedBatch(p, now), p, Confirmed, now) && SettledAs(t, t.Abandoned(p, Expired), p, Expired, now)
  {}

  lemma {:induction false} OnlyOnePending(step: ChainStep, s: System, all: seq<Entry>, n: nat, p: Option<Signature>)
    requires Safe(step, s, all, n, p)
    ensures forall x :: s.store.IsPending(x) <==> Some(x) == p
    ensures p.Some? ==>
      && p.value in s.chain.txs && p.value in s.store.submissions
      && s.store.submissions[p.value].lastValidBlockHeight == s.chain.txs[p.value].lastValid
  {}

  lemma {:induction false} NothingToSettle(t: Tables, tip: Tip, height: nat, now: nat)
    requires forall x :: !t.IsPending(x)
    ensures Reconciled(t, tip, height, now).0 == t
  {}

  lemma {:induction false} LandedIsConfirmed(step: ChainStep, s: System, all: seq<Entry>, n: nat, p: Signature, now: nat)
    requires Safe(step, s, all, n, Some(p)) && s.chain.txs[p].fate == Landed
    ensures Reconciled(s.store, TipOf(step, s.chain), s.chain.height, now) == (s.store.ConfirmedBatch(p, now), InSync)
  {
    var base := s.chain.base;
    assert forall x :: s.store.IsPending(x) <==> x == p;
    BatchOrderExists(step, base, s.store, all, n, p);
    BatchEnds(step, base, s.store, all, n, p, BatchDates(s.store, p));
    assert RowAt(step, base, s.store, all, n, Some(p), n);
    assert RowAt(step, base, s.store, all, n, Some(p), |all| - 1);
    assert all[..|all|] == all;
    assert Reconciled(s.store, TipOf(step, s.chain), s.chain.height, now)
        == SettledPending(s.store, p, BatchDates(s.store, p), TipOf(step, s.chain), s.chain.height, now);
  }

  // ---- the two reads of `reconcile` ----

  /** `reconcile` with the project read in `s` and the block height read after the moves of `between`. */
  ghost function SplitReconcile(step: ChainStep, s: System, between: seq<Move>, now: nat): System {
    var later := Moved(step, s.chain, between);
    System(later, Reconciled(s.store, TipOf(step, s.chain), later.height, now).0, s.memory)
  }

  lemma {:induction false} MovesKeep(step: ChainStep, s: System, all: seq<Entry>, n: nat, p: Option<Signature>, between: seq<Move>)
    requires Safe(step, s, all, n, p)
    ensures var r := s.(chain := Moved(step, s.chain, between));
      && Safe(step, r, all, n, p) && r.chain.base == s.chain.base && s.chain.height <= r.chain.height
      && (p.Some? && s.chain.txs[p.value].fate == Landed ==> r.chain.txs[p.value].fate == Landed)
  {
    if between != [] {
      var before := between[..|between| - 1];
      MovesKeep(step, s, all, n, p, before);
      var middle := s.(chain := Moved(step, s.chain, before));
      MoveKeeps(step, middle, all, n, p, between[|between| - 1]);
      PendingIsSent(step, middle, all, n, p);
      hide Safe;
      MoveIsForward(step, middle.chain, between[|between| - 1]);
    }
  }

  lemma {:induction false} PendingIsSent(step: ChainStep, s: System, all: seq<Entry>, n: nat, p: Option<Signature>)
    requires Safe(step, s, all, n, p)
    ensures p.Some? ==> p.value in s.chain.txs
  {}

  lemma {:induction false} MoveIsForward(step: ChainStep, c: Chain, m: Move)
    ensures var d := DoMove(step, c, m);
      && d.base == c.base && c.height <= d.height && d.txs.Keys == c.txs.Keys
      && forall x :: x in c.txs && c.txs[x].fate == Landed ==> d.txs[x].fate == Landed
  {
    hide Accepts;
  }

  /** The race between the reads: the batch lands, and its blockhash expires before the second read. */
  ghost predicate LandsBetweenReads(step: ChainStep, s: System, p: Option<Signature>, between: seq<Move>)
    requires p.Some? ==> p.value in s.chain.txs && p.value in Moved(step, s.chain, between).txs
  {
    var later := Moved(step, s.chain, between);
    p.Some? && s.chain.txs[p.value].fate != Landed && later.txs[p.value].fate == Landed
      && later.height > later.txs[p.value].lastValid
  }

  /**
   * `reconcile` reads the project first and the height later. It keeps the store in step with
   * the chain exactly unless the pending batch landed between the reads and had expired by the second.
   */
  lemma {:induction false} SplitReadsAreSafeIff(step: ChainStep, s: System, all: seq<Entry>, n: nat, p: Option<Signature>, between: seq<Move>, now: nat)
    requires Safe(step, s, all, n, p) && s.memory.Idle?
    ensures p.Some? ==> p.value in s.chain.txs && p.value in Moved(step, s.chain, between).txs
    ensures (exists all', n', p' :: Safe(step, SplitReconcile(step, s, between, now), all', n', p'))
      <==> !LandsBetweenReads(step, s, p, between)
  {
    MovesKeep(step, s, all, n, p, between);
    var later := s.(chain := Moved(step, s.chain, between));
    if LandsBetweenReads(step, s, p, between) {
      LostBatch(step, s, all, n, p.value, between, now);
    } else {
      var all', n', p' := SplitKeeps(step, s, all, n, p, between, now);
    }
  }

  /** The expired branch of `reconcile`, from the early tip and the late height. */
  lemma {:induction false} EarlyTipAbandons(step: ChainStep, s: System, all: seq<Entry>, n: nat, p: Signature, height: nat, now: nat)
    requires Safe(step, s, all, n, Some(p)) && s.chain.txs[p].fate != Landed
    ensures Reconciled(s.store, TipOf(step, s.chain), height, now) ==
      if height <= s.store.submissions[p].lastValidBlockHeight then (s.store, PendingBatch)
      else (s.store.Abandoned(p, Expired), InSync)
  {
    var base := s.chain.base;
    assert forall x :: s.store.IsPending(x) <==> x == p;
    BatchOrderExists(step, base, s.store, all, n, p);
    BatchEnds(step, base, s.store, all, n, p, BatchDates(s.store, p));
    assert RowAt(step, base, s.store, all, n, Some(p), n);
    assert RowAt(step, base, s.store, all, n, Some(p), |all| - 1);
    assert Reconciled(s.store, TipOf(step, s.chain), height, now)
        == SettledPending(s.store, p, BatchDates(s.store, p), TipOf(step, s.chain), height, now);
  }

  lemma {:induction false} SafeChainIsLinked(step: ChainStep, s: System, all: seq<Entry>, n: nat, p: Option<Signature>, i: nat)
    ensures Safe(step, s, all, n, p) && i < |s.chain.entries| ==>
      s.chain.entries[i].date in s.store.days && s.store.days[s.chain.entries[i].date].link.Some?
  {
    if Safe(step, s, all, n, p) && i < |s.chain.entries| {
      assert RowAt(step, s.chain.base, s.store, all, n, p, i);
    }
  }

  lemma {:induction false} LostBatch(step: ChainStep, s: System, all: seq<Entry>, n: nat, p: Signature, between: seq<Move>, now: nat)
    requires Safe(step, s, all, n, Some(p))
    requires p in s.chain.txs && p in Moved(step, s.chain, between).txs && LandsBetweenReads(step, s, Some(p), between)
    ensures forall all', n', p' :: !Safe(step, SplitReconcile(step, s, between, now), all', n', p')
  {
    MovesKeep(step, s, all, n, Some(p), between);
    var later := s.(chain := Moved(step, s.chain, between));
    EarlyTipAbandons(step, s, all, n, p, later.chain.height, now);
    var r := SplitReconcile(step, s, between, now);
    assert RowAt(step, s.chain.base, s.store, all, n, Some(p), n);
    assert r.store.days[all[n].date].link.None?;
    assert r.chain.entries == all;
    forall all', n', p' ensures !Safe(step, r, all', n', p') {
      SafeChainIsLinked(step, r, all', n', p', n);
    }
  }

  lemma {:induction false} SplitKeeps(step: ChainStep, s: System, all: seq<Entry>, n: nat, p: Option<Signature>, between: seq<Move>, now: nat)
    returns (all': seq<Entry>, n': nat, p': Option<Signature>)
    requires Safe(step, s, all, n, p) && s.memory.Idle?
    requires p.Some? ==> p.value in s.chain.txs && p.value in Moved(step, s.chain, between).txs
    requires !LandsBetweenReads(step, s, p, between)
    ensures Safe(step, SplitReconcile(step, s, between, now), all', n', p')
  {
    MovesKeep(step, s, all, n, p, between);
    var later := s.(chain := Moved(step, s.chain, between));
    if p.Some? && s.chain.txs[p.value].fate != Landed {
      EarlyTipAbandons(step, s, all, n, p.value, later.chain.height, now);
      if later.chain.height <= s.store.submissions[p.value].lastValidBlockHeight {
        all', n', p' := all, n, p;
      } else {
        all', n', p' := all[..n], n, None;
        AbandonKeeps(step, later, all, n, p.value, Expired);
      }
    } else {
      // The tip has not moved since the first read.
      all', n', p' := ReconcileKeeps(step, later, all, n, p, now);
      assert TipOf(step, s.chain) == TipOf(step, later.chain);
    }
  }

  /** One day, sent with a blockhash valid to block 10, seen unlanded at block 10. */
  function OneDayInFlight(step: ChainStep): System {
    System(
      Chain(Tip(0, EMPTY_HEAD, 0), [], 10, true, true, map["sig" := Tx([Entry(20260101, "hash")], 10, Flying)]),
      Tables(map[20260101 := DayRow("hash", Some(ChainLink(1, EMPTY_HEAD, step(EMPTY_HEAD, 20260101, "hash"), "sig")), None)],
             map["sig" := SubmissionRow(10, Pending)]),
      Idle)
  }

  lemma {:induction false} OneDayIsSafe(step: ChainStep)
    ensures Safe(step, OneDayInFlight(step), [Entry(20260101, "hash")], 0, Some("sig"))
  {
    var s := OneDayInFlight(step);
    var day := [Entry(20260101, "hash")];
    assert day[..0] == [] && day[..1] == day && day[0..] == day;
    assert Head(step, EMPTY_HEAD, day) == step(EMPTY_HEAD, 20260101, "hash");
    assert RowAt(step, s.chain.base, s.store, day, 0, Some("sig"), 0);
  }

  lemma {:induction false} OneDayLands(step: ChainStep)
    ensures var c := Moved(step, OneDayInFlight(step).chain, [Land("sig"), AdvanceBlocks(1)]);
      c.height == 11 && c.txs == map["sig" := Tx([Entry(20260101, "hash")], 10, Landed)] && c.entries == [Entry(20260101, "hash")] && c.base.count == 0
  {
    var c, between := OneDayInFlight(step).chain, [Land("sig"), AdvanceBlocks(1)];
    assert between[..1] == [Land("sig")] && [Land("sig")][..0] == [];
    assert Moved(step, c, between[..1]) == DoLand(step, c, "sig");
    assert Moved(step, c, between) == DoMove(step, DoLand(step, c, "sig"), AdvanceBlocks(1));
  }

  /** That day landing in block 10 and block 11 following, between the two reads, loses it. */
  lemma {:induction false} SplitReadsCanLoseABatch(step: ChainStep, now: nat)
    ensures Safe(step, OneDayInFlight(step), [Entry(20260101, "hash")], 0, Some("sig"))
    ensures forall all, n, p ::
      !Safe(step, SplitReconcile(step, OneDayInFlight(step), [Land("sig"), AdvanceBlocks(1)], now), all, n, p)
  {
    var s := OneDayInFlight(step);
    OneDayIsSafe(step);
    OneDayLands(step);
    var between := [Land("sig"), AdvanceBlocks(1)];
    hide Safe, Moved;
    LostBatch(step, s, [Entry(20260101, "hash")], 0, "sig", between, now);
  }

  /** The process still waits for that day's send, which has landed and expired since. */
  function OneDayLanded(step: ChainStep): System {
    var s := OneDayInFlight(step);
    System(Moved(step, s.chain, [Land("sig"), AdvanceBlocks(1)]), s.store, Sending("sig", [], []))
  }

  lemma {:induction false} OneDayLandedIsSafe(step: ChainStep)
    ensures Safe(step, OneDayLanded(step), [Entry(20260101, "hash")], 0, Some("sig"))
  {
    var s := OneDayInFlight(step).(memory := Sending("sig", [], []));
    var day := [Entry(20260101, "hash")];
    OneDayIsSafe(step);
    StillSafe(step, s, day);
    hide Safe, Moved;
    MovesKeep(step, s, day, 0, Some("sig"), [Land("sig"), AdvanceBlocks(1)]);
  }

  /** A send reported as expired although its batch has landed loses the day. */
  lemma {:induction false} FalseExpiryLosesABatch(step: ChainStep, now: nat)
    ensures Safe(step, OneDayLanded(step), [Entry(20260101, "hash")], 0, Some("sig"))
    ensures var c := OneDayLanded(step).chain; "sig" in c.txs && c.height > c.txs["sig"].lastValid
    ensures forall all, n, p :: !Safe(step, Do(step, OneDayLanded(step), SettleBatch(SendExpired, now)), all, n, p)
  {
    OneDayLands(step);
    OneDayLandedIsSafe(step);
    hide Safe, Moved;
    SettlingIsSafeIff(step, OneDayLanded(step), [Entry(20260101, "hash")], 0, Some("sig"), SendExpired, now);
  }

  lemma {:induction false} StillSafe(step: ChainStep, s: System, all: seq<Entry>)
    requires Safe(step, s.(memory := Idle), all, 0, Some("sig")) && s.memory == Sending("sig", [], [])
    ensures Safe(step, s, all, 0, Some("sig"))
  {
    hide Books, InFlight;
  }

  // ---- other writers ----

  /**
   * What `diverged` means, whoever wrote the chain past the adopted tip: with a collision-free
   * hash, `reconcile` finds the chain in step exactly when it holds the days the store says, and
   * settles a batch exactly by whether those are on it.
   */
  lemma {:induction false} DivergedIffForeign(step: ChainStep, base: Tip, t: Tables, all: seq<Entry>, n: nat, p: Option<Signature>,
                           onChain: seq<Entry>, height: nat, now: nat)
    requires CollisionFree(step) && Books(step, base, t, all, n, p) && (p.Some? ==> p.value in t.submissions)
    ensures var (u, view) := Reconciled(t, TipAfter(step, base, onChain), height, now);
      && (view == Diverged <==> |all| > 0 && onChain != all && !(p.Some? && onChain == all[..n]))
      && u == (if p.Some? && onChain == all then t.ConfirmedBatch(p.value, now)
               else if p.Some? && onChain == all[..n] && height > t.submissions[p.value].lastValidBlockHeight
               then t.Abandoned(p.value, Expired)
               else t)
  {
    var tip := TipAfter(step, base, onChain);
    SameHead(step, base.head, onChain, all);
    SameHead(step, base.head, onChain, all[..n]);
    assert all[..|all|] == all;
    if p.Some? {
      assert forall x :: t.IsPending(x) <==> x == p.value;
      BatchOrderExists(step, base, t, all, n, p.value);
      var dates := BatchDates(t, p.value);
      BatchEnds(step, base, t, all, n, p.value, dates);
      assert RowAt(step, base, t, all, n, p, n);
      assert RowAt(step, base, t, all, n, p, |all| - 1);
      assert Reconciled(t, tip, height, now) == SettledPending(t, p.value, dates, tip, height, now);
    } else {
      assert forall x :: !t.IsPending(x);
      ConfirmedTipExists(step, base, t, all, n, p);
      var local :| IsConfirmedTip(t, local) && Reconciled(t, tip, height, now) == (t, ComparedTip(local, tip));
      ConfirmedTipIsLast(step, base, t, all, n, p, local);
      assert all[..n] == all;
      assert ComparedTip(local, tip).InSync? <==> n == 0 || onChain == all;
      assert Reconciled(t, tip, height, now) == (t, ComparedTip(local, tip));
    }
  }

  lemma {:induction false} SameHead(step: ChainStep, head: Hash, a: seq<Entry>, b: seq<Entry>)
    requires CollisionFree(step)
    ensures |a| == |b| && Head(step, head, a) == Head(step, head, b) <==> a == b
  {
    if |a| == |b| && Head(step, head, a) == Head(step, head, b) {
      HeadCommits(step, a, b, head);
    }
  }
}
