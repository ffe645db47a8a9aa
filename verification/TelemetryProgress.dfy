/**
 * The append protocol is never stuck: from any state its runs can leave, every collected day
 * later than the chain's last can still be put on the chain and confirmed.
 */
module TelemetryProgress {
  import opened Wrappers
  import opened Signatures
  import opened HashChain
  import opened TelemetryStore
  import opened TelemetryProtocol
  import opened TelemetrySafety
  import opened TelemetryTheorems
  import TelemetryService
  import Dates

  // ---- runs that follow each other ----

  /** Some honest run leads from one state to the other. */
  ghost predicate Leads(step: ChainStep, s: System, t: System) {
    exists run :: HonestRun(step, s, run) && DoAll(step, s, run) == t
  }

  lemma {:induction false} Witness(step: ChainStep, s: System, run: seq<Action>)
    requires HonestRun(step, s, run)
    ensures Leads(step, s, DoAll(step, s, run))
  {}

  lemma {:induction false} Unfold(step: ChainStep, s: System, t: System)
    requires Leads(step, s, t)
    ensures exists run :: HonestRun(step, s, run) && DoAll(step, s, run) == t
  {}

  lemma {:induction false} OneAction(step: ChainStep, s: System, a: Action)
    requires Honest(s, a)
    ensures Leads(step, s, Do(step, s, a))
  {
    hide Honest, Do;
    var run := [a];
    TelemetryService.DoAllThen(step, s, [], a);
    assert [] + [a] == run && run[..0] == [];
    assert HonestRun(step, s, run);
  }

  lemma {:induction false} HonestConcat(step: ChainStep, s: System, a: seq<Action>, b: seq<Action>)
    requires HonestRun(step, s, a) && HonestRun(step, DoAll(step, s, a), b)
    ensures HonestRun(step, s, a + b)
  {
    hide Honest, DoAll;
    forall k | 0 <= k < |a + b| ensures Honest(DoAll(step, s, (a + b)[..k]), (a + b)[k]) {
      if k < |a| {
        assert (a + b)[..k] == a[..k];
      } else {
        assert (a + b)[..k] == a + b[..k - |a|];
        TelemetryService.DoAllConcat(step, s, a, b[..k - |a|]);
      }
    }
  }

  lemma {:induction false} LeadsFurther(step: ChainStep, s: System, t: System, u: System)
    requires Leads(step, s, t) && Leads(step, t, u)
    ensures Leads(step, s, u)
  {
    var a :| HonestRun(step, s, a) && DoAll(step, s, a) == t;
    var b :| HonestRun(step, t, b) && DoAll(step, t, b) == u;
    hide HonestRun, DoAll;
    TelemetryService.DoAllConcat(step, s, a, b);
    HonestConcat(step, s, a, b);
  }

  // ---- nothing pending ----

  /** Nothing pending, and the program takes the backend's batches. */
  ghost predicate Settled(step: ChainStep, s: System) {
    && Safe(step, s, s.chain.entries, |s.chain.entries|, None) && s.chain.ours && s.chain.recordable
  }

  /** The same days are stored, and the same are on the chain. */
  predicate SameDays(s: System, t: System) {
    && t.chain.base == s.chain.base && t.chain.entries == s.chain.entries
    && t.store.days.Keys == s.store.days.Keys
    && forall d :: d in s.store.days ==> t.store.days[d].dataHash == s.store.days[d].dataHash
  }

  /** Of a process that died, on a project that records for this oracle again. */
  lemma {:induction false} Returns(step: ChainStep, s: System, all: seq<Entry>, n: nat, p: Option<Signature>) returns (t: System)
    requires Safe(step, s, all, n, p)
    ensures Leads(step, s, t) && Safe(step, t, all, n, p)
    ensures t == s.(memory := Idle, chain := s.chain.(recordable := true, ours := true))
  {
    var forgot := Do(step, s, Forget);
    var move := SetProject(true, true);
    t := Do(step, forgot, Network(move));
    assert Honest(s, Forget) && Honest(forgot, Network(move));
    ForgetKeeps(step, s, all, n, p);
    MoveKeeps(step, forgot, all, n, p, move);
    hide Safe, Honest, Leads;
    OneAction(step, s, Forget);
    OneAction(step, forgot, Network(move));
    LeadsFurther(step, s, forgot, t);
  }

  /** A batch in flight fails, and its blockhash expires. */
  lemma {:induction false} Expires(step: ChainStep, s: System, all: seq<Entry>, n: nat, p: Signature) returns (t: System)
    requires Safe(step, s, all, n, Some(p)) && s.memory.Idle? && p in s.chain.txs && s.chain.ours && s.chain.recordable
    ensures Leads(step, s, t) && Safe(step, t, all, n, Some(p)) && t.memory.Idle? && t.store == s.store
    ensures t.chain.base == s.chain.base && t.chain.entries == s.chain.entries && t.chain.ours && t.chain.recordable
    ensures p in t.chain.txs && t.chain.height > t.chain.txs[p].lastValid
  {
    var blocks := s.chain.txs[p].lastValid + 1;
    var failed := Do(step, s, Network(Fail(p)));
    t := Do(step, failed, Network(AdvanceBlocks(blocks)));
    assert Honest(s, Network(Fail(p))) && Honest(failed, Network(AdvanceBlocks(blocks)));
    MoveKeeps(step, s, all, n, Some(p), Fail(p));
    MoveKeeps(step, failed, all, n, Some(p), AdvanceBlocks(blocks));
    hide Safe, Leads, Honest;
    OneAction(step, s, Network(Fail(p)));
    OneAction(step, failed, Network(AdvanceBlocks(blocks)));
    LeadsFurther(step, s, failed, t);
  }

  /** After the next reconcile nothing is pending. */
  lemma {:induction false} Settles(step: ChainStep, s: System, all: seq<Entry>, n: nat, p: Option<Signature>) returns (t: System)
    requires Safe(step, s, all, n, p) && s.memory.Idle? && s.chain.ours && s.chain.recordable
    requires p.Some? && p.value in s.chain.txs ==> s.chain.height > s.chain.txs[p.value].lastValid
    ensures Leads(step, s, t) && Settled(step, t) && t.memory.Idle? && SameDays(s, t)
  {
    t := Do(step, s, Reconcile(0));
    OnlyOnePending(step, s, all, n, p);
    ReconcileSettlesAs(step, s, all, n, p, 0);
    var all', n', p' := ReconcileKeeps(step, s, all, n, p, 0);
    assert t == s.(store := Reconciled(s.store, TipOf(step, s.chain), s.chain.height, 0).0);
    assert Honest(s, Reconcile(0));
    hide Do, Reconciled, Honest, Leads;
    OneAction(step, s, Reconcile(0));
    OnlyOnePending(step, t, all', n', p');
    assert forall x :: !t.store.IsPending(x);
    hide Books, InFlight, Remembered;
    assert p'.None?;
    SafeCount(step, t, all', n');
  }

  lemma {:induction false} SafeCount(step: ChainStep, s: System, all: seq<Entry>, n: nat)
    requires Safe(step, s, all, n, None)
    ensures n == |all| && s.chain.entries == all
  {
    assert all[..|all|] == all;
  }

  // ---- what a sync writes ----

  /** The stored days later than `after` in order. */
  lemma {:induction false} InOrder(t: Tables, after: Date, dates: set<Date>) returns (days: seq<Entry>)
    requires dates <= t.days.Keys && forall d :: d in dates ==> after < d
    ensures Ascending(after, days)
    ensures forall k :: 0 <= k < |days| ==> days[k].date in dates && t.days[days[k].date].dataHash == days[k].dataHash
    ensures forall d :: d in dates ==> exists k :: 0 <= k < |days| && days[k].date == d
  {
    days := [];
    if dates != {} {
      var last := Latest(dates);
      var rest := dates - {last};
      var before := InOrder(t, after, rest);
      days := before + [Entry(last, t.days[last].dataHash)];
      AddsLast(before, rest, Entry(last, t.days[last].dataHash));
      assert forall d :: d in dates ==> d in rest || d == last;
    }
  }

  lemma {:induction false} AddsLast(before: seq<Entry>, rest: set<Date>, last: Entry)
    requires forall d :: d in rest ==> exists k :: 0 <= k < |before| && before[k].date == d
    ensures forall d :: d in rest || d == last.date ==> exists k :: 0 <= k < |before + [last]| && (before + [last])[k].date == d
  {
    var days := before + [last];
    assert days[|before|].date == last.date;
    forall d | d in rest ensures exists k :: 0 <= k < |days| && days[k].date == d {
      var k :| 0 <= k < |before| && before[k].date == d;
      assert days[k].date == d;
    }
  }

  lemma {:induction false} Latest(dates: set<Date>) returns (last: Date)
    requires dates != {}
    ensures last in dates && forall d :: d in dates ==> d <= last
  {
    var x :| x in dates;
    last := x;
    if dates - {x} != {} {
      var other := Latest(dates - {x});
      last := if x < other then other else x;
    }
    forall d | d in dates ensures d <= last {
      assert d == x || d in dates - {x};
    }
  }

  lemma {:induction false} UnsubmittedAreListed(t: Tables, after: Date)
    ensures UnsubmittedOrder(t, after, UnsubmittedDays(t, after))
  {
    var dates := set d | d in t.days && t.IsUnsubmitted(d) && after < d;
    var days := InOrder(t, after, dates);
    forall d | t.IsUnsubmitted(d) && after < d ensures exists k :: 0 <= k < |days| && days[k].date == d {
      assert d in dates;
    }
    assert UnsubmittedOrder(t, after, days);
  }

  /** A sync plans exactly the days that are not submitted and come after the chain's last. */
  lemma {:induction false} Plans(step: ChainStep, s: System) returns (t: System)
    requires Settled(step, s) && s.memory.Idle?
    ensures Leads(step, s, t) && Settled(step, t) && t.chain == s.chain && t.store == s.store
    ensures t.memory.Planned? && UnsubmittedOrder(s.store, TipOf(step, s.chain).lastDate, t.memory.days)
  {
    t := Do(step, s, StartSync(0));
    var tip, all := TipOf(step, s.chain), s.chain.entries;
    OnlyOnePending(step, s, all, |all|, None);
    NothingToSettle(s.store, tip, s.chain.height, 0);
    var all', n', p' := ReconcileKeeps(step, s, all, |all|, None, 0);
    var (store, view) := Reconciled(s.store, tip, s.chain.height, 0);
    assert store == s.store;
    assert p'.None? by {
      OnlyOnePending(step, s.(store := store), all', n', p');
    }
    PlanIsRemembered(step, s, all, |all|);
    UnsubmittedAreListed(s.store, tip.lastDate);
    assert Honest(s, StartSync(0));
    hide Safe, Reconciled, TipOf, PlanOf, UnsubmittedDays, UnsubmittedOrder, Leads, Honest;
    OneAction(step, s, StartSync(0));
  }

  /** Every date the store holds is a day of the calendar. */
  predicate RealDays(t: Tables) { forall d :: d in t.days ==> Dates.IsDateNumber(d) }

  /** The state with the first days of the plan recorded and sent. */
  lemma {:induction false} Sends(step: ChainStep, s: System, y: Signature) returns (t: System, m: nat)
    requires Settled(step, s) && s.memory.Planned? && s.memory.days != [] && y !in s.chain.txs
    ensures Leads(step, s, t) && 1 <= m <= |s.memory.days| && m <= 20
    ensures Safe(step, t, s.chain.entries + s.memory.days[..m], |s.chain.entries|, Some(y))
    ensures t.chain == s.chain.(txs := s.chain.txs[y := Tx(s.memory.days[..m], s.chain.height, Flying)])
    ensures t.memory.Sending? && t.memory.signature == y && t.memory.days == s.memory.days[m..]
    ensures t.store.days.Keys == s.store.days.Keys
  {
    m := BatchSize(s.memory.days);
    var a := BeginBatch(y, s.chain.height);
    t := Do(step, s, a);
    var all := s.chain.entries;
    BatchIsRecorded(step, s, all, |all|, None, y, s.chain.height);
    assert Honest(s, a);
    LinkedKeys(s.store.days, y, s.memory.links[..m]);
    hide Safe, Leads, Honest;
    OneAction(step, s, a);
  }

  lemma {:induction false} LinkedKeys(days: map<Date, DayRow>, signature: Signature, links: seq<PlannedLink>)
    ensures var linked := Linked(days, signature, links); linked.Some? ==> linked.value.Keys == days.Keys
  {
    if links != [] {
      LinkedKeys(days, signature, links[..|links| - 1]);
    }
  }

  /** The program takes the batch that was sent. */
  lemma {:induction false} Lands(step: ChainStep, s: System, all: seq<Entry>, n: nat, y: Signature)
    requires Safe(step, s, all, n, Some(y)) && y in s.chain.txs && s.chain.ours && s.chain.recordable && RealDays(s.store)
    requires s.chain.txs[y].fate == Flying && s.chain.height <= s.chain.txs[y].lastValid && 1 <= |s.chain.txs[y].entries| <= 20
    ensures DoMove(step, s.chain, Land(y)).entries == s.chain.entries + s.chain.txs[y].entries
    ensures y in DoMove(step, s.chain, Land(y)).txs && DoMove(step, s.chain, Land(y)).txs[y].fate == Landed
    ensures DoMove(step, s.chain, Land(y)).base == s.chain.base && DoMove(step, s.chain, Land(y)).ours && DoMove(step, s.chain, Land(y)).recordable
  {
    PendingDays(step, s, all, n, y);
    BatchLandsIff(step, s.chain, y);
    hide Safe, Dates.IsDateNumber, TipOf;
  }

  /** One batch of the plan is sent, lands and is confirmed. */
  lemma {:induction false} WritesOne(step: ChainStep, s: System) returns (t: System, m: nat)
    requires Settled(step, s) && RealDays(s.store) && s.memory.Planned? && s.memory.days != []
    ensures Leads(step, s, t) && Settled(step, t) && 1 <= m <= |s.memory.days|
    ensures t.chain.base == s.chain.base && t.chain.entries == s.chain.entries + s.memory.days[..m]
    ensures t.memory.Planned? && t.memory.days == s.memory.days[m..]
    ensures t.store.days.Keys == s.store.days.Keys
  {
    var y := FreshSignature(s.chain.txs.Keys);
    var sent;
    sent, m := Sends(step, s, y);
    var all := s.chain.entries + s.memory.days[..m];
    Lands(step, sent, all, |s.chain.entries|, y);
    MoveKeeps(step, sent, all, |s.chain.entries|, Some(y), Land(y));
    var landed := Do(step, sent, Network(Land(y)));
    t := Confirms(step, landed, all, |s.chain.entries|, y);
    assert Honest(sent, Network(Land(y)));
    hide Safe, Leads, DoMove, Honest;
    OneAction(step, sent, Network(Land(y)));
    LeadsFurther(step, s, sent, landed);
    LeadsFurther(step, s, landed, t);
  }

  lemma {:induction false} Confirms(step: ChainStep, s: System, all: seq<Entry>, n: nat, y: Signature) returns (t: System)
    requires Safe(step, s, all, n, Some(y)) && s.chain.entries == all && s.chain.ours && s.chain.recordable
    requires s.memory.Sending? && s.memory.signature == y && y in s.chain.txs && s.chain.txs[y].fate == Landed
    ensures Leads(step, s, t) && Settled(step, t) && t.chain == s.chain
    ensures t.memory.Planned? && t.memory.days == s.memory.days && t.store.days.Keys == s.store.days.Keys
  {
    var a := SettleBatch(SendConfirmed, 0);
    t := Do(step, s, a);
    assert Honest(s, a);
    ConfirmKeeps(step, s, all, n, y, 0, Planned(s.memory.days, s.memory.links));
    hide Books, Leads, Honest;
    OneAction(step, s, a);
  }

  /** Batch by batch the whole plan. */
  lemma {:induction false} WritesAll(step: ChainStep, s: System) returns (t: System)
    requires Settled(step, s) && RealDays(s.store) && s.memory.Planned?
    ensures Leads(step, s, t) && Settled(step, t)
    ensures t.chain.base == s.chain.base && t.chain.entries == s.chain.entries + s.memory.days
    ensures t.store.days.Keys == s.store.days.Keys
    decreases |s.memory.days|
  {
    hide Settled, Leads;
    if s.memory.days == [] {
      t := s;
      Witness(step, s, []);
    } else {
      var next, m := WritesOne(step, s);
      t := WritesAll(step, next);
      LeadsFurther(step, s, next, t);
      assert s.memory.days[..m] + s.memory.days[m..] == s.memory.days;
    }
  }

  // ---- every day ----

  lemma {:induction false} LaterIsUnsubmitted(step: ChainStep, s: System, d: Date)
    requires Settled(step, s) && d in s.store.days && TipOf(step, s.chain).lastDate < d
    ensures s.store.IsUnsubmitted(d)
  {
    var all := s.chain.entries;
    assert forall i :: 0 <= i < |all| ==> all[i].date <= TipOf(step, s.chain).lastDate;
  }

  lemma {:induction false} OnChainIsConfirmed(step: ChainStep, s: System, k: nat)
    requires Settled(step, s) && k < |s.chain.entries|
    ensures s.chain.entries[k].date in s.store.days && s.store.days[s.chain.entries[k].date].confirmedAt.Some?
  {
    assert RowAt(step, s.chain.base, s.store, s.chain.entries, |s.chain.entries|, None, k);
  }

  lemma {:induction false} ComesToRest(step: ChainStep, s: System, run: seq<Action>) returns (t: System)
    requires Initial(s) && HonestRun(step, s, run)
    ensures Leads(step, DoAll(step, s, run), t) && Settled(step, t) && t.memory.Idle? && SameDays(DoAll(step, s, run), t)
  {
    var r := DoAll(step, s, run);
    var all, n, p := RunKeeps(step, s, run);
    hide DoAll, Leads;
    var back := Returns(step, r, all, n, p);
    var quiet := back;
    if p.Some? {
      OnlyOnePending(step, back, all, n, p);
      hide Safe;
      quiet := Expires(step, back, all, n, p.value);
      LeadsFurther(step, r, back, quiet);
    }
    hide Safe;
    t := Settles(step, quiet, all, n, p);
    LeadsFurther(step, r, quiet, t);
  }

  /**
   * Whatever runs, crashes, failures and expiries came before: some further honest run puts
   * every stored day later than the chain's last on the chain, under the hash it is stored with,
   * and confirms it. Nothing the store remembers of earlier batches is in the way for good.
   */
  lemma {:induction false} EveryDayCanBeWritten(step: ChainStep, s: System, run: seq<Action>)
    requires Initial(s) && HonestRun(step, s, run)
    requires forall d :: d in DoAll(step, s, run).store.days ==> Dates.IsDateNumber(d)
    ensures exists more ::
      && HonestRun(step, DoAll(step, s, run), more)
      && var r, t := DoAll(step, s, run), DoAll(step, DoAll(step, s, run), more);
      && r.chain.entries <= t.chain.entries
      && forall d :: d in r.store.days && TipOf(step, r.chain).lastDate < d ==>
           Entry(d, r.store.days[d].dataHash) in t.chain.entries && d in t.store.days && t.store.days[d].confirmedAt.Some?
  {
    var r := DoAll(step, s, run);
    var rest := ComesToRest(step, s, run);
    hide DoAll, Leads, Settled, HonestRun, Dates.IsDateNumber, UnsubmittedOrder;
    var t := WritesLater(step, rest);
    LeadsFurther(step, r, rest, t);
    assert TipOf(step, rest.chain) == TipOf(step, r.chain);
    hide TipOf;
    Unfold(step, r, t);
  }

  lemma {:induction false} WritesLater(step: ChainStep, s: System) returns (t: System)
    requires Settled(step, s) && s.memory.Idle? && RealDays(s.store)
    ensures Leads(step, s, t) && s.chain.entries <= t.chain.entries
    ensures forall d :: d in s.store.days && TipOf(step, s.chain).lastDate < d ==>
      Entry(d, s.store.days[d].dataHash) in t.chain.entries && d in t.store.days && t.store.days[d].confirmedAt.Some?
  {
    hide Leads, Settled, Dates.IsDateNumber, UnsubmittedOrder, TipOf;
    var planned := Plans(step, s);
    t := WritesAll(step, planned);
    LeadsFurther(step, s, planned, t);
    forall d | d in s.store.days && TipOf(step, s.chain).lastDate < d
      ensures Entry(d, s.store.days[d].dataHash) in t.chain.entries && d in t.store.days && t.store.days[d].confirmedAt.Some?
    {
      var k := PlannedAt(step, s, planned.memory.days, d);
      assert t.chain.entries[|s.chain.entries| + k] == Entry(d, s.store.days[d].dataHash);
      OnChainIsConfirmed(step, t, |s.chain.entries| + k);
    }
  }

  lemma {:induction false} PlannedAt(step: ChainStep, s: System, days: seq<Entry>, d: Date) returns (k: nat)
    requires Settled(step, s) && UnsubmittedOrder(s.store, TipOf(step, s.chain).lastDate, days)
    requires d in s.store.days && TipOf(step, s.chain).lastDate < d
    ensures k < |days| && days[k] == Entry(d, s.store.days[d].dataHash)
  {
    LaterIsUnsubmitted(step, s, d);
    k :| k < |days| && days[k].date == d;
  }
}
