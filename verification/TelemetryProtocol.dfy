/**
 * The oracle's append protocol as a state machine: the chain with the transactions in flight,
 * the store, and what a running sync holds in memory. Steps of the backend, of the network and
 * of other chain activity interleave freely, and the process may crash between any two.
 *
 * Assumed of the environment: this backend is the project's only telemetry writer, and a
 * transaction lands at most once and never past its last valid block. What a send is reported
 * to have done may be true or not; `HonestRun` says it is.
 */
module TelemetryProtocol {
  import opened Wrappers
  import opened HashChain
  import opened TelemetryStore
  import Dates

  /** `record_telemetry` accepts at most this many entries per transaction. */
  const MAX_ENTRIES_PER_BATCH: nat := 20

  /** `telemetry_count`, `telemetry_head` and `last_telemetry_date` of the project. */
  datatype Tip = Tip(count: nat, head: Hash, lastDate: Date)

  datatype Fate = Flying | Landed | Failed

  datatype Tx = Tx(entries: seq<Entry>, lastValid: nat, fate: Fate)

  /** The project's chain: `entries` are the days appended after `base`, the tip this backend found first. */
  datatype Chain = Chain(
    base: Tip, entries: seq<Entry>, height: nat,
    recordable: bool,  // the project is operating or paused
    ours: bool,        // the project's oracle is this backend's key
    txs: map<Signature, Tx>)

  /** What a running `sync` holds: days still to write, with the links planned for them. */
  datatype Memory =
    | Idle
    | Planned(days: seq<Entry>, links: seq<PlannedLink>)
    | Sending(signature: Signature, days: seq<Entry>, links: seq<PlannedLink>)

  datatype System = System(chain: Chain, store: Tables, memory: Memory)

  datatype View = InSync | PendingBatch | Diverged

  datatype SendOutcome = SendConfirmed | SendFailed | SendExpired | SendUnknown

  /** What the network and the rest of the chain do. */
  datatype Move =
    | Land(signature: Signature)
    | Fail(signature: Signature)
    | AdvanceBlocks(count: nat)
    | SetProject(recordable: bool, ours: bool)

  datatype Action =
    | Network(move: Move)
    | Reconcile(now: nat)
    | StartSync(now: nat)
    | BeginBatch(signature: Signature, lastValid: nat)
    | SettleBatch(outcome: SendOutcome, now: nat)
    | Forget // the process dies, or a sync returns: nothing is held in memory
    | SaveDay(date: Date, dataHash: Hash)

  // ---- the chain ----

  function TipAfter(step: ChainStep, base: Tip, entries: seq<Entry>): Tip {
    Tip(base.count + |entries|, Head(step, base.head, entries),
        if entries == [] then base.lastDate else entries[|entries| - 1].date)
  }

  function TipOf(step: ChainStep, c: Chain): Tip { TipAfter(step, c.base, c.entries) }

  /** The checks of `record_telemetry`. */
  predicate Accepts(step: ChainStep, c: Chain, batch: seq<Entry>) {
    && c.ours && c.recordable && 0 < |batch| <= MAX_ENTRIES_PER_BATCH
    && (forall i :: 0 <= i < |batch| ==> Dates.IsDateNumber(batch[i].date) && TipOf(step, c).lastDate < batch[i].date)
    && (forall i, j :: 0 <= i < j < |batch| ==> batch[i].date < batch[j].date)
  }

  // ---- the backend ----

  /** Chain positions and heads the days take when appended after `tip`, in order. */
  function PlanOf(step: ChainStep, tip: Tip, days: seq<Entry>): (links: seq<PlannedLink>)
    ensures |links| == |days|
    ensures forall k :: 0 <= k < |days| ==> links[k] == LinkAt(step, tip, days, k)
  {
    seq(|days|, k requires 0 <= k < |days| => LinkAt(step, tip, days, k))
  }

  function LinkAt(step: ChainStep, tip: Tip, days: seq<Entry>, k: nat): PlannedLink
    requires k < |days|
  {
    PlannedLink(days[k].date, tip.count + k + 1, Head(step, tip.head, days[..k]), Head(step, tip.head, days[..k + 1]))
  }

  /** The batch's days in chain order, as `submissionLinks` reads them. */
  ghost function BatchDates(t: Tables, signature: Signature): seq<Date> {
    if exists dates :: BatchOrder(t, signature, dates) then
      var dates :| BatchOrder(t, signature, dates);
      dates
    else []
  }

  ghost predicate UnsubmittedOrder(t: Tables, after: Date, days: seq<Entry>) {
    && Ascending(after, days)
    && (forall k :: 0 <= k < |days| ==> t.IsUnsubmitted(days[k].date) && t.days[days[k].date].dataHash == days[k].dataHash)
    && (forall d :: t.IsUnsubmitted(d) && after < d ==> exists k :: 0 <= k < |days| && days[k].date == d)
  }

  /** The days `unsubmittedAfter` reads. */
  ghost function UnsubmittedDays(t: Tables, after: Date): seq<Entry> {
    if exists days :: UnsubmittedOrder(t, after, days) then
      var days :| UnsubmittedOrder(t, after, days);
      days
    else []
  }

  /** Settles a pending batch whose days are `dates`, by the chain tip and height of one read. */
  function SettledPending(t: Tables, signature: Signature, dates: seq<Date>, tip: Tip, height: nat, now: nat): (Tables, View)
    requires dates != [] && SortedByPosition(t.days, dates) && signature in t.submissions
  {
    var first := t.days[dates[0]].link.value;
    var last := t.days[dates[|dates| - 1]].link.value;
    if tip.count == last.position && tip.head == last.headAfter then (t.ConfirmedBatch(signature, now), InSync)
    else if tip.count == first.position - 1 && tip.head == first.headBefore then
      if height <= t.submissions[signature].lastValidBlockHeight then (t, PendingBatch)
      else (t.Abandoned(signature, Expired), InSync)
    else (t, Diverged)
  }

  function ComparedTip(local: Option<ChainLink>, tip: Tip): View {
    if local.None? || (local.value.position == tip.count && local.value.headAfter == tip.head) then InSync else Diverged
  }

  ghost function Reconciled(t: Tables, tip: Tip, height: nat, now: nat): (Tables, View) {
    if exists s :: t.IsPending(s) then
      var s :| t.IsPending(s);
      var dates := BatchDates(t, s);
      if dates == [] || !SortedByPosition(t.days, dates) then (t, Diverged) else SettledPending(t, s, dates, tip, height, now)
    else if exists local :: IsConfirmedTip(t, local) then
      var local :| IsConfirmedTip(t, local);
      (t, ComparedTip(local, tip))
    else (t, Diverged)
  }

  function BatchSize(days: seq<Entry>): nat {
    if |days| <= MAX_ENTRIES_PER_BATCH then |days| else MAX_ENTRIES_PER_BATCH
  }

  // ---- steps; one that is not possible changes nothing ----

  ghost function DoReconcile(step: ChainStep, s: System, now: nat): System {
    if !s.memory.Idle? then s
    else s.(store := Reconciled(s.store, TipOf(step, s.chain), s.chain.height, now).0)
  }

  ghost function DoStartSync(step: ChainStep, s: System, now: nat): System {
    if !s.memory.Idle? then s else
    var tip := TipOf(step, s.chain);
    var (store, view) := Reconciled(s.store, tip, s.chain.height, now);
    if view.InSync? && s.chain.ours && s.chain.recordable then
      var days := UnsubmittedDays(store, tip.lastDate);
      s.(store := store, memory := Planned(days, PlanOf(step, tip, days)))
    else s.(store := store)
  }

  function DoBeginBatch(s: System, signature: Signature, lastValid: nat): System {
    if !s.memory.Planned? || s.memory.days == [] || |s.memory.links| != |s.memory.days|
      || signature in s.chain.txs || signature in s.store.submissions
    then s else
    var n := BatchSize(s.memory.days);
    var recorded := s.store.Recorded(signature, lastValid, s.memory.links[..n]);
    if recorded.None? then s.(memory := Idle) else
    System(s.chain.(txs := s.chain.txs[signature := Tx(s.memory.days[..n], lastValid, Flying)]),
           recorded.value, Sending(signature, s.memory.days[n..], s.memory.links[n..]))
  }

  /** The transaction did not land and never will. */
  predicate CannotLand(c: Chain, signature: Signature) {
    && signature in c.txs && c.txs[signature].fate != Landed
    && (c.txs[signature].fate == Flying ==> c.height > c.txs[signature].lastValid)
  }

  /** What a reported outcome must mean of the transaction. */
  predicate Reportable(c: Chain, signature: Signature, outcome: SendOutcome) {
    match outcome
    case SendConfirmed => signature in c.txs && c.txs[signature].fate == Landed
    case SendFailed => CannotLand(c, signature)
    case SendExpired => CannotLand(c, signature)
    case SendUnknown => true
  }

  function DoSettleBatch(s: System, outcome: SendOutcome, now: nat): System {
    if !s.memory.Sending? || s.memory.signature !in s.store.submissions then s else
    match outcome
    case SendConfirmed =>
      s.(store := s.store.ConfirmedBatch(s.memory.signature, now), memory := Planned(s.memory.days, s.memory.links))
    case SendFailed => s.(store := s.store.Abandoned(s.memory.signature, FailedOnChain), memory := Idle)
    case SendExpired => s.(store := s.store.Abandoned(s.memory.signature, Expired), memory := Idle)
    case SendUnknown => s.(memory := Idle)
  }

  function DoSaveDay(s: System, date: Date, dataHash: Hash): System {
    if date in s.store.days then s
    else s.(store := s.store.(days := s.store.days[date := DayRow(dataHash, None, None)]))
  }

  function DoLand(step: ChainStep, c: Chain, signature: Signature): Chain {
    if signature !in c.txs then c else
    var tx := c.txs[signature];
    if tx.fate != Flying || c.height > tx.lastValid || !Accepts(step, c, tx.entries) then c
    else c.(entries := c.entries + tx.entries, txs := c.txs[signature := tx.(fate := Landed)])
  }

  function DoFail(c: Chain, signature: Signature): Chain {
    if signature !in c.txs || c.txs[signature].fate != Flying then c
    else c.(txs := c.txs[signature := c.txs[signature].(fate := Failed)])
  }

  function DoMove(step: ChainStep, c: Chain, m: Move): Chain {
    match m
    case Land(signature) => DoLand(step, c, signature)
    case Fail(signature) => DoFail(c, signature)
    case AdvanceBlocks(count) => c.(height := c.height + count)
    case SetProject(recordable, ours) => c.(recordable := recordable, ours := ours)
  }

  function Moved(step: ChainStep, c: Chain, moves: seq<Move>): Chain {
    if moves == [] then c else DoMove(step, Moved(step, c, moves[..|moves| - 1]), moves[|moves| - 1])
  }

  ghost function Do(step: ChainStep, s: System, a: Action): System {
    match a
    case Network(m) => s.(chain := DoMove(step, s.chain, m))
    case Reconcile(now) => DoReconcile(step, s, now)
    case StartSync(now) => DoStartSync(step, s, now)
    case BeginBatch(signature, lastValid) => DoBeginBatch(s, signature, lastValid)
    case SettleBatch(outcome, now) => DoSettleBatch(s, outcome, now)
    case Forget => s.(memory := Idle)
    case SaveDay(date, dataHash) => DoSaveDay(s, date, dataHash)
  }

  ghost function DoAll(step: ChainStep, s: System, actions: seq<Action>): System {
    if actions == [] then s
    else Do(step, DoAll(step, s, actions[..|actions| - 1]), actions[|actions| - 1])
  }

  predicate Honest(s: System, a: Action) {
    a.SettleBatch? && s.memory.Sending? ==> Reportable(s.chain, s.memory.signature, a.outcome)
  }

  /** Every outcome a send of the run is reported to have is true when it is reported. */
  ghost predicate HonestRun(step: ChainStep, s: System, run: seq<Action>) {
    forall k :: 0 <= k < |run| ==> Honest(DoAll(step, s, run[..k]), run[k])
  }

  /** Before this backend's first sync: nothing sent, any chain and any days collected. */
  ghost predicate Initial(s: System) {
    && s.chain.entries == [] && s.chain.txs == map[] && s.store.submissions == map[] && s.memory == Idle
    && (forall d :: d in s.store.days ==> s.store.days[d].link.None? && s.store.days[d].confirmedAt.None?)
  }
}
