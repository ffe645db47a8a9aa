/**
 * The oracle's writer: the service that reconciles, plans and sends, step for step, over the
 * store and the network.
 */
module TelemetryService {
  import opened Wrappers
  import opened HashChain
  import opened TelemetryStore
  import opened TelemetryProtocol
  import opened TelemetrySafety
  import opened TelemetryTheorems

  /** The network as the service meets it: an account to read and transactions to send. */
  class Network {
    const step: ChainStep
    var chain: Chain

    constructor (step: ChainStep, chain: Chain)
      ensures this.step == step && this.chain == chain
    {
      this.step, this.chain := step, chain;
    }

    /**
     * Sends a signed batch, lets the network act, and reports what came back. A status the node
     * gives is true; that the transaction expired is the client's own conclusion and may not be.
     */
    method SendAndConfirm(signature: Signature, batch: seq<Entry>, lastValid: nat, turn: Turn) returns (outcome: SendOutcome)
      requires signature !in chain.txs
      modifies this
      ensures var sent := old(chain).(txs := old(chain).txs[signature := Tx(batch, lastValid, Flying)]);
        chain == Moved(step, sent, turn.network)
      ensures signature in chain.txs
      ensures outcome == SendConfirmed <==> turn.outcome == SendConfirmed && chain.txs[signature].fate == Landed
      ensures outcome == SendFailed <==> turn.outcome == SendFailed && chain.txs[signature].fate == Failed
      ensures outcome == SendExpired <==> turn.outcome == SendExpired
    {
      chain := chain.(txs := chain.txs[signature := Tx(batch, lastValid, Flying)]);
      ghost var sent := chain;
      for k := 0 to |turn.network|
        invariant chain == Moved(step, sent, turn.network[..k]) && signature in chain.txs
      {
        assert turn.network[..k + 1][..k] == turn.network[..k];
        chain := DoMove(step, chain, turn.network[k]);
      }
      assert turn.network[..|turn.network|] == turn.network;
      var fate := chain.txs[signature].fate;
      outcome := match turn.outcome
        case SendConfirmed => if fate == Landed then SendConfirmed else SendUnknown
        case SendFailed => if fate == Failed then SendFailed else SendUnknown
        case other => other;
    }
  }

  /** What happens around one send: the transaction the wallet signs, the network's moves, the report. */
  datatype Turn = Turn(signature: Signature, lastValid: nat, network: seq<Move>, outcome: SendOutcome, dies: bool)

  lemma {:induction false} MovedIsDone(step: ChainStep, s: System, moves: seq<Move>)
    ensures DoAll(step, s, AsActions(moves)) == s.(chain := Moved(step, s.chain, moves))
  {
    if moves != [] {
      var before := moves[..|moves| - 1];
      MovedIsDone(step, s, before);
      assert AsActions(moves)[..|moves| - 1] == AsActions(before);
    }
  }

  lemma {:induction false} MovedKeepsTxs(step: ChainStep, c: Chain, moves: seq<Move>)
    ensures Moved(step, c, moves).txs.Keys == c.txs.Keys
  {
    if moves != [] {
      MovedKeepsTxs(step, c, moves[..|moves| - 1]);
    }
  }

  function AsActions(moves: seq<Move>): seq<Action> {
    seq(|moves|, k requires 0 <= k < |moves| => Network(moves[k]))
  }

  lemma {:induction false} DoAllConcat(step: ChainStep, s: System, a: seq<Action>, b: seq<Action>)
    ensures DoAll(step, s, a + b) == DoAll(step, DoAll(step, s, a), b)
  {
    if b == [] {
      assert a + b == a;
    } else {
      assert (a + b)[..|a + b| - 1] == a + b[..|b| - 1];
      DoAllConcat(step, s, a, b[..|b| - 1]);
    }
  }

  lemma {:induction false} DoAllThen(step: ChainStep, s: System, a: seq<Action>, b: Action)
    ensures DoAll(step, s, a + [b]) == Do(step, DoAll(step, s, a), b)
  {
    assert (a + [b])[..|a|] == a;
  }

  lemma {:induction false} HonestTail(step: ChainStep, s: System, a: seq<Action>, b: seq<Action>)
    requires HonestRun(step, s, a + b)
    ensures HonestRun(step, DoAll(step, s, a), b)
  {
    hide DoAll, Honest;
    forall k | 0 <= k < |b| ensures Honest(DoAll(step, DoAll(step, s, a), b[..k]), b[k]) {
      assert (a + b)[..|a| + k] == a + b[..k] && (a + b)[|a| + k] == b[k];
      DoAllConcat(step, s, a, b[..k]);
    }
  }

  /** Where two orders of the unsubmitted days agree so far, neither goes on with a later day. */
  lemma {:induction false} NextInOrder(t: Tables, after: Date, a: seq<Entry>, b: seq<Entry>, i: nat)
    requires UnsubmittedOrder(t, after, a) && UnsubmittedOrder(t, after, b)
    requires i < |a| && i <= |b| && forall k :: 0 <= k < i ==> a[k] == b[k]
    ensures i < |b| && b[i].date <= a[i].date
  {
    assert t.IsUnsubmitted(a[i].date) && after < a[i].date;
    var j :| 0 <= j < |b| && b[j].date == a[i].date;
    assert forall k :: 0 <= k < i ==> b[k].date < a[i].date;
  }

  /** There is only one way to list the unsubmitted days in order. */
  lemma {:induction false} OneOrder(t: Tables, after: Date, a: seq<Entry>, b: seq<Entry>, i: nat)
    requires UnsubmittedOrder(t, after, a) && UnsubmittedOrder(t, after, b) && i <= |a|
    ensures i <= |b| && forall k :: 0 <= k < i ==> a[k] == b[k]
  {
    if i > 0 {
      OneOrder(t, after, a, b, i - 1);
      NextInOrder(t, after, a, b, i - 1);
      NextInOrder(t, after, b, a, i - 1);
      SameHash(t, after, a, i - 1);
      SameHash(t, after, b, i - 1);
      hide UnsubmittedOrder;
    }
  }

  lemma {:induction false} SameHash(t: Tables, after: Date, days: seq<Entry>, i: nat)
    requires UnsubmittedOrder(t, after, days) && i < |days|
    ensures days[i].date in t.days && days[i].dataHash == t.days[days[i].date].dataHash
  {}

  lemma {:induction false} UnsubmittedDaysAre(t: Tables, after: Date, days: seq<Entry>)
    requires UnsubmittedOrder(t, after, days)
    ensures UnsubmittedDays(t, after) == days
  {
    var found := UnsubmittedDays(t, after);
    OneOrder(t, after, days, found, |days|);
    OneOrder(t, after, found, days, |found|);
  }

  /** Either order of equal positions gives `reconcile` the same answer. */
  lemma {:induction false} ReconciledIs(step: ChainStep, s: System, all: seq<Entry>, n: nat, p: Option<Signature>, tip: Tip, height: nat, now: nat)
    requires Safe(step, s, all, n, p)
    ensures p.Some? ==> p.value in s.store.submissions && forall dates :: BatchOrder(s.store, p.value, dates) ==>
      dates != [] && Reconciled(s.store, tip, height, now) == SettledPending(s.store, p.value, dates, tip, height, now)
    ensures p.None? ==> forall local :: IsConfirmedTip(s.store, local) ==>
      Reconciled(s.store, tip, height, now) == (s.store, ComparedTip(local, tip))
  {
    var base := s.chain.base;
    if p.Some? {
      assert forall x :: s.store.IsPending(x) <==> x == p.value;
      BatchOrderExists(step, base, s.store, all, n, p.value);
      BatchEnds(step, base, s.store, all, n, p.value, BatchDates(s.store, p.value));
      forall dates | BatchOrder(s.store, p.value, dates)
        ensures dates != [] && Reconciled(s.store, tip, height, now) == SettledPending(s.store, p.value, dates, tip, height, now)
      {
        BatchEnds(step, base, s.store, all, n, p.value, dates);
      }
    } else {
      assert forall x :: !s.store.IsPending(x);
      ConfirmedTipExists(step, base, s.store, all, n, p);
      forall local | IsConfirmedTip(s.store, local)
        ensures Reconciled(s.store, tip, height, now) == (s.store, ComparedTip(local, tip))
      {
        var other :| IsConfirmedTip(s.store, other) && Reconciled(s.store, tip, height, now) == (s.store, ComparedTip(other, tip));
        ConfirmedTipIsLast(step, base, s.store, all, n, p, local);
        ConfirmedTipIsLast(step, base, s.store, all, n, p, other);
        assert ComparedTip(local, tip) == ComparedTip(other, tip);
      }
    }
  }

  lemma {:induction false} PendingIs(step: ChainStep, s: System, all: seq<Entry>, n: nat, p: Option<Signature>)
    requires Safe(step, s, all, n, p)
    ensures forall x :: s.store.IsPending(x) <==> Some(x) == p
  {}

  datatype SyncState = SyncInSync | SyncPending | SyncDiverged | ForeignOracle | NotOperating | BatchFailed

  /** What a sync's result says of its sends and of what it leaves pending; `days` is how many it had to write. */
  ghost predicate Explained(result: Option<SyncState>, turns: seq<Turn>, days: nat, t: Tables) {
    match result
    case None => |turns| * MAX_ENTRIES_PER_BATCH < days || exists turn :: turn in turns && turn.dies
    case Some(SyncPending) => exists x :: t.IsPending(x)
    case Some(BatchFailed) =>
      && (forall x :: !t.IsPending(x))
      && exists turn :: turn in turns && (turn.outcome == SendFailed || turn.outcome == SendExpired)
    case Some(_) => true
  }

  /** Store and chain are in step. */
  ghost predicate InStep(step: ChainStep, s: System) {
    exists all, n, p :: Safe(step, s, all, n, p)
  }

  lemma {:induction false} NextSlice<T>(s: seq<T>, n: nat, size: nat)
    requires n + size <= |s|
    ensures s[..n] + s[n..][..size] == s[..n + size] && s[n..][size..] == s[n + size..]
  {}

  /** What a batch that was not confirmed makes of its sync. */
  function ResultOf(outcome: Option<SendOutcome>): Option<SyncState> {
    match outcome
    case None => None
    case Some(SendUnknown) => Some(SyncPending)
    case Some(_) => Some(BatchFailed)
  }

  lemma {:induction false} BatchExplains(outcome: Option<SendOutcome>, turns: seq<Turn>, k: nat, days: nat, t: Tables)
    requires k < |turns| && outcome != Some(SendConfirmed) && (outcome.None? ==> turns[k].dies)
    requires outcome == Some(SendUnknown) ==> t.IsPending(turns[k].signature)
    requires outcome == Some(SendFailed) || outcome == Some(SendExpired) ==> outcome == Some(turns[k].outcome) && forall x :: !t.IsPending(x)
    ensures Explained(ResultOf(outcome), turns, days, t)
  {
    assert turns[k] in turns;
  }

  lemma {:induction false} NothingToExplain(turns: seq<Turn>, days: nat, t: Tables)
    ensures Explained(Some(SyncInSync), turns, days, t)
  {}

  lemma {:induction false} RanOut(turns: seq<Turn>, days: nat, t: Tables)
    requires |turns| * MAX_ENTRIES_PER_BATCH < days
    ensures Explained(None, turns, days, t)
  {}

  class TelemetryChainService {
    const network: Network
    const store: Store

    constructor (network: Network, store: Store)
      ensures this.network == network && this.store == store
    {
      this.network, this.store := network, store;
    }

    /** The state of the world between two calls. */
    ghost function World(): System
      reads network, store
    {
      System(network.chain, store.State(), Idle)
    }

    ghost predicate Valid()
      reads network, store
    {
      InStep(network.step, World())
    }

    /** Settles the outcome of the last sent batch and compares the local chain with the program's. */
    method ReconcileNow(now: nat) returns (view: View, tip: Tip)
      requires Valid()
      modifies store
      ensures tip == TipOf(network.step, network.chain)
      ensures (store.State(), view) == Reconciled(old(store.State()), tip, network.chain.height, now)
    {
      hide Safe, Reconciled, Head;
      ghost var all, n, p :| Safe(network.step, World(), all, n, p);
      ghost var before := store.State();
      tip := TipOf(network.step, network.chain);
      var height := network.chain.height;
      ReconciledIs(network.step, World(), all, n, p, tip, height, now);
      PendingIs(network.step, World(), all, n, p);
      var pending := store.PendingSubmission();
      if pending.Some? {
        view := SettlePending(pending.value, tip, height, now);
      } else {
        var local := store.ConfirmedTip();
        view := if local.None? || (local.value.position == tip.count && local.value.headAfter == tip.head) then InSync else Diverged;
      }
    }

    method SettlePending(pending: Signature, tip: Tip, height: nat, now: nat) returns (view: View)
      requires pending in store.State().submissions
      requires forall dates :: BatchOrder(store.State(), pending, dates) ==> dates != []
      modifies store
      ensures exists dates :: BatchOrder(old(store.State()), pending, dates) && dates != [] && (store.State(), view) == SettledPending(old(store.State()), pending, dates, tip, height, now)
    {
      var dates := store.SubmissionLinks(pending);
      var first := store.days[dates[0]].link.value;
      var last := store.days[dates[|dates| - 1]].link.value;
      if tip.count == last.position && tip.head == last.headAfter {
        store.ConfirmSubmission(pending, now);
        return InSync;
      }
      if tip.count == first.position - 1 && tip.head == first.headBefore {
        if height <= store.submissions[pending].lastValidBlockHeight {
          return PendingBatch;
        }
        store.AbandonSubmission(pending, Expired);
        return InSync;
      }
      return Diverged;
    }

    /** Chain positions and heads the days take when appended after `tip`, in order. */
    method Plan(tip: Tip, days: seq<Entry>) returns (links: seq<PlannedLink>)
      ensures links == PlanOf(network.step, tip, days)
    {
      var head := tip.head;
      links := [];
      for index := 0 to |days|
        invariant head == Head(network.step, tip.head, days[..index])
        invariant |links| == index && forall k :: 0 <= k < index ==> links[k] == LinkAt(network.step, tip, days, k)
      {
        assert days[..index + 1][..index] == days[..index];
        var headBefore := head;
        head := network.step(headBefore, days[index].date, days[index].dataHash);
        links := links + [PlannedLink(days[index].date, tip.count + index + 1, headBefore, head)];
      }
    }

    /** Records a batch and sends it; until the outcome is settled, the batch is pending. */
    method SendBatch(turn: Turn, days: seq<Entry>, links: seq<PlannedLink>, ghost s: System)
      returns (reported: SendOutcome, ghost after: System, ghost trace: seq<Action>, ghost all: seq<Entry>, ghost n: nat)
      requires s == System(network.chain, store.State(), Planned(days, links)) && days != []
      requires InStep(network.step, s)
      requires turn.signature !in network.chain.txs
      modifies network, store
      ensures after == DoAll(network.step, s, trace) && after.chain == network.chain && after.store == store.State()
      ensures after.memory == Sending(turn.signature, days[BatchSize(days)..], links[BatchSize(days)..])
      ensures Safe(network.step, after, all, n, Some(turn.signature))
      ensures network.chain.txs.Keys == old(network.chain).txs.Keys + {turn.signature}
      ensures reported != SendExpired ==> Reportable(network.chain, turn.signature, reported)
      ensures reported == SendExpired ==> turn.outcome == SendExpired
      ensures reported == SendFailed ==> turn.outcome == SendFailed
      ensures reported == SendConfirmed ==> network.chain.entries == old(network.chain).entries + days[..BatchSize(days)]
    {
      hide Safe;
      ghost var before, m, p :| Safe(network.step, s, before, m, p);
      PlannedIsSettled(network.step, s, before, m, p);
      BatchIsRecorded(network.step, s, before, m, p, turn.signature, turn.lastValid);
      var size := BatchSize(days);
      var recorded := store.RecordSubmission(turn.signature, turn.lastValid, links[..size]);
      after := Do(network.step, s, BeginBatch(turn.signature, turn.lastValid));
      trace := [BeginBatch(turn.signature, turn.lastValid)];
      DoAllThen(network.step, s, [], trace[0]);
      all, n := before + days[..size], m;

      reported := network.SendAndConfirm(turn.signature, days[..size], turn.lastValid, turn);
      hide DoAll, Do;
      MovedIsDone(network.step, after, turn.network);
      MovedKeepsTxs(network.step, after.chain, turn.network);
      MovesKeep(network.step, after, all, n, Some(turn.signature), turn.network);
      DoAllConcat(network.step, s, trace, AsActions(turn.network));
      trace := trace + AsActions(turn.network);
      after := after.(chain := network.chain);
      LandedIsOnChain(network.step, after, all, n, turn.signature);
    }

    /** Records a batch, sends it, and settles what the send reports; `None` when the process dies before that. */
    method WriteBatch(turn: Turn, days: seq<Entry>, links: seq<PlannedLink>, now: nat, ghost s: System)
      returns (outcome: Option<SendOutcome>, ghost after: System, ghost trace: seq<Action>)
      requires s == System(network.chain, store.State(), Planned(days, links)) && days != []
      requires InStep(network.step, s)
      requires turn.signature !in network.chain.txs
      modifies network, store
      ensures after == DoAll(network.step, s, trace) && after.chain == network.chain && after.store == store.State()
      ensures outcome != Some(SendExpired) || HonestRun(network.step, s, trace) ==> InStep(network.step, after)
      ensures network.chain.txs.Keys == old(network.chain).txs.Keys + {turn.signature}
      ensures outcome == Some(SendConfirmed) ==>
        && after.memory == Planned(days[BatchSize(days)..], links[BatchSize(days)..])
        && network.chain.entries == old(network.chain).entries + days[..BatchSize(days)]
      ensures outcome.None? <==> turn.dies
      ensures outcome == Some(SendUnknown) ==> store.State().IsPending(turn.signature)
      ensures outcome == Some(SendFailed) || outcome == Some(SendExpired) ==>
        outcome == Some(turn.outcome) && forall x :: !store.State().IsPending(x)
    {
      hide Safe, Do, DoAll;
      var reported, sent, sending, all, n := SendBatch(turn, days, links, s);
      OnlyPending(network.step, sent, all, n, turn.signature);
      ghost var settle: Action;
      if turn.dies {
        outcome, settle := None, Forget;
      } else {
        outcome, settle := Some(reported), SettleBatch(reported, now);
        match reported {
          case SendConfirmed => store.ConfirmSubmission(turn.signature, now);
          case SendFailed => store.AbandonSubmission(turn.signature, FailedOnChain);
          case SendExpired => store.AbandonSubmission(turn.signature, Expired);
          case SendUnknown => // the next reconcile settles it
        }
      }
      assert outcome != None && outcome != Some(SendUnknown) ==> forall x :: store.State().IsPending(x) ==> sent.store.IsPending(x) && x != turn.signature;
      DoAllThen(network.step, s, sending, settle);
      trace, after := sending + [settle], Do(network.step, sent, settle);
      Settles(network.step, sent, settle);
      if outcome != Some(SendExpired) || HonestRun(network.step, s, trace) {
        if HonestRun(network.step, s, trace) {
          HonestPrefix(network.step, s, trace, |sending|);
          assert trace[..|sending|] == sending;
        }
        ghost var all', n', p' := DoKeeps(network.step, sent, all, n, Some(turn.signature), settle);
      }
    }

    /** The days `unsubmittedAfter` reads, with their hashes. */
    method ReadDays(after: Date) returns (days: seq<Entry>)
      ensures days == UnsubmittedDays(store.State(), after)
    {
      var dates := store.UnsubmittedAfter(after);
      days := [];
      for k := 0 to |dates|
        invariant |days| == k
        invariant forall j :: 0 <= j < k ==> dates[j] in store.days && days[j] == Entry(dates[j], store.days[dates[j]].dataHash)
      {
        assert dates[k] in dates;
        days := days + [Entry(dates[k], store.days[dates[k]].dataHash)];
      }
      ghost var t := store.State();
      forall k | 0 <= k < |days| ensures t.IsUnsubmitted(days[k].date) && after < days[k].date {
        assert dates[k] in dates;
      }
      forall d | t.IsUnsubmitted(d) && after < d ensures exists k :: 0 <= k < |days| && days[k].date == d {
        assert d in dates;
        var k :| 0 <= k < |dates| && dates[k] == d;
        assert days[k].date == d;
      }
      UnsubmittedDaysAre(t, after, days);
    }

    /**
     * Writes planned days batch by batch until one does not land. `turns` are the sends the
     * process lives to make; the result is `None` when it dies before the end.
     */
    method WriteDays(turns: seq<Turn>, days: seq<Entry>, links: seq<PlannedLink>, now: nat, ghost s: System)
      returns (result: Option<SyncState>, written: nat, ghost after: System, ghost trace: seq<Action>)
      requires s == System(network.chain, store.State(), Planned(days, links)) && |links| == |days|
      requires InStep(network.step, s)
      requires forall k :: 0 <= k < |turns| ==> turns[k].signature !in network.chain.txs
      requires forall j, k :: 0 <= j < k < |turns| ==> turns[j].signature != turns[k].signature
      modifies network, store
      ensures after == DoAll(network.step, s, trace) && after.chain == network.chain && after.store == store.State()
      ensures result != Some(BatchFailed) || HonestRun(network.step, s, trace) ==> InStep(network.step, after)
      ensures result == Some(SyncInSync) ==>
        after.memory.Planned? && written == |days| && network.chain.entries == old(network.chain).entries + days
      ensures result.None? || result == Some(SyncInSync) || result == Some(SyncPending) || result == Some(BatchFailed)
      ensures Explained(result, turns, |days|, store.State())
    {
      hide Safe, InStep, DoAll, Do, HonestRun, Explained, Tables.IsPending;
      NothingToExplain(turns, |days|, store.State());
      written, after, trace := 0, s, [];
      assert DoAll(network.step, s, []) == s by { DoAllNone(network.step, s); }
      result := Some(SyncInSync);
      var k := 0;
      while written < |days| && result == Some(SyncInSync)
        invariant written <= |days| && k <= |turns|
        invariant after == DoAll(network.step, s, trace)
        invariant after.chain == network.chain && after.store == store.State()
        invariant result != Some(BatchFailed) || HonestRun(network.step, s, trace) ==> InStep(network.step, after)
        invariant forall j :: k <= j < |turns| ==> turns[j].signature !in network.chain.txs
        invariant result == Some(SyncInSync) ==>
          after.memory == Planned(days[written..], links[written..]) && network.chain.entries == old(network.chain).entries + days[..written]
        invariant result == Some(SyncInSync) ==> written == |days| || written == k * MAX_ENTRIES_PER_BATCH
        invariant result.None? || result == Some(SyncInSync) || result == Some(SyncPending) || result == Some(BatchFailed)
        invariant Explained(result, turns, |days|, store.State())
        decreases |days| - written, result == Some(SyncInSync)
      {
        if k == |turns| {
          result := None;
          RanOut(turns, |days|, store.State());
        } else {
          var outcome, next, steps := WriteBatch(turns[k], days[written..], links[written..], now, after);
          DoAllConcat(network.step, s, trace, steps);
          if HonestRun(network.step, s, trace + steps) {
            HonestTail(network.step, s, trace, steps);
          }
          after, trace := next, trace + steps;
          k := k + 1;
          if outcome == Some(SendConfirmed) {
            NothingToExplain(turns, |days|, store.State());
            var size := BatchSize(days[written..]);
            NextSlice(days, written, size);
            NextSlice(links, written, size);
            written := written + size;
          } else {
            result := ResultOf(outcome);
            BatchExplains(outcome, turns, k - 1, |days|, store.State());
          }
        }
      }
      assert days[..|days|] == days;
    }

    /** Reconciles, then appends every collected day the chain does not hold yet, oldest first. */
    method SyncNow(turns: seq<Turn>, now: nat) returns (result: Option<SyncState>, written: nat, ghost trace: seq<Action>)
      requires Valid()
      requires forall k :: 0 <= k < |turns| ==> turns[k].signature !in network.chain.txs
      requires forall j, k :: 0 <= j < k < |turns| ==> turns[j].signature != turns[k].signature
      modifies network, store
      ensures World() == DoAll(network.step, old(World()), trace)
      ensures result != Some(BatchFailed) || HonestRun(network.step, old(World()), trace) ==> Valid()
      ensures result == Some(SyncInSync) ==>
        var tip := TipOf(network.step, old(network.chain));
        var days := UnsubmittedDays(Reconciled(old(store.State()), tip, old(network.chain).height, now).0, tip.lastDate);
        && written == |days|
        && network.chain.entries == old(network.chain).entries + days
        && Books(network.step, network.chain.base, store.State(), network.chain.entries, |network.chain.entries|, None)
      ensures var view := Reconciled(old(store.State()), TipOf(network.step, old(network.chain)), old(network.chain).height, now).1;
        && (result == Some(SyncDiverged) <==> view.Diverged?)
        && (result == Some(ForeignOracle) <==> view.InSync? && !old(network.chain).ours)
        && (result == Some(NotOperating) <==> view.InSync? && old(network.chain).ours && !old(network.chain).recordable)
        && (view.PendingBatch? ==> result == Some(SyncPending))
      ensures var tip := TipOf(network.step, old(network.chain));
        var days := UnsubmittedDays(Reconciled(old(store.State()), tip, old(network.chain).height, now).0, tip.lastDate);
        Explained(result, turns, |days|, store.State())
    {
      hide Safe, Books, Reconciled, UnsubmittedDays, TipOf, PlanOf, HonestRun;
      written := 0;
      ghost var s := World();
      ghost var all, n, p :| Safe(network.step, s, all, n, p);
      ghost var all', n', p' := StartSyncKeeps(network.step, s, all, n, p, now);
      trace := [StartSync(now)];
      DoAllThen(network.step, s, [], trace[0]);

      var view, tip := ReconcileNow(now);
      s := Do(network.step, s, StartSync(now));
      if view != InSync {
        assert s == World();
        StillPending(old(store.State()), tip, network.chain.height, now);
        return Some(if view.PendingBatch? then SyncPending else SyncDiverged), written, trace;
      }
      if !network.chain.ours {
        assert s == World();
        return Some(ForeignOracle), written, trace;
      }
      if !network.chain.recordable {
        assert s == World();
        return Some(NotOperating), written, trace;
      }

      var days := ReadDays(tip.lastDate);
      var links := Plan(tip, days);
      assert s == System(network.chain, store.State(), Planned(days, links));
      hide Do, DoAll;
      var outcome, count, after, steps := WriteDays(turns, days, links, now, s);
      result, written := outcome, count;
      DoAllConcat(network.step, old(World()), trace, steps);
      DoAllThen(network.step, old(World()), trace + steps, Forget);
      Forgotten(network.step, after);
      if HonestRun(network.step, old(World()), trace + steps + [Forget]) {
        HonestPrefix(network.step, old(World()), trace + steps + [Forget], |trace + steps|);
        assert (trace + steps + [Forget])[..|trace + steps|] == trace + steps;
        HonestTail(network.step, old(World()), trace, steps);
      }
      trace := trace + steps + [Forget];
      if result != Some(BatchFailed) || HonestRun(network.step, old(World()), trace) {
        all, n, p :| Safe(network.step, after, all, n, p);
        ForgetKeeps(network.step, after, all, n, p);
        assert Safe(network.step, World(), all, n, p);
        if result == Some(SyncInSync) {
          PlannedIsSettled(network.step, after, all, n, p);
        }
      }
    }
  }

  lemma {:induction false} OnlyPending(step: ChainStep, s: System, all: seq<Entry>, n: nat, p: Signature)
    requires Safe(step, s, all, n, Some(p))
    ensures p in s.store.submissions && forall x :: s.store.IsPending(x) <==> x == p
  {}

  /** What settling or dropping a batch leaves in the store and in memory. */
  lemma {:induction false} Settles(step: ChainStep, s: System, a: Action)
    requires s.memory.Sending? && s.memory.signature in s.store.submissions
    ensures a.Forget? ==> Do(step, s, a) == s.(memory := Idle)
    ensures a.SettleBatch? ==> Do(step, s, a) == match a.outcome
      case SendConfirmed => s.(store := s.store.ConfirmedBatch(s.memory.signature, a.now), memory := Planned(s.memory.days, s.memory.links))
      case SendFailed => s.(store := s.store.Abandoned(s.memory.signature, FailedOnChain), memory := Idle)
      case SendExpired => s.(store := s.store.Abandoned(s.memory.signature, Expired), memory := Idle)
      case SendUnknown => s.(memory := Idle)
  {}

  lemma {:induction false} StillPending(t: Tables, tip: Tip, height: nat, now: nat)
    ensures Reconciled(t, tip, height, now).1.PendingBatch? ==> exists x :: Reconciled(t, tip, height, now).0.IsPending(x)
  {}

  lemma {:induction false} DoAllNone(step: ChainStep, s: System)
    ensures DoAll(step, s, []) == s
  {}

  lemma {:induction false} Forgotten(step: ChainStep, s: System)
    ensures Do(step, s, Forget) == s.(memory := Idle)
  {}

  lemma {:induction false} PlannedIsSettled(step: ChainStep, s: System, all: seq<Entry>, n: nat, p: Option<Signature>)
    requires Safe(step, s, all, n, p) && s.memory.Planned?
    ensures s.chain.entries == all && Books(step, s.chain.base, s.store, all, |all|, None) && p.None? && n == |all|
  {}

  lemma {:induction false} LandedIsOnChain(step: ChainStep, s: System, all: seq<Entry>, n: nat, p: Signature)
    requires Safe(step, s, all, n, Some(p))
    ensures p in s.chain.txs && (s.chain.txs[p].fate == Landed ==> s.chain.entries == all)
  {}
}
