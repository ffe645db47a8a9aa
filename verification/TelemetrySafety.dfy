/**
 * What every run of the append protocol keeps: the chain past the adopted tip is the confirmed
 * days, or those followed by the one pending batch.
 */
module TelemetrySafety {
  import opened Wrappers
  import opened HashChain
  import opened TelemetryStore
  import opened TelemetryProtocol

  // ---- the invariant ----

  /** The row of `all[i]` holds its place in the chain from `base`, confirmed or in the batch of `p`. */
  ghost predicate RowAt(step: ChainStep, base: Tip, t: Tables, all: seq<Entry>, n: nat, p: Option<Signature>, i: nat)
    requires i < |all|
  {
    && all[i].date in t.days
    && t.days[all[i].date].dataHash == all[i].dataHash
    && t.days[all[i].date].link.Some?
    && var link := t.days[all[i].date].link.value;
    && link.position == base.count + i + 1
    && link.headBefore == Head(step, base.head, all[..i])
    && link.headAfter == Head(step, base.head, all[..i + 1])
    && link.txSignature in t.submissions
    && if i < n then t.days[all[i].date].confirmedAt.Some? && Some(link.txSignature) != p
       else t.days[all[i].date].confirmedAt.None? && Some(link.txSignature) == p
  }

  /**
   * The store says: the first `n` days of `all` are confirmed, the rest are the batch of the
   * pending submission `p`, and no other day is in a batch.
   */
  ghost predicate Books(step: ChainStep, base: Tip, t: Tables, all: seq<Entry>, n: nat, p: Option<Signature>) {
    && n <= |all| && (p.None? <==> n == |all|)
    && Ascending(base.lastDate, all)
    && (forall i :: 0 <= i < |all| ==> RowAt(step, base, t, all, n, p, i))
    && (forall d :: d in t.days && (t.days[d].link.Some? || t.days[d].confirmedAt.Some?) ==> exists i :: 0 <= i < |all| && all[i].date == d)
    && (forall s :: t.IsPending(s) <==> Some(s) == p)
  }

  /** The transaction did not land and no longer can. */
  ghost predicate Dead(c: Chain, signature: Signature) {
    signature in c.txs && (c.txs[signature].fate == Flying ==> c.height > c.txs[signature].lastValid)
  }

  ghost predicate InFlight(c: Chain, t: Tables, all: seq<Entry>, n: nat, p: Option<Signature>)
    requires n <= |all|
  {
    && t.submissions.Keys <= c.txs.Keys
    && (forall s :: s in c.txs && Some(s) != p ==> Dead(c, s))
    && (p.Some? ==>
          && p.value in c.txs && p.value in t.submissions
          && c.txs[p.value].entries == all[n..]
          && c.txs[p.value].lastValid == t.submissions[p.value].lastValidBlockHeight)
    && c.entries == (if p.Some? && c.txs[p.value].fate == Landed then all else all[..n])
  }

  /** Days held in memory are unsubmitted and planned right after `all`. */
  ghost predicate Continues(step: ChainStep, base: Tip, t: Tables, all: seq<Entry>, days: seq<Entry>, links: seq<PlannedLink>) {
    && links == PlanOf(step, TipAfter(step, base, all), days)
    && Ascending(TipAfter(step, base, all).lastDate, days)
    && (forall k :: 0 <= k < |days| ==> t.IsUnsubmitted(days[k].date) && t.days[days[k].date].dataHash == days[k].dataHash)
  }

  ghost predicate Remembered(step: ChainStep, s: System, all: seq<Entry>, p: Option<Signature>) {
    match s.memory
    case Idle => true
    case Planned(days, links) => p.None? && Continues(step, s.chain.base, s.store, all, days, links)
    case Sending(signature, days, links) => p == Some(signature) && Continues(step, s.chain.base, s.store, all, days, links)
  }

  ghost predicate Safe(step: ChainStep, s: System, all: seq<Entry>, n: nat, p: Option<Signature>) {
    && Books(step, s.chain.base, s.store, all, n, p)
    && InFlight(s.chain, s.store, all, n, p)
    && Remembered(step, s, all, p)
  }

  // ---- the network's steps ----

  lemma {:induction false} MoveKeeps(step: ChainStep, s: System, all: seq<Entry>, n: nat, p: Option<Signature>, m: Move)
    requires Safe(step, s, all, n, p)
    ensures Safe(step, Do(step, s, Network(m)), all, n, p)
  {
    hide Books, Continues;
    BooksBound(step, s.chain.base, s.store, all, n, p);
    assert all[..n] + all[n..] == all;
  }

  lemma {:induction false} BooksBound(step: ChainStep, base: Tip, t: Tables, all: seq<Entry>, n: nat, p: Option<Signature>)
    requires Books(step, base, t, all, n, p)
    ensures n <= |all| && (p.None? <==> n == |all|)
  {}

  // ---- the backend's steps ----

  /** Adding an unsubmitted day disturbs no batch. */
  lemma {:induction false} BooksAddDay(step: ChainStep, base: Tip, t: Tables, all: seq<Entry>, n: nat, p: Option<Signature>, date: Date, dataHash: Hash)
    requires Books(step, base, t, all, n, p) && date !in t.days
    ensures Books(step, base, t.(days := t.days[date := DayRow(dataHash, None, None)]), all, n, p)
  {
    hide Head, Ascending;
    var u := t.(days := t.days[date := DayRow(dataHash, None, None)]);
    forall i | 0 <= i < |all| ensures RowAt(step, base, u, all, n, p, i) {
      assert RowAt(step, base, t, all, n, p, i);
    }
    assert forall x :: t.IsPending(x) <==> u.IsPending(x);
  }

  lemma {:induction false} SaveDayKeeps(step: ChainStep, s: System, all: seq<Entry>, n: nat, p: Option<Signature>, date: Date, dataHash: Hash)
    requires Safe(step, s, all, n, p)
    ensures Safe(step, Do(step, s, SaveDay(date, dataHash)), all, n, p)
  {
    hide Head, Ascending, RowAt, PlanOf;
    if date !in s.store.days {
      BooksAddDay(step, s.chain.base, s.store, all, n, p, date, dataHash);
    }
    hide Books;
    BooksBound(step, s.chain.base, s.store, all, n, p);
  }

  /** Sorting the batch by position gives its first and its last day. */
  lemma {:induction false} BatchEnds(step: ChainStep, base: Tip, t: Tables, all: seq<Entry>, n: nat, p: Signature, dates: seq<Date>)
    requires Books(step, base, t, all, n, Some(p)) && BatchOrder(t, p, dates)
    ensures dates != [] && dates[0] == all[n].date && dates[|dates| - 1] == all[|all| - 1].date
  {
    var first, last := all[n].date, all[|all| - 1].date;
    assert RowAt(step, base, t, all, n, Some(p), n) && RowAt(step, base, t, all, n, Some(p), |all| - 1);
    assert t.InBatch(first, p) && t.InBatch(last, p);
    assert first in dates && last in dates;
    var lo := PlaceOf(step, base, t, all, n, p, dates[0]);
    var hi := PlaceOf(step, base, t, all, n, p, dates[|dates| - 1]);
    var j :| 0 <= j < |dates| && dates[j] == first;
    var k :| 0 <= k < |dates| && dates[k] == last;
    assert t.days[dates[0]].link.value.position <= t.days[dates[j]].link.value.position;
    assert t.days[dates[k]].link.value.position <= t.days[dates[|dates| - 1]].link.value.position;
  }

  lemma {:induction false} PlaceOf(step: ChainStep, base: Tip, t: Tables, all: seq<Entry>, n: nat, p: Signature, date: Date) returns (i: nat)
    requires Books(step, base, t, all, n, Some(p)) && t.InBatch(date, p)
    ensures n <= i < |all| && all[i].date == date && RowAt(step, base, t, all, n, Some(p), i)
  {
    i :| 0 <= i < |all| && all[i].date == date;
    assert RowAt(step, base, t, all, n, Some(p), i);
  }

  /** The batch's own order exists: the days as they were planned. */
  lemma {:induction false} BatchOrderExists(step: ChainStep, base: Tip, t: Tables, all: seq<Entry>, n: nat, p: Signature)
    requires Books(step, base, t, all, n, Some(p))
    ensures BatchOrder(t, p, BatchDates(t, p))
  {
    var dates := seq(|all| - n, k requires 0 <= k < |all| - n => all[n + k].date);
    forall k | 0 <= k < |dates| ensures RowAt(step, base, t, all, n, Some(p), n + k) && t.InBatch(dates[k], p) && dates[k] == all[n + k].date {
    }
    forall d | t.InBatch(d, p) ensures d in dates {
      var i := PlaceOf(step, base, t, all, n, p, d);
      assert dates[i - n] == d;
    }
    assert BatchOrder(t, p, dates);
  }

  lemma {:induction false} ConfirmKeeps(step: ChainStep, s: System, all: seq<Entry>, n: nat, p: Signature, now: nat, memory: Memory)
    requires Safe(step, s, all, n, Some(p)) && s.chain.txs[p].fate == Landed
    requires memory == Idle || (memory.Planned? && Continues(step, s.chain.base, s.store, all, memory.days, memory.links))
    ensures Safe(step, s.(store := s.store.ConfirmedBatch(p, now), memory := memory), all, |all|, None)
  {
    var t := s.store;
    var u := t.ConfirmedBatch(p, now);
    forall i | 0 <= i < |all| ensures RowAt(step, s.chain.base, u, all, |all|, None, i) {
      assert RowAt(step, s.chain.base, t, all, n, Some(p), i);
    }
    forall x ensures !u.IsPending(x) {
      assert t.IsPending(x) <==> x == p;
    }
    assert Books(step, s.chain.base, u, all, |all|, None);
    assert all[..|all|] == all;
  }

  lemma {:induction false} AbandonKeeps(step: ChainStep, s: System, all: seq<Entry>, n: nat, p: Signature, outcome: SubmissionOutcome)
    requires Safe(step, s, all, n, Some(p)) && s.chain.txs[p].fate != Landed && Dead(s.chain, p) && outcome != Pending
    ensures Safe(step, s.(store := s.store.Abandoned(p, outcome), memory := Idle), all[..n], n, None)
  {
    var t := s.store;
    var u := t.Abandoned(p, outcome);
    var rest := all[..n];
    forall i | 0 <= i < n ensures RowAt(step, s.chain.base, u, rest, n, None, i) {
      assert RowAt(step, s.chain.base, t, all, n, Some(p), i);
      assert rest[..i] == all[..i] && rest[..i + 1] == all[..i + 1];
    }
    forall d | d in u.days && (u.days[d].link.Some? || u.days[d].confirmedAt.Some?)
      ensures exists i :: 0 <= i < |rest| && rest[i].date == d
    {
      var i :| 0 <= i < |all| && all[i].date == d;
      assert RowAt(step, s.chain.base, t, all, n, Some(p), i);
      assert i < n;
      assert rest[i].date == d;
    }
    forall x ensures !u.IsPending(x) {
      assert t.IsPending(x) <==> x == p;
    }
    assert Books(step, s.chain.base, u, rest, n, None);
    assert rest[..n] == rest;
  }

  lemma {:induction false} SettleKeeps(step: ChainStep, s: System, all: seq<Entry>, n: nat, p: Option<Signature>, outcome: SendOutcome, now: nat)
    returns (all': seq<Entry>, n': nat, p': Option<Signature>)
    requires Safe(step, s, all, n, p) && Honest(s, SettleBatch(outcome, now))
    ensures Safe(step, Do(step, s, SettleBatch(outcome, now)), all', n', p')
  {
    all', n', p' := all, n, p;
    if s.memory.Sending? {
      var signature := s.memory.signature;
      match outcome {
        case SendConfirmed =>
          ConfirmKeeps(step, s, all, n, signature, now, Planned(s.memory.days, s.memory.links));
          n', p' := |all|, None;
        case SendFailed =>
          AbandonKeeps(step, s, all, n, signature, FailedOnChain);
          all', p' := all[..n], None;
        case SendExpired =>
          AbandonKeeps(step, s, all, n, signature, Expired);
          all', p' := all[..n], None;
        case SendUnknown =>
      }
    }
  }

  // ---- recording a batch ----

  function Submitted(l: PlannedLink, signature: Signature): ChainLink {
    ChainLink(l.position, l.headBefore, l.headAfter, signature)
  }

  /** Linking distinct unsubmitted days never fails and changes only their links. */
  lemma {:induction false} LinkedAll(days: map<Date, DayRow>, signature: Signature, links: seq<PlannedLink>)
    requires forall k :: 0 <= k < |links| ==> links[k].date in days && days[links[k].date].link.None?
    requires forall j, k :: 0 <= j < k < |links| ==> links[j].date != links[k].date
    ensures Linked(days, signature, links).Some?
    ensures var linked := Linked(days, signature, links).value;
      && linked.Keys == days.Keys
      && (forall k :: 0 <= k < |links| ==> linked[links[k].date] == days[links[k].date].(link := Some(Submitted(links[k], signature))))
      && (forall d :: d in days && (forall k :: 0 <= k < |links| ==> links[k].date != d) ==> linked[d] == days[d])
  {
    if links != [] {
      var before, l := links[..|links| - 1], links[|links| - 1];
      LinkedAll(days, signature, before);
      assert forall k :: 0 <= k < |before| ==> before[k] == links[k];
    }
  }

  /** The plan of `all + days` is the plan of `all` and then that of `days` after it. */
  lemma {:induction false} PlanContinues(step: ChainStep, base: Tip, all: seq<Entry>, days: seq<Entry>, k: nat)
    requires k < |days|
    ensures LinkAt(step, TipAfter(step, base, all), days, k) == LinkAt(step, base, all + days, |all| + k)
  {
    assert (all + days)[..|all| + k] == all + days[..k];
    assert (all + days)[..|all| + k + 1] == all + days[..k + 1];
    HeadConcat(step, base.head, all, days[..k]);
    HeadConcat(step, base.head, all, days[..k + 1]);
  }

  lemma {:induction false} AscendingConcat(after: Date, a: seq<Entry>, b: seq<Entry>)
    requires Ascending(after, a) && Ascending(if a == [] then after else a[|a| - 1].date, b)
    ensures Ascending(after, a + b)
  {}

  lemma {:induction false} PlanDrops(step: ChainStep, base: Tip, all: seq<Entry>, days: seq<Entry>, m: nat)
    requires m <= |days|
    ensures PlanOf(step, TipAfter(step, base, all), days)[m..] == PlanOf(step, TipAfter(step, base, all + days[..m]), days[m..])
  {
    hide LinkAt, Head;
    var tip, more := TipAfter(step, base, all), TipAfter(step, base, all + days[..m]);
    forall k | 0 <= k < |days| - m ensures PlanOf(step, tip, days)[m..][k] == LinkAt(step, more, days[m..], k) {
      PlanContinues(step, base, all, days, m + k);
      PlanContinues(step, base, all + days[..m], days[m..], k);
      assert all + days[..m] + days[m..] == all + days;
    }
  }

  /** What is left of a plan after its first `m` days continues from them. */
  lemma {:induction false} PlanSplits(step: ChainStep, base: Tip, t: Tables, u: Tables, all: seq<Entry>, days: seq<Entry>, links: seq<PlannedLink>, m: nat)
    requires Continues(step, base, t, all, days, links) && m <= |days| && Ascending(base.lastDate, all)
    requires forall k :: m <= k < |days| ==> days[k].date in u.days && u.days[days[k].date] == t.days[days[k].date]
    ensures Continues(step, base, u, all + days[..m], days[m..], links[m..])
    ensures Ascending(base.lastDate, all + days[..m])
  {
    hide Head, PlanOf;
    PlanDrops(step, base, all, days, m);
    AscendingSplit(base.lastDate, all, days, m);
    forall k | 0 <= k < |days| - m
      ensures u.IsUnsubmitted(days[m..][k].date) && u.days[days[m..][k].date].dataHash == days[m..][k].dataHash
    {
      assert days[m..][k] == days[m + k];
    }
    hide Ascending;
  }

  lemma {:induction false} AscendingSplit(after: Date, a: seq<Entry>, days: seq<Entry>, m: nat)
    requires Ascending(after, a) && Ascending(if a == [] then after else a[|a| - 1].date, days) && m <= |days|
    ensures Ascending(after, a + days[..m])
    ensures Ascending(if a + days[..m] == [] then after else (a + days[..m])[|a + days[..m]| - 1].date, days[m..])
  {
    AscendingConcat(after, a, days[..m]);
  }

  lemma {:induction false} BeginBatchKeeps(step: ChainStep, s: System, all: seq<Entry>, n: nat, p: Option<Signature>, signature: Signature, lastValid: nat)
    returns (all': seq<Entry>, n': nat, p': Option<Signature>)
    requires Safe(step, s, all, n, p)
    ensures Safe(step, Do(step, s, BeginBatch(signature, lastValid)), all', n', p')
  {
    all', n', p' := all, n, p;
    if s.memory.Planned? && s.memory.days != [] && signature !in s.chain.txs && signature !in s.store.submissions {
      var m := BatchSize(s.memory.days);
      all', p' := all + s.memory.days[..m], Some(signature);
      RecordKeeps(step, s, all, signature, lastValid, m);
    }
  }

  /** The day at `i` was unsubmitted and took its planned place in the batch. */
  ghost predicate JoinsBatch(step: ChainStep, base: Tip, t: Tables, u: Tables, whole: seq<Entry>, i: nat, signature: Signature)
    requires i < |whole|
  {
    var d := whole[i].date;
    && t.IsUnsubmitted(d) && t.days[d].dataHash == whole[i].dataHash
    && d in u.days && u.days[d] == t.days[d].(link := Some(Submitted(LinkAt(step, base, whole, i), signature)))
  }

  /** Recording a batch is never refused, and the days it covers follow the confirmed ones. */
  lemma {:induction false} RecordTables(step: ChainStep, base: Tip, t: Tables, all: seq<Entry>, days: seq<Entry>, links: seq<PlannedLink>,
                     signature: Signature, lastValid: nat, m: nat)
    requires Continues(step, base, t, all, days, links) && signature !in t.submissions && m <= |days|
    ensures t.Recorded(signature, lastValid, links[..m]).Some?
    ensures var u := t.Recorded(signature, lastValid, links[..m]).value;
      && u.submissions == t.submissions[signature := SubmissionRow(lastValid, Pending)]
      && u.days.Keys == t.days.Keys
      && (forall i :: |all| <= i < |all| + m ==> JoinsBatch(step, base, t, u, all + days, i, signature))
      && (forall d :: d in t.days && (forall k :: 0 <= k < m ==> days[k].date != d) ==> u.days[d] == t.days[d])
  {
    hide Head;
    var batch := links[..m];
    forall k | 0 <= k < m ensures batch[k] == LinkAt(step, base, all + days, |all| + k) && batch[k].date == days[k].date {
      assert batch[k] == LinkAt(step, TipAfter(step, base, all), days, k);
      PlanContinues(step, base, all, days, k);
    }
    LinkedAll(t.days, signature, batch);
    LinkedJoin(step, base, t, t.Recorded(signature, lastValid, batch).value, all, days, batch, signature);
  }

  lemma {:induction false} LinkedJoin(step: ChainStep, base: Tip, t: Tables, u: Tables, all: seq<Entry>, days: seq<Entry>, batch: seq<PlannedLink>, signature: Signature)
    requires |batch| <= |days| && u.days.Keys == t.days.Keys
    requires forall k :: 0 <= k < |batch| ==> t.IsUnsubmitted(days[k].date) && t.days[days[k].date].dataHash == days[k].dataHash
    requires forall k :: 0 <= k < |batch| ==> batch[k] == LinkAt(step, base, all + days, |all| + k) && batch[k].date == days[k].date
    requires forall k :: 0 <= k < |batch| ==>
      days[k].date in t.days && u.days[days[k].date] == t.days[days[k].date].(link := Some(Submitted(batch[k], signature)))
    requires forall d :: d in t.days && (forall k :: 0 <= k < |batch| ==> batch[k].date != d) ==> u.days[d] == t.days[d]
    ensures forall i :: |all| <= i < |all| + |batch| ==> JoinsBatch(step, base, t, u, all + days, i, signature)
    ensures forall d :: d in t.days && (forall k :: 0 <= k < |batch| ==> days[k].date != d) ==> u.days[d] == t.days[d]
  {
    hide LinkAt, Submitted;
    forall i | |all| <= i < |all| + |batch| ensures JoinsBatch(step, base, t, u, all + days, i, signature) {
      var k := i - |all|;
      assert (all + days)[i] == days[k];
      assert u.days[days[k].date] == t.days[days[k].date].(link := Some(Submitted(batch[k], signature)));
    }
    forall d | d in t.days && (forall k :: 0 <= k < |batch| ==> days[k].date != d) ensures u.days[d] == t.days[d] {
      assert forall k :: 0 <= k < |batch| ==> batch[k].date != d;
    }
  }

  lemma {:induction false} RecordRows(step: ChainStep, base: Tip, t: Tables, u: Tables, all: seq<Entry>, days: seq<Entry>, signature: Signature, m: nat)
    requires Books(step, base, t, all, |all|, None) && m <= |days| && signature !in t.submissions
    requires u.submissions.Keys == t.submissions.Keys + {signature}
    requires forall i :: |all| <= i < |all| + m ==> JoinsBatch(step, base, t, u, all + days, i, signature)
    requires forall i :: 0 <= i < |all| && all[i].date in t.days ==> all[i].date in u.days && u.days[all[i].date] == t.days[all[i].date]
    ensures forall i :: 0 <= i < |all| + m ==> RowAt(step, base, u, all + days[..m], |all|, Some(signature), i)
  {
    hide Head;
    var whole := all + days[..m];
    forall i | 0 <= i < |whole| ensures RowAt(step, base, u, whole, |all|, Some(signature), i) {
      assert (all + days)[..i] == whole[..i] && (all + days)[..i + 1] == whole[..i + 1];
      if i < |all| {
        assert RowAt(step, base, t, all, |all|, None, i);
        assert whole[..i] == all[..i] && whole[..i + 1] == all[..i + 1];
      } else {
        assert JoinsBatch(step, base, t, u, all + days, i, signature);
        UnsubmittedIsUnconfirmed(step, base, t, all, |all|, None, whole[i].date);
      }
    }
  }

  lemma {:induction false} RecordBooks(step: ChainStep, base: Tip, t: Tables, all: seq<Entry>, days: seq<Entry>, links: seq<PlannedLink>,
                    signature: Signature, lastValid: nat, m: nat)
    requires Books(step, base, t, all, |all|, None) && Continues(step, base, t, all, days, links)
    requires signature !in t.submissions && 0 < m <= |days|
    ensures t.Recorded(signature, lastValid, links[..m]).Some?
    ensures Books(step, base, t.Recorded(signature, lastValid, links[..m]).value, all + days[..m], |all|, Some(signature))
  {
    hide Head, PlanOf, LinkAt;
    RecordTables(step, base, t, all, days, links, signature, lastValid, m);
    var u := t.Recorded(signature, lastValid, links[..m]).value;
    var whole := all + days[..m];
    AscendingConcat(base.lastDate, all, days[..m]);
    hide Linked, RowAt, JoinsBatch;
    forall i | 0 <= i < |all| && all[i].date in t.days ensures u.days[all[i].date] == t.days[all[i].date] {
      assert whole[i] == all[i];
      assert forall k :: 0 <= k < m ==> whole[|all| + k] == days[k];
    }
    RecordRows(step, base, t, u, all, days, signature, m);
    RecordCovers(step, base, t, u, all, days, m);
    forall x ensures u.IsPending(x) <==> x == signature {
      assert !t.IsPending(x);
    }
  }

  lemma {:induction false} RecordCovers(step: ChainStep, base: Tip, t: Tables, u: Tables, all: seq<Entry>, days: seq<Entry>, m: nat)
    requires Books(step, base, t, all, |all|, None) && m <= |days| && u.days.Keys == t.days.Keys
    requires forall d :: d in t.days && (forall k :: 0 <= k < m ==> days[k].date != d) ==> u.days[d] == t.days[d]
    ensures forall d :: d in u.days && (u.days[d].link.Some? || u.days[d].confirmedAt.Some?) ==> exists i :: 0 <= i < |all| + m && (all + days[..m])[i].date == d
  {
    hide RowAt;
    var whole := all + days[..m];
    forall d | d in u.days && (u.days[d].link.Some? || u.days[d].confirmedAt.Some?)
      ensures exists i :: 0 <= i < |whole| && whole[i].date == d
    {
      if k :| 0 <= k < m && days[k].date == d {
        assert whole[|all| + k].date == d;
      } else {
        var i :| 0 <= i < |all| && all[i].date == d;
        assert whole[i].date == d;
      }
    }
  }

  lemma {:induction false} UnsubmittedIsUnconfirmed(step: ChainStep, base: Tip, t: Tables, all: seq<Entry>, n: nat, p: Option<Signature>, date: Date)
    requires Books(step, base, t, all, n, p) && t.IsUnsubmitted(date)
    ensures t.days[date].confirmedAt.None?
  {
    forall i | 0 <= i < |all| ensures all[i].date != date {
      assert RowAt(step, base, t, all, n, p, i);
    }
  }

  /** The state after a batch was recorded is safe, given that its tables are. */
  lemma {:induction false} RecordedIsSafe(step: ChainStep, s: System, u: Tables, all: seq<Entry>, signature: Signature, lastValid: nat, m: nat)
    requires s.memory.Planned? && m <= |s.memory.days| == |s.memory.links| && signature !in s.chain.txs
    requires InFlight(s.chain, s.store, all, |all|, None)
    requires u.submissions == s.store.submissions[signature := SubmissionRow(lastValid, Pending)]
    requires Books(step, s.chain.base, u, all + s.memory.days[..m], |all|, Some(signature))
    requires Continues(step, s.chain.base, u, all + s.memory.days[..m], s.memory.days[m..], s.memory.links[m..])
    ensures Safe(step,
                 System(s.chain.(txs := s.chain.txs[signature := Tx(s.memory.days[..m], lastValid, Flying)]),
                        u, Sending(signature, s.memory.days[m..], s.memory.links[m..])),
                 all + s.memory.days[..m], |all|, Some(signature))
  {
    hide Books, Continues;
    assert (all + s.memory.days[..m])[|all|..] == s.memory.days[..m];
    assert (all + s.memory.days[..m])[..|all|] == all == all[..|all|];
  }

  lemma {:induction false} RecordKeeps(step: ChainStep, s: System, all: seq<Entry>, signature: Signature, lastValid: nat, m: nat)
    requires s.memory.Planned? && s.memory.days != [] && signature !in s.chain.txs && signature !in s.store.submissions
    requires Safe(step, s, all, |all|, None) && m == BatchSize(s.memory.days)
    ensures Do(step, s, BeginBatch(signature, lastValid)).memory.Sending?
    ensures Safe(step, Do(step, s, BeginBatch(signature, lastValid)), all + s.memory.days[..m], |all|, Some(signature))
  {
    hide Head, PlanOf, RowAt, LinkAt, JoinsBatch, Linked, InFlight;
    var days, links := s.memory.days, s.memory.links;
    assert Continues(step, s.chain.base, s.store, all, days, links);
    RecordTables(step, s.chain.base, s.store, all, days, links, signature, lastValid, m);
    RecordBooks(step, s.chain.base, s.store, all, days, links, signature, lastValid, m);
    var u := s.store.Recorded(signature, lastValid, links[..m]).value;
    LaterDaysStay(step, s.chain.base, s.store, u, all, days, links, m);
    hide Books, Continues;
    RecordedIsSafe(step, s, u, all, signature, lastValid, m);
  }

  /** A planned batch is never refused by the store. */
  lemma {:induction false} BatchIsRecorded(step: ChainStep, s: System, all: seq<Entry>, n: nat, p: Option<Signature>, signature: Signature, lastValid: nat)
    requires Safe(step, s, all, n, p) && s.memory.Planned? && s.memory.days != [] && signature !in s.chain.txs
    ensures |s.memory.links| == |s.memory.days| && signature !in s.store.submissions
    ensures s.store.Recorded(signature, lastValid, s.memory.links[..BatchSize(s.memory.days)]).Some?
    ensures Safe(step, Do(step, s, BeginBatch(signature, lastValid)), all + s.memory.days[..BatchSize(s.memory.days)], n, Some(signature))
  {
    RecordKeeps(step, s, all, signature, lastValid, BatchSize(s.memory.days));
  }

  lemma {:induction false} LaterDaysStay(step: ChainStep, base: Tip, t: Tables, u: Tables, all: seq<Entry>, days: seq<Entry>, links: seq<PlannedLink>, m: nat)
    requires Continues(step, base, t, all, days, links) && Ascending(base.lastDate, all) && m <= |days| && u.days.Keys == t.days.Keys
    requires forall d :: d in t.days && (forall k :: 0 <= k < m ==> days[k].date != d) ==> u.days[d] == t.days[d]
    ensures Continues(step, base, u, all + days[..m], days[m..], links[m..])
  {
    hide Head, PlanOf;
    forall k | m <= k < |days| ensures u.days[days[k].date] == t.days[days[k].date] {
      assert forall j :: 0 <= j < m ==> days[j].date < days[k].date;
    }
    PlanSplits(step, base, t, u, all, days, links, m);
  }

  // ---- reconciling ----

  /** The newest confirmed day is the last of the confirmed ones, at its chain position. */
  lemma {:induction false} ConfirmedTipIsLast(step: ChainStep, base: Tip, t: Tables, all: seq<Entry>, n: nat, p: Option<Signature>, local: Option<ChainLink>)
    requires Books(step, base, t, all, n, p) && IsConfirmedTip(t, local)
    ensures local.None? <==> n == 0
    ensures local.Some? ==> local.value.position == base.count + n && local.value.headAfter == Head(step, base.head, all[..n])
  {
    hide Head;
    forall i | 0 <= i < n ensures t.IsConfirmed(all[i].date) && t.days[all[i].date].link.value.position == base.count + i + 1 {
      assert RowAt(step, base, t, all, n, p, i);
    }
    if n > 0 {
      assert t.IsConfirmed(all[n - 1].date);
    }
    if local.Some? {
      var link := local.value;
      var d :| t.IsConfirmed(d) && t.days[d].link.value == link
               && forall e :: t.IsConfirmed(e) ==> t.days[e].link.value.position <= link.position;
      var i :| 0 <= i < |all| && all[i].date == d;
      assert RowAt(step, base, t, all, n, p, i);
      assert t.days[all[n - 1].date].link.value.position <= link.position;
    }
  }

  lemma {:induction false} ConfirmedTipExists(step: ChainStep, base: Tip, t: Tables, all: seq<Entry>, n: nat, p: Option<Signature>)
    requires Books(step, base, t, all, n, p)
    ensures exists local :: IsConfirmedTip(t, local)
  {
    hide Head;
    forall d | t.IsConfirmed(d)
      ensures n > 0 && t.days[d].link.value.position <= base.count + n
    {
      var i :| 0 <= i < |all| && all[i].date == d;
      assert RowAt(step, base, t, all, n, p, i);
    }
    if n > 0 {
      assert RowAt(step, base, t, all, n, p, n - 1);
      var link := t.days[all[n - 1].date].link.value;
      assert t.IsConfirmed(all[n - 1].date);
      assert IsConfirmedTip(t, Some(link));
    } else {
      assert IsConfirmedTip(t, None);
    }
  }

  /** A batch found landed is confirmed, one that cannot land any more goes back to unsubmitted. */
  lemma {:induction false} SettledPendingKeeps(step: ChainStep, s: System, all: seq<Entry>, n: nat, p: Signature, dates: seq<Date>, now: nat)
    returns (all': seq<Entry>, n': nat, p': Option<Signature>)
    requires Safe(step, s, all, n, Some(p)) && s.memory.Idle? && BatchOrder(s.store, p, dates) && dates != []
    ensures var (t, view) := SettledPending(s.store, p, dates, TipOf(step, s.chain), s.chain.height, now);
      && Safe(step, s.(store := t), all', n', p')
      && view == (if p'.None? then InSync else PendingBatch)
      && all' == (if p'.None? then s.chain.entries else all)
  {
    var base := s.chain.base;
    BatchEnds(step, base, s.store, all, n, p, dates);
    assert RowAt(step, base, s.store, all, n, Some(p), n);
    assert RowAt(step, base, s.store, all, n, Some(p), |all| - 1);
    assert all[..|all|] == all;
    hide Books, RowAt, Head;
    var landed := s.chain.txs[p].fate == Landed;
    if landed {
      all', n', p' := all, |all|, None;
      ConfirmKeeps(step, s, all, n, p, now, Idle);
    } else if s.chain.height <= s.store.submissions[p].lastValidBlockHeight {
      all', n', p' := all, n, Some(p);
    } else {
      all', n', p' := all[..n], n, None;
      AbandonKeeps(step, s, all, n, p, Expired);
    }
  }

  lemma {:induction false} ReconcileKeeps(step: ChainStep, s: System, all: seq<Entry>, n: nat, p: Option<Signature>, now: nat)
    returns (all': seq<Entry>, n': nat, p': Option<Signature>)
    requires Safe(step, s, all, n, p) && s.memory.Idle?
    ensures var (t, view) := Reconciled(s.store, TipOf(step, s.chain), s.chain.height, now);
      && Safe(step, s.(store := t), all', n', p')
      && view == (if p'.None? then InSync else PendingBatch)
      && all' == (if p'.None? then s.chain.entries else all)
  {
    var base := s.chain.base;
    if p.Some? {
      assert forall x :: s.store.IsPending(x) <==> x == p.value;
      BatchOrderExists(step, base, s.store, all, n, p.value);
      BatchEnds(step, base, s.store, all, n, p.value, BatchDates(s.store, p.value));
      all', n', p' := SettledPendingKeeps(step, s, all, n, p.value, BatchDates(s.store, p.value), now);
      assert Reconciled(s.store, TipOf(step, s.chain), s.chain.height, now)
          == SettledPending(s.store, p.value, BatchDates(s.store, p.value), TipOf(step, s.chain), s.chain.height, now);
    } else {
      all', n', p' := all, n, p;
      assert forall x :: !s.store.IsPending(x);
      ConfirmedTipExists(step, base, s.store, all, n, p);
      var local :| IsConfirmedTip(s.store, local) && Reconciled(s.store, TipOf(step, s.chain), s.chain.height, now)
                                                      == (s.store, ComparedTip(local, TipOf(step, s.chain)));
      ConfirmedTipIsLast(step, base, s.store, all, n, p, local);
      assert all[..n] == all;
      assert s.chain.entries == all;
      assert ComparedTip(local, TipOf(step, s.chain)) == InSync;
      assert Reconciled(s.store, TipOf(step, s.chain), s.chain.height, now) == (s.store, InSync);
    }
  }

  lemma {:induction false} StartSyncKeeps(step: ChainStep, s: System, all: seq<Entry>, n: nat, p: Option<Signature>, now: nat)
    returns (all': seq<Entry>, n': nat, p': Option<Signature>)
    requires Safe(step, s, all, n, p)
    ensures Safe(step, Do(step, s, StartSync(now)), all', n', p')
  {
    hide Safe, Reconciled, TipOf, PlanOf, UnsubmittedDays;
    all', n', p' := all, n, p;
    if s.memory.Idle? {
      all', n', p' := ReconcileKeeps(step, s, all, n, p, now);
      if p'.None? {
        var t := Reconciled(s.store, TipOf(step, s.chain), s.chain.height, now).0;
        PlanIsRemembered(step, s.(store := t), all', n');
      }
    }
  }

  /** The days a sync plans follow those the chain holds. */
  lemma {:induction false} PlanIsRemembered(step: ChainStep, s: System, all: seq<Entry>, n: nat)
    requires Safe(step, s, all, n, None) && s.chain.entries == all
    ensures var tip := TipOf(step, s.chain);
      var days := UnsubmittedDays(s.store, tip.lastDate);
      Safe(step, s.(memory := Planned(days, PlanOf(step, tip, days))), all, n, None)
  {
    hide Books, InFlight, PlanOf, TipAfter;
  }

  lemma {:induction false} DoKeeps(step: ChainStep, s: System, all: seq<Entry>, n: nat, p: Option<Signature>, a: Action)
    returns (all': seq<Entry>, n': nat, p': Option<Signature>)
    requires Safe(step, s, all, n, p) && Honest(s, a)
    ensures Safe(step, Do(step, s, a), all', n', p')
  {
    all', n', p' := all, n, p;
    hide Safe;
    match a
    case Reconcile(now) =>
      if s.memory.Idle? {
        all', n', p' := ReconcileKeeps(step, s, all, n, p, now);
      }
    case StartSync(now) => all', n', p' := StartSyncKeeps(step, s, all, n, p, now);
    case BeginBatch(signature, lastValid) => all', n', p' := BeginBatchKeeps(step, s, all, n, p, signature, lastValid);
    case SettleBatch(outcome, now) => all', n', p' := SettleKeeps(step, s, all, n, p, outcome, now);
    case SaveDay(date, dataHash) => SaveDayKeeps(step, s, all, n, p, date, dataHash);
    case Network(m) => MoveKeeps(step, s, all, n, p, m);
    case Forget => ForgetKeeps(step, s, all, n, p);
  }

  lemma {:induction false} ForgetKeeps(step: ChainStep, s: System, all: seq<Entry>, n: nat, p: Option<Signature>)
    requires Safe(step, s, all, n, p)
    ensures Safe(step, Do(step, s, Forget), all, n, p)
  {}

  lemma {:induction false} RunKeeps(step: ChainStep, s: System, run: seq<Action>)
    returns (all: seq<Entry>, n: nat, p: Option<Signature>)
    requires Initial(s) && HonestRun(step, s, run)
    ensures Safe(step, DoAll(step, s, run), all, n, p)
  {
    if run == [] {
      all, n, p := [], 0, None;
    } else {
      HonestPrefix(step, s, run, |run| - 1);
      var all0, n0, p0 := RunKeeps(step, s, run[..|run| - 1]);
      all, n, p := DoKeeps(step, DoAll(step, s, run[..|run| - 1]), all0, n0, p0, run[|run| - 1]);
    }
  }

  lemma {:induction false} HonestPrefix(step: ChainStep, s: System, run: seq<Action>, k: nat)
    requires HonestRun(step, s, run) && k < |run|
    ensures HonestRun(step, s, run[..k]) && Honest(DoAll(step, s, run[..k]), run[k])
  {
    hide DoAll, Honest;
    assert forall j :: 0 <= j < k ==> run[..k][..j] == run[..j] && run[..k][j] == run[j];
  }
}
