/**
 * The backend's durable record of one car's published days and of the batches that put them
 * on-chain: two tables, changed by transactions that happen whole or not at all.
 */
module TelemetryStore {
  import opened Wrappers
  import opened HashChain

  type Signature = string

  /** Where a day sits in the on-chain chain; set when its batch is submitted. */
  datatype ChainLink = ChainLink(position: nat, headBefore: Hash, headAfter: Hash, txSignature: Signature)

  datatype DayRow = DayRow(dataHash: Hash, link: Option<ChainLink>, confirmedAt: Option<nat>)

  datatype SubmissionOutcome = Pending | Confirmed | FailedOnChain | Expired

  datatype SubmissionRow = SubmissionRow(lastValidBlockHeight: nat, outcome: SubmissionOutcome)

  /** The chain position a day of a batch will take. */
  datatype PlannedLink = PlannedLink(date: Date, position: nat, headBefore: Hash, headAfter: Hash)

  datatype Tables = Tables(days: map<Date, DayRow>, submissions: map<Signature, SubmissionRow>)
  {
    // ---- queries ----

    predicate InBatch(date: Date, signature: Signature) {
      date in days && days[date].link.Some? && days[date].link.value.txSignature == signature
    }

    predicate IsConfirmed(date: Date) {
      date in days && days[date].confirmedAt.Some? && days[date].link.Some?
    }

    predicate IsUnsubmitted(date: Date) {
      date in days && days[date].link.None?
    }

    predicate IsPending(signature: Signature) {
      signature in submissions && submissions[signature].outcome == Pending
    }

    // ---- transactions ----

    /** `recordSubmission`; refused whole when a planned day is not an unsubmitted one. */
    function Recorded(signature: Signature, lastValid: nat, links: seq<PlannedLink>): Option<Tables> {
      if signature in submissions then None else
      var linked :- Linked(days, signature, links);
      Some(Tables(linked, submissions[signature := SubmissionRow(lastValid, Pending)]))
    }

    function ConfirmedBatch(signature: Signature, now: nat): Tables {
      Tables(map d | d in days :: if InBatch(d, signature) then days[d].(confirmedAt := Some(now)) else days[d],
             Settled(signature, Confirmed))
    }

    function Abandoned(signature: Signature, outcome: SubmissionOutcome): Tables {
      Tables(map d | d in days :: if InBatch(d, signature) then days[d].(link := None) else days[d],
             Settled(signature, outcome))
    }

    function Settled(signature: Signature, outcome: SubmissionOutcome): map<Signature, SubmissionRow> {
      if signature in submissions then submissions[signature := submissions[signature].(outcome := outcome)]
      else submissions
    }
  }

  /** The updates of `recordSubmission`, one day after another. */
  function Linked(days: map<Date, DayRow>, signature: Signature, links: seq<PlannedLink>): Option<map<Date, DayRow>> {
    if links == [] then Some(days) else
    var before :- Linked(days, signature, links[..|links| - 1]);
    var l := links[|links| - 1];
    if l.date !in before || before[l.date].link.Some? then None
    else Some(before[l.date := before[l.date].(link := Some(ChainLink(l.position, l.headBefore, l.headAfter, signature)))])
  }

  // ---- ORDER BY ----

  /** `ORDER BY date`. */
  ghost predicate SortedDates(dates: seq<Date>) {
    forall i, j :: 0 <= i < j < |dates| ==> dates[i] < dates[j]
  }

  /** `ORDER BY chain_position`. */
  ghost predicate SortedByPosition(days: map<Date, DayRow>, dates: seq<Date>) {
    && (forall i :: 0 <= i < |dates| ==> dates[i] in days && days[dates[i]].link.Some?)
    && (forall i, j :: 0 <= i < j < |dates| ==> days[dates[i]].link.value.position <= days[dates[j]].link.value.position)
  }

  /** `dates` are the days of a batch in chain order. */
  ghost predicate BatchOrder(t: Tables, signature: Signature, dates: seq<Date>) {
    && SortedByPosition(t.days, dates)
    && (forall d :: d in dates <==> t.InBatch(d, signature))
    && (forall i, j :: 0 <= i < j < |dates| ==> dates[i] != dates[j])
  }

  /** `dates` are the confirmed days in chain order. */
  ghost predicate ConfirmedOrder(t: Tables, dates: seq<Date>) {
    && SortedByPosition(t.days, dates)
    && (forall d :: d in dates <==> t.IsConfirmed(d))
    && (forall i, j :: 0 <= i < j < |dates| ==> dates[i] != dates[j])
  }

  /** The newest confirmed day is `link`, or none is confirmed. */
  ghost predicate IsConfirmedTip(t: Tables, tip: Option<ChainLink>) {
    match tip
    case None => forall d :: !t.IsConfirmed(d)
    case Some(link) =>
      exists d :: t.IsConfirmed(d) && t.days[d].link.value == link
                  && forall e :: t.IsConfirmed(e) ==> t.days[e].link.value.position <= link.position
  }

  class Store {
    var days: map<Date, DayRow>
    var submissions: map<Signature, SubmissionRow>

    function State(): Tables
      reads this
    {
      Tables(days, submissions)
    }

    constructor ()
      ensures State() == Tables(map[], map[])
    {
      days, submissions := map[], map[];
    }

    /** Refused when the day is already stored: a day's text never changes once collected. */
    method SaveDay(date: Date, dataHash: Hash) returns (saved: bool)
      modifies this
      ensures saved <==> date !in old(days)
      ensures submissions == old(submissions)
      ensures days == if saved then old(days)[date := DayRow(dataHash, None, None)] else old(days)
    {
      saved := date !in days;
      if saved {
        days := days[date := DayRow(dataHash, None, None)];
      }
    }

    method PendingSubmission() returns (signature: Option<Signature>)
      ensures signature.Some? ==> State().IsPending(signature.value)
      ensures signature.None? ==> forall s :: !State().IsPending(s)
    {
      var pending := set s | s in submissions && submissions[s].outcome == Pending;
      assert forall s :: State().IsPending(s) ==> s in pending;
      if pending == {} {
        return None;
      }
      var s :| s in pending;
      return Some(s);
    }

    /** The dates of `dates` in the order of their chain positions. */
    method OrderByPosition(dates: set<Date>) returns (ordered: seq<Date>)
      requires forall d :: d in dates ==> d in days && days[d].link.Some?
      ensures SortedByPosition(days, ordered)
      ensures forall d :: d in dates <==> d in ordered
      ensures forall i, j :: 0 <= i < j < |ordered| ==> ordered[i] != ordered[j]
    {
      var rest := dates;
      ordered := [];
      while rest != {}
        invariant rest <= dates
        invariant forall d :: d in dates <==> d in rest || d in ordered
        invariant forall d :: d in rest ==> d !in ordered
        invariant forall i, j :: 0 <= i < j < |ordered| ==> ordered[i] != ordered[j]
        invariant SortedByPosition(days, ordered)
        invariant forall d, e :: d in rest && e in ordered ==> days[e].link.value.position <= days[d].link.value.position
        decreases rest
      {
        var least := LeastPosition(rest);
        ordered := ordered + [least];
        rest := rest - {least};
      }
    }

    method LeastPosition(dates: set<Date>) returns (least: Date)
      requires dates != {} && forall d :: d in dates ==> d in days && days[d].link.Some?
      ensures least in dates
      ensures forall d :: d in dates ==> days[least].link.value.position <= days[d].link.value.position
    {
      least :| least in dates;
      var rest := dates - {least};
      while rest != {}
        invariant rest <= dates && least in dates
        invariant forall d :: d in dates && d !in rest ==> days[least].link.value.position <= days[d].link.value.position
        decreases rest
      {
        var d :| d in rest;
        if days[d].link.value.position < days[least].link.value.position {
          least := d;
        }
        rest := rest - {d};
      }
    }

    /** Links of a batch's days, in chain order. */
    method SubmissionLinks(signature: Signature) returns (dates: seq<Date>)
      ensures BatchOrder(State(), signature, dates)
    {
      var batch := set d | d in days && days[d].link.Some? && days[d].link.value.txSignature == signature;
      dates := OrderByPosition(batch);
    }

    /** The stored days from `start` to `end`. */
    ghost function Listed(start: Date, end: Date): set<Date>
      reads this
    {
      set d | d in days && start <= d <= end
    }

    /** The first `limit` stored days from `start` to `end`, by date. */
    method DaysBetween(start: Date, end: Date, limit: nat) returns (dates: seq<Date>)
      ensures SortedDates(dates) && |dates| <= limit
      ensures forall d :: d in dates ==> d in Listed(start, end)
      ensures |dates| < limit ==> forall d :: d in Listed(start, end) ==> d in dates
      ensures forall d, e :: d in Listed(start, end) && d !in dates && e in dates ==> e < d
    {
      var rest := set d | d in days && start <= d <= end;
      dates := [];
      while rest != {} && |dates| < limit
        invariant |dates| <= limit
        invariant forall d :: d in Listed(start, end) <==> d in rest || d in dates
        invariant SortedDates(dates)
        invariant forall d, i :: d in rest && 0 <= i < |dates| ==> dates[i] < d
        decreases rest
      {
        var least := LeastDate(rest);
        dates := dates + [least];
        rest := rest - {least};
      }
    }

    /** Every confirmed day, in chain order. */
    method ConfirmedChain() returns (dates: seq<Date>)
      ensures ConfirmedOrder(State(), dates)
    {
      var confirmed := set d | d in days && days[d].confirmedAt.Some? && days[d].link.Some?;
      dates := OrderByPosition(confirmed);
    }

    /** The newest confirmed day: the chain state this backend last saw. */
    method ConfirmedTip() returns (tip: Option<ChainLink>)
      ensures IsConfirmedTip(State(), tip)
    {
      var dates := ConfirmedChain();
      if dates == [] {
        assert forall d :: d !in dates;
        return None;
      }
      var last := dates[|dates| - 1];
      assert last in dates;
      forall e | State().IsConfirmed(e) ensures days[e].link.value.position <= days[last].link.value.position {
        assert e in dates;
        var i :| 0 <= i < |dates| && dates[i] == e;
        assert i < |dates| - 1 || e == last;
      }
      return Some(days[last].link.value);
    }

    /** Collected days not yet in any batch and later than `afterDate`, oldest first. */
    method UnsubmittedAfter(afterDate: Date) returns (dates: seq<Date>)
      ensures SortedDates(dates)
      ensures forall d :: d in dates <==> State().IsUnsubmitted(d) && afterDate < d
    {
      var rest := set d | d in days && days[d].link.None? && afterDate < d;
      dates := [];
      while rest != {}
        invariant forall d :: State().IsUnsubmitted(d) && afterDate < d <==> d in rest || d in dates
        invariant SortedDates(dates)
        invariant forall d, i :: d in rest && 0 <= i < |dates| ==> dates[i] < d
        decreases rest
      {
        var least := LeastDate(rest);
        dates := dates + [least];
        rest := rest - {least};
      }
    }

    /** Stores a signed batch before it is sent, so a crash mid-send can be reconciled. */
    method RecordSubmission(signature: Signature, lastValid: nat, links: seq<PlannedLink>) returns (recorded: bool)
      modifies this
      ensures recorded <==> old(State()).Recorded(signature, lastValid, links).Some?
      ensures State() == if recorded then old(State()).Recorded(signature, lastValid, links).value else old(State())
    {
      if signature in submissions {
        return false;
      }
      var updated := days;
      for i := 0 to |links|
        invariant Linked(days, signature, links[..i]) == Some(updated)
      {
        assert links[..i + 1][..i] == links[..i];
        var l := links[i];
        if l.date !in updated || updated[l.date].link.Some? {
          LinkedStops(days, signature, links, i + 1);
          return false; // the transaction is rolled back
        }
        updated := updated[l.date := updated[l.date].(link := Some(ChainLink(l.position, l.headBefore, l.headAfter, signature)))];
      }
      assert links[..|links|] == links;
      days, submissions := updated, submissions[signature := SubmissionRow(lastValid, Pending)];
      recorded := true;
    }

    method ConfirmSubmission(signature: Signature, now: nat)
      modifies this
      ensures State() == old(State()).ConfirmedBatch(signature, now)
    {
      if signature in submissions {
        submissions := submissions[signature := submissions[signature].(outcome := Confirmed)];
      }
      days := map d | d in days ::
        if days[d].link.Some? && days[d].link.value.txSignature == signature then days[d].(confirmedAt := Some(now)) else days[d];
    }

    /** The batch did not and cannot land: its days go back to unsubmitted. */
    method AbandonSubmission(signature: Signature, outcome: SubmissionOutcome)
      modifies this
      ensures State() == old(State()).Abandoned(signature, outcome)
    {
      if signature in submissions {
        submissions := submissions[signature := submissions[signature].(outcome := outcome)];
      }
      days := map d | d in days ::
        if days[d].link.Some? && days[d].link.value.txSignature == signature then days[d].(link := None) else days[d];
    }
  }

  method LeastDate(dates: set<Date>) returns (least: Date)
    requires dates != {}
    ensures least in dates && forall d :: d in dates ==> least <= d
  {
    least :| least in dates;
    var rest := dates - {least};
    while rest != {}
      invariant rest <= dates && least in dates
      invariant forall d :: d in dates && d !in rest ==> least <= d
      decreases rest
    {
      var d :| d in rest;
      if d < least {
        least := d;
      }
      rest := rest - {d};
    }
  }

  lemma {:induction false} LinkedStops(days: map<Date, DayRow>, signature: Signature, links: seq<PlannedLink>, i: nat)
    requires i <= |links| && Linked(days, signature, links[..i]).None?
    ensures Linked(days, signature, links).None?
    decreases |links| - i
  {
    if i == |links| {
      assert links[..i] == links;
    } else {
      assert links[..i + 1][..i] == links[..i];
      LinkedStops(days, signature, links, i + 1);
    }
  }
}
