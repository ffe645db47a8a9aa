/** Splitting a project's shares among weighted buyers: floors first, then a correction in rounds. */
module Allocate {
  import opened Wrappers

  function Total(s: seq<nat>): nat {
    if s == [] then 0 else Total(s[..|s| - 1]) + s[|s| - 1]
  }

  lemma {:induction false} TotalUpdate(s: seq<nat>, i: nat, v: nat)
    requires i < |s|
    ensures Total(s[i := v]) + s[i] == Total(s) + v
  {
    var last := |s| - 1;
    if i == last {
      assert s[i := v][..last] == s[..last];
    } else {
      TotalUpdate(s[..last], i, v);
      assert s[i := v][..last] == s[..last][i := v];
    }
  }

  lemma {:induction false} TotalOfOnes(s: seq<nat>)
    requires forall i :: 0 <= i < |s| ==> s[i] == 1
    ensures Total(s) == |s|
  {
    if s != [] {
      TotalOfOnes(s[..|s| - 1]);
    }
  }

  /** The floors, none below one. */
  function Clamped(floors: seq<nat>): (s: seq<nat>)
    ensures |s| == |floors| && forall i :: 0 <= i < |s| ==> s[i] == (if floors[i] < 1 then 1 else floors[i])
  {
    seq(|floors|, i requires 0 <= i < |floors| => if floors[i] < 1 then 1 else floors[i])
  }

  /** `order` lists every buyer once, larger shares first. */
  ghost predicate IsOrder(shares: seq<nat>, order: seq<nat>) {
    && |order| == |shares|
    && (forall p :: 0 <= p < |order| ==> order[p] < |shares|)
    && (forall p, q :: 0 <= p < q < |order| ==> order[p] != order[q] && shares[order[p]] >= shares[order[q]])
    && (forall i :: 0 <= i < |shares| ==> i in order)
  }

  /** The first `k` buyers, larger shares first. */
  ghost predicate IsOrderOf(shares: seq<nat>, order: seq<nat>, k: nat)
    requires k <= |shares|
  {
    && |order| == k
    && (forall p :: 0 <= p < k ==> order[p] < k)
    && (forall p, q :: 0 <= p < q < k ==> order[p] != order[q] && shares[order[p]] >= shares[order[q]])
    && (forall i :: 0 <= i < k ==> i in order)
  }

  method SortedOrder(shares: seq<nat>) returns (order: seq<nat>)
    ensures IsOrder(shares, order)
  {
    order := [];
    for k := 0 to |shares|
      invariant IsOrderOf(shares, order, k)
    {
      var at := k;
      while at > 0 && shares[order[at - 1]] < shares[k]
        invariant at <= k && forall p :: at <= p < k ==> shares[order[p]] < shares[k]
      {
        at := at - 1;
      }
      Inserted(shares, order, k, at);
      order := order[..at] + [k] + order[at..];
    }
  }

  lemma {:induction false} Inserted(shares: seq<nat>, order: seq<nat>, k: nat, at: nat)
    requires k < |shares| && IsOrderOf(shares, order, k) && at <= k
    requires (at > 0 ==> shares[order[at - 1]] >= shares[k]) && forall p :: at <= p < k ==> shares[order[p]] < shares[k]
    ensures IsOrderOf(shares, order[..at] + [k] + order[at..], k + 1)
  {
    var r := order[..at] + [k] + order[at..];
    forall p | 0 <= p < at ensures shares[order[p]] >= shares[k] {
      assert p < at - 1 ==> shares[order[p]] >= shares[order[at - 1]];
    }
    InsertedAt(shares, order, k, at, r);
    Moved(order, k, at, r);
  }

  /** Where the entries of an order are after one was put in. */
  function Shifted(at: nat, p: nat): nat { if p < at then p else p + 1 }

  lemma {:induction false} InsertedAt(shares: seq<nat>, order: seq<nat>, k: nat, at: nat, r: seq<nat>)
    requires k < |shares| && IsOrderOf(shares, order, k) && at <= k && r == order[..at] + [k] + order[at..]
    requires forall p :: 0 <= p < at ==> shares[order[p]] >= shares[k]
    requires forall p :: at <= p < k ==> shares[order[p]] < shares[k]
    ensures forall p :: 0 <= p < k + 1 ==> r[p] < k + 1
    ensures forall p, q :: 0 <= p < q < k + 1 ==> r[p] != r[q] && shares[r[p]] >= shares[r[q]]
  {
    forall p, q | 0 <= p < q < k + 1 ensures r[p] != r[q] && shares[r[p]] >= shares[r[q]] {
      assert p != at ==> r[p] == order[if p < at then p else p - 1];
      assert q != at ==> r[q] == order[if q < at then q else q - 1];
    }
  }

  lemma {:induction false} Moved(order: seq<nat>, k: nat, at: nat, r: seq<nat>)
    requires |order| == k && at <= k && r == order[..at] + [k] + order[at..]
    requires forall i :: 0 <= i < k ==> i in order
    ensures forall i :: 0 <= i < k + 1 ==> i in r
  {
    forall i | 0 <= i < k + 1 ensures i in r {
      if i < k {
        assert i in order;
        var p :| 0 <= p < |order| && order[p] == i;
        assert r[Shifted(at, p)] == i;
      } else {
        assert r[at] == k;
      }
    }
  }

  /** A share after `turns` corrections: up by one each, or down by one each but never below one. */
  function Corrected(start: nat, up: bool, turns: nat): nat {
    if up then start + turns else if start > turns then start - turns else if start < 1 then start else 1
  }

  /** The buyer at `place` in the order has had one turn more than those from `place` on. */
  function Turns(rounds: nat, place: nat, p: nat): nat {
    if p < place then rounds + 1 else rounds
  }

  ghost predicate AfterTurns(start: seq<nat>, order: seq<nat>, up: bool, rounds: nat, place: nat, shares: seq<nat>) {
    && |shares| == |start| == |order| && (forall p :: 0 <= p < |order| ==> order[p] < |start|)
    && forall p :: 0 <= p < |order| ==> shares[order[p]] == Corrected(start[order[p]], up, Turns(rounds, place, p))
  }

  function Max(s: seq<nat>): (m: nat)
    ensures forall i :: 0 <= i < |s| ==> s[i] <= m
  {
    if s == [] then 0 else
    var m := Max(s[..|s| - 1]);
    if s[|s| - 1] > m then s[|s| - 1] else m
  }

  /**
   * Splits `total` shares; `floors` are the weighted shares rounded down. `None` when the buyers
   * cannot all get one, or there is nobody to give the shares to.
   */
  method Allocate(total: nat, floors: seq<nat>) returns (shares: Option<seq<nat>>, ghost order: seq<nat>, ghost rounds: nat, ghost place: nat)
    ensures shares.None? <==> |floors| > total || (floors == [] && total > 0)
    ensures shares.Some? ==>
      && |shares.value| == |floors| && Total(shares.value) == total
      && (forall i :: 0 <= i < |floors| ==> shares.value[i] >= 1)
    // the correction goes round the buyers, largest first, up or down by one each
    ensures shares.Some? && floors != [] ==>
      var start := Clamped(floors);
      IsOrder(start, order) && place < |floors| && AfterTurns(start, order, Total(start) <= total, rounds, place, shares.value)
  {
    order, rounds, place := [], 0, 0;
    if |floors| > total || (floors == [] && total > 0) {
      return None, order, rounds, place;
    }
    var start := Clamped(floors);
    if floors == [] {
      return Some([]), order, rounds, place;
    }
    var queue := SortedOrder(start);
    order := queue;
    var given, r, i := Correct(total, start, queue);
    AtLeastOne(start, queue, Total(start) <= total, r, i, given);
    return Some(given), queue, r, i;
  }

  method Correct(total: nat, start: seq<nat>, order: seq<nat>) returns (shares: seq<nat>, ghost rounds: nat, i: nat)
    requires 0 < |start| <= total && IsOrder(start, order) && forall k :: 0 <= k < |start| ==> start[k] >= 1
    ensures Total(shares) == total && i < |start|
    ensures AfterTurns(start, order, Total(start) <= total, rounds, i, shares)
  {
    shares := start;
    i, rounds := 0, 0;
    var diff: int := total - Total(start);
    ghost var up := Total(start) <= total;
    while diff != 0
      invariant |shares| == |start| && i < |start| && Total(shares) + diff == total
      invariant AfterTurns(start, order, up, rounds, i, shares)
      invariant (diff > 0 ==> up) && (diff < 0 ==> !up)
      invariant diff < 0 ==> rounds < Max(start)
      decreases if diff > 0 then diff else 0, Max(start) - rounds, |start| - i
    {
      var index := order[i];
      ghost var before := shares;
      if diff > 0 {
        TotalUpdate(shares, index, shares[index] + 1);
        shares := shares[index := shares[index] + 1];
        diff := diff - 1;
      } else if shares[index] > 1 {
        TotalUpdate(shares, index, shares[index] - 1);
        shares := shares[index := shares[index] - 1];
        diff := diff + 1;
      }
      OneTurn(start, order, up, rounds, i, before, shares);
      i := i + 1;
      if i == |order| {
        i, rounds := 0, rounds + 1;
      }
      if diff < 0 {
        NotAllOnes(start, order, rounds, i, shares, total);
      }
    }
  }

  lemma {:induction false} OneTurn(start: seq<nat>, order: seq<nat>, up: bool, rounds: nat, i: nat, before: seq<nat>, after: seq<nat>)
    requires IsOrder(start, order) && AfterTurns(start, order, up, rounds, i, before) && i < |order|
    requires forall k :: 0 <= k < |start| ==> start[k] >= 1
    requires after == before[order[i] := if up then before[order[i]] + 1 else if before[order[i]] > 1 then (before[order[i]] - 1) as nat else before[order[i]]]
    ensures if i + 1 == |order| then AfterTurns(start, order, up, rounds + 1, 0, after) else AfterTurns(start, order, up, rounds, i + 1, after)
  {
    forall p | 0 <= p < |order| ensures after[order[p]] == Corrected(start[order[p]], up, Turns(rounds, i + 1, p)) {
      assert p != i ==> order[p] != order[i];
    }
  }

  /** While shares must still be taken away, somebody has more than one. */
  lemma {:induction false} NotAllOnes(start: seq<nat>, order: seq<nat>, rounds: nat, i: nat, shares: seq<nat>, total: nat)
    requires IsOrder(start, order) && AfterTurns(start, order, false, rounds, i, shares)
    requires (forall k :: 0 <= k < |start| ==> start[k] >= 1) && |start| <= total < Total(shares)
    ensures rounds < Max(start)
  {
    if rounds >= Max(start) {
      forall k | 0 <= k < |shares| ensures shares[k] == 1 {
        assert k in order;
        var p :| 0 <= p < |order| && order[p] == k;
      }
      TotalOfOnes(shares);
    }
  }

  lemma {:induction false} AtLeastOne(start: seq<nat>, order: seq<nat>, up: bool, rounds: nat, i: nat, shares: seq<nat>)
    requires IsOrder(start, order) && AfterTurns(start, order, up, rounds, i, shares)
    requires forall k :: 0 <= k < |start| ==> start[k] >= 1
    ensures forall k :: 0 <= k < |shares| ==> shares[k] >= 1
  {
    forall k | 0 <= k < |shares| ensures shares[k] >= 1 {
      assert k in order;
      var p :| 0 <= p < |order| && order[p] == k;
    }
  }

  /** The correction is even: two buyers' shares move by the same, give or take one, unless one of them is down to a single share. */
  lemma {:induction false} CorrectionIsEven(start: seq<nat>, order: seq<nat>, up: bool, rounds: nat, place: nat, shares: seq<nat>, a: nat, b: nat)
    requires IsOrder(start, order) && AfterTurns(start, order, up, rounds, place, shares) && a < |start| && b < |start|
    requires start[a] >= 1 && start[b] >= 1
    ensures up ==> start[a] <= shares[a] && shares[a] + start[b] <= shares[b] + start[a] + 1
    ensures !up ==> shares[a] <= start[a] && (start[a] + shares[b] <= start[b] + shares[a] + 1 || shares[b] == 1)
  {
    assert a in order && b in order;
    var p :| 0 <= p < |order| && order[p] == a;
    var q :| 0 <= q < |order| && order[q] == b;
  }
}
