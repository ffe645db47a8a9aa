/** One sync of the indexer, step for step: checking the chain, paging, storing oldest first. */
module IndexerService {
  import opened Wrappers
  import opened IndexerStore
  import opened IndexerProtocol
  import ProgramLogs

  datatype SyncResult = Finished(waiting: bool) | Failed | ChainMismatch | Died

  /** What happens while one listed transaction is handled: the app stops before it, or the RPC returns it or not. */
  datatype Turn = Turn(stops: bool, fetched: bool)

  /** A page as the RPC serves it. */
  method GetSignaturesForAddress(answer: Answer, before: Option<Signature>, until: Option<Signature>)
    returns (page: Option<seq<Signature>>)
    ensures page == PageOf(answer, before, until)
  {
    if answer.Failure? || (before.Some? && !Known(answer.visible, before.value)) {
      return None;
    }
    var visible := answer.visible;
    var top := if before.Some? then PlaceOf(visible, before.value) else |visible|;
    var found := ListBelow(visible, top, if answer.forgetsUntil then None else until);
    page := Some(found);
  }

  method ListBelow(visible: seq<Signature>, top: nat, until: Option<Signature>) returns (found: seq<Signature>)
    requires top <= |visible|
    ensures found == Page(visible, top, until, PAGE_SIZE)
  {
    found := [];
    ghost var whole := Page(visible, top, until, PAGE_SIZE);
    var place: nat := top;
    while place > 0 && |found| < PAGE_SIZE && until != Some(visible[place - 1])
      invariant place <= top && |found| <= PAGE_SIZE
      invariant whole == found + Page(visible, place, until, PAGE_SIZE - |found|)
    {
      place := place - 1;
      found := found + [visible[place]];
    }
    assert Page(visible, place, until, PAGE_SIZE - |found|) == [];
  }

  /** One of the listed transactions is not to be had: the RPC fails, or its history lacks it. */
  ghost predicate Unloaded(h: seq<Tx>, signatures: seq<Signature>, turns: seq<Turn>) {
    exists k :: 0 <= k < |signatures| && k < |turns| && (!turns[k].fetched || !Known(Signatures(h), signatures[k]))
  }

  class IndexerService {
    const store: IndexerStore
    var on: Option<Source>
    /** Logs the subscription delivered, kept until the history lists the transaction. */
    var notified: map<Signature, seq<string>>

    constructor (store: IndexerStore)
      ensures this.store == store && on == None && notified == map[]
    {
      this.store, on, notified := store, None, map[];
    }

    /** Between two syncs nothing is left to store. */
    function World(): System
      reads this, store
    {
      System(store.State(), on, [])
    }

    /** What the subscription delivers are the logs of successful transactions of the history. */
    ghost predicate NotifiedTruly(h: seq<Tx>)
      reads this
    {
      forall k :: 0 <= k < |h| && h[k].signature in notified ==> !h[k].failed && notified[h[k].signature] == h[k].logs
    }

    /** The database remembers what it was filled from; `dies`: between the two writes. */
    method CheckChain(source: Source, dies: bool) returns (result: Option<SyncResult>)
      requires on.None?
      modifies this`on, store
      ensures World() == DoCheckChain(old(World()), source, dies)
      ensures result.None? <==> on.Some?
      ensures result.Some? ==> result.value == (if old(store.State()).genesis.None? && old(store.State()).program.None? then Died else ChainMismatch)
      ensures result == Some(Died) ==> dies
      ensures result == Some(ChainMismatch) <==>
        && (old(store.genesis).Some? || old(store.program).Some?)
        && (old(store.genesis) != Some(source.genesis) || old(store.program) != Some(source.program))
    {
      if store.genesis.None? && store.program.None? {
        store.genesis := Some(source.genesis);
        if dies {
          return Some(Died);
        }
        store.program := Some(source.program);
        on := Some(source);
        return None;
      }
      if store.genesis != Some(source.genesis) || store.program != Some(source.program) {
        return Some(ChainMismatch);
      }
      on := Some(source);
      return None;
    }

    /** Signatures newer than `until`, oldest first; `None` when a page fails. */
    method NewSignatures(until: Option<Signature>, answers: seq<Answer>) returns (list: Option<seq<Signature>>)
      ensures match NewestFirst(answers, None, until)
              case None => list == None
              case Some(newestFirst) => list == Some(Reverse(newestFirst))
    {
      hide NewestFirst, PageOf;
      var newestFirst: seq<Signature> := [];
      var before: Option<Signature> := None;
      assert answers[0..] == answers;
      JoinedNone(NewestFirst(answers, before, until));
      for k := 0 to |answers|
        invariant NewestFirst(answers, None, until) == Joined(newestFirst, NewestFirst(answers[k..], before, until))
      {
        NextPage(answers, k, before, until, newestFirst);
        var page := GetSignaturesForAddress(answers[k], before, until);
        if page.None? {
          return None;
        }
        newestFirst := newestFirst + page.value;
        if |page.value| < PAGE_SIZE {
          return Some(Reverse(newestFirst));
        }
        before := Some(page.value[|page.value| - 1]);
      }
      NoMorePages(answers, before, until);
      return None;
    }

    /** The record to store, from the notified logs if there are any, else from the RPC. */
    method Load(h: seq<Tx>, signature: Signature, program: string, fetched: bool) returns (record: Option<Record>)
      requires NotifiedTruly(h)
      modifies this`notified
      ensures NotifiedTruly(h) && notified == old(notified) - {signature}
      ensures record.Some? ==> Known(Signatures(h), signature) && record.value == RecordOf(h[PlaceOf(Signatures(h), signature)], program)
      ensures record.None? ==> !fetched || !Known(Signatures(h), signature)
    {
      var logs := if signature in notified then Some(notified[signature]) else None;
      notified := notified - {signature};
      if !Known(Signatures(h), signature) {
        return None;
      }
      var tx := h[PlaceOf(Signatures(h), signature)];
      if tx.failed {
        return Some(Record(signature, tx.slot, true, false, []));
      }
      if logs.None? && !fetched {
        return None;
      }
      var events, truncated := ProgramLogs.ProgramLogEvents(if logs.Some? then logs.value else tx.logs, program);
      return Some(Record(signature, tx.slot, false, truncated, events));
    }

    /** Drops notified transactions that are indexed or too old; true if any are left. */
    method AwaitsNotified(expired: set<Signature>) returns (waiting: bool)
      modifies this`notified
      ensures waiting <==> exists x :: x in notified
      ensures forall x :: x in notified <==> x in old(notified) && x !in expired && !store.State().IsIndexed(x)
      ensures forall x :: x in notified ==> notified[x] == old(notified)[x]
    {
      var rest := notified.Keys;
      while rest != {}
        invariant rest <= notified.Keys
        invariant forall x :: x in notified <==> x in old(notified) && (x in rest || (x !in expired && !store.State().IsIndexed(x)))
        invariant forall x :: x in notified ==> notified[x] == old(notified)[x]
        decreases rest
      {
        var x :| x in rest;
        var indexed := store.IsIndexed(x);
        if x in expired || indexed {
          notified := notified - {x};
        }
        rest := rest - {x};
      }
      return notified.Keys != {};
    }

    /** Stores what a listing left to do, oldest first; `turns` is what the process lives to see. */
    method StoreListed(histories: Histories, source: Source, signatures: seq<Signature>, turns: seq<Turn>, ghost s: System)
      returns (result: Option<SyncResult>, ghost trace: seq<Step>)
      requires s == System(store.State(), Some(source), signatures) && on == Some(source)
      requires NotifiedTruly(histories(source))
      modifies this`notified, store
      ensures World() == DoAll(histories, s, trace) && NotifiedTruly(histories(source))
      ensures result.None? ==> forall x :: x in signatures ==> store.State().IsIndexed(x)
      ensures result.Some? ==> match result.value
        case Finished(waiting) => !waiting && exists k :: 0 <= k < |turns| && turns[k].stops
        case Failed => Unloaded(histories(source), signatures, turns)
        case Died => |turns| < |signatures|
        case ChainMismatch => false
    {
      hide Inserted, RowsOf;
      trace := [];
      ghost var now := s;
      for k := 0 to |signatures|
        invariant now == DoAll(histories, s, trace)
        invariant now == System(store.State(), Some(source), signatures[k..]) && on == Some(source)
        invariant NotifiedTruly(histories(source))
        invariant forall j :: 0 <= j < k ==> store.State().IsIndexed(signatures[j])
      {
        if k >= |turns| || turns[k].stops {
          DoAllThen(histories, s, trace, EndSync);
          trace := trace + [EndSync];
          return Some(if k >= |turns| then Died else Finished(false)), trace;
        }
        ghost var before := store.State();
        var loaded := StoreOne(histories(source), signatures[k], source.program, turns[k].fetched);
        StoredOne(histories, now, store.State(), loaded);
        DoAllThen(histories, s, trace, StoreNext(loaded));
        now, trace := DoStoreNext(histories, now, loaded), trace + [StoreNext(loaded)];
        if !loaded {
          return Some(Failed), trace;
        }
        StaysIndexed(before, store.State(), signatures[..k]);
      }
      DoAllThen(histories, s, trace, EndSync);
      trace := trace + [EndSync];
      result := None;
    }

    /** Moves the cursor past a stored transaction, or loads and stores it. */
    method StoreOne(h: seq<Tx>, signature: Signature, program: string, fetched: bool) returns (loaded: bool)
      requires NotifiedTruly(h)
      modifies this`notified, store
      ensures NotifiedTruly(h)
      ensures store.State() ==
        if old(store.State()).IsIndexed(signature) then old(store.State()).(cursor := Some(signature))
        else if loaded && Known(Signatures(h), signature) then old(store.State()).Recorded(RecordOf(h[PlaceOf(Signatures(h), signature)], program))
        else old(store.State())
      ensures loaded ==> old(store.State()).IsIndexed(signature) || Known(Signatures(h), signature)
      ensures !loaded ==> !old(store.State()).IsIndexed(signature) && (!fetched || !Known(Signatures(h), signature))
    {
      hide Inserted, RowsOf;
      var indexed := store.IsIndexed(signature);
      if indexed {
        notified := notified - {signature};
        store.AdvanceCursor(signature);
        return true;
      }
      var record := Load(h, signature, program, fetched);
      if record.None? {
        return false;
      }
      store.Save(record.value);
      loaded := true;
    }

    /** Stores every transaction newer than the cursor, oldest first. */
    method Sync(histories: Histories, source: Source, dies: bool, answers: seq<Answer>, turns: seq<Turn>, expired: set<Signature>)
      returns (result: SyncResult, ghost trace: seq<Step>)
      requires NotifiedTruly(histories(source)) && (on.Some? ==> on.value == source)
      modifies this, store
      ensures World() == DoAll(histories, old(World()), trace) && NotifiedTruly(histories(source))
      ensures var listed := NewestFirst(answers, None, old(store.cursor));
        match result
        case Finished(waiting) =>
          || (exists k :: 0 <= k < |turns| && turns[k].stops)
          || (listed.Some? && (forall x :: x in listed.value ==> store.State().IsIndexed(x)) && (waiting <==> exists x :: x in notified))
        case Failed => listed.None? || Unloaded(histories(source), Reverse(listed.value), turns)
        case Died => (dies && old(on).None?) || (listed.Some? && |turns| < |listed.value|)
        case ChainMismatch => old(on).None?
      ensures result.ChainMismatch? <==>
        && old(on).None? && (old(store.genesis).Some? || old(store.program).Some?)
        && (old(store.genesis) != Some(source.genesis) || old(store.program) != Some(source.program))
    {
      hide NewestFirst;
      trace := [];
      if on.None? {
        var refused := CheckChain(source, dies);
        DoAllThen(histories, old(World()), [], Step.CheckChain(source, dies));
        trace := [Step.CheckChain(source, dies)];
        if refused.Some? {
          return refused.value, trace;
        }
      }
      var list := NewSignatures(store.cursor, answers);
      ghost var s := DoList(World(), answers);
      DoAllThen(histories, old(World()), trace, List(answers));
      trace := trace + [List(answers)];
      if list.None? {
        return Failed, trace;
      }
      hide DoAll, Do;
      var stopped, steps := StoreListed(histories, source, list.value, turns, s);
      DoAllConcat(histories, old(World()), trace, steps);
      trace := trace + steps;
      if stopped.Some? {
        return stopped.value, trace;
      }
      ReverseKeeps(NewestFirst(answers, None, old(store.cursor)).value);
      var waiting := AwaitsNotified(expired);
      result := Finished(waiting);
    }
  }

  /** All pages, from those read so far and what the rest gives. */
  function Joined(soFar: seq<Signature>, rest: Option<seq<Signature>>): Option<seq<Signature>> {
    if rest.None? then None else Some(soFar + rest.value)
  }

  lemma {:induction false} JoinedNone(rest: Option<seq<Signature>>)
    ensures Joined([], rest) == rest
  {
    assert rest.Some? ==> [] + rest.value == rest.value;
  }

  lemma {:induction false} NextPage(answers: seq<Answer>, k: nat, before: Option<Signature>, until: Option<Signature>, soFar: seq<Signature>)
    requires k < |answers|
    ensures var page := PageOf(answers[k], before, until);
      Joined(soFar, NewestFirst(answers[k..], before, until)) ==
        if page.None? then None
        else if |page.value| < PAGE_SIZE then Some(soFar + page.value)
        else Joined(soFar + page.value, NewestFirst(answers[k + 1..], Some(page.value[|page.value| - 1]), until))
  {
    hide PageOf;
    assert answers[k..][1..] == answers[k + 1..] && answers[k..][0] == answers[k];
    var page := PageOf(answers[k], before, until);
    if page.Some? && |page.value| >= PAGE_SIZE {
      var rest := NewestFirst(answers[k + 1..], Some(page.value[|page.value| - 1]), until);
      assert rest.Some? ==> soFar + (page.value + rest.value) == soFar + page.value + rest.value;
    }
  }

  lemma {:induction false} NoMorePages(answers: seq<Answer>, before: Option<Signature>, until: Option<Signature>)
    ensures NewestFirst(answers[|answers|..], before, until) == None
  {}

  lemma {:induction false} ReverseKeeps(s: seq<Signature>)
    ensures forall x :: x in s ==> x in Reverse(s)
  {
    forall x | x in s ensures x in Reverse(s) {
      var k :| 0 <= k < |s| && s[k] == x;
      assert Reverse(s)[|s| - 1 - k] == x;
    }
  }

  lemma {:induction false} StoredOne(histories: Histories, s: System, t: Tables, loaded: bool)
    requires s.on.Some? && s.todo != []
    requires var h := histories(s.on.value);
      && t == (if s.store.IsIndexed(s.todo[0]) then s.store.(cursor := Some(s.todo[0]))
               else if loaded && Known(Signatures(h), s.todo[0]) then s.store.Recorded(RecordOf(h[PlaceOf(Signatures(h), s.todo[0])], s.on.value.program))
               else s.store)
      && (loaded ==> s.store.IsIndexed(s.todo[0]) || Known(Signatures(h), s.todo[0]))
      && (!loaded ==> !s.store.IsIndexed(s.todo[0]))
    ensures DoStoreNext(histories, s, loaded) == s.(store := t, todo := if loaded then s.todo[1..] else [])
    ensures loaded ==> t.IsIndexed(s.todo[0])
    ensures |s.store.transactions| <= |t.transactions| && t.transactions[..|s.store.transactions|] == s.store.transactions
  {
    hide RecordOf, Inserted, RowsOf;
    if loaded && !s.store.IsIndexed(s.todo[0]) {
      var h := histories(s.on.value);
      var r := RecordOf(h[PlaceOf(Signatures(h), s.todo[0])], s.on.value.program);
      RecordKeepsSignature(h[PlaceOf(Signatures(h), s.todo[0])], s.on.value.program);
      assert t.transactions[|s.store.transactions|] == r;
    }
  }

  lemma {:induction false} RecordKeepsSignature(tx: Tx, program: string)
    ensures RecordOf(tx, program).signature == tx.signature
  {}

  lemma {:induction false} DoAllThen(histories: Histories, s: System, run: seq<Step>, step: Step)
    ensures DoAll(histories, s, run + [step]) == Do(histories, DoAll(histories, s, run), step)
  {
    assert (run + [step])[..|run|] == run;
  }

  lemma {:induction false} DoAllConcat(histories: Histories, s: System, a: seq<Step>, b: seq<Step>)
    ensures DoAll(histories, s, a + b) == DoAll(histories, DoAll(histories, s, a), b)
  {
    if b == [] {
      assert a + b == a;
    } else {
      assert (a + b)[..|a + b| - 1] == a + b[..|b| - 1];
      DoAllConcat(histories, s, a, b[..|b| - 1]);
    }
  }

  lemma {:induction false} StaysIndexed(t: Tables, u: Tables, earlier: seq<Signature>)
    requires forall j :: 0 <= j < |earlier| ==> t.IsIndexed(earlier[j])
    requires |t.transactions| <= |u.transactions| && u.transactions[..|t.transactions|] == t.transactions
    ensures forall j :: 0 <= j < |earlier| ==> u.IsIndexed(earlier[j])
  {
    forall j | 0 <= j < |earlier| ensures u.IsIndexed(earlier[j]) {
      var k :| 0 <= k < |t.transactions| && t.transactions[k].signature == earlier[j];
      assert u.transactions[k].signature == earlier[j];
    }
  }
}
