/** The index is always a prefix of one history, whatever fails and whenever the process dies. */
module IndexerTheorems {
  import opened Wrappers
  import opened IndexerStore
  import opened IndexerProtocol
  import ProgramLogs

  // ---- paging ----

  lemma {:induction false} PageIsASlice(visible: seq<Signature>, top: nat, until: Option<Signature>, limit: nat)
    requires top <= |visible|
    ensures var page := Page(visible, top, until, limit);
      && |page| <= limit && |page| <= top
      && (forall k :: 0 <= k < |page| ==> page[k] == visible[top - 1 - k])
      && (|page| < limit ==> |page| == top || Some(visible[top - |page| - 1]) == until)
  {
    if top != 0 && limit != 0 && until != Some(visible[top - 1]) {
      PageIsASlice(visible, top - 1, until, limit - 1);
      assert Page(visible, top, until, limit)[1..] == Page(visible, top - 1, until, limit - 1);
    }
  }

  lemma {:induction false} PlaceIsUnique(visible: seq<Signature>, k: nat)
    requires k < |visible| && forall i, j :: 0 <= i < j < |visible| ==> visible[i] != visible[j]
    ensures Known(visible, visible[k]) && PlaceOf(visible, visible[k]) == k
  {}

  lemma {:induction false} DistinctSignatures(h: seq<Tx>, visible: seq<Signature>)
    requires Distinct(h) && visible <= Signatures(h)
    ensures forall i, j :: 0 <= i < j < |visible| ==> visible[i] != visible[j]
  {}

  /**
   * The pages of one listing, however the node's view changes between them: a contiguous part
   * of the history that ends below `before` (or at the first view's end), and begins at or
   * before the transaction after `until`.
   */
  lemma {:induction false} PagesAreASlice(h: seq<Tx>, answers: seq<Answer>, before: Option<Signature>, until: Option<Signature>, top: nat)
    returns (low: nat)
    requires Distinct(h) && ListsPrefixes(h, answers) && NewestFirst(answers, before, until).Some?
    requires match before case Some(x) => top < |h| && h[top].signature == x case None => top == |answers[0].visible|
    requires before.None? ==> answers[0].Listing?
    ensures low <= top <= |h| && NewestFirst(answers, before, until).value == Reverse(Signatures(h)[low..top])
    ensures low == 0 || (low <= |h| && Some(h[low - 1].signature) == until)
  {
    hide Page;
    var sigs := Signatures(h);
    var page := FirstPage(h, answers, before, until, top);
    var middle := top - |page|;
    if |page| < PAGE_SIZE {
      low := middle;
    } else {
      low := PagesAreASlice(h, answers[1..], Some(page[|page| - 1]), until, middle);
      ReverseJoins(sigs, low, middle, top);
    }
  }

  lemma {:induction false} ReverseJoins<T>(s: seq<T>, low: nat, middle: nat, top: nat)
    requires low <= middle <= top <= |s|
    ensures Reverse(s[middle..top]) + Reverse(s[low..middle]) == Reverse(s[low..top])
  {}

  lemma {:induction false} FirstPage(h: seq<Tx>, answers: seq<Answer>, before: Option<Signature>, until: Option<Signature>, top: nat)
    returns (page: seq<Signature>)
    requires Distinct(h) && ListsPrefixes(h, answers) && answers != [] && PageOf(answers[0], before, until).Some?
    requires match before case Some(x) => top < |h| && h[top].signature == x case None => answers[0].Listing? && top == |answers[0].visible|
    ensures PageOf(answers[0], before, until) == Some(page) && |page| <= PAGE_SIZE && |page| <= top <= |h|
    ensures page == Reverse(Signatures(h)[top - |page|..top])
    ensures page != [] ==> page[|page| - 1] == h[top - |page|].signature
    ensures |page| < PAGE_SIZE && |page| < top ==> Some(h[top - |page| - 1].signature) == until
  {
    hide Page, PlaceOf, Known, Distinct, Reverse;
    var visible := answers[0].visible;
    assert visible <= Signatures(h);
    if before.Some? {
      PlaceInView(h, visible, top);
    }
    var limit := if answers[0].forgetsUntil then None else until;
    page := Page(visible, top, limit, PAGE_SIZE);
    PageIsASlice(visible, top, limit, PAGE_SIZE);
    ViewIsReversed(h, visible, top, page);
  }

  lemma {:induction false} PlaceInView(h: seq<Tx>, visible: seq<Signature>, top: nat)
    requires Distinct(h) && visible <= Signatures(h) && top < |h| && Known(visible, h[top].signature)
    ensures PlaceOf(visible, h[top].signature) == top < |visible|
  {
    var k := PlaceOf(visible, h[top].signature);
    assert h[k].signature == h[top].signature;
  }

  lemma {:induction false} ViewIsReversed(h: seq<Tx>, visible: seq<Signature>, top: nat, page: seq<Signature>)
    requires visible <= Signatures(h) && |page| <= top <= |visible|
    requires forall k :: 0 <= k < |page| ==> page[k] == visible[top - 1 - k]
    ensures page == Reverse(Signatures(h)[top - |page|..top])
    ensures forall k :: 0 <= k < |visible| ==> visible[k] == h[k].signature
  {}

  // ---- the invariant ----

  /** The first `m` transactions of the source's history are stored, whole and in order, and nothing else is. */
  ghost predicate Holds(histories: Histories, t: Tables, m: nat) {
    match (t.genesis, t.program)
    case (Some(genesis), Some(program)) =>
      var h := histories(Source(genesis, program));
      && m <= |h| && t.transactions == RecordsOf(h[..m], program) && t.events == EventsOf(t.transactions)
      && (t.cursor.Some? ==> exists k :: 0 <= k < m && h[k].signature == t.cursor.value)
    case _ => m == 0 && t.transactions == [] && t.events == [] && t.cursor.None?
  }

  /** A sync still has to store a contiguous part of the history that leaves no gap. */
  ghost predicate Continues(h: seq<Tx>, todo: seq<Signature>, m: nat) {
    exists i, j :: 0 <= i <= j <= |h| && i <= m && todo == Signatures(h)[i..j]
  }

  ghost predicate Good(histories: Histories, s: System, m: nat) {
    && Holds(histories, s.store, m)
    && match s.on
       case None => s.todo == []
       case Some(source) =>
         && s.store.genesis == Some(source.genesis) && s.store.program == Some(source.program)
         && Continues(histories(source), s.todo, m)
  }

  lemma {:induction false} NothingContinues(h: seq<Tx>, m: nat)
    ensures Continues(h, [], m)
  {
    assert Signatures(h)[0..0] == [];
  }

  lemma {:induction false} ListKeeps(histories: Histories, s: System, m: nat, answers: seq<Answer>)
    requires Good(histories, s, m) && s.on.Some? && Distinct(histories(s.on.value))
    requires ListsPrefixes(histories(s.on.value), answers)
    ensures Good(histories, DoList(s, answers), m)
  {
    var h := histories(s.on.value);
    var list := NewestFirst(answers, None, s.store.cursor);
    if list.None? {
      NothingContinues(h, m);
    } else {
      var i, j := Listed(histories, s, m, answers);
      assert DoList(s, answers).todo == Signatures(h)[i..j];
    }
  }

  /** What a listing leaves to do: up to the end of the first view, from no later than what follows the cursor. */
  lemma {:induction false} Listed(histories: Histories, s: System, m: nat, answers: seq<Answer>) returns (i: nat, j: nat)
    requires Good(histories, s, m) && s.on.Some? && Distinct(histories(s.on.value))
    requires ListsPrefixes(histories(s.on.value), answers) && NewestFirst(answers, None, s.store.cursor).Some?
    ensures i <= j <= |histories(s.on.value)| && i <= m
    ensures answers[0].Listing? && j == |answers[0].visible|
    ensures DoList(s, answers).todo == Signatures(histories(s.on.value))[i..j]
  {
    var h := histories(s.on.value);
    j := |answers[0].visible|;
    i := PagesAreASlice(h, answers, None, s.store.cursor, j);
    var part := Signatures(h)[i..j];
    assert Reverse(Reverse(part)) == part;
    if i > 0 {
      var k :| 0 <= k < m && h[k].signature == s.store.cursor.value;
      assert h[i - 1].signature == h[k].signature;
    }
  }

  lemma {:induction false} IndexedIff(histories: Histories, t: Tables, m: nat, i: nat)
    requires Holds(histories, t, m) && t.genesis.Some? && t.program.Some?
    requires var h := histories(Source(t.genesis.value, t.program.value)); Distinct(h) && i < |h|
    ensures t.IsIndexed(histories(Source(t.genesis.value, t.program.value))[i].signature) <==> i < m
  {
    var h := histories(Source(t.genesis.value, t.program.value));
    if i < m {
      assert t.transactions[i].signature == h[i].signature;
    }
    if k :| 0 <= k < |t.transactions| && t.transactions[k].signature == h[i].signature {
      assert h[k].signature == h[i].signature;
    }
  }

  lemma {:induction false} RowsAreOfRecords(records: seq<Record>, k: nat)
    requires k < |EventsOf(records)|
    ensures exists i :: 0 <= i < |records| && records[i].signature == EventsOf(records)[k].signature
  {
    var last := records[|records| - 1];
    var before := EventsOf(records[..|records| - 1]);
    if k < |before| {
      RowsAreOfRecords(records[..|records| - 1], k);
      var i :| 0 <= i < |records| - 1 && records[..|records| - 1][i].signature == before[k].signature;
      assert records[i].signature == EventsOf(records)[k].signature;
    } else {
      assert EventsOf(records)[k] == RowsOf(last)[k - |before|];
    }
  }

  /** Storing the next transaction of the history. */
  lemma {:induction false} RecordKeeps(histories: Histories, s: System, m: nat)
    requires Good(histories, s, m) && s.on.Some? && Distinct(histories(s.on.value)) && m < |histories(s.on.value)|
    ensures Holds(histories, s.store.Recorded(RecordOf(histories(s.on.value)[m], s.on.value.program)), m + 1)
  {
    var h, program := histories(s.on.value), s.on.value.program;
    var t, r := s.store, RecordOf(h[m], program);
    IndexedIff(histories, t, m, m);
    var u := t.Recorded(r);
    assert u.transactions == t.transactions + [r] == RecordsOf(h[..m + 1], program);
    forall k | 0 <= k < |t.events| ensures t.events[k].signature != r.signature {
      RowsAreOfRecords(t.transactions, k);
    }
    InsertedNew(t.events, RowsOf(r), r.signature);
    assert u.transactions[..|u.transactions| - 1] == t.transactions;
    assert h[m].signature == u.cursor.value;
  }

  lemma {:induction false} FirstOfSlice(sigs: seq<Signature>, i: nat, j: nat)
    requires i < j <= |sigs|
    ensures sigs[i..j][0] == sigs[i] && sigs[i..j][1..] == sigs[i + 1..j]
  {}

  lemma {:induction false} StoreNextKeeps(histories: Histories, s: System, m: nat, loads: bool) returns (m': nat)
    requires Good(histories, s, m) && s.on.Some? ==> Distinct(histories(s.on.value))
    requires Good(histories, s, m)
    ensures Good(histories, DoStoreNext(histories, s, loads), m')
    ensures m <= m' <= m + 1
  {
    m' := m;
    if s.on.Some? && s.todo != [] {
      var h := histories(s.on.value);
      var sigs := Signatures(h);
      var i, j :| 0 <= i <= j <= |h| && i <= m && s.todo == sigs[i..j];
      FirstOfSlice(sigs, i, j);
      IndexedIff(histories, s.store, m, i);
      NothingContinues(h, m);
      DistinctSignatures(h, sigs);
      PlaceIsUnique(sigs, i);
      if i == m && loads {
        RecordKeeps(histories, s, m);
        m' := m + 1;
        hide Holds;
        assert Continues(h, s.todo[1..], m');
      } else if i < m {
        assert Continues(h, s.todo[1..], m);
      }
    }
  }

  lemma {:induction false} CheckChainKeeps(histories: Histories, s: System, m: nat, source: Source, dies: bool)
    requires Good(histories, s, m)
    ensures Good(histories, DoCheckChain(s, source, dies), m)
  {
    if s.on.None? {
      NothingContinues(histories(source), m);
      assert histories(source)[..0] == [] && EventsOf([]) == [];
    }
  }

  lemma {:induction false} DoKeeps(histories: Histories, s: System, m: nat, step: Step) returns (m': nat)
    requires forall source :: Distinct(histories(source))
    requires Good(histories, s, m) && Honest(histories, s, step)
    ensures Good(histories, Do(histories, s, step), m') && m <= m'
  {
    m' := m;
    match step
    case CheckChain(source, dies) => CheckChainKeeps(histories, s, m, source, dies);
    case List(answers) =>
      if s.on.Some? {
        ListKeeps(histories, s, m, answers);
      }
    case StoreNext(loads) => m' := StoreNextKeeps(histories, s, m, loads);
    case EndSync =>
      if s.on.Some? {
        NothingContinues(histories(s.on.value), m);
      }
    case Crash =>
  }

  lemma {:induction false} RunKeeps(histories: Histories, run: seq<Step>) returns (m: nat)
    requires forall source :: Distinct(histories(source))
    requires HonestRun(histories, EMPTY, run)
    ensures Good(histories, DoAll(histories, EMPTY, run), m)
  {
    if run == [] {
      m := 0;
    } else {
      var before := run[..|run| - 1];
      assert HonestRun(histories, EMPTY, before) by {
        assert forall k :: 0 <= k < |before| ==> before[..k] == run[..k] && before[k] == run[k];
      }
      var n := RunKeeps(histories, before);
      assert Honest(histories, DoAll(histories, EMPTY, run[..|run| - 1]), run[|run| - 1]);
      m := DoKeeps(histories, DoAll(histories, EMPTY, before), n, run[|run| - 1]);
    }
  }

  /**
   * Under paging, RPC errors, crashes anywhere and nodes that forget `until`: what is stored is
   * a prefix of one history, each transaction once and whole, its events in chain order; and
   * everything at or before the cursor is stored.
   */
  lemma {:induction false} IndexIsAPrefix(histories: Histories, run: seq<Step>) returns (m: nat)
    requires forall source :: Distinct(histories(source))
    requires HonestRun(histories, EMPTY, run)
    ensures var t := DoAll(histories, EMPTY, run).store;
      if t.genesis.Some? && t.program.Some? then
        var h := histories(Source(t.genesis.value, t.program.value));
        && m <= |h| && t.transactions == RecordsOf(h[..m], t.program.value) && t.events == EventsOf(t.transactions)
        && (t.cursor.Some? ==> exists k :: 0 <= k < m && h[k].signature == t.cursor.value)
      else t.transactions == [] && t.events == [] && t.cursor.None?
  {
    m := RunKeeps(histories, run);
  }

  // ---- a sync that finishes ----

  /** Storing all of `todo`, when it is the history from `i` to `j`. */
  lemma {:induction false} StoresAll(histories: Histories, s: System, m: nat, i: nat, j: nat)
    requires forall source :: Distinct(histories(source))
    requires Good(histories, s, m) && s.on.Some?
    requires i <= j <= |histories(s.on.value)| && i <= m && s.todo == Signatures(histories(s.on.value))[i..j]
    ensures var r := DoAll(histories, s, seq(j - i, _ => StoreNext(true)));
      && Good(histories, r, if m < j then j else m) && r.todo == [] && r.on == s.on
      && r.store.cursor == (if i < j then Some(histories(s.on.value)[j - 1].signature) else s.store.cursor)
    decreases j - i
  {
    var run := seq(j - i, _ => StoreNext(true));
    if i < j {
      var h := histories(s.on.value);
      var next := DoStoreNext(histories, s, true);
      StoresOne(histories, s, m, i, j);
      StoresAll(histories, next, if m == i then m + 1 else m, i + 1, j);
      assert run == [StoreNext(true)] + seq(j - i - 1, _ => StoreNext(true));
      DoAllFirst(histories, s, StoreNext(true), seq(j - i - 1, _ => StoreNext(true)));
    }
  }

  lemma {:induction false} StoresOne(histories: Histories, s: System, m: nat, i: nat, j: nat)
    requires Good(histories, s, m) && s.on.Some? && Distinct(histories(s.on.value))
    requires i < j <= |histories(s.on.value)| && i <= m && s.todo == Signatures(histories(s.on.value))[i..j]
    ensures var r := DoStoreNext(histories, s, true);
      && Good(histories, r, if m == i then m + 1 else m) && r.on == s.on
      && r.todo == Signatures(histories(s.on.value))[i + 1..j]
      && r.store.cursor == Some(histories(s.on.value)[i].signature)
  {
    var h := histories(s.on.value);
    var sigs := Signatures(h);
    FirstOfSlice(sigs, i, j);
    IndexedIff(histories, s.store, m, i);
    DistinctSignatures(h, sigs);
    PlaceIsUnique(sigs, i);
    if i == m {
      RecordKeeps(histories, s, m);
    }
    hide RowsOf, RecordsOf, EventsOf, Inserted;
    assert Continues(h, sigs[i + 1..j], if m == i then m + 1 else m);
  }

  lemma {:induction false} DoAllFirst(histories: Histories, s: System, first: Step, rest: seq<Step>)
    ensures DoAll(histories, s, [first] + rest) == DoAll(histories, Do(histories, s, first), rest)
  {
    if rest == [] {
      assert [first] + rest == [first] && [first][..0] == [];
    } else {
      assert ([first] + rest)[..|rest|] == [first] + rest[..|rest| - 1];
      DoAllFirst(histories, s, first, rest[..|rest| - 1]);
    }
  }

  /** A sync that meets no error stores everything its first listing showed. */
  lemma {:induction false} FinishedSyncIsComplete(histories: Histories, s: System, m: nat, answers: seq<Answer>)
    requires forall source :: Distinct(histories(source))
    requires Good(histories, s, m) && s.on.Some?
    requires ListsPrefixes(histories(s.on.value), answers) && NewestFirst(answers, None, s.store.cursor).Some?
    ensures answers[0].Listing?
    ensures var listed := DoList(s, answers);
      var r := DoAll(histories, listed, seq(|listed.todo|, _ => StoreNext(true)));
      Good(histories, r, if m < |answers[0].visible| then |answers[0].visible| else m) && r.todo == []
  {
    hide Good, NewestFirst, ListsPrefixes, DoAll, Distinct, Reverse;
    assert DoList(s, answers).on == s.on;
    hide DoList;
    var i, j := Listed(histories, s, m, answers);
    ListKeeps(histories, s, m, answers);
    StoresAll(histories, DoList(s, answers), m, i, j);
  }

  // ---- what is stored of a transaction ----

  /** Logs as the runtime prints them for a tree of successful calls in which no free text reads like a runtime line. */
  ghost predicate PrintedFrom(tx: Tx, calls: seq<ProgramLogs.Item>) {
    !tx.failed && ProgramLogs.Legible(calls) && tx.logs == ProgramLogs.Print(calls, 1)
  }

  /** In any run, the events stored of such a transaction are the records the program itself wrote, in order. */
  lemma {:induction false} StoredEventsAreTheProgramsOwn(histories: Histories, run: seq<Step>, k: nat, calls: seq<ProgramLogs.Item>)
    requires forall source :: Distinct(histories(source))
    requires HonestRun(histories, EMPTY, run)
    requires var t := DoAll(histories, EMPTY, run).store;
      && t.genesis.Some? && t.program.Some? && k < |t.transactions|
      && k < |histories(Source(t.genesis.value, t.program.value))|
      && PrintedFrom(histories(Source(t.genesis.value, t.program.value))[k], calls)
    ensures var t := DoAll(histories, EMPTY, run).store;
      && t.transactions[k].events == ProgramLogs.Records(calls, t.program.value, None)
      && !t.transactions[k].logsTruncated
  {
    var t := DoAll(histories, EMPTY, run).store;
    var m := IndexIsAPrefix(histories, run);
    ProgramLogs.ParserUndoesPrinter(calls, t.program.value);
  }

  /**
   * In any run: every stored transaction has the slot and the outcome it has on-chain, and one
   * that failed left nothing behind, no record and no event row.
   */
  lemma {:induction false} StoredAsItHappened(histories: Histories, run: seq<Step>, k: nat)
    requires forall source :: Distinct(histories(source))
    requires HonestRun(histories, EMPTY, run) && k < |DoAll(histories, EMPTY, run).store.transactions|
    ensures var t := DoAll(histories, EMPTY, run).store;
      && t.genesis.Some? && t.program.Some?
      && var h := histories(Source(t.genesis.value, t.program.value));
      && k < |h|
      && t.transactions[k].signature == h[k].signature && t.transactions[k].slot == h[k].slot
      && t.transactions[k].failed == h[k].failed
      && (h[k].failed ==>
            && t.transactions[k].events == [] && !t.transactions[k].logsTruncated
            && forall id :: 0 <= id < |t.events| ==> t.events[id].signature != h[k].signature)
  {
    var t := DoAll(histories, EMPTY, run).store;
    var m := IndexIsAPrefix(histories, run);
    var h := histories(Source(t.genesis.value, t.program.value));
    if h[k].failed {
      forall id | 0 <= id < |t.events| ensures t.events[id].signature != h[k].signature {
        var tx := EventIdsFollowTheChain(t.transactions, id);
        assert tx != k;
      }
    }
  }

  /** Ids of event rows follow the chain: first by transaction, then by place in it. */
  lemma {:induction false} EventIdsFollowTheChain(records: seq<Record>, id: nat) returns (tx: nat)
    requires id < |EventsOf(records)|
    ensures tx < |records|
    ensures var before := |EventsOf(records[..tx])|;
      && before <= id < before + |records[tx].events|
      && EventsOf(records)[id] == EventRow(records[tx].signature, id - before, records[tx].slot, records[tx].events[id - before])
  {
    var last := |records| - 1;
    var earlier := EventsOf(records[..last]);
    if id < |earlier| {
      tx := EventIdsFollowTheChain(records[..last], id);
      assert records[..last][..tx] == records[..tx];
    } else {
      tx := last;
      assert EventsOf(records)[id] == RowsOf(records[last])[id - |earlier|];
    }
  }

  /** Every event of a stored transaction has its row, in its place. */
  lemma {:induction false} EveryEventHasItsRow(records: seq<Record>, tx: nat, index: nat)
    requires tx < |records| && index < |records[tx].events|
    ensures var id := |EventsOf(records[..tx])| + index;
      && id < |EventsOf(records)|
      && EventsOf(records)[id] == EventRow(records[tx].signature, index, records[tx].slot, records[tx].events[index])
  {
    var last := |records| - 1;
    if tx < last {
      EveryEventHasItsRow(records[..last], tx, index);
      assert records[..last][..tx] == records[..tx];
    }
  }

  // ---- which database serves which chain ----

  /** A database takes a source exactly when it is empty or was filled from that source. */
  lemma {:induction false} TakesOnlyItsSource(s: System, source: Source)
    requires s.on.None?
    ensures DoCheckChain(s, source, false).on == Some(source) <==>
      (s.store.genesis.None? && s.store.program.None?) || (s.store.genesis == Some(source.genesis) && s.store.program == Some(source.program))
    ensures DoCheckChain(s, source, false).on.None? ==> DoCheckChain(s, source, false) == s
  {}

  /** A process that dies between the two writes of the first check leaves a database no later run can use. */
  lemma {:induction false} HalfWrittenStateHalts(histories: Histories, source: Source, run: seq<Step>)
    ensures var r := DoAll(histories, DoCheckChain(EMPTY, source, true), run);
      r.on.None? && r.store == Tables([], [], None, Some(source.genesis), None)
  {
    if run != [] {
      HalfWrittenStateHalts(histories, source, run[..|run| - 1]);
    }
  }

  /** A database can take some source exactly when it was given both halves of one, or neither. */
  lemma {:induction false} TakesASourceIff(s: System)
    requires s.on.None?
    ensures (exists source :: DoCheckChain(s, source, false).on == Some(source)) <==> (s.store.genesis.None? <==> s.store.program.None?)
  {
    var source := Source(if s.store.genesis.Some? then s.store.genesis.value else "", if s.store.program.Some? then s.store.program.value else "");
    if s.store.genesis.None? <==> s.store.program.None? {
      assert DoCheckChain(s, source, false).on == Some(source);
    }
  }

  // ---- a listing with a gap ----

  /** Two transactions, of which the node lists the newer one first. */
  function TwoTransactions(): seq<Tx> {
    [Tx("first", 1, true, []), Tx("second", 2, true, [])]
  }

  function GapRun(source: Source): seq<Step> {
    [CheckChain(source, false), List([Listing(["second"], false)]), StoreNext(true)]
  }

  /** Without prefixes the promise fails: the cursor passes a transaction that is not stored. */
  lemma {:induction false} AGapIsPassed(source: Source)
    ensures var histories := (_: Source) => TwoTransactions();
      var t := DoAll(histories, EMPTY, GapRun(source)).store;
      t.cursor == Some("second") && !t.IsIndexed("first")
  {
    var histories := (_: Source) => TwoTransactions();
    var run := GapRun(source);
    var listing := [Listing(["second"], false)];
    var checked := DoCheckChain(EMPTY, source, false);
    OneIsListed();
    var listed := DoList(checked, listing);
    assert listed.todo == ["second"];
    var sigs := Signatures(TwoTransactions());
    assert sigs[1] == "second" && Known(sigs, "second");
    var stored := DoStoreNext(histories, listed, true);
    assert run[..3] == run && run[..2][..1] == run[..1] && run[..3][..2] == run[..2] && run[..1][..0] == [];
    assert DoAll(histories, EMPTY, run[..1]) == checked;
    assert DoAll(histories, EMPTY, run[..2]) == listed;
  }

  lemma {:induction false} OneIsListed()
    ensures NewestFirst([Listing(["second"], false)], None, None) == Some(["second"]) && Reverse(["second"]) == ["second"]
  {
    var visible: seq<Signature> := ["second"];
    assert visible[0] == "second" && |visible| == 1;
    assert Page(visible, 1, None, PAGE_SIZE) == [visible[0]] + Page(visible, 0, None, PAGE_SIZE - 1) == visible;
    assert PageOf(Listing(visible, false), None, None) == Some(visible);
    assert NewestFirst([Listing(["second"], false)], None, None) == Some(visible);
  }
}
