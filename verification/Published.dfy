/**
 * A car's published data: its confirmed days split into month files named by an index, and the
 * verifier that recomputes every hash from those files and compares the result with the chain.
 */
module Published {
  import opened Wrappers
  import opened HashChain
  import opened TelemetryStore
  import opened TelemetryProtocol
  import opened TelemetrySafety
  import opened TelemetryTheorems
  import Dates

  /** A published day record; `body` stands for every field but its date. */
  datatype DayRecord = DayRecord(date: Date, body: string)

  /** SHA-256 of the canonical text of a record. */
  type RecordHash = DayRecord -> Hash

  ghost predicate Injective(hash: RecordHash) {
    forall r, s :: hash(r) == hash(s) ==> r == s
  }

  datatype ConfirmedDay = ConfirmedDay(record: DayRecord, dataHash: Hash, link: ChainLink)

  datatype PublishedDay = PublishedDay(record: DayRecord, dataHash: Hash, head: Hash)

  datatype MonthFile = MonthFile(month: nat, headBefore: Hash, headAfter: Hash, days: seq<PublishedDay>)

  /** What the index says of a month, and the file it names. */
  datatype IndexedMonth = IndexedMonth(head: Hash, file: MonthFile)

  /** YYYYMM. */
  function MonthOf(date: Date): nat { date / 100 }

  // ---- publishing ----

  /** A reader starts from 32 zero bytes, so a chain whose first days are not held publishes none. */
  function PublishedChain(confirmed: seq<ConfirmedDay>): seq<ConfirmedDay> {
    if confirmed != [] && confirmed[0].link.position == 1 then confirmed else []
  }

  function InMonth(days: seq<ConfirmedDay>, month: nat): seq<ConfirmedDay> {
    if days == [] then [] else
    InMonth(days[..|days| - 1], month) + if MonthOf(days[|days| - 1].record.date) == month then [days[|days| - 1]] else []
  }

  /** The file of one month; `days` are that month's, in chain order. */
  function TelemetryMonth(month: nat, days: seq<ConfirmedDay>): MonthFile
    requires days != []
  {
    MonthFile(month, days[0].link.headBefore, days[|days| - 1].link.headAfter,
              seq(|days|, k requires 0 <= k < |days| => PublishedDay(days[k].record, days[k].dataHash, days[k].link.headAfter)))
  }

  datatype Group = Group(month: nat, days: seq<ConfirmedDay>)

  /** The place of a month among those met so far. */
  function PlaceOf(groups: seq<Group>, month: nat): (k: nat)
    ensures k <= |groups| && (k < |groups| ==> groups[k].month == month)
    ensures forall j :: 0 <= j < k ==> groups[j].month != month
  {
    if groups == [] || groups[0].month == month then 0 else 1 + PlaceOf(groups[1..], month)
  }

  function Added(groups: seq<Group>, day: ConfirmedDay): seq<Group> {
    var month := MonthOf(day.record.date);
    var k := PlaceOf(groups, month);
    if k < |groups| then groups[k := Group(month, groups[k].days + [day])] else groups + [Group(month, [day])]
  }

  function Grouped(days: seq<ConfirmedDay>): seq<Group> {
    if days == [] then [] else Added(Grouped(days[..|days| - 1]), days[|days| - 1])
  }

  /** The months of the index, in the order their first day is met, each with its newest head. */
  method CarIndex(days: seq<ConfirmedDay>) returns (months: seq<Group>)
    ensures months == Grouped(days)
  {
    months := [];
    for i := 0 to |days|
      invariant months == Grouped(days[..i])
    {
      assert days[..i + 1][..i] == days[..i];
      var month := MonthOf(days[i].record.date);
      var k := PlaceOf(months, month);
      if k < |months| {
        months := months[k := Group(month, months[k].days + [days[i]])];
      } else {
        months := months + [Group(month, [days[i]])];
      }
    }
    assert days[..|days|] == days;
  }

  /** What is served: the index's heads, and for each month the file cut out of the whole chain. */
  function Files(days: seq<ConfirmedDay>): seq<IndexedMonth> {
    Served(days, Grouped(days))
  }

  function Served(days: seq<ConfirmedDay>, groups: seq<Group>): (months: seq<IndexedMonth>)
    ensures |months| == |groups| && forall k :: 0 <= k < |groups| ==> months[k] == ServedMonth(days, groups[k])
  {
    seq(|groups|, k requires 0 <= k < |groups| => ServedMonth(days, groups[k]))
  }

  function ServedMonth(days: seq<ConfirmedDay>, g: Group): IndexedMonth {
    var month := InMonth(days, g.month);
    if month == [] || g.days == [] then IndexedMonth(EMPTY_HEAD, MonthFile(g.month, EMPTY_HEAD, EMPTY_HEAD, []))
    else IndexedMonth(g.days[|g.days| - 1].link.headAfter, TelemetryMonth(g.month, month))
  }

  /** Two real days are in one file exactly when they are of one calendar month, and files follow the calendar. */
  lemma {:induction false} MonthsAreCalendarMonths(a: Date, b: Date)
    requires Dates.IsDateNumber(a) && Dates.IsDateNumber(b)
    ensures var c, d := Dates.CivilOf(a), Dates.CivilOf(b);
      && MonthOf(a) == 100 * c.year + c.month
      && (MonthOf(a) == MonthOf(b) <==> c.year == d.year && c.month == d.month)
      && (MonthOf(a) < MonthOf(b) <==> c.year < d.year || (c.year == d.year && c.month < d.month))
  {
    MonthOfCivil(a);
    MonthOfCivil(b);
    hide MonthOf, Dates.CivilOf;
  }

  lemma {:induction false} MonthOfCivil(a: Date)
    ensures MonthOf(a) == 100 * Dates.CivilOf(a).year + Dates.CivilOf(a).month && Dates.CivilOf(a).month < 100
  {
    assert a / 10_000 == a / 100 / 100;
  }

  // ---- the months are the days ----

  ghost predicate ByDate(days: seq<ConfirmedDay>) {
    forall i, j :: 0 <= i < j < |days| ==> days[i].record.date < days[j].record.date
  }

  function Flat(groups: seq<Group>): seq<ConfirmedDay> {
    if groups == [] then [] else Flat(groups[..|groups| - 1]) + groups[|groups| - 1].days
  }

  ghost predicate Tidy(groups: seq<Group>) {
    && (forall k :: 0 <= k < |groups| ==> groups[k].days != [])
    && (forall k, i :: 0 <= k < |groups| && 0 <= i < |groups[k].days| ==> MonthOf(groups[k].days[i].record.date) == groups[k].month)
    && (forall j, k :: 0 <= j < k < |groups| ==> groups[j].month < groups[k].month)
  }

  lemma {:induction false} FlatNext(groups: seq<Group>, k: nat)
    requires k < |groups|
    ensures Flat(groups[..k + 1]) == Flat(groups[..k]) + groups[k].days
  {
    assert groups[..k + 1][..k] == groups[..k];
  }

  /** Of days in date order, the months in order and put together are the days again. */
  lemma {:induction false} MonthsAreTheDays(days: seq<ConfirmedDay>)
    requires ByDate(days)
    ensures Flat(Grouped(days)) == days && Tidy(Grouped(days))
  {
    hide *;
    GroupedNone();
    if days != [] {
      ByDatePrefix(days);
      MonthsAreTheDays(days[..|days| - 1]);
      GroupedNext(days);
      NoLaterMonth(days, Grouped(days[..|days| - 1]));
      AddedLast(Grouped(days[..|days| - 1]), days[|days| - 1]);
      assert days[..|days| - 1] + [days[|days| - 1]] == days;
    }
  }

  lemma {:induction false} ByDatePrefix(days: seq<ConfirmedDay>)
    requires ByDate(days) && days != []
    ensures ByDate(days[..|days| - 1])
  {}

  lemma {:induction false} GroupedNone()
    ensures Flat(Grouped([])) == [] && Tidy(Grouped([]))
  {}

  lemma {:induction false} GroupedNext(days: seq<ConfirmedDay>)
    requires days != []
    ensures Grouped(days) == Added(Grouped(days[..|days| - 1]), days[|days| - 1])
  {}

  /** The newest month so far is not after the month of the next day. */
  lemma {:induction false} NoLaterMonth(days: seq<ConfirmedDay>, groups: seq<Group>)
    requires ByDate(days) && days != [] && Flat(groups) == days[..|days| - 1] && Tidy(groups)
    ensures groups != [] ==> groups[|groups| - 1].month <= MonthOf(days[|days| - 1].record.date)
  {
    if groups != [] {
      var last := groups[|groups| - 1];
      assert Flat(groups) == Flat(groups[..|groups| - 1]) + last.days;
      assert last.days[|last.days| - 1] == days[|days| - 2];
    }
  }

  lemma {:induction false} AddedLast(groups: seq<Group>, day: ConfirmedDay)
    requires Tidy(groups) && (groups != [] ==> groups[|groups| - 1].month <= MonthOf(day.record.date))
    ensures Tidy(Added(groups, day)) && Flat(Added(groups, day)) == Flat(groups) + [day]
  {
    var month := MonthOf(day.record.date);
    var k := PlaceOf(groups, month);
    if k < |groups| {
      assert k == |groups| - 1;
      ExtendedLast(groups, day);
    } else {
      assert Added(groups, day)[..|groups|] == groups;
      NewLast(groups, day);
    }
  }

  lemma {:induction false} ExtendedLast(groups: seq<Group>, day: ConfirmedDay)
    requires Tidy(groups) && groups != [] && groups[|groups| - 1].month == MonthOf(day.record.date)
    ensures var k := |groups| - 1;
      var added := groups[k := Group(groups[k].month, groups[k].days + [day])];
      Tidy(added) && Flat(added) == Flat(groups) + [day]
  {
    var k := |groups| - 1;
    var added := groups[k := Group(groups[k].month, groups[k].days + [day])];
    assert added[..k] == groups[..k];
    assert Flat(groups[..k]) + (groups[k].days + [day]) == Flat(groups[..k]) + groups[k].days + [day];
  }

  lemma {:induction false} NewLast(groups: seq<Group>, day: ConfirmedDay)
    requires Tidy(groups) && forall k :: 0 <= k < |groups| ==> groups[k].month < MonthOf(day.record.date)
    ensures Tidy(groups + [Group(MonthOf(day.record.date), [day])])
  {}

  lemma {:induction false} InMonthConcat(a: seq<ConfirmedDay>, b: seq<ConfirmedDay>, month: nat)
    ensures InMonth(a + b, month) == InMonth(a, month) + InMonth(b, month)
  {
    if b == [] {
      assert a + b == a;
    } else {
      assert (a + b)[..|a + b| - 1] == a + b[..|b| - 1];
      InMonthConcat(a, b[..|b| - 1], month);
    }
  }

  lemma {:induction false} InMonthAll(days: seq<ConfirmedDay>, of: nat, month: nat)
    requires forall i :: 0 <= i < |days| ==> MonthOf(days[i].record.date) == of
    ensures InMonth(days, month) == if of == month then days else []
  {
    if days != [] {
      InMonthAll(days[..|days| - 1], of, month);
      assert days[..|days| - 1] + [days[|days| - 1]] == days;
    }
  }

  /** The days of a month are those of its group: of the months so far, at most one has that number. */
  lemma {:induction false} InMonthOfFlat(groups: seq<Group>, k: nat, m: nat)
    requires Tidy(groups) && k < |groups| && m <= |groups|
    ensures InMonth(Flat(groups[..m]), groups[k].month) == if k < m then groups[k].days else []
  {
    if m > 0 {
      InMonthOfFlat(groups, k, m - 1);
      FlatNext(groups, m - 1);
      InMonthConcat(Flat(groups[..m - 1]), groups[m - 1].days, groups[k].month);
      hide Flat, InMonth;
      InMonthAll(groups[m - 1].days, groups[m - 1].month, groups[k].month);
      assert groups[m - 1].month == groups[k].month ==> m - 1 == k;
      assert groups[k].days + [] == groups[k].days && [] + groups[k].days == groups[k].days;
    }
  }

  // ---- verifying ----

  function Entries(hash: RecordHash, days: seq<PublishedDay>): seq<Entry> {
    seq(|days|, k requires 0 <= k < |days| => Entry(days[k].record.date, hash(days[k].record)))
  }

  /** All published days of the first months. */
  function AllDays(months: seq<IndexedMonth>): seq<PublishedDay> {
    if months == [] then [] else AllDays(months[..|months| - 1]) + months[|months| - 1].file.days
  }

  /** Everything the files of month `k` claim is what the records give. */
  ghost predicate Truthful(step: ChainStep, hash: RecordHash, months: seq<IndexedMonth>, k: nat)
    requires k < |months|
  {
    var file := months[k].file;
    var before := Head(step, EMPTY_HEAD, Entries(hash, AllDays(months[..k])));
    var after := Head(step, EMPTY_HEAD, Entries(hash, AllDays(months[..k + 1])));
    && file.headBefore == before && file.headAfter == after && months[k].head == after
    && forall i :: 0 <= i < |file.days| ==> hash(file.days[i].record) == file.days[i].dataHash
  }

  datatype Problem = HeadBeforeBreaks(month: nat) | RecordHashDiffers(date: Date) | MonthHeadDiffers(month: nat) | ChainHeadDiffers | CountDiffers

  /** Recomputes the chain from the files; `count` and `onChain` are what the program stored. */
  method VerifyTelemetry(step: ChainStep, hash: RecordHash, months: seq<IndexedMonth>, count: nat, onChain: Hash)
    returns (problems: seq<Problem>)
    ensures problems == [] <==>
      && (forall k :: 0 <= k < |months| ==> Truthful(step, hash, months, k))
      && |AllDays(months)| == count && Head(step, EMPTY_HEAD, Entries(hash, AllDays(months))) == onChain
    ensures CountDiffers in problems <==> |AllDays(months)| != count
  {
    hide Head, Entries;
    problems := [];
    var head := EMPTY_HEAD;
    var days := 0;
    assert head == Head(step, EMPTY_HEAD, Entries(hash, AllDays([]))) by { NoEntries(step, hash); }
    for k := 0 to |months|
      invariant head == Head(step, EMPTY_HEAD, Entries(hash, AllDays(months[..k]))) && days == |AllDays(months[..k])|
      invariant problems == [] <==> forall j :: 0 <= j < k ==> Truthful(step, hash, months, j)
      invariant CountDiffers !in problems
    {
      var file := months[k].file;
      ghost var before := problems;
      if file.headBefore != head {
        problems := problems + [HeadBeforeBreaks(file.month)];
      }
      var found, after := VerifyDays(step, hash, file.days, head);
      problems := problems + found;
      days := days + |file.days|;
      NextMonth(step, hash, months, k);
      head := after;
      if head != file.headAfter || head != months[k].head {
        problems := problems + [MonthHeadDiffers(file.month)];
      }
      assert problems == [] <==> before == [] && Truthful(step, hash, months, k);
    }
    assert months[..|months|] == months;
    if days == count && head != onChain {
      problems := problems + [ChainHeadDiffers];
    }
    if days != count {
      problems := problems + [CountDiffers];
    }
  }

  method VerifyDays(step: ChainStep, hash: RecordHash, days: seq<PublishedDay>, before: Hash) returns (problems: seq<Problem>, head: Hash)
    ensures head == Head(step, before, Entries(hash, days))
    ensures problems == [] <==> forall i :: 0 <= i < |days| ==> hash(days[i].record) == days[i].dataHash
    ensures CountDiffers !in problems
  {
    problems, head := [], before;
    for i := 0 to |days|
      invariant head == Head(step, before, Entries(hash, days)[..i])
      invariant problems == [] <==> forall j :: 0 <= j < i ==> hash(days[j].record) == days[j].dataHash
      invariant CountDiffers !in problems
    {
      var dataHash := hash(days[i].record);
      if dataHash != days[i].dataHash {
        problems := problems + [RecordHashDiffers(days[i].record.date)];
      }
      assert Entries(hash, days)[..i + 1][..i] == Entries(hash, days)[..i];
      head := step(head, days[i].record.date, dataHash);
    }
    assert Entries(hash, days)[..|days|] == Entries(hash, days);
  }

  lemma {:induction false} NoEntries(step: ChainStep, hash: RecordHash)
    ensures Head(step, EMPTY_HEAD, Entries(hash, AllDays([]))) == EMPTY_HEAD
  {}

  lemma {:induction false} NextMonth(step: ChainStep, hash: RecordHash, months: seq<IndexedMonth>, k: nat)
    requires k < |months|
    ensures AllDays(months[..k + 1]) == AllDays(months[..k]) + months[k].file.days
    ensures Head(step, EMPTY_HEAD, Entries(hash, AllDays(months[..k + 1])))
      == Head(step, Head(step, EMPTY_HEAD, Entries(hash, AllDays(months[..k]))), Entries(hash, months[k].file.days))
  {
    hide Head;
    assert months[..k + 1][..k] == months[..k];
    var a, b := AllDays(months[..k]), months[k].file.days;
    assert Entries(hash, a + b) == Entries(hash, a) + Entries(hash, b);
    HeadConcat(step, EMPTY_HEAD, Entries(hash, a), Entries(hash, b));
  }

  // ---- published files verify ----

  ghost predicate Verified(step: ChainStep, hash: RecordHash, months: seq<IndexedMonth>, tip: Tip) {
    && (forall k :: 0 <= k < |months| ==> Truthful(step, hash, months, k))
    && |AllDays(months)| == tip.count && Head(step, EMPTY_HEAD, Entries(hash, AllDays(months))) == tip.head
  }

  function Shown(days: seq<ConfirmedDay>): seq<PublishedDay> {
    seq(|days|, k requires 0 <= k < |days| => PublishedDay(days[k].record, days[k].dataHash, days[k].link.headAfter))
  }

  /** The days are a chain from 32 zero bytes, in date order, with the heads and hashes of their records. */
  ghost predicate Chained(step: ChainStep, hash: RecordHash, days: seq<ConfirmedDay>) {
    && ByDate(days)
    && forall i :: 0 <= i < |days| ==>
         && days[i].dataHash == hash(days[i].record)
         && days[i].link.headBefore == Head(step, EMPTY_HEAD, Entries(hash, Shown(days))[..i])
         && days[i].link.headAfter == Head(step, EMPTY_HEAD, Entries(hash, Shown(days))[..i + 1])
  }

  lemma {:induction false} FlatPrefix(groups: seq<Group>, k: nat)
    requires k <= |groups|
    ensures Flat(groups[..k]) <= Flat(groups)
  {
    if k < |groups| {
      assert groups[..|groups| - 1][..k] == groups[..k];
      FlatPrefix(groups[..|groups| - 1], k);
    } else {
      assert groups[..k] == groups;
    }
  }

  lemma {:induction false} AllDaysNext(months: seq<IndexedMonth>, k: nat)
    requires k < |months|
    ensures AllDays(months[..k + 1]) == AllDays(months[..k]) + months[k].file.days
  {
    assert months[..k + 1][..k] == months[..k];
  }

  /** What the first `k` files hold, together. */
  lemma {:induction false} FirstFiles(days: seq<ConfirmedDay>, groups: seq<Group>, k: nat)
    requires Tidy(groups) && Flat(groups) == days && k <= |groups|
    ensures AllDays(Served(days, groups)[..k]) == Shown(Flat(groups[..k]))
  {
    if k > 0 {
      FirstFiles(days, groups, k - 1);
      hide AllDays, Served, Flat, Tidy, Shown;
      FileOf(days, groups, k - 1);
      AllDaysNext(Served(days, groups), k - 1);
      FlatNext(groups, k - 1);
      ShownConcat(Flat(groups[..k - 1]), groups[k - 1].days);
    }
  }

  lemma {:induction false} ShownConcat(a: seq<ConfirmedDay>, b: seq<ConfirmedDay>)
    ensures Shown(a + b) == Shown(a) + Shown(b)
  {}

  lemma {:induction false} FileOf(days: seq<ConfirmedDay>, groups: seq<Group>, k: nat)
    requires Tidy(groups) && Flat(groups) == days && k < |groups|
    ensures InMonth(days, groups[k].month) == groups[k].days != []
    ensures Served(days, groups)[k] == IndexedMonth(groups[k].days[|groups[k].days| - 1].link.headAfter, TelemetryMonth(groups[k].month, groups[k].days))
    ensures Served(days, groups)[k].file.days == Shown(groups[k].days)
  {
    InMonthOfFlat(groups, k, |groups|);
    assert groups[..|groups|] == groups;
  }

  /** Month `k` is a slice of the days, and the files before it hold the days before. */
  lemma {:induction false} SliceOf(days: seq<ConfirmedDay>, groups: seq<Group>, k: nat) returns (low: nat, top: nat)
    requires Tidy(groups) && Flat(groups) == days && k < |groups|
    ensures low < top <= |days| && groups[k].days == days[low..top]
    ensures AllDays(Served(days, groups)[..k]) == Shown(days[..low])
    ensures AllDays(Served(days, groups)[..k + 1]) == Shown(days[..top])
  {
    assert groups[k].days != [];
    hide Flat, Tidy, Served, Shown, AllDays;
    FlatPrefix(groups, k + 1);
    FlatNext(groups, k);
    FirstFiles(days, groups, k);
    FirstFiles(days, groups, k + 1);
    Slices(days, Flat(groups[..k]), groups[k].days);
    low, top := |Flat(groups[..k])|, |Flat(groups[..k + 1])|;
  }

  lemma {:induction false} Slices<T>(s: seq<T>, a: seq<T>, b: seq<T>)
    requires a + b <= s
    ensures s[..|a|] == a && s[..|a| + |b|] == a + b && s[|a|..|a| + |b|] == b
  {}

  lemma {:induction false} FileIsTruthful(step: ChainStep, hash: RecordHash, days: seq<ConfirmedDay>, groups: seq<Group>, k: nat)
    requires Chained(step, hash, days) && Tidy(groups) && Flat(groups) == days && k < |groups|
    ensures Truthful(step, hash, Served(days, groups), k)
  {
    hide Head, Entries, Chained, Flat, Tidy, Served, Shown;
    var low, top := SliceOf(days, groups, k);
    FileOf(days, groups, k);
    SliceIsTruthful(step, hash, days, low, top);
  }

  /** A month cut out of chained days: its heads are those of the chain before and after it. */
  lemma {:induction false} SliceIsTruthful(step: ChainStep, hash: RecordHash, days: seq<ConfirmedDay>, low: nat, top: nat)
    requires Chained(step, hash, days) && low < top <= |days|
    ensures days[low].link.headBefore == Head(step, EMPTY_HEAD, Entries(hash, Shown(days[..low])))
    ensures days[top - 1].link.headAfter == Head(step, EMPTY_HEAD, Entries(hash, Shown(days[..top])))
    ensures forall i :: 0 <= i < top - low ==> hash(Shown(days[low..top])[i].record) == Shown(days[low..top])[i].dataHash
  {
    hide Head;
    assert Entries(hash, Shown(days[..low])) == Entries(hash, Shown(days))[..low];
    assert Entries(hash, Shown(days[..top])) == Entries(hash, Shown(days))[..top];
    assert forall i :: 0 <= i < top - low ==> days[low..top][i] == days[low + i];
  }

  /** Files made from a chained list of days hold it whole, and every claim in them is true. */
  lemma {:induction false} FilesAreTruthful(step: ChainStep, hash: RecordHash, days: seq<ConfirmedDay>)
    requires Chained(step, hash, days)
    ensures AllDays(Files(days)) == Shown(days)
    ensures forall k :: 0 <= k < |Files(days)| ==> Truthful(step, hash, Files(days), k)
  {
    MonthsAreTheDays(days);
    var groups := Grouped(days);
    FirstFiles(days, groups, |groups|);
    assert groups[..|groups|] == groups && Files(days)[..|groups|] == Files(days);
    hide Truthful, Chained, Served;
    forall k | 0 <= k < |Files(days)| ensures Truthful(step, hash, Files(days), k) {
      FileIsTruthful(step, hash, days, groups, k);
    }
  }

  // ---- what the backend publishes ----

  /** The stored texts of the days: each hashes to the hash stored with it. */
  ghost predicate Archives(hash: RecordHash, t: Tables, archive: map<Date, DayRecord>) {
    forall d :: d in t.days ==> d in archive && archive[d].date == d && hash(archive[d]) == t.days[d].dataHash
  }

  function ConfirmedDays(t: Tables, archive: map<Date, DayRecord>, dates: seq<Date>): (days: seq<ConfirmedDay>)
    requires forall i :: 0 <= i < |dates| ==> dates[i] in t.days && dates[i] in archive && t.days[dates[i]].link.Some?
    ensures |days| == |dates|
    ensures forall i :: 0 <= i < |dates| ==> days[i] == ConfirmedDay(archive[dates[i]], t.days[dates[i]].dataHash, t.days[dates[i]].link.value)
  {
    seq(|dates|, i requires 0 <= i < |dates| => ConfirmedDay(archive[dates[i]], t.days[dates[i]].dataHash, t.days[dates[i]].link.value))
  }

  /** Chain order of the confirmed days is the order in which the chain holds them. */
  lemma {:induction false} ConfirmedInOrder(step: ChainStep, base: Tip, t: Tables, all: seq<Entry>, n: nat, p: Option<Signature>, dates: seq<Date>)
    requires Books(step, base, t, all, n, p) && ConfirmedOrder(t, dates)
    ensures |dates| == n && forall i :: 0 <= i < n ==> dates[i] == all[i].date
  {
    hide Head;
    var places: seq<nat> := PlacesOf(step, base, t, all, n, p, dates);
    forall i, j | 0 <= i < j < |dates| ensures places[i] < places[j] {
      assert t.days[dates[i]].link.value.position <= t.days[dates[j]].link.value.position;
    }
    forall k | 0 <= k < n ensures k in places {
      assert RowAt(step, base, t, all, n, p, k);
      assert all[k].date in dates;
      var i :| 0 <= i < |dates| && dates[i] == all[k].date;
      assert places[i] == k by { assert all[places[i]].date == all[k].date; }
    }
    CountsUp(places, n, |places|);
    AllCounted(places, n);
    assert forall i :: 0 <= i < n ==> places[i] == i;
  }

  lemma {:induction false} AllCounted(places: seq<nat>, n: nat)
    requires forall i :: 0 <= i < |places| ==> places[i] == i < n
    requires forall k :: 0 <= k < n ==> k in places
    ensures |places| == n
  {
    assert |places| > 0 ==> places[|places| - 1] == |places| - 1 < n;
    assert |places| !in places;
  }

  lemma {:induction false} PlacesOf(step: ChainStep, base: Tip, t: Tables, all: seq<Entry>, n: nat, p: Option<Signature>, dates: seq<Date>)
    returns (places: seq<nat>)
    requires Books(step, base, t, all, n, p) && ConfirmedOrder(t, dates)
    ensures |places| == |dates|
    ensures forall i :: 0 <= i < |dates| ==> places[i] < n && all[places[i]].date == dates[i] && dates[i] in t.days && t.days[dates[i]].link.Some? && t.days[dates[i]].link.value.position == base.count + places[i] + 1
  {
    hide Head;
    places := [];
    for i := 0 to |dates|
      invariant |places| == i
      invariant forall j :: 0 <= j < i ==> places[j] < n && all[places[j]].date == dates[j] && dates[j] in t.days && t.days[dates[j]].link.Some? && t.days[dates[j]].link.value.position == base.count + places[j] + 1
    {
      assert dates[i] in dates && t.IsConfirmed(dates[i]);
      var k :| 0 <= k < |all| && all[k].date == dates[i];
      assert RowAt(step, base, t, all, n, p, k);
      places := places + [k];
    }
  }

  /** Ascending places below `n` that miss none are 0, 1, 2, … */
  lemma {:induction false} CountsUp(places: seq<nat>, n: nat, m: nat)
    requires m <= |places| && forall i, j :: 0 <= i < j < |places| ==> places[i] < places[j]
    requires forall i :: 0 <= i < |places| ==> places[i] < n
    requires forall k :: 0 <= k < n ==> k in places
    ensures forall i :: 0 <= i < m ==> places[i] == i
  {
    if m > 0 {
      CountsUp(places, n, m - 1);
      assert places[m - 1] >= m - 1 by { assert m > 1 ==> places[m - 2] == m - 2; }
      assert m - 1 in places;
      var i :| 0 <= i < |places| && places[i] == m - 1;
      assert forall j :: 0 <= j < m - 1 ==> places[j] == j;
      assert forall j :: m - 1 < j < |places| ==> places[m - 1] < places[j];
    }
  }

  lemma {:induction false} ConfirmedAreChained(step: ChainStep, hash: RecordHash, base: Tip, t: Tables, all: seq<Entry>, n: nat, p: Option<Signature>,
                            archive: map<Date, DayRecord>, dates: seq<Date>)
    requires Books(step, base, t, all, n, p) && ConfirmedOrder(t, dates) && Archives(hash, t, archive)
    requires base.count == 0 && base.head == EMPTY_HEAD
    ensures var days := ConfirmedDays(t, archive, dates);
      && Chained(step, hash, days) && Entries(hash, Shown(days)) == all[..n] && PublishedChain(days) == days
  {
    hide Head;
    ConfirmedInOrder(step, base, t, all, n, p, dates);
    var days := ConfirmedDays(t, archive, dates);
    var entries := Entries(hash, Shown(days));
    forall i | 0 <= i < n ensures entries[i] == all[i] && RowAt(step, base, t, all, n, p, i) && days[i].record.date == all[i].date {
      assert RowAt(step, base, t, all, n, p, i);
    }
    assert entries == all[..n];
    assert forall i :: 0 <= i <= n ==> entries[..i] == all[..i];
  }

  ghost predicate AllConfirmed(s: System) {
    forall i :: 0 <= i < |s.chain.entries| ==> s.store.IsConfirmed(s.chain.entries[i].date)
  }

  /**
   * In every reachable state: the published files verify against the chain exactly when this
   * backend started the chain and every day on it is confirmed in the store, that is unless a
   * batch has landed that no reconcile has seen yet. An empty chain has an empty head.
   */
  lemma {:induction false} PublishedDataVerifiesIff(step: ChainStep, hash: RecordHash, s: System, run: seq<Action>, archive: map<Date, DayRecord>, dates: seq<Date>)
    requires Initial(s) && HonestRun(step, s, run) && (s.chain.base.count == 0 ==> s.chain.base.head == EMPTY_HEAD)
    requires var t := DoAll(step, s, run).store; ConfirmedOrder(t, dates) && Archives(hash, t, archive)
    ensures var r := DoAll(step, s, run);
      var published := Files(PublishedChain(ConfirmedDays(r.store, archive, dates)));
      Verified(step, hash, published, TipOf(step, r.chain)) <==> s.chain.base.count == 0 && AllConfirmed(r)
  {
    hide Head, Files, Truthful, Chained, DoAll;
    var r := DoAll(step, s, run);
    var all, n, p := ChainIsTheStore(step, s, run);
    var days := ConfirmedDays(r.store, archive, dates);
    if s.chain.base.count > 0 {
      LaterChain(step, hash, r.chain.base, r.store, all, n, p, archive, dates);
    } else {
      ConfirmedAreChained(step, hash, r.chain.base, r.store, all, n, p, archive, dates);
      FilesAreTruthful(step, hash, days);
      assert |Shown(days)| == |Entries(hash, Shown(days))| == n;
      ConfirmedUpTo(step, r.chain.base, r.store, all, n, p);
      hide Books, Entries, ConfirmedDays, ConfirmedOrder, Archives;
      if r.chain.entries != all[..n] {
        assert r.chain.entries == all && n < |all|;
        assert !r.store.IsConfirmed(r.chain.entries[n].date);
      }
    }
  }

  /** Of a chain another writer started, nothing is published. */
  lemma {:induction false} LaterChain(step: ChainStep, hash: RecordHash, base: Tip, t: Tables, all: seq<Entry>, n: nat, p: Option<Signature>,
                            archive: map<Date, DayRecord>, dates: seq<Date>)
    requires Books(step, base, t, all, n, p) && ConfirmedOrder(t, dates) && Archives(hash, t, archive) && base.count > 0
    ensures PublishedChain(ConfirmedDays(t, archive, dates)) == [] && Files([]) == [] && AllDays([]) == []
  {
    hide Head;
    ConfirmedInOrder(step, base, t, all, n, p, dates);
    if n > 0 {
      assert RowAt(step, base, t, all, n, p, 0);
    }
  }

  /** One day that has landed and that no reconcile has seen: nothing is published, and the verifier counts one day. */
  lemma {:induction false} LandedDayIsMissed(step: ChainStep, hash: RecordHash)
    ensures var s := OneDayLanded(step);
      && Safe(step, s, [Entry(20260101, "hash")], 0, Some("sig")) && ConfirmedOrder(s.store, [])
      && !Verified(step, hash, Files(PublishedChain(ConfirmedDays(s.store, map[], []))), TipOf(step, s.chain))
  {
    OneDayLands(step);
    OneDayLandedIsSafe(step);
    hide Safe, Moved;
    assert AllDays(Files([])) == [];
  }

  lemma {:induction false} ConfirmedUpTo(step: ChainStep, base: Tip, t: Tables, all: seq<Entry>, n: nat, p: Option<Signature>)
    requires Books(step, base, t, all, n, p)
    ensures n <= |all| && (p.None? <==> n == |all|)
    ensures forall i :: 0 <= i < |all| ==> (t.IsConfirmed(all[i].date) <==> i < n)
  {
    forall i | 0 <= i < |all| ensures t.IsConfirmed(all[i].date) <==> i < n {
      assert RowAt(step, base, t, all, n, p, i);
    }
  }

  // ---- what a verification proves ----

  /**
   * Whoever made the files: with collision-free hashing they verify exactly when each claim in
   * them is true and their records, in order, are the days the program recorded.
   */
  lemma {:induction false} VerifiedIff(step: ChainStep, hash: RecordHash, months: seq<IndexedMonth>, onChain: seq<Entry>)
    requires CollisionFree(step)
    ensures Verified(step, hash, months, TipAfter(step, Tip(0, EMPTY_HEAD, 0), onChain)) <==>
      && (forall k :: 0 <= k < |months| ==> Truthful(step, hash, months, k))
      && Entries(hash, AllDays(months)) == onChain
  {
    SameHead(step, EMPTY_HEAD, Entries(hash, AllDays(months)), onChain);
  }

  /** Two sets of files that verify against one chain publish the same records. */
  lemma {:induction false} OneTruth(step: ChainStep, hash: RecordHash, a: seq<IndexedMonth>, b: seq<IndexedMonth>, onChain: seq<Entry>)
    requires CollisionFree(step) && Injective(hash)
    requires var tip := TipAfter(step, Tip(0, EMPTY_HEAD, 0), onChain); Verified(step, hash, a, tip) && Verified(step, hash, b, tip)
    ensures |AllDays(a)| == |AllDays(b)| == |onChain|
    ensures forall i :: 0 <= i < |onChain| ==> AllDays(a)[i].record == AllDays(b)[i].record && AllDays(a)[i].record.date == onChain[i].date
  {
    VerifiedIff(step, hash, a, onChain);
    VerifiedIff(step, hash, b, onChain);
    forall i | 0 <= i < |onChain| ensures AllDays(a)[i].record == AllDays(b)[i].record && AllDays(a)[i].record.date == onChain[i].date {
      assert Entries(hash, AllDays(a))[i] == Entries(hash, AllDays(b))[i] == onChain[i];
    }
  }

  /** The files hold the same records, month by month. */
  predicate SameRecords(a: seq<IndexedMonth>, b: seq<IndexedMonth>) {
    && |a| == |b|
    && forall k :: 0 <= k < |a| ==>
         && |a[k].file.days| == |b[k].file.days|
         && forall i :: 0 <= i < |a[k].file.days| ==> a[k].file.days[i].record == b[k].file.days[i].record
  }

  lemma {:induction false} SameEntries(hash: RecordHash, a: seq<IndexedMonth>, b: seq<IndexedMonth>, k: nat)
    requires SameRecords(a, b) && k <= |a|
    ensures Entries(hash, AllDays(a[..k])) == Entries(hash, AllDays(b[..k]))
  {
    if k > 0 {
      SameEntries(hash, a, b, k - 1);
      assert a[..k][..k - 1] == a[..k - 1] && b[..k][..k - 1] == b[..k - 1];
      var x, y := AllDays(a[..k - 1]), AllDays(b[..k - 1]);
      var c, d := a[k - 1].file.days, b[k - 1].file.days;
      assert AllDays(a[..k]) == x + c && AllDays(b[..k]) == y + d;
      assert Entries(hash, x + c) == Entries(hash, x) + Entries(hash, c);
      assert Entries(hash, y + d) == Entries(hash, y) + Entries(hash, d);
      assert Entries(hash, c) == Entries(hash, d);
    }
  }

  /**
   * Of files that verify, the records decide every claim: no head of a month or of the index and
   * no hash of a day can be changed without a problem being found.
   */
  lemma {:induction false} RecordsDecideClaims(step: ChainStep, hash: RecordHash, a: seq<IndexedMonth>, b: seq<IndexedMonth>, tip: Tip, k: nat)
    requires Verified(step, hash, a, tip) && Verified(step, hash, b, tip) && SameRecords(a, b) && k < |a|
    ensures a[k].head == b[k].head && a[k].file.headBefore == b[k].file.headBefore && a[k].file.headAfter == b[k].file.headAfter
    ensures forall i :: 0 <= i < |a[k].file.days| ==> a[k].file.days[i].dataHash == b[k].file.days[i].dataHash
  {
    assert Truthful(step, hash, a, k) && Truthful(step, hash, b, k);
    SameEntries(hash, a, b, k);
    SameEntries(hash, a, b, k + 1);
    hide Head, Entries, AllDays;
  }
}
