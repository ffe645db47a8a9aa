/**
 * The indexer's syncs as a state machine over the program's history. The RPC answers every
 * page from whatever part of the history it lists at that moment, may fail any call, and may
 * not know the signature the indexer stopped at; the process may die between any two steps.
 */
module IndexerProtocol {
  import opened Wrappers
  import opened IndexerStore
  import ProgramLogs

  /** The RPC's maximum for one page of signatures. */
  const PAGE_SIZE: nat := 1_000

  datatype Tx = Tx(signature: Signature, slot: nat, failed: bool, logs: seq<string>)

  /** Which program on which cluster. */
  datatype Source = Source(genesis: string, program: string)

  /** All transactions of the program that ever land there, in chain order. */
  type Histories = Source -> seq<Tx>

  ghost predicate Distinct(h: seq<Tx>) {
    forall i, j :: 0 <= i < j < |h| ==> h[i].signature != h[j].signature
  }

  function Signatures(h: seq<Tx>): seq<Signature> {
    seq(|h|, k requires 0 <= k < |h| => h[k].signature)
  }

  /** What is stored of a transaction: the program's own records, none if it failed. */
  function RecordOf(tx: Tx, program: string): Record {
    if tx.failed then Record(tx.signature, tx.slot, true, false, []) else
    var read := ProgramLogs.ReadAll(ProgramLogs.START, tx.logs, program);
    Record(tx.signature, tx.slot, false, read.truncated, read.events)
  }

  function RecordsOf(h: seq<Tx>, program: string): seq<Record> {
    seq(|h|, k requires 0 <= k < |h| => RecordOf(h[k], program))
  }

  /** The event rows of stored transactions, one after another. */
  function EventsOf(records: seq<Record>): seq<EventRow> {
    if records == [] then [] else EventsOf(records[..|records| - 1]) + RowsOf(records[|records| - 1])
  }

  // ---- the RPC ----

  /** One answer of `getSignaturesForAddress`: `visible` is what the node lists, oldest first. */
  datatype Answer = Failure | Listing(visible: seq<Signature>, forgetsUntil: bool)

  predicate Known(visible: seq<Signature>, signature: Signature) {
    exists k :: 0 <= k < |visible| && visible[k] == signature
  }

  /** The place of a listed signature. */
  function PlaceOf(visible: seq<Signature>, signature: Signature): (k: nat)
    requires Known(visible, signature)
    ensures k < |visible| && visible[k] == signature
  {
    if visible[|visible| - 1] == signature then |visible| - 1 else PlaceOf(visible[..|visible| - 1], signature)
  }

  /** Up to `limit` signatures below place `top`, newest first, stopping before `until`. */
  function Page(visible: seq<Signature>, top: nat, until: Option<Signature>, limit: nat): seq<Signature>
    requires top <= |visible|
  {
    if top == 0 || limit == 0 || until == Some(visible[top - 1]) then []
    else [visible[top - 1]] + Page(visible, top - 1, until, limit - 1)
  }

  /** `None` when the node fails, or does not know `before`. */
  function PageOf(answer: Answer, before: Option<Signature>, until: Option<Signature>): Option<seq<Signature>> {
    match answer
    case Failure => None
    case Listing(visible, forgetsUntil) =>
      if before.Some? && !Known(visible, before.value) then None else
      var top := if before.Some? then PlaceOf(visible, before.value) else |visible|;
      Some(Page(visible, top, if forgetsUntil then None else until, PAGE_SIZE))
  }

  /** Pages until a short one; `None` when a page fails or the process dies before the end. */
  function NewestFirst(answers: seq<Answer>, before: Option<Signature>, until: Option<Signature>): Option<seq<Signature>> {
    if answers == [] then None else
    var page :- PageOf(answers[0], before, until);
    if |page| < PAGE_SIZE then Some(page) else
    var rest :- NewestFirst(answers[1..], Some(page[|page| - 1]), until);
    Some(page + rest)
  }

  function Reverse<T>(s: seq<T>): seq<T> {
    seq(|s|, k requires 0 <= k < |s| => s[|s| - 1 - k])
  }

  // ---- steps; one that is not possible changes nothing ----

  /** `on` is set once the process has checked which chain it reads; `todo` is what a sync still has to store. */
  datatype System = System(store: Tables, on: Option<Source>, todo: seq<Signature>)

  datatype Step =
    | CheckChain(source: Source, dies: bool) // `dies`: between the two writes on an empty database
    | List(answers: seq<Answer>)
    | StoreNext(loads: bool)                 // `loads`: the RPC returns the transaction
    | EndSync                                // stopped, or an error
    | Crash

  function DoCheckChain(s: System, source: Source, dies: bool): System {
    if s.on.Some? then s
    else if s.store.genesis.None? && s.store.program.None? then
      var half := s.(store := s.store.(genesis := Some(source.genesis)));
      if dies then half else half.(store := half.store.(program := Some(source.program)), on := Some(source))
    else if s.store.genesis == Some(source.genesis) && s.store.program == Some(source.program) then s.(on := Some(source))
    else s // halted
  }

  function DoList(s: System, answers: seq<Answer>): System {
    if s.on.None? then s else
    match NewestFirst(answers, None, s.store.cursor)
    case None => s.(todo := [])
    case Some(list) => s.(todo := Reverse(list))
  }

  function DoStoreNext(histories: Histories, s: System, loads: bool): System {
    if s.on.None? || s.todo == [] then s else
    var signature, h := s.todo[0], histories(s.on.value);
    if s.store.IsIndexed(signature) then s.(store := s.store.(cursor := Some(signature)), todo := s.todo[1..])
    else if !loads || !Known(Signatures(h), signature) then s.(todo := [])
    else s.(store := s.store.Recorded(RecordOf(h[PlaceOf(Signatures(h), signature)], s.on.value.program)), todo := s.todo[1..])
  }

  function Do(histories: Histories, s: System, step: Step): System {
    match step
    case CheckChain(source, dies) => DoCheckChain(s, source, dies)
    case List(answers) => DoList(s, answers)
    case StoreNext(loads) => DoStoreNext(histories, s, loads)
    case EndSync => s.(todo := [])
    case Crash => s.(on := None, todo := [])
  }

  function DoAll(histories: Histories, s: System, run: seq<Step>): System {
    if run == [] then s else Do(histories, DoAll(histories, s, run[..|run| - 1]), run[|run| - 1])
  }

  const EMPTY := System(Tables([], [], None, None, None), None, [])

  // ---- what is assumed of the RPC ----

  /** Every answer lists a prefix of the history: what a node misses is newer than all it has. */
  ghost predicate ListsPrefixes(h: seq<Tx>, answers: seq<Answer>) {
    forall k :: 0 <= k < |answers| && answers[k].Listing? ==> answers[k].visible <= Signatures(h)
  }

  ghost predicate Honest(histories: Histories, s: System, step: Step) {
    step.List? && s.on.Some? ==> ListsPrefixes(histories(s.on.value), step.answers)
  }

  ghost predicate HonestRun(histories: Histories, s: System, run: seq<Step>)
  {
    forall k :: 0 <= k < |run| ==> Honest(histories, DoAll(histories, s, run[..k]), run[k])
  }
}
