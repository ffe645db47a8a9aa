/**
 * The queue that runs tasks sharing a key one after another. `tails` maps a key to the newest
 * task given for it; a task may start once the task that was the tail before it has settled.
 * Tasks are numbered in the order `run` received them.
 */
module KeyedQueue {
  import opened Wrappers

  type Key = string

  datatype Phase = Waiting | Running | Settled

  datatype Task = Task(key: Key, previous: Option<nat>, phase: Phase)

  datatype Queue = Queue(tails: map<Key, nat>, tasks: seq<Task>)

  datatype Step =
    | Run(key: Key)
    | Start(id: nat)  // the previous tail has settled
    | Settle(id: nat) // the task returned or threw
    | Forget(id: nat) // its entry is deleted if it is still the tail

  predicate MayStart(q: Queue, id: nat) {
    && id < |q.tasks| && q.tasks[id].phase == Waiting
    && match q.tasks[id].previous
       case None => true
       case Some(p) => p < |q.tasks| && q.tasks[p].phase == Settled
  }

  function Tail(tails: map<Key, nat>, key: Key): Option<nat> {
    if key in tails then Some(tails[key]) else None
  }

  /** A step that is not possible changes nothing. */
  function Do(q: Queue, step: Step): Queue {
    match step
    case Run(key) => Queue(q.tails[key := |q.tasks|], q.tasks + [Task(key, Tail(q.tails, key), Waiting)])
    case Start(id) => if MayStart(q, id) then q.(tasks := q.tasks[id := q.tasks[id].(phase := Running)]) else q
    case Settle(id) =>
      if id < |q.tasks| && q.tasks[id].phase == Running then q.(tasks := q.tasks[id := q.tasks[id].(phase := Settled)]) else q
    case Forget(id) =>
      if id < |q.tasks| && q.tasks[id].phase == Settled && Tail(q.tails, q.tasks[id].key) == Some(id)
      then q.(tails := q.tails - {q.tasks[id].key}) else q
  }

  function DoAll(run: seq<Step>): Queue {
    if run == [] then Queue(map[], []) else Do(DoAll(run[..|run| - 1]), run[|run| - 1])
  }

  // ---- the invariant ----

  /** A task is past waiting only after every earlier task of its key has settled. */
  ghost predicate InOrder(q: Queue) {
    forall i, j :: 0 <= i < j < |q.tasks| && q.tasks[i].key == q.tasks[j].key && q.tasks[j].phase != Waiting ==> q.tasks[i].phase == Settled
  }

  /** What a task waits for: nothing when all earlier tasks of its key have settled, else the last of them. */
  ghost predicate Waits(q: Queue, j: nat)
    requires j < |q.tasks|
  {
    match q.tasks[j].previous
    case None => forall i :: 0 <= i < j && q.tasks[i].key == q.tasks[j].key ==> q.tasks[i].phase == Settled
    case Some(p) => p < j && q.tasks[p].key == q.tasks[j].key && forall i :: p < i < j ==> q.tasks[i].key != q.tasks[j].key
  }

  ghost predicate TailsAreLast(q: Queue) {
    && (forall key :: key in q.tails ==>
          q.tails[key] < |q.tasks| && q.tasks[q.tails[key]].key == key
          && forall i :: q.tails[key] < i < |q.tasks| ==> q.tasks[i].key != key)
    && (forall i :: 0 <= i < |q.tasks| && q.tasks[i].key !in q.tails ==> q.tasks[i].phase == Settled)
  }

  ghost predicate Valid(q: Queue) {
    InOrder(q) && TailsAreLast(q) && forall j :: 0 <= j < |q.tasks| ==> Waits(q, j)
  }

  lemma {:induction false} StartKeeps(q: Queue, id: nat)
    requires Valid(q)
    ensures Valid(Do(q, Start(id)))
  {
    var r := Do(q, Start(id));
    if MayStart(q, id) {
      assert Waits(q, id);
      forall i | 0 <= i < id && q.tasks[i].key == q.tasks[id].key ensures q.tasks[i].phase == Settled {
        var p := q.tasks[id].previous;
        assert p.Some? && i < p.value ==> q.tasks[p.value].phase == Settled;
      }
    }
    forall j | 0 <= j < |r.tasks| ensures Waits(r, j) {
      assert Waits(q, j);
    }
  }

  lemma {:induction false} EnqueueKeeps(q: Queue, key: Key)
    requires Valid(q)
    ensures Valid(Do(q, Run(key)))
  {
    var r := Do(q, Run(key));
    forall j | 0 <= j < |r.tasks| ensures Waits(r, j) {
      assert j < |q.tasks| ==> Waits(q, j);
    }
  }

  lemma {:induction false} SettleKeeps(q: Queue, id: nat)
    requires Valid(q)
    ensures Valid(Do(q, Settle(id)))
  {
    var r := Do(q, Settle(id));
    forall j | 0 <= j < |r.tasks| ensures Waits(r, j) {
      assert Waits(q, j);
    }
  }

  lemma {:induction false} ForgetKeeps(q: Queue, id: nat)
    requires Valid(q)
    ensures Valid(Do(q, Forget(id)))
  {
    var r := Do(q, Forget(id));
    forall j | 0 <= j < |r.tasks| ensures Waits(r, j) {
      assert Waits(q, j);
    }
  }

  lemma {:induction false} DoKeeps(q: Queue, step: Step)
    requires Valid(q)
    ensures Valid(Do(q, step))
  {
    hide Valid, Do;
    match step
    case Run(key) => EnqueueKeeps(q, key);
    case Start(id) => StartKeeps(q, id);
    case Settle(id) => SettleKeeps(q, id);
    case Forget(id) => ForgetKeeps(q, id);
  }

  lemma {:induction false} RunKeeps(run: seq<Step>)
    ensures Valid(DoAll(run))
  {
    if run != [] {
      RunKeeps(run[..|run| - 1]);
      DoKeeps(DoAll(run[..|run| - 1]), run[|run| - 1]);
    }
  }

  /** In any run, tasks of one key never overlap, and each starts only after every earlier one has settled. */
  lemma {:induction false} OneAtATime(run: seq<Step>, i: nat, j: nat)
    requires var tasks := DoAll(run).tasks; i < j < |tasks| && tasks[i].key == tasks[j].key && tasks[j].phase != Waiting
    ensures DoAll(run).tasks[i].phase == Settled
  {
    RunKeeps(run);
  }

  /** Nothing is stuck: the oldest task of a key that has not settled runs or may start, whatever other keys do. */
  lemma {:induction false} NeverStuck(run: seq<Step>, j: nat)
    requires var tasks := DoAll(run).tasks;
      j < |tasks| && tasks[j].phase != Settled && forall i :: 0 <= i < j && tasks[i].key == tasks[j].key ==> tasks[i].phase == Settled
    ensures var q := DoAll(run); q.tasks[j].phase == Running || MayStart(q, j)
  {
    RunKeeps(run);
    var q := DoAll(run);
    assert Waits(q, j);
    hide DoAll, InOrder, TailsAreLast;
  }

  /** Nothing leaks: an entry belongs to the newest task of its key, and settling that task deletes it. */
  lemma {:induction false} NothingLeaks(run: seq<Step>, key: Key)
    requires key in DoAll(run).tails
    ensures var q := DoAll(run);
      var id := q.tails[key];
      && id < |q.tasks| && q.tasks[id].key == key && (forall i :: id < i < |q.tasks| ==> q.tasks[i].key != key)
      && Do(q, Forget(id)).tails == (if q.tasks[id].phase == Settled then q.tails - {key} else q.tails)
  {
    RunKeeps(run);
  }

  // ---- when a task runs ----

  lemma {:induction false} DoAllThen(run: seq<Step>, step: Step)
    ensures DoAll(run + [step]) == Do(DoAll(run), step)
  {
    assert (run + [step])[..|run|] == run;
  }

  /**
   * In any run: a task waits its turn behind the earlier tasks of its key and behind no others.
   * It starts exactly when they have all settled, runs until it settles, and stays settled.
   */
  lemma {:induction false} RunsInTurn(run: seq<Step>, id: nat, key: Key)
    ensures var q := DoAll(run);
      var more := DoAll(run + [Run(key)]);
      && |more.tasks| == |q.tasks| + 1 && more.tasks[..|q.tasks|] == q.tasks
      && more.tasks[|q.tasks|].key == key && more.tasks[|q.tasks|].phase == Waiting
    ensures var q := DoAll(run);
      id < |q.tasks| ==>
        && |DoAll(run + [Start(id)]).tasks| == |DoAll(run + [Settle(id)]).tasks| == |q.tasks|
        && DoAll(run + [Start(id)]).tasks[id].phase ==
             (if q.tasks[id].phase == Waiting && forall i :: 0 <= i < id && q.tasks[i].key == q.tasks[id].key ==> q.tasks[i].phase == Settled
              then Running else q.tasks[id].phase)
        && DoAll(run + [Settle(id)]).tasks[id].phase == (if q.tasks[id].phase == Running then Settled else q.tasks[id].phase)
  {
    RunKeeps(run);
    DoAllThen(run, Run(key));
    DoAllThen(run, Start(id));
    DoAllThen(run, Settle(id));
    if id < |DoAll(run).tasks| {
      StartsIff(DoAll(run), id);
    }
  }

  lemma {:induction false} StartsIff(q: Queue, id: nat)
    requires Valid(q) && id < |q.tasks|
    ensures MayStart(q, id) <==>
      q.tasks[id].phase == Waiting && forall i :: 0 <= i < id && q.tasks[i].key == q.tasks[id].key ==> q.tasks[i].phase == Settled
  {
    assert Waits(q, id);
    var p := q.tasks[id].previous;
    if p.Some? && q.tasks[p.value].phase == Settled {
      forall i | 0 <= i < id && q.tasks[i].key == q.tasks[id].key ensures q.tasks[i].phase == Settled {
        assert i <= p.value;
      }
    }
  }

  class KeyedSerialQueue {
    var tails: map<Key, nat>
    var tasks: seq<Task>

    function State(): Queue
      reads this
    {
      Queue(tails, tasks)
    }

    constructor ()
      ensures State() == DoAll([])
    {
      tails, tasks := map[], [];
    }

    /** Queues a task behind the key's tail and makes it the tail. */
    method Enqueue(key: Key) returns (id: nat)
      modifies this
      ensures id == |old(tasks)| && State() == Do(old(State()), Run(key))
    {
      id := |tasks|;
      var previous := if key in tails then Some(tails[key]) else None;
      tasks := tasks + [Task(key, previous, Waiting)];
      tails := tails[key := id];
    }

    /** Runs when a task has settled: its entry goes, unless a newer task took it over. */
    method Unlink(id: nat)
      requires id < |tasks| && tasks[id].phase == Settled
      modifies this
      ensures State() == Do(old(State()), Forget(id))
    {
      var key := tasks[id].key;
      if key in tails && tails[key] == id {
        tails := tails - {key};
      }
    }
  }
}
