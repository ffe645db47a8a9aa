/** Each step of the plan lands at most once, whatever happens to the runs. */
module ExecutorTheorems {
  import opened Wrappers
  import opened Signatures
  import opened Executor

  // ---- at most once ----

  /** The one transaction of a step that may have an effect. */
  function Current(s: System, k: StepId): Option<Signature> {
    if k !in s.records then None
    else match s.records[k] case Pending(x, _) => Some(x) case Done(x) => x
  }

  ghost predicate OneEach(s: System) {
    forall x :: x in s.cluster.txs ==> Some(x) == Current(s, s.cluster.txs[x].step) || CannotLand(s.cluster, x)
  }

  ghost predicate RecordsAreTrue(s: System) {
    forall k :: k in s.records && Current(s, k).Some? ==>
      var x := Current(s, k).value;
      x in s.cluster.txs && s.cluster.txs[x].step == k && (s.records[k].Done? ==> s.cluster.txs[x].fate == Landed)
  }

  /** What is listed as landed has landed. */
  ghost predicate ListIsTrue(c: Cluster) {
    forall x :: x in c.landed ==> x in c.txs && c.txs[x].fate == Landed
  }

  ghost predicate Safe(s: System) {
    && OneEach(s) && RecordsAreTrue(s) && ListIsTrue(s.cluster)
    && (s.memory.Sending? ==> IsPending(s, s.memory.steps, s.memory.i, s.memory.signature))
  }

  /** The step at `i` is pending with `x`. */
  predicate IsPending(s: System, steps: seq<StepId>, i: nat, x: Signature) {
    && i < |steps| && steps[i] in s.records
    && s.records[steps[i]].Pending? && s.records[steps[i]].signature == x
  }

  predicate LandedFor(c: Cluster, x: Signature, k: StepId) {
    x in c.txs && c.txs[x].step == k && c.txs[x].fate == Landed
  }

  lemma {:induction false} MoveFacts(c: Cluster, m: Move)
    ensures var d := DoMove(c, m);
      && d.txs.Keys == c.txs.Keys && c.height <= d.height
      && forall x :: x in c.txs ==>
           && d.txs[x].step == c.txs[x].step && d.txs[x].lastValid == c.txs[x].lastValid
           && (CannotLand(c, x) ==> CannotLand(d, x)) && (c.txs[x].fate == Landed ==> d.txs[x].fate == Landed)
  {}

  lemma {:induction false} DoKeeps(plan: Plan, s: System, a: Action)
    requires Safe(s) && Honest(s, a)
    ensures Safe(Do(plan, s, a))
  {
    match a
    case Network(m) =>
      MoveFacts(s.cluster, m);
      hide DoMove, CannotLand;
    case Sign(x, lastValid) => SignKeeps(s, x, lastValid);
    case SettlePending(r) => SettleKeeps(s, r);
    case Submit(r) => SubmitKeeps(s, r);
    case _ =>
  }

  lemma {:induction false} SignKeeps(s: System, x: Signature, lastValid: nat)
    requires Safe(s)
    ensures Safe(DoSign(s, x, lastValid))
  {}

  lemma {:induction false} SettleKeeps(s: System, r: Report)
    requires Safe(s) && Honest(s, SettlePending(r))
    ensures Safe(DoSettle(s, r))
  {}

  lemma {:induction false} SubmitKeeps(s: System, r: Report)
    requires Safe(s) && Honest(s, Submit(r))
    ensures Safe(DoSubmit(s, r))
  {}

  lemma {:induction false} RunKeeps(plan: Plan, s: System, run: seq<Action>)
    requires Safe(s) && HonestRun(plan, s, run)
    ensures Safe(DoAll(plan, s, run))
  {
    if run != [] {
      var before := run[..|run| - 1];
      HonestPrefix(plan, s, run);
      RunKeeps(plan, s, before);
      DoKeeps(plan, DoAll(plan, s, before), run[|run| - 1]);
    }
  }

  lemma {:induction false} HonestPrefix(plan: Plan, s: System, run: seq<Action>)
    requires run != [] && HonestRun(plan, s, run)
    ensures HonestRun(plan, s, run[..|run| - 1]) && Honest(DoAll(plan, s, run[..|run| - 1]), run[|run| - 1])
  {
    var before := run[..|run| - 1];
    assert forall k :: 0 <= k < |before| ==> before[..k] == run[..k] && before[k] == run[k];
  }

  /** Across any runs, crashes and selections, no two transactions of one step both land. */
  lemma {:induction false} EachStepLandsAtMostOnce(plan: Plan, run: seq<Action>, x: Signature, y: Signature)
    requires HonestRun(plan, FRESH, run)
    requires var txs := DoAll(plan, FRESH, run).cluster.txs;
      x in txs && y in txs && txs[x].step == txs[y].step && txs[x].fate == Landed && txs[y].fate == Landed
    ensures x == y
  {
    RunKeeps(plan, FRESH, run);
    var s := DoAll(plan, FRESH, run);
    assert Some(x) == Current(s, s.cluster.txs[x].step) && Some(y) == Current(s, s.cluster.txs[y].step);
  }

  // ---- the course of a run ----

  predicate IsDone(s: System, k: StepId) {
    k in s.records && s.records[k].Done?
  }

  predicate AllDone(s: System, steps: seq<StepId>) {
    forall k :: k in steps ==> IsDone(s, k)
  }

  predicate Ascending(steps: seq<StepId>) {
    forall i, j :: 0 <= i < j < |steps| ==> steps[i] < steps[j]
  }

  /** The run in progress, if any, goes through `steps` and has done those before the one at hand. */
  ghost predicate OnCourse(s: System, steps: seq<StepId>) {
    match s.memory
    case Idle => true
    case At(mine, i, _) => mine == steps && i <= |steps| && AllDone(s, steps[..i])
    case Sending(mine, i, _, x) => mine == steps && i < |steps| && AllDone(s, steps[..i]) && IsPending(s, steps, i, x)
  }

  /** Nothing done is ever undone, and a run keeps its course. */
  lemma {:induction false} StaysOnCourse(plan: Plan, s: System, steps: seq<StepId>, a: Action)
    requires OnCourse(s, steps)
    requires a.StartRun? && s.memory.Idle? ==> Selected(plan, a.phases, |plan.phases|) == steps
    ensures OnCourse(Do(plan, s, a), steps)
    ensures forall k :: IsDone(s, k) ==> IsDone(Do(plan, s, a), k)
  {
    hide DoMove, Selected;
    if !s.memory.Idle? && s.memory.i < |steps| {
      assert steps[..s.memory.i + 1] == steps[..s.memory.i] + [steps[s.memory.i]];
    }
  }

  /** No two steps are pending. */
  ghost predicate OnePending(s: System) {
    forall j, k :: j in s.records && k in s.records && s.records[j].Pending? && s.records[k].Pending? ==> j == k
  }

  /** Whatever is pending is what a run over `steps` comes to first, or the run has nothing to do. */
  ghost predicate ComesFirst(s: System, steps: seq<StepId>) {
    || AllDone(s, steps)
    || forall k :: k in s.records && s.records[k].Pending? ==> k in steps && forall j :: j in steps && j < k ==> IsDone(s, j)
  }

  /** A step about to be signed finds nothing pending. */
  lemma {:induction false} NothingElsePending(s: System, steps: seq<StepId>, k: StepId)
    requires OnCourse(s, steps) && Ascending(steps) && ComesFirst(s, steps) && Ready(s)
    ensures k !in s.records || s.records[k].Done?
  {
    var i := s.memory.i;
    assert steps[i] in steps;
    if k in s.records && s.records[k].Pending? {
      var j :| 0 <= j < |steps| && steps[j] == k;
      assert j < i ==> steps[j] in steps[..i];
    }
  }

  lemma {:induction false} StaysFirst(plan: Plan, s: System, steps: seq<StepId>, a: Action)
    requires OnCourse(s, steps) && Ascending(steps) && ComesFirst(s, steps) && OnePending(s)
    ensures ComesFirst(Do(plan, s, a), steps) && OnePending(Do(plan, s, a))
  {
    hide DoMove, Selected;
    if a.Sign? && Ready(s) {
      forall k ensures k !in s.records || s.records[k].Done? {
        NothingElsePending(s, steps, k);
      }
      forall j | j in steps && j < steps[s.memory.i] ensures IsDone(s, j) {
        Before(steps, s.memory.i, j);
      }
    }
  }

  lemma {:induction false} Before(steps: seq<StepId>, i: nat, k: StepId)
    requires Ascending(steps) && i < |steps|
    ensures k in steps && k < steps[i] <==> k in steps[..i]
  {
    if k in steps {
      var j :| 0 <= j < |steps| && steps[j] == k;
      assert j < i ==> steps[..i][j] == k;
    }
  }

  lemma {:induction false} RunStaysFirst(plan: Plan, phases: set<string>, s: System, run: seq<Action>)
    requires s.memory.Idle? && SamePhases(run, phases)
    ensures var steps, t := Selected(plan, phases, |plan.phases|), DoAll(plan, s, run);
      OnCourse(t, steps) && (ComesFirst(s, steps) && OnePending(s) ==> ComesFirst(t, steps) && OnePending(t))
  {
    if run != [] {
      var steps := Selected(plan, phases, |plan.phases|);
      var before := run[..|run| - 1];
      RunStaysFirst(plan, phases, s, before);
      hide Selected, ComesFirst, OnePending, OnCourse, Do;
      StaysOnCourse(plan, DoAll(plan, s, before), steps, run[|run| - 1]);
      if ComesFirst(s, steps) && OnePending(s) {
        StaysFirst(plan, DoAll(plan, s, before), steps, run[|run| - 1]);
      }
    }
  }
  // ---- one pending step ----

  /** The run that passes over `i` steps done already and signs the next one. */
  function Reaching(phases: set<string>, i: nat, y: Signature, lastValid: nat): seq<Action> {
    [StartRun(phases)] + seq(i, _ => Advance) + [Sign(y, lastValid)]
  }

  lemma {:induction false} Reaches(plan: Plan, phases: set<string>, s: System, i: nat, y: Signature, lastValid: nat)
    requires s.memory.Idle? && y !in s.cluster.txs
    requires var steps := Selected(plan, phases, |plan.phases|);
      i < |steps| && AllDone(s, steps[..i]) && steps[i] !in s.records
    ensures var steps := Selected(plan, phases, |plan.phases|);
      DoAll(plan, s, Reaching(phases, i, y, lastValid))
      == System(s.cluster.(txs := s.cluster.txs[y := Tx(steps[i], lastValid, Flying)]),
                s.records[steps[i] := Pending(y, lastValid)], Sending(steps, i, 1, y))
  {
    var steps := Selected(plan, phases, |plan.phases|);
    var started := s.(memory := At(steps, 0, 1));
    assert Do(plan, s, StartRun(phases)) == started;
    assert Do(plan, started.(memory := At(steps, i, 1)), Sign(y, lastValid))
      == System(s.cluster.(txs := s.cluster.txs[y := Tx(steps[i], lastValid, Flying)]),
                s.records[steps[i] := Pending(y, lastValid)], Sending(steps, i, 1, y));
    forall j | 0 <= j < i ensures IsDone(s, steps[j]) {
      assert steps[..i][j] == steps[j];
    }
    hide Selected, Do, DoAll, AllDone;
    AdvanceTo(plan, started, steps, i);
    DoAllThen(plan, s, [], StartRun(phases));
    assert [] + [StartRun(phases)] == [StartRun(phases)];
    DoAllConcat(plan, s, [StartRun(phases)], seq(i, _ => Advance));
    DoAllThen(plan, s, [StartRun(phases)] + seq(i, _ => Advance), Sign(y, lastValid));
  }

  lemma {:induction false} ReachingReportsNothing(plan: Plan, phases: set<string>, s: System, i: nat, y: Signature, lastValid: nat)
    ensures SamePhases(Reaching(phases, i, y, lastValid), phases) && HonestRun(plan, s, Reaching(phases, i, y, lastValid))
  {
    NoReports(plan, s, Reaching(phases, i, y, lastValid));
    hide HonestRun;
  }

  /** The first step of a selection that is not done. */
  lemma {:induction false} FirstUndone(s: System, steps: seq<StepId>) returns (i: nat)
    requires Ascending(steps) && !AllDone(s, steps)
    ensures i < |steps| && AllDone(s, steps[..i]) && !IsDone(s, steps[i])
    ensures forall j :: j in steps && j < steps[i] ==> IsDone(s, j)
  {
    var k :| k in steps && !IsDone(s, k);
    i := 0;
    while IsDone(s, steps[i])
      invariant i < |steps| && AllDone(s, steps[..i]) && exists j :: i <= j < |steps| && steps[j] == k
      decreases |steps| - i
    {
      assert steps[..i + 1] == steps[..i] + [steps[i]];
      i := i + 1;
    }
    forall j | j in steps && j < steps[i] ensures IsDone(s, j) {
      Before(steps, i, j);
    }
  }

  /** Otherwise a run comes to an untouched step first. */
  lemma {:induction false} AnotherFirst(s: System, steps: seq<StepId>) returns (i: nat, k: StepId)
    requires OnePending(s) && Ascending(steps) && !ComesFirst(s, steps)
    ensures i < |steps| && AllDone(s, steps[..i]) && steps[i] !in s.records
    ensures k in s.records && s.records[k].Pending?
  {
    k :| k in s.records && s.records[k].Pending? && !(k in steps && forall j :: j in steps && j < k ==> IsDone(s, j));
    i := FirstUndone(s, steps);
    assert steps[i] in steps;
  }

  /** ... and signs it. */
  lemma {:induction false} SecondPending(plan: Plan, phases: set<string>, s: System) returns (run: seq<Action>)
    requires s.memory.Idle? && OnePending(s) && !ComesFirst(s, Selected(plan, phases, |plan.phases|))
    ensures SamePhases(run, phases) && HonestRun(plan, s, run) && !OnePending(DoAll(plan, s, run))
  {
    var steps := Selected(plan, phases, |plan.phases|);
    var i, k := AnotherFirst(s, steps);
    var y := FreshSignature(s.cluster.txs.Keys);
    run := Reaching(phases, i, y, 0);
    hide DoAll, Selected, HonestRun, SamePhases, Reaching, AllDone, ComesFirst;
    Reaches(plan, phases, s, i, y, 0);
    ReachingReportsNothing(plan, phases, s, i, y, 0);
    var t := DoAll(plan, s, run);
    assert t.records[k] == s.records[k] && t.records[steps[i]].Pending?;
  }

  /**
   * From a checkpoint with at most one step pending, runs of one selection keep it so exactly
   * when that step comes first: it is selected and all selected steps before it are done, or all
   * selected steps are done anyway.
   */
  lemma {:induction false} OnePendingIff(plan: Plan, phases: set<string>, s: System)
    requires s.memory.Idle? && OnePending(s)
    ensures (forall run :: HonestRun(plan, s, run) && SamePhases(run, phases) ==> OnePending(DoAll(plan, s, run)))
      <==> ComesFirst(s, Selected(plan, phases, |plan.phases|))
  {
    if ComesFirst(s, Selected(plan, phases, |plan.phases|)) {
      forall run | SamePhases(run, phases) ensures OnePending(DoAll(plan, s, run)) {
        RunStaysFirst(plan, phases, s, run);
      }
    } else {
      var run := SecondPending(plan, phases, s);
    }
  }

  /** While every run selects the same phases, at most one step is pending. */
  lemma {:induction false} AtMostOnePending(plan: Plan, phases: set<string>, run: seq<Action>, j: StepId, k: StepId)
    requires SamePhases(run, phases)
    requires var records := DoAll(plan, FRESH, run).records; j in records && k in records && records[j].Pending? && records[k].Pending?
    ensures j == k
  {
    RunStaysFirst(plan, phases, FRESH, run);
  }

  /** Signs a step of one selection, stops, and signs one of another. */
  function TwoSelections(first: set<string>, second: set<string>): seq<Action> {
    [StartRun(first), Sign("x", 10), Stop, StartRun(second), Sign("y", 10)]
  }

  /** A pending step that is not selected, and one that is selected but not the first. */
  lemma {:induction false} TwoSelectionsTwoPending()
    ensures var plan := Plan(["a", "b"]);
      && HonestRun(plan, FRESH, TwoSelections({"a"}, {"b"})) && !OnePending(DoAll(plan, FRESH, TwoSelections({"a"}, {"b"})))
      && HonestRun(plan, FRESH, TwoSelections({"b"}, {"a", "b"})) && !OnePending(DoAll(plan, FRESH, TwoSelections({"b"}, {"a", "b"})))
  {
    var plan := Plan(["a", "b"]);
    SelectedOfTwo({"a"});
    SelectedOfTwo({"b"});
    SelectedOfTwo({"a", "b"});
    hide Selected, HonestRun, DoAll;
    SignsTwo(plan, {"a"}, {"b"}, 0, 1);
    SignsTwo(plan, {"b"}, {"a", "b"}, 1, 0);
  }

  lemma {:induction false} SelectedOfTwo(phases: set<string>)
    ensures Selected(Plan(["a", "b"]), phases, 2) == (if "a" in phases then [0] else []) + (if "b" in phases then [1] else [])
  {
    var plan := Plan(["a", "b"]);
    assert Selected(plan, phases, 0) == [] && Selected(plan, phases, 1) == if "a" in phases then [0] else [];
  }

  lemma {:induction false} SignsTwo(plan: Plan, first: set<string>, second: set<string>, j: StepId, k: StepId)
    requires j != k && Selected(plan, first, |plan.phases|) == [j]
    requires var steps := Selected(plan, second, |plan.phases|); steps != [] && steps[0] == k
    ensures HonestRun(plan, FRESH, TwoSelections(first, second)) && !OnePending(DoAll(plan, FRESH, TwoSelections(first, second)))
  {
    hide Selected, DoAll, HonestRun;
    var run := TwoSelections(first, second);
    NoReports(plan, FRESH, run);
    DoFive(plan, FRESH, run);
    var t := DoAll(plan, FRESH, run);
    assert t.records == map[j := Pending("x", 10), k := Pending("y", 10)];
    assert t.records[j].Pending? && t.records[k].Pending?;
  }

  lemma {:induction false} DoFive(plan: Plan, s: System, run: seq<Action>)
    requires |run| == 5
    ensures DoAll(plan, s, run) == Do(plan, Do(plan, Do(plan, Do(plan, Do(plan, s, run[0]), run[1]), run[2]), run[3]), run[4])
  {
    hide Do;
    DoAllThen(plan, s, [], run[0]);
    DoAllThen(plan, s, [run[0]], run[1]);
    DoAllThen(plan, s, [run[0], run[1]], run[2]);
    DoAllThen(plan, s, [run[0], run[1], run[2]], run[3]);
    DoAllThen(plan, s, [run[0], run[1], run[2], run[3]], run[4]);
    assert [] + [run[0]] == [run[0]] && [run[0]] + [run[1]] == [run[0], run[1]];
    assert [run[0], run[1]] + [run[2]] == [run[0], run[1], run[2]] && [run[0], run[1], run[2]] + [run[3]] == [run[0], run[1], run[2], run[3]];
    assert run == [run[0], run[1], run[2], run[3]] + [run[4]];
  }

  /** A run without reports tells no lies. */
  lemma {:induction false} NoReports(plan: Plan, s: System, run: seq<Action>)
    requires forall k :: 0 <= k < |run| ==> !run[k].Submit? && !run[k].SettlePending?
    ensures HonestRun(plan, s, run)
  {
    hide DoAll;
  }

  lemma {:induction false} DoAllThen(plan: Plan, s: System, run: seq<Action>, a: Action)
    ensures DoAll(plan, s, run + [a]) == Do(plan, DoAll(plan, s, run), a) && DoAll(plan, s, []) == s
  {
    assert (run + [a])[..|run|] == run;
  }

  lemma {:induction false} AdvanceTo(plan: Plan, s: System, steps: seq<StepId>, i: nat)
    requires s.memory == At(steps, 0, 1) && i < |steps|
    requires forall j :: 0 <= j < i ==> IsDone(s, steps[j])
    ensures DoAll(plan, s, seq(i, _ => Advance)) == s.(memory := At(steps, i, 1))
  {
    if i > 0 {
      AdvanceTo(plan, s, steps, i - 1);
      assert seq(i, _ => Advance)[..i - 1] == seq(i - 1, _ => Advance);
    }
  }

  lemma {:induction false} DoAllConcat(plan: Plan, s: System, a: seq<Action>, b: seq<Action>)
    ensures DoAll(plan, s, a + b) == DoAll(plan, DoAll(plan, s, a), b)
  {
    if b == [] {
      assert a + b == a;
    } else {
      assert (a + b)[..|a + b| - 1] == a + b[..|b| - 1];
      DoAllConcat(plan, s, a, b[..|b| - 1]);
    }
  }

  // ---- plan order ----

  /**
   * Of the transactions signed since `known`, those that can have an effect belong to steps of
   * the selection all of whose earlier steps are done, and they landed in plan order.
   */
  ghost predicate InPlanOrder(s: System, known: set<Signature>, steps: seq<StepId>) {
    && (forall x :: x in s.cluster.txs && x !in known && !CannotLand(s.cluster, x) ==> HasItsTurn(s, steps, s.cluster.txs[x].step))
    && forall i, j :: 0 <= i < j < |s.cluster.landed| && s.cluster.landed[i] !in known && s.cluster.landed[j] !in known ==>
         InOrder(s.cluster, s.cluster.landed[i], s.cluster.landed[j])
  }

  predicate HasItsTurn(s: System, steps: seq<StepId>, k: StepId) {
    k in steps && forall j :: j in steps && j < k ==> IsDone(s, j)
  }

  predicate InOrder(c: Cluster, x: Signature, y: Signature) {
    x in c.txs && y in c.txs && c.txs[x].step < c.txs[y].step
  }

  /** What lands next is later in the plan than what has landed. */
  lemma {:induction false} LandsAfter(s: System, known: set<Signature>, steps: seq<StepId>, x: Signature, y: Signature)
    requires Safe(s) && InPlanOrder(s, known, steps) && x !in known && y !in known
    requires x in s.cluster.txs && s.cluster.txs[x].fate == Landed
    requires y in s.cluster.txs && s.cluster.txs[y].fate == Flying && !CannotLand(s.cluster, y)
    ensures InOrder(s.cluster, x, y)
  {
    var e, k := s.cluster.txs[x].step, s.cluster.txs[y].step;
    assert Some(x) == Current(s, e) && Some(y) == Current(s, k);
    assert HasItsTurn(s, steps, e) && HasItsTurn(s, steps, k);
    assert !IsDone(s, k);
  }

  lemma {:induction false} MoveKeepsPlanOrder(s: System, known: set<Signature>, steps: seq<StepId>, m: Move)
    requires Safe(s) && InPlanOrder(s, known, steps)
    ensures InPlanOrder(s.(cluster := DoMove(s.cluster, m)), known, steps)
  {
    MoveFacts(s.cluster, m);
    var t := s.(cluster := DoMove(s.cluster, m));
    if t.cluster.landed != s.cluster.landed {
      forall x | x in s.cluster.landed && x !in known && m.signature !in known ensures InOrder(s.cluster, x, m.signature) {
        LandsAfter(s, known, steps, x, m.signature);
      }
    }
    hide Safe, CannotLand;
    assert forall k :: HasItsTurn(s, steps, k) ==> HasItsTurn(t, steps, k);
    assert forall x, y :: InOrder(s.cluster, x, y) ==> InOrder(t.cluster, x, y);
  }

  /** The other actions land nothing; a transaction is signed when its step has its turn. */
  lemma {:induction false} OtherActionsKeepPlanOrder(plan: Plan, s: System, known: set<Signature>, steps: seq<StepId>, a: Action)
    requires OnCourse(s, steps) && Ascending(steps) && InPlanOrder(s, known, steps) && !a.Network?
    requires forall k :: IsDone(s, k) ==> IsDone(Do(plan, s, a), k)
    ensures InPlanOrder(Do(plan, s, a), known, steps)
  {
    var t := Do(plan, s, a);
    assert t.cluster.landed == s.cluster.landed && t.cluster.height == s.cluster.height;
    assert forall x :: x in s.cluster.txs ==> x in t.cluster.txs && t.cluster.txs[x] == s.cluster.txs[x];
    if a.Sign? && Ready(s) {
      forall j | j in steps && j < steps[s.memory.i] ensures IsDone(s, j) {
        Before(steps, s.memory.i, j);
      }
      assert HasItsTurn(s, steps, steps[s.memory.i]);
      assert forall x :: x in t.cluster.txs && x !in s.cluster.txs ==> t.cluster.txs[x].step == steps[s.memory.i];
    } else {
      assert t.cluster == s.cluster;
    }
    hide Do, Selected, OnCourse, IsDone;
    assert forall k :: HasItsTurn(s, steps, k) ==> HasItsTurn(t, steps, k);
  }

  lemma {:induction false} RunKeepsPlanOrder(plan: Plan, phases: set<string>, s: System, run: seq<Action>)
    requires Safe(s) && s.memory.Idle? && HonestRun(plan, s, run) && SamePhases(run, phases)
    ensures InPlanOrder(DoAll(plan, s, run), s.cluster.txs.Keys, Selected(plan, phases, |plan.phases|))
  {
    if run != [] {
      var steps, known := Selected(plan, phases, |plan.phases|), s.cluster.txs.Keys;
      var before, a := run[..|run| - 1], run[|run| - 1];
      var t := DoAll(plan, s, before);
      HonestPrefix(plan, s, run);
      RunKeepsPlanOrder(plan, phases, s, before);
      RunKeeps(plan, s, before);
      RunStaysFirst(plan, phases, s, before);
      hide Selected, Safe, InPlanOrder, OnCourse;
      StaysOnCourse(plan, t, steps, a);
      if a.Network? {
        MoveKeepsPlanOrder(t, known, steps, a.move);
      } else {
        OtherActionsKeepPlanOrder(plan, t, known, steps, a);
      }
    }
  }

  /**
   * From any checkpoint, whatever is pending: what runs of one selection sign lands in plan
   * order, each step after all selected steps before it are done.
   */
  lemma {:induction false} StepsLandInPlanOrder(plan: Plan, phases: set<string>, s: System, run: seq<Action>)
    requires Safe(s) && s.memory.Idle? && HonestRun(plan, s, run) && SamePhases(run, phases)
    ensures var t := DoAll(plan, s, run);
      && (forall i, j :: 0 <= i < j < |t.cluster.landed| && t.cluster.landed[i] !in s.cluster.txs && t.cluster.landed[j] !in s.cluster.txs ==>
            InOrder(t.cluster, t.cluster.landed[i], t.cluster.landed[j]))
      && (forall x, k | x in t.cluster.landed && x !in s.cluster.txs && k in Selected(plan, phases, |plan.phases|) ::
            x in t.cluster.txs && (k < t.cluster.txs[x].step ==> IsDone(t, k)))
  {
    RunKeepsPlanOrder(plan, phases, s, run);
    RunKeeps(plan, s, run);
    hide DoAll, OneEach, RecordsAreTrue, HonestRun, Selected;
  }

  // ---- what a thrown error must mean ----

  ghost predicate LandedTwice(s: System, k: StepId) {
    exists x, y :: x != y && LandedFor(s.cluster, x, k) && LandedFor(s.cluster, y, k)
  }

  lemma {:induction false} SafeLandsOnce(s: System, k: StepId)
    requires Safe(s)
    ensures !LandedTwice(s, k)
  {
    forall x, y | LandedFor(s.cluster, x, k) && LandedFor(s.cluster, y, k) ensures x == y {
      assert Some(x) == Current(s, k) && Some(y) == Current(s, k);
    }
  }

  /** The run that sends a step again after its cleared transaction landed all the same. */
  function SendAgain(phases: set<string>, i: nat, x: Signature, y: Signature, lastValid: nat): seq<Action> {
    [Network(Land(x))] + Reaching(phases, i, y, lastValid) + [Network(Land(y))]
  }

  lemma {:induction false} SendAgainLandsTwice(plan: Plan, phases: set<string>, s: System, y: Signature)
    requires Safe(s) && OnCourse(s, Selected(plan, phases, |plan.phases|)) && s.memory.Sending?
    requires y !in s.cluster.txs && !CannotLand(s.cluster, s.memory.signature)
    ensures var again := SendAgain(phases, s.memory.i, s.memory.signature, y, s.cluster.height);
      && HonestRun(plan, DoSubmit(s, Throws), again)
      && LandedTwice(DoAll(plan, DoSubmit(s, Throws), again), s.memory.steps[s.memory.i])
  {
    SendingFlies(s);
    var Sending(steps, i, _, x) := s.memory;
    var k, h := steps[i], s.cluster.height;
    var cleared := DoSubmit(s, Throws);
    var landed := Do(plan, cleared, Network(Land(x)));
    assert LandedFor(landed.cluster, x, k) && landed.cluster.txs.Keys == s.cluster.txs.Keys && landed.cluster.height == h;
    assert AllDone(landed, steps[..i]);
    var signed := landed.cluster.txs[y := Tx(k, h, Flying)];
    var end := DoMove(landed.cluster.(txs := signed), Land(y));
    assert LandedFor(end, x, k) && LandedFor(end, y, k);
    NoReports(plan, cleared, SendAgain(phases, i, x, y, h));
    hide Selected, DoAll, HonestRun, Safe, OnCourse, AllDone;
    Reaches(plan, phases, landed, i, y, h);
    DoAllThen(plan, cleared, [], Network(Land(x)));
    assert [] + [Network(Land(x))] == [Network(Land(x))];
    DoAllConcat(plan, cleared, [Network(Land(x))], Reaching(phases, i, y, h));
    DoAllThen(plan, cleared, [Network(Land(x))] + Reaching(phases, i, y, h), Network(Land(y)));
  }

  lemma {:induction false} SendingFlies(s: System)
    requires Safe(s) && s.memory.Sending?
    ensures var m := s.memory;
      m.i < |m.steps| && m.signature in s.cluster.txs && s.cluster.txs[m.signature].step == m.steps[m.i]
  {
    assert Current(s, s.memory.steps[s.memory.i]).Some?;
  }

  /**
   * The executor forgets a step when sending it throws. That is safe exactly when the
   * transaction cannot have an effect any more; otherwise a later run can land the step twice.
   */
  lemma {:induction false} ForgettingIsSafeIff(plan: Plan, phases: set<string>, s: System)
    requires Safe(s) && OnCourse(s, Selected(plan, phases, |plan.phases|)) && s.memory.Sending?
    ensures (forall run :: HonestRun(plan, DoSubmit(s, Throws), run) ==> !LandedTwice(DoAll(plan, DoSubmit(s, Throws), run), s.memory.steps[s.memory.i]))
      <==> CannotLand(s.cluster, s.memory.signature)
  {
    var x, k, cleared := s.memory.signature, s.memory.steps[s.memory.i], DoSubmit(s, Throws);
    if CannotLand(s.cluster, x) {
      SubmitKeeps(s, Throws);
      forall run | HonestRun(plan, cleared, run) ensures !LandedTwice(DoAll(plan, cleared, run), k) {
        RunKeeps(plan, cleared, run);
        SafeLandsOnce(DoAll(plan, cleared, run), k);
      }
    } else {
      var y := FreshSignature(s.cluster.txs.Keys);
      SendAgainLandsTwice(plan, phases, s, y);
    }
  }

  /** A send whose answer got lost, and the next run. */
  function LostAnswer(): seq<Action> {
    [StartRun({"a"}), Sign("x", 10), Submit(Throws), Network(Land("x")), StartRun({"a"}), Sign("y", 0), Network(Land("y"))]
  }

  lemma {:induction false} LostAnswerLandsTwice()
    ensures LandedTwice(DoAll(Plan(["a"]), FRESH, LostAnswer()), 0)
  {
    var plan := Plan(["a"]);
    FirstSend();
    LostAnswerIs();
    SendAgainLandsTwice(plan, {"a"}, SENT, "y");
    hide *;
    DoAllThen(plan, FRESH, [StartRun({"a"}), Sign("x", 10)], Submit(Throws));
    Throwing(plan, SENT);
    DoAllConcat(plan, FRESH, [StartRun({"a"}), Sign("x", 10)] + [Submit(Throws)], SendAgain({"a"}, 0, "x", "y", 0));
  }

  const SENT := System(Cluster(0, map["x" := Tx(0, 10, Flying)], []), map[0 := Pending("x", 10)], Sending([0], 0, 1, "x"))

  lemma {:induction false} FirstSend()
    ensures DoAll(Plan(["a"]), FRESH, [StartRun({"a"}), Sign("x", 10)]) == SENT
    ensures Safe(SENT) && Selected(Plan(["a"]), {"a"}, 1) == [0] && OnCourse(SENT, [0])
  {
    var plan := Plan(["a"]);
    assert Selected(plan, {"a"}, 0) == [] && Selected(plan, {"a"}, 1) == [0];
    hide Selected, DoAll;
    DoTwo(plan, FRESH, StartRun({"a"}), Sign("x", 10));
  }

  lemma {:induction false} LostAnswerIs()
    ensures LostAnswer() == [StartRun({"a"}), Sign("x", 10)] + [Submit(Throws)] + SendAgain({"a"}, 0, "x", "y", 0)
  {}

  lemma {:induction false} Throwing(plan: Plan, s: System)
    ensures Do(plan, s, Submit(Throws)) == DoSubmit(s, Throws)
  {}

  lemma {:induction false} DoTwo(plan: Plan, s: System, a: Action, b: Action)
    ensures DoAll(plan, s, [a, b]) == Do(plan, Do(plan, s, a), b)
  {
    hide Do;
    DoAllThen(plan, s, [], a);
    DoAllThen(plan, s, [a], b);
    assert [] + [a] == [a] && [a] + [b] == [a, b];
  }

  // ---- looking a transaction up ----

  function DoMoves(c: Cluster, moves: seq<Move>): Cluster {
    if moves == [] then c else DoMove(DoMoves(c, moves[..|moves| - 1]), moves[|moves| - 1])
  }

  lemma {:induction false} MovesFacts(c: Cluster, moves: seq<Move>, x: Signature)
    ensures var d := DoMoves(c, moves);
      && d.txs.Keys == c.txs.Keys && c.height <= d.height
      && (CannotLand(c, x) ==> CannotLand(d, x))
      && (x in c.txs ==> d.txs[x].lastValid == c.txs[x].lastValid && (c.txs[x].fate != Flying ==> d.txs[x].fate == c.txs[x].fate))
  {
    if moves != [] {
      MovesFacts(c, moves[..|moves| - 1], x);
    }
  }

  /** Until it has landed a transaction may fail at any time, and never lands then. */
  lemma {:induction false} FailsForGood(c: Cluster, x: Signature, moves: seq<Move>)
    requires x in c.txs && c.txs[x].fate == Flying
    ensures x in DoMoves(DoMove(c, Fail(x)), moves).txs && DoMoves(DoMove(c, Fail(x)), moves).txs[x].fate == Failed
  {
    MovesFacts(DoMove(c, Fail(x)), moves, x);
  }

  /** `getSignatureStatuses`, full history or the recent cache, which may not know the signature. */
  function StatusReport(c: Cluster, x: Signature, forgotten: bool): Option<Report> {
    if x !in c.txs || forgotten then None else
    match c.txs[x].fate
    case Flying => None
    case Landed => Some(Confirmed)
    case Failed => Some(FailedOnChain)
  }

  /** `outcome` with `searchHistory`: the status first, the height after the moves of `between`. */
  function OutcomeInHistory(c: Cluster, x: Signature, lastValid: nat, between: seq<Move>): Report {
    if StatusReport(c, x, false).Some? then StatusReport(c, x, false).value
    else if DoMoves(c, between).height <= lastValid then Unknown
    else Expired
  }

  /** `outcome` without it: what looks expired is looked up once more, in the whole history. */
  function OutcomeTwice(c: Cluster, x: Signature, forgotten: bool, lastValid: nat, a: seq<Move>, b: seq<Move>, d: seq<Move>): Report {
    if StatusReport(c, x, forgotten).Some? then StatusReport(c, x, forgotten).value
    else if DoMoves(c, a).height <= lastValid then Unknown
    else OutcomeInHistory(DoMoves(DoMoves(c, a), b), x, lastValid, d)
  }

  /** While a step is being sent, what `outcome` says is true however the network moves between its reads. */
  lemma {:induction false} SubmitReportsTruly(c: Cluster, x: Signature, forgotten: bool, a: seq<Move>, b: seq<Move>, d: seq<Move>)
    requires x in c.txs
    ensures var r := OutcomeTwice(c, x, forgotten, c.txs[x].lastValid, a, b, d);
      Truthful(DoMoves(DoMoves(DoMoves(c, a), b), d), x, r)
  {
    MovesFacts(c, a, x);
    MovesFacts(DoMoves(c, a), b, x);
    MovesFacts(DoMoves(DoMoves(c, a), b), d, x);
  }

  /** Settling an earlier run's step reads the status once: it is true unless the transaction lands between the reads and expires. */
  lemma {:induction false} SettleReportsTrulyIff(c: Cluster, x: Signature, between: seq<Move>)
    requires x in c.txs
    ensures var later := DoMoves(c, between);
      x in later.txs && (Truthful(later, x, OutcomeInHistory(c, x, c.txs[x].lastValid, between))
        <==> !(c.txs[x].fate == Flying && later.txs[x].fate == Landed && later.height > c.txs[x].lastValid))
  {
    MovesFacts(c, between, x);
  }

  /** It was in flight when its status was read, and had landed and expired when the height was. */
  lemma {:induction false} LandsBetweenTheReads()
    ensures var c, between := Cluster(5, map["x" := Tx(0, 10, Flying)], []), [Land("x"), AdvanceBlocks(10)];
      OutcomeInHistory(c, "x", 10, between) == Expired && LandedFor(DoMoves(c, between), "x", 0)
  {
    var c, between := Cluster(5, map["x" := Tx(0, 10, Flying)], []), [Land("x"), AdvanceBlocks(10)];
    assert between[..1] == [Land("x")] && [Land("x")][..0] == [];
    assert DoMoves(c, [Land("x")]) == DoMove(c, Land("x"));
  }
}
