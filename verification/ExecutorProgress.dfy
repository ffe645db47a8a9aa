/**
 * The executor is never stuck: from any state its runs can leave, some further run finishes the
 * selected steps. And what each report writes.
 */
module ExecutorProgress {
  import opened Wrappers
  import opened Signatures
  import opened Executor
  import opened ExecutorTheorems

  // ---- what a report leaves ----

  /** Only the step at hand changes. */
  ghost predicate OthersStay(s: System, t: System, k: StepId) {
    t.cluster == s.cluster && forall j :: j != k ==> (j in t.records <==> j in s.records) && (j in s.records ==> t.records[j] == s.records[j])
  }

  /**
   * A sent step is done once confirmed and forgotten once it cannot land; a failure ends the run
   * and an expiry is tried again, three times in all.
   */
  lemma {:induction false} SubmitLeaves(plan: Plan, s: System, r: Report)
    requires Safe(s) && s.memory.Sending?
    ensures var t, m := Do(plan, s, Submit(r)), s.memory;
      var k := m.steps[m.i];
      && OthersStay(s, t, k)
      && (r == Confirmed ==> IsDone(t, k) && t.records[k].landed == Some(m.signature) && t.memory == At(m.steps, m.i + 1, 1))
      && (r == FailedOnChain || r == Throws ==> k !in t.records && t.memory == Idle)
      && (r == Expired ==> k !in t.records && t.memory == (if m.attempt == 3 then Idle else At(m.steps, m.i, m.attempt + 1)))
      && (r == Unknown ==> t == s)
  {}

  /** A step an earlier run left pending is done once confirmed and forgotten once it cannot land. */
  lemma {:induction false} SettleLeaves(plan: Plan, s: System, r: Report, x: Signature)
    requires s.memory.At? && s.memory.i < |s.memory.steps| && IsPending(s, s.memory.steps, s.memory.i, x)
    ensures var t, m := Do(plan, s, SettlePending(r)), s.memory;
      var k := m.steps[m.i];
      && OthersStay(s, t, k)
      && (r == Confirmed ==> IsDone(t, k) && t.records[k].landed == Some(x) && t.memory == At(m.steps, m.i + 1, 1))
      && (r == FailedOnChain ==> k !in t.records && t.memory == Idle)
      && (r == Expired ==> k !in t.records && t.memory == m)
      && (r == Unknown ==> t == s)
      && (r == Throws ==> t.records == s.records && t.memory == Idle)
  {}

  /** No run tries a step more than three times. */
  lemma {:induction false} ThreeAttempts(plan: Plan, run: seq<Action>)
    ensures var m := DoAll(plan, FRESH, run).memory; m.Idle? || 1 <= m.attempt <= 3
  {
    if run != [] {
      ThreeAttempts(plan, run[..|run| - 1]);
      hide Selected, DoMove;
    }
  }

  // ---- a run that finishes ----

  /** Some honest run of this selection leads from one state to the other. */
  ghost predicate Leads(plan: Plan, phases: set<string>, s: System, t: System) {
    exists run :: HonestRun(plan, s, run) && SamePhases(run, phases) && DoAll(plan, s, run) == t
  }

  lemma {:induction false} OneAction(plan: Plan, phases: set<string>, s: System, a: Action)
    requires Honest(s, a) && (a.StartRun? ==> a.phases == phases)
    ensures Leads(plan, phases, s, Do(plan, s, a))
  {
    hide Honest, Do;
    var run := [a];
    DoAllThen(plan, s, [], a);
    assert [] + [a] == run && run[..0] == [];
    assert HonestRun(plan, s, run);
  }

  lemma {:induction false} HonestConcat(plan: Plan, s: System, a: seq<Action>, b: seq<Action>)
    requires HonestRun(plan, s, a) && HonestRun(plan, DoAll(plan, s, a), b)
    ensures HonestRun(plan, s, a + b)
  {
    hide Honest, DoAll;
    forall k | 0 <= k < |a + b| ensures Honest(DoAll(plan, s, (a + b)[..k]), (a + b)[k]) {
      if k < |a| {
        assert (a + b)[..k] == a[..k];
      } else {
        assert (a + b)[..k] == a + b[..k - |a|];
        DoAllConcat(plan, s, a, b[..k - |a|]);
      }
    }
  }

  lemma {:induction false} LeadsFurther(plan: Plan, phases: set<string>, s: System, t: System, u: System)
    requires Leads(plan, phases, s, t) && Leads(plan, phases, t, u)
    ensures Leads(plan, phases, s, u)
  {
    var a :| HonestRun(plan, s, a) && SamePhases(a, phases) && DoAll(plan, s, a) == t;
    var b :| HonestRun(plan, t, b) && SamePhases(b, phases) && DoAll(plan, t, b) == u;
    assert SamePhases(a + b, phases);
    hide SamePhases, HonestRun, DoAll;
    DoAllConcat(plan, s, a, b);
    HonestConcat(plan, s, a, b);
  }

  lemma {:induction false} ThreeActions(plan: Plan, phases: set<string>, s: System, a: Action, b: Action, c: Action)
    requires Honest(s, a) && Honest(Do(plan, s, a), b) && Honest(Do(plan, Do(plan, s, a), b), c)
    requires !a.StartRun? && !b.StartRun? && !c.StartRun?
    ensures Leads(plan, phases, s, Do(plan, Do(plan, Do(plan, s, a), b), c))
  {
    hide Honest, Do, Leads;
    var t := Do(plan, s, a);
    var u := Do(plan, t, b);
    OneAction(plan, phases, s, a);
    OneAction(plan, phases, t, b);
    OneAction(plan, phases, u, c);
    LeadsFurther(plan, phases, s, t, u);
    LeadsFurther(plan, phases, s, u, Do(plan, u, c));
  }

  /** From where a run of the selection stands when all before it is done. */
  lemma {:induction false} ComesTo(plan: Plan, phases: set<string>, s: System, i: nat)
    requires var steps := Selected(plan, phases, |plan.phases|); s.memory.Idle? && i < |steps| && AllDone(s, steps[..i])
    ensures Leads(plan, phases, s, s.(memory := At(Selected(plan, phases, |plan.phases|), i, 1)))
  {
    var steps := Selected(plan, phases, |plan.phases|);
    var started := s.(memory := At(steps, 0, 1));
    assert Do(plan, s, StartRun(phases)) == started && Honest(s, StartRun(phases));
    forall j | 0 <= j < i ensures IsDone(s, steps[j]) {
      assert steps[..i][j] == steps[j];
    }
    var run := seq(i, _ => Advance);
    hide Selected, Do, DoAll, AllDone, Honest, Leads, HonestRun;
    AdvanceTo(plan, started, steps, i);
    NoReports(plan, started, run);
    Witness(plan, phases, started, run);
    OneAction(plan, phases, s, StartRun(phases));
    LeadsFurther(plan, phases, s, started, s.(memory := At(steps, i, 1)));
  }

  lemma {:induction false} Witness(plan: Plan, phases: set<string>, s: System, run: seq<Action>)
    requires HonestRun(plan, s, run) && SamePhases(run, phases)
    ensures Leads(plan, phases, s, DoAll(plan, s, run))
  {}

  /** A step without a record is signed, lands and is done. */
  lemma {:induction false} SignsAndLands(plan: Plan, phases: set<string>, s: System) returns (t: System)
    requires Ready(s)
    ensures Leads(plan, phases, s, t) && t.memory.Idle?
    ensures IsDone(t, s.memory.steps[s.memory.i]) && forall j :: IsDone(s, j) ==> IsDone(t, j)
  {
    var y := FreshSignature(s.cluster.txs.Keys);
    SignedLandsAndIsDone(plan, s, y);
    var signed := Do(plan, s, Sign(y, s.cluster.height));
    var confirmed := Do(plan, Do(plan, signed, Network(Land(y))), Submit(Confirmed));
    t := Do(plan, confirmed, Stop);
    hide Do, Leads, Honest, IsDone;
    assert Honest(confirmed, Stop) by { Harmless(confirmed, Stop); }
    assert Honest(s, Sign(y, s.cluster.height)) by { Harmless(s, Sign(y, s.cluster.height)); }
    OneAction(plan, phases, s, Sign(y, s.cluster.height));
    ThreeActions(plan, phases, signed, Network(Land(y)), Submit(Confirmed), Stop);
    LeadsFurther(plan, phases, s, signed, t);
  }

  lemma {:induction false} Harmless(s: System, a: Action)
    requires !a.Submit? && !a.SettlePending?
    ensures Honest(s, a)
  {}

  lemma {:induction false} SignedLandsAndIsDone(plan: Plan, s: System, y: Signature)
    requires Ready(s) && y !in s.cluster.txs
    ensures var k := s.memory.steps[s.memory.i];
      var signed := Do(plan, s, Sign(y, s.cluster.height));
      var landed := Do(plan, signed, Network(Land(y)));
      var confirmed := Do(plan, landed, Submit(Confirmed));
      && Honest(signed, Network(Land(y))) && Honest(landed, Submit(Confirmed))
      && Do(plan, confirmed, Stop).memory.Idle? && IsDone(Do(plan, confirmed, Stop), k)
      && forall j :: IsDone(s, j) ==> IsDone(Do(plan, confirmed, Stop), j)
  {
    var k := s.memory.steps[s.memory.i];
    var signed := Do(plan, s, Sign(y, s.cluster.height));
    var landed := Do(plan, signed, Network(Land(y)));
    assert signed.records == s.records[k := Pending(y, s.cluster.height)] && signed.memory.Sending? && signed.memory.signature == y;
    assert landed.records == signed.records && landed.memory == signed.memory;
    assert LandedFor(landed.cluster, y, k);
  }

  /** A pending step is done, or has no record any more, once the network has decided it and a run has looked. */
  lemma {:induction false} IsSettled(plan: Plan, phases: set<string>, s: System, x: Signature) returns (t: System)
    requires Safe(s) && s.memory.At? && IsPending(s, s.memory.steps, s.memory.i, x)
    ensures Leads(plan, phases, s, t) && t.memory.Idle?
    ensures var k := s.memory.steps[s.memory.i]; IsDone(t, k) || k !in t.records
    ensures forall j :: IsDone(s, j) ==> IsDone(t, j)
  {
    var k := s.memory.steps[s.memory.i];
    assert Current(s, k) == Some(x);
    var landed := Do(plan, s, Network(Land(x)));
    var report := if landed.cluster.txs[x].fate == Landed then Confirmed else if landed.cluster.txs[x].fate == Failed then FailedOnChain else Expired;
    assert Honest(landed, SettlePending(report));
    assert landed == s.(cluster := landed.cluster);
    var settled := Do(plan, landed, SettlePending(report));
    t := Do(plan, settled, Stop);
    assert t == settled.(memory := Idle);
    SettleLeaves(plan, landed, report, x);
    Harmless(s, Network(Land(x)));
    Harmless(settled, Stop);
    hide Leads, Safe, Do, Honest;
    ThreeActions(plan, phases, s, Network(Land(x)), SettlePending(report), Stop);
  }

  /** One more of the selected steps gets done. */
  lemma {:induction false} OneMoreDone(plan: Plan, phases: set<string>, s: System, i: nat) returns (t: System)
    requires Safe(s) && s.memory.Idle?
    requires var steps := Selected(plan, phases, |plan.phases|); i < |steps| && AllDone(s, steps[..i])
    ensures Leads(plan, phases, s, t) && Safe(t) && t.memory.Idle? && AllDone(t, Selected(plan, phases, |plan.phases|)[..i + 1])
  {
    var steps := Selected(plan, phases, |plan.phases|);
    var k := steps[i];
    assert steps[..i + 1] == steps[..i] + [k];
    hide Selected, Leads, Safe;
    ComesTo(plan, phases, s, i);
    var here := s.(memory := At(steps, i, 1));
    SafeWhereverItStands(s, here);
    if IsDone(s, k) {
      t := s;
      Nowhere(plan, phases, s);
    } else if k !in s.records {
      t := SignsAndLands(plan, phases, here);
      LeadsFurther(plan, phases, s, here, t);
    } else {
      var settled := IsSettled(plan, phases, here, s.records[k].signature);
      LeadsFurther(plan, phases, s, here, settled);
      if IsDone(settled, k) {
        t := settled;
      } else {
        ComesTo(plan, phases, settled, i);
        var again := settled.(memory := At(steps, i, 1));
        t := SignsAndLands(plan, phases, again);
        LeadsFurther(plan, phases, s, settled, again);
        LeadsFurther(plan, phases, s, again, t);
      }
    }
    LeadsSafely(plan, phases, s, t);
  }

  lemma {:induction false} SafeWhereverItStands(s: System, t: System)
    requires Safe(s) && t.cluster == s.cluster && t.records == s.records && !t.memory.Sending?
    ensures Safe(t)
  {
    assert forall k :: Current(t, k) == Current(s, k);
  }

  lemma {:induction false} Nowhere(plan: Plan, phases: set<string>, s: System)
    ensures Leads(plan, phases, s, s)
  {
    Witness(plan, phases, s, []);
  }

  lemma {:induction false} LeadsSafely(plan: Plan, phases: set<string>, s: System, t: System)
    requires Safe(s) && Leads(plan, phases, s, t)
    ensures Safe(t)
  {
    var run :| HonestRun(plan, s, run) && SamePhases(run, phases) && DoAll(plan, s, run) == t;
    RunKeeps(plan, s, run);
  }

  lemma {:induction false} RestGetsDone(plan: Plan, phases: set<string>, s: System, i: nat) returns (t: System)
    requires Safe(s) && s.memory.Idle?
    requires var steps := Selected(plan, phases, |plan.phases|); i <= |steps| && AllDone(s, steps[..i])
    ensures Leads(plan, phases, s, t) && t.memory.Idle? && AllDone(t, Selected(plan, phases, |plan.phases|))
    decreases |Selected(plan, phases, |plan.phases|)| - i
  {
    var steps := Selected(plan, phases, |plan.phases|);
    hide Selected, Leads, Safe, AllDone;
    if i == |steps| {
      assert steps[..i] == steps;
      t := s;
      Nowhere(plan, phases, s);
    } else {
      var next := OneMoreDone(plan, phases, s, i);
      t := RestGetsDone(plan, phases, next, i + 1);
      LeadsFurther(plan, phases, s, next, t);
    }
  }

  /**
   * Whatever runs, crashes, failures and expiries came before, and whatever they selected: some
   * further runs of any selection finish all its steps. No record is in the way for good.
   */
  lemma {:induction false} EverySelectionCanFinish(plan: Plan, phases: set<string>, run: seq<Action>)
    requires HonestRun(plan, FRESH, run)
    ensures exists more ::
      && SamePhases(more, phases)
      && HonestRun(plan, DoAll(plan, FRESH, run), more)
      && var t := DoAll(plan, DoAll(plan, FRESH, run), more);
         forall k: nat :: k < |plan.phases| && plan.phases[k] in phases ==> k in t.records && t.records[k].Done?
  {
    var s := DoAll(plan, FRESH, run);
    RunKeeps(plan, FRESH, run);
    var stopped := Do(plan, s, Stop);
    assert stopped == s.(memory := Idle) && Honest(s, Stop);
    var steps := Selected(plan, phases, |plan.phases|);
    assert forall k: nat :: k in steps <==> k < |plan.phases| && plan.phases[k] in phases;
    assert steps[..0] == [];
    hide Selected, Safe, Do, Leads, DoAll;
    OneAction(plan, phases, s, Stop);
    SafeWhereverItStands(s, stopped);
    var t := RestGetsDone(plan, phases, stopped, 0);
    LeadsFurther(plan, phases, s, stopped, t);
    Unfold(plan, phases, s, t);
    var more :| HonestRun(plan, s, more) && SamePhases(more, phases) && DoAll(plan, s, more) == t;
  }

  lemma {:induction false} Unfold(plan: Plan, phases: set<string>, s: System, t: System)
    requires Leads(plan, phases, s, t)
    ensures exists run :: HonestRun(plan, s, run) && SamePhases(run, phases) && DoAll(plan, s, run) == t
  {}
}
