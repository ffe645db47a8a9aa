/**
 * The seed executor as a state machine: the checkpoint file, the transactions on the cluster,
 * and the run in progress, which may die between any two steps and be started again with any
 * selection of phases.
 *
 * Assumed of the cluster: a transaction lands at most once and never past its last valid block,
 * and a fresh signature is one never signed before.
 */
module Executor {
  import opened Wrappers

  type Signature = string

  /** A step of the plan is its place in it. */
  type StepId = nat

  datatype Plan = Plan(phases: seq<string>) // the phase of each step, in plan order

  datatype StepRecord = Pending(signature: Signature, lastValid: nat) | Done(landed: Option<Signature>)

  datatype Fate = Flying | Landed | Failed

  datatype Tx = Tx(step: StepId, lastValid: nat, fate: Fate)

  /** `landed` lists the transactions that landed, in order. */
  datatype Cluster = Cluster(height: nat, txs: map<Signature, Tx>, landed: seq<Signature>)

  datatype Memory =
    | Idle
    | At(steps: seq<StepId>, i: nat, attempt: nat)
    | Sending(steps: seq<StepId>, i: nat, attempt: nat, signature: Signature)

  datatype System = System(cluster: Cluster, records: map<StepId, StepRecord>, memory: Memory)

  /** What `outcome` or `submit` says of a transaction. */
  datatype Report = Confirmed | FailedOnChain | Expired | Unknown | Throws

  datatype Move = Land(signature: Signature) | Fail(signature: Signature) | AdvanceBlocks(count: nat)

  datatype Action =
    | Network(move: Move)
    | StartRun(phases: set<string>)
    | Advance                                   // the step is done already
    | SettlePending(report: Report)             // of a transaction an earlier run left
    | Skip                                      // the step needs no transaction
    | Sign(signature: Signature, lastValid: nat)
    | Submit(report: Report)
    | Stop                                      // deferred, an error, or the process dies

  const MAX_ATTEMPTS: nat := 3

  /** The steps of the selected phases, in plan order. */
  function Selected(plan: Plan, phases: set<string>, upTo: nat): (steps: seq<StepId>)
    requires upTo <= |plan.phases|
    ensures forall k: nat :: k in steps <==> k < upTo && plan.phases[k] in phases
    ensures forall i, j :: 0 <= i < j < |steps| ==> steps[i] < steps[j]
  {
    if upTo == 0 then [] else
    var before := Selected(plan, phases, upTo - 1);
    assert forall i :: 0 <= i < |before| ==> before[i] in before;
    if plan.phases[upTo - 1] in phases then before + [upTo - 1] else before
  }

  function DoMove(c: Cluster, m: Move): Cluster {
    match m
    case Land(x) =>
      if x !in c.txs || c.txs[x].fate != Flying || c.height > c.txs[x].lastValid then c
      else c.(txs := c.txs[x := c.txs[x].(fate := Landed)], landed := c.landed + [x])
    case Fail(x) =>
      if x !in c.txs || c.txs[x].fate != Flying then c else c.(txs := c.txs[x := c.txs[x].(fate := Failed)])
    case AdvanceBlocks(count) => c.(height := c.height + count)
  }

  /** The transaction did not land and never will. */
  predicate CannotLand(c: Cluster, x: Signature) {
    x in c.txs ==> c.txs[x].fate == Failed || (c.txs[x].fate == Flying && c.height > c.txs[x].lastValid)
  }

  /** What a report must mean for the executor to be right. */
  predicate Truthful(c: Cluster, x: Signature, r: Report) {
    match r
    case Confirmed => x in c.txs && c.txs[x].fate == Landed
    case FailedOnChain => x in c.txs && c.txs[x].fate == Failed
    case Expired => CannotLand(c, x)
    case Throws => CannotLand(c, x)
    case Unknown => true
  }

  function DoSettle(s: System, r: Report): System {
    if !s.memory.At? || s.memory.i >= |s.memory.steps| then s else
    var k := s.memory.steps[s.memory.i];
    if k !in s.records || !s.records[k].Pending? then s else
    match r
    case Confirmed => s.(records := s.records[k := Done(Some(s.records[k].signature))], memory := At(s.memory.steps, s.memory.i + 1, 1))
    case FailedOnChain => s.(records := s.records - {k}, memory := Idle)
    case Expired => s.(records := s.records - {k})
    case Unknown => s
    case Throws => s.(memory := Idle)
  }

  /** The step at hand is neither done nor pending. */
  predicate Ready(s: System) {
    s.memory.At? && s.memory.i < |s.memory.steps| && s.memory.steps[s.memory.i] !in s.records
  }

  function DoSign(s: System, x: Signature, lastValid: nat): System {
    if !Ready(s) || x in s.cluster.txs then s else
    var m := s.memory;
    System(s.cluster.(txs := s.cluster.txs[x := Tx(m.steps[m.i], lastValid, Flying)]),
           s.records[m.steps[m.i] := Pending(x, lastValid)], Sending(m.steps, m.i, m.attempt, x))
  }

  function DoSubmit(s: System, r: Report): System {
    if !s.memory.Sending? || s.memory.i >= |s.memory.steps| then s else
    var m := s.memory;
    var k := m.steps[m.i];
    match r
    case Confirmed => s.(records := s.records[k := Done(Some(m.signature))], memory := At(m.steps, m.i + 1, 1))
    case FailedOnChain => s.(records := s.records - {k}, memory := Idle)
    case Throws => s.(records := s.records - {k}, memory := Idle)
    case Expired => s.(records := s.records - {k}, memory := if m.attempt == MAX_ATTEMPTS then Idle else At(m.steps, m.i, m.attempt + 1))
    case Unknown => s
  }

  function Do(plan: Plan, s: System, a: Action): System {
    match a
    case Network(m) => s.(cluster := DoMove(s.cluster, m))
    case StartRun(phases) => if s.memory.Idle? then s.(memory := At(Selected(plan, phases, |plan.phases|), 0, 1)) else s
    case Advance =>
      if s.memory.At? && s.memory.i < |s.memory.steps| && s.memory.steps[s.memory.i] in s.records && s.records[s.memory.steps[s.memory.i]].Done?
      then s.(memory := At(s.memory.steps, s.memory.i + 1, 1)) else s
    case SettlePending(r) => DoSettle(s, r)
    case Skip => if Ready(s) then s.(records := s.records[s.memory.steps[s.memory.i] := Done(None)], memory := At(s.memory.steps, s.memory.i + 1, 1)) else s
    case Sign(x, lastValid) => DoSign(s, x, lastValid)
    case Submit(r) => DoSubmit(s, r)
    case Stop => s.(memory := Idle)
  }

  function DoAll(plan: Plan, s: System, run: seq<Action>): System {
    if run == [] then s else Do(plan, DoAll(plan, s, run[..|run| - 1]), run[|run| - 1])
  }

  const FRESH := System(Cluster(0, map[], []), map[], Idle)

  /** The transaction whose fate the action reports. */
  function Reported(s: System, a: Action): Option<Signature> {
    match a
    case SettlePending(_) =>
      if s.memory.At? && s.memory.i < |s.memory.steps| && s.memory.steps[s.memory.i] in s.records && s.records[s.memory.steps[s.memory.i]].Pending?
      then Some(s.records[s.memory.steps[s.memory.i]].signature) else None
    case Submit(_) => if s.memory.Sending? then Some(s.memory.signature) else None
    case _ => None
  }

  predicate Honest(s: System, a: Action) {
    && (a.Submit? && Reported(s, a).Some? ==> Truthful(s.cluster, Reported(s, a).value, a.report))
    // a lookup that throws leaves the record as it is
    && (a.SettlePending? && Reported(s, a).Some? && a.report != Throws ==> Truthful(s.cluster, Reported(s, a).value, a.report))
  }

  ghost predicate HonestRun(plan: Plan, s: System, run: seq<Action>) {
    forall k :: 0 <= k < |run| ==> Honest(DoAll(plan, s, run[..k]), run[k])
  }

  /** Every run of the executor selects the same phases. */
  predicate SamePhases(run: seq<Action>, phases: set<string>) {
    forall k :: 0 <= k < |run| && run[k].StartRun? ==> run[k].phases == phases
  }
}
