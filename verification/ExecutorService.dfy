/** The executor's loops over steps, lookups and attempts, over the checkpoint file and the cluster. */
module ExecutorService {
  import opened Wrappers
  import opened Executor
  import opened ExecutorTheorems

  /** The checkpoint file; each change is written whole. */
  class SeedState {
    var records: map<StepId, StepRecord>

    constructor ()
      ensures records == map[]
    {
      records := map[];
    }

    method MarkPending(step: StepId, signature: Signature, lastValid: nat)
      modifies this
      ensures records == old(records)[step := Pending(signature, lastValid)]
    {
      records := records[step := Pending(signature, lastValid)];
    }

    method MarkDone(step: StepId, landed: Option<Signature>)
      modifies this
      ensures records == old(records)[step := Done(landed)]
    {
      records := records[step := Done(landed)];
    }

    method Clear(step: StepId)
      modifies this
      ensures records == old(records) - {step}
    {
      records := records - {step};
    }
  }

  /**
   * What surrounds one lookup or one attempt: the network's moves before it, whether the step is
   * deferred or needs no transaction, the signed transaction, and what is reported.
   */
  datatype Turn = Turn(moves: seq<Move>, defers: bool, skips: bool, signature: Signature, lastValid: nat, report: Report)

  datatype RunEnd = Completed | Deferred | Threw | Died

  function Networks(moves: seq<Move>): seq<Action> {
    seq(|moves|, k requires 0 <= k < |moves| => Network(moves[k]))
  }

  lemma {:induction false} MovesAreActions(plan: Plan, s: System, moves: seq<Move>)
    ensures DoAll(plan, s, Networks(moves)) == s.(cluster := DoMoves(s.cluster, moves))
  {
    if moves != [] {
      MovesAreActions(plan, s, moves[..|moves| - 1]);
      assert Networks(moves)[..|moves| - 1] == Networks(moves[..|moves| - 1]);
    }
  }

  /** Every transaction known is an old one or was signed in one of the first `n` turns. */
  ghost predicate Within(c: Cluster, known: set<Signature>, turns: seq<Turn>, n: nat)
    requires n <= |turns|
  {
    forall x :: x in c.txs ==> x in known || exists j :: 0 <= j < n && turns[j].signature == x
  }

  ghost predicate Reused(turns: seq<Turn>, known: set<Signature>) {
    exists k :: 0 <= k < |turns| && (turns[k].signature in known || exists j :: 0 <= j < k && turns[j].signature == turns[k].signature)
  }

  /** Some lookup leaves its transaction open, or finds it expired. */
  ghost predicate Slow(turns: seq<Turn>) {
    exists turn :: turn in turns && (turn.report == Unknown || turn.report == Expired)
  }

  /** Why a run of `n` steps ended as it did; a run that meets none of this completes. */
  ghost predicate Explained(end: RunEnd, turns: seq<Turn>, known: set<Signature>, n: nat) {
    match end
    case Completed => true
    case Deferred => exists turn :: turn in turns && turn.defers
    case Threw => exists turn :: turn in turns && turn.report != Confirmed && turn.report != Unknown
    case Died => |turns| < n || Slow(turns) || Reused(turns, known)
  }

  class ExecutorService {
    const plan: Plan
    const state: SeedState
    var cluster: Cluster

    constructor (plan: Plan, state: SeedState, cluster: Cluster)
      ensures this.plan == plan && this.state == state && this.cluster == cluster
    {
      this.plan, this.state, this.cluster := plan, state, cluster;
    }

    function World(memory: Memory): System
      reads this, state
    {
      System(cluster, state.records, memory)
    }

    method Wait(moves: seq<Move>)
      modifies this`cluster
      ensures cluster == DoMoves(old(cluster), moves) && cluster.txs.Keys == old(cluster).txs.Keys
    {
      for k := 0 to |moves|
        invariant cluster == DoMoves(old(cluster), moves[..k]) && cluster.txs.Keys == old(cluster).txs.Keys
      {
        assert moves[..k + 1][..k] == moves[..k];
        cluster := DoMove(cluster, moves[k]);
      }
      assert moves[..|moves|] == moves;
    }

    /** Settles a step left pending by an earlier run; `None` when the run goes on. */
    method SettlePending(steps: seq<StepId>, i: nat, turns: seq<Turn>, first: nat, ghost known: set<Signature>, ghost s: System)
      returns (end: Option<RunEnd>, confirmed: bool, next: nat, ghost trace: seq<Action>)
      requires i < |steps| && first <= |turns| && Within(cluster, known, turns, first) && s == World(At(steps, i, 1))
      requires steps[i] !in state.records || state.records[steps[i]].Pending?
      modifies this`cluster, state
      ensures first <= next <= |turns| && NoStart(trace) && end != Some(Completed)
      ensures Within(cluster, known, turns, next) && (Slow(turns) || next <= first + 1)
      ensures end.Some? ==> Explained(end.value, turns, known, first + 1)
      ensures World(if end.Some? then Idle else At(steps, if confirmed then i + 1 else i, 1)) == DoAll(plan, s, trace)
      ensures end.None? && confirmed ==> steps[i] in state.records && state.records[steps[i]].Done?
      ensures end.None? && !confirmed ==> steps[i] !in state.records && (Slow(turns) || next == first)
      ensures forall k :: k in old(state.records) && k != steps[i] ==> k in state.records && state.records[k] == old(state.records)[k]
    {
      hide Selected, DoAll, Do;
      next, trace, confirmed, end := first, [], false, None;
      DoAllThen(plan, s, [], Stop);
      while steps[i] in state.records && end.None? && !confirmed
        invariant first <= next <= |turns| && NoStart(trace) && end != Some(Completed)
        invariant Within(cluster, known, turns, next) && (Slow(turns) || next <= if end.Some? || confirmed then first + 1 else first)
        invariant end.Some? ==> Explained(end.value, turns, known, first + 1)
        invariant World(if end.Some? then Idle else At(steps, if confirmed then i + 1 else i, 1)) == DoAll(plan, s, trace)
        invariant if confirmed then steps[i] in state.records && state.records[steps[i]].Done?
                  else steps[i] !in state.records || state.records[steps[i]].Pending?
        invariant forall k :: k in old(state.records) && k != steps[i] ==> k in state.records && state.records[k] == old(state.records)[k]
        decreases |turns| - next, end.None?
      {
        if next == |turns| {
          DoAllThen(plan, s, trace, Stop);
          Stops(plan, DoAll(plan, s, trace));
          trace, end := trace + [Stop], Some(Died);
        } else {
          ghost var now := DoAll(plan, s, trace);
          WaitsThenDoes(plan, s, trace, turns[next].moves, Action.SettlePending(turns[next].report));
          trace := trace + Networks(turns[next].moves) + [Action.SettlePending(turns[next].report)];
          assert turns[next] in turns;
          end, confirmed := LookUp(steps, i, turns[next], now);
          next := next + 1;
        }
      }
    }

    /** One lookup of the pending transaction. */
    method LookUp(steps: seq<StepId>, i: nat, turn: Turn, ghost s: System) returns (end: Option<RunEnd>, confirmed: bool)
      requires i < |steps| && s == World(At(steps, i, 1)) && steps[i] in state.records && state.records[steps[i]].Pending?
      modifies this`cluster, state
      ensures World(if end.Some? then Idle else At(steps, if confirmed then i + 1 else i, 1))
        == Do(plan, s.(cluster := DoMoves(s.cluster, turn.moves)), Action.SettlePending(turn.report))
      ensures cluster.txs.Keys == old(cluster).txs.Keys
      ensures end.Some? ==> end == Some(Threw) && turn.report != Confirmed && turn.report != Unknown
      ensures end.None? && !confirmed ==> turn.report == Unknown || turn.report == Expired
      ensures confirmed ==> end.None? && steps[i] in state.records && state.records[steps[i]].Done?
      ensures !confirmed ==> steps[i] !in state.records || state.records[steps[i]].Pending?
      ensures forall k :: k in old(state.records) && k != steps[i] ==> k in state.records && state.records[k] == old(state.records)[k]
    {
      hide Selected, DoMoves;
      Wait(turn.moves);
      match turn.report {
        case Confirmed =>
          state.MarkDone(steps[i], Some(state.records[steps[i]].signature));
          return None, true;
        case FailedOnChain =>
          state.Clear(steps[i]);
          return Some(Threw), false;
        case Expired =>
          state.Clear(steps[i]);
          return None, false;
        case Throws =>
          return Some(Threw), false;
        case Unknown =>
          return None, false; // looked up again
      }
    }

    /** Sends a step until it is confirmed, needs no transaction, or cannot go on. */
    method SendStep(steps: seq<StepId>, i: nat, turns: seq<Turn>, first: nat, ghost known: set<Signature>, ghost s: System)
      returns (end: Option<RunEnd>, next: nat, ghost trace: seq<Action>)
      requires i < |steps| && first <= |turns| && Within(cluster, known, turns, first) && s == World(At(steps, i, 1)) && steps[i] !in state.records
      modifies this`cluster, state
      ensures first <= next <= |turns| && NoStart(trace) && end != Some(Completed)
      ensures Within(cluster, known, turns, next) && (Slow(turns) || next <= first + 1)
      ensures end.Some? ==> Explained(end.value, turns, known, first + 1)
      ensures World(if end.Some? then Idle else At(steps, i + 1, 1)) == DoAll(plan, s, trace)
      ensures end.None? ==> steps[i] in state.records && state.records[steps[i]].Done?
      ensures forall k :: k in old(state.records) ==> k in state.records && state.records[k] == old(state.records)[k]
    {
      hide Selected, DoAll, Do;
      next, trace, end := first, [], None;
      DoAllThen(plan, s, [], Stop);
      var attempt := 1;
      var done := false;
      while !done && end.None?
        invariant 1 <= attempt <= MAX_ATTEMPTS && first <= next <= |turns| && NoStart(trace) && end != Some(Completed)
        invariant Within(cluster, known, turns, next) && (Slow(turns) || next <= if end.Some? || done then first + 1 else first)
        invariant end.Some? ==> Explained(end.value, turns, known, first + 1)
        invariant done ==> end.None? && steps[i] in state.records && state.records[steps[i]].Done?
        invariant !done && end.None? ==> steps[i] !in state.records
        invariant World(if done then At(steps, i + 1, 1) else if end.Some? then Idle else At(steps, i, attempt)) == DoAll(plan, s, trace)
        invariant forall k :: k in old(state.records) ==> k in state.records && state.records[k] == old(state.records)[k]
        decreases MAX_ATTEMPTS - attempt, !done && end.None?
      {
        // `sign` waits for another blockhash when a signature was used before; here the run ends
        if next == |turns| || (!turns[next].skips && turns[next].signature in cluster.txs) {
          DoAllThen(plan, s, trace, Stop);
          Stops(plan, DoAll(plan, s, trace));
          trace, end := trace + [Stop], Some(Died);
        } else if turns[next].skips {
          DoAllThen(plan, s, trace, Skip);
          Skips(plan, DoAll(plan, s, trace));
          state.MarkDone(steps[i], None);
          trace, done, next := trace + [Skip], true, next + 1;
        } else {
          var turn := turns[next];
          assert turn in turns;
          ghost var now := DoAll(plan, s, trace);
          DoAllThen(plan, s, trace, Sign(turn.signature, turn.lastValid));
          trace := trace + [Sign(turn.signature, turn.lastValid)];
          WaitsThenDoes(plan, s, trace, turn.moves, LastAction(turn.report));
          trace := trace + Networks(turn.moves) + [LastAction(turn.report)];
          done, end := SendOnce(steps, i, attempt, turn, now);
          if !done && end.None? {
            attempt := attempt + 1;
          }
          next := next + 1;
        }
      }
    }

    /** One attempt: recorded as pending, sent, and settled by what is reported. */
    method SendOnce(steps: seq<StepId>, i: nat, attempt: nat, turn: Turn, ghost s: System) returns (done: bool, end: Option<RunEnd>)
      requires i < |steps| && 1 <= attempt <= MAX_ATTEMPTS && s == World(At(steps, i, attempt)) && steps[i] !in state.records
      requires turn.signature !in cluster.txs
      modifies this`cluster, state
      ensures var signed := Do(plan, s, Sign(turn.signature, turn.lastValid));
        World(if done then At(steps, i + 1, 1) else if end.Some? then Idle else At(steps, i, attempt + 1))
        == Do(plan, signed.(cluster := DoMoves(signed.cluster, turn.moves)), LastAction(turn.report))
      ensures cluster.txs.Keys == old(cluster).txs.Keys + {turn.signature}
      ensures end == Some(Died) ==> turn.report == Unknown
      ensures end == Some(Threw) ==> turn.report != Confirmed && turn.report != Unknown
      ensures end.None? || end == Some(Died) || end == Some(Threw)
      ensures done ==> end.None? && steps[i] in state.records && state.records[steps[i]].Done?
      ensures !done && end.None? ==> steps[i] !in state.records && attempt < MAX_ATTEMPTS && turn.report == Expired
      ensures forall k :: k in old(state.records) ==> k in state.records && state.records[k] == old(state.records)[k]
    {
      hide Selected, DoMoves, Do;
      Signs(plan, s, turn.signature, turn.lastValid);
      ghost var moved := Do(plan, s, Sign(turn.signature, turn.lastValid));
      moved := moved.(cluster := DoMoves(moved.cluster, turn.moves));
      Ends(plan, moved, turn.report);
      state.MarkPending(steps[i], turn.signature, turn.lastValid);
      cluster := cluster.(txs := cluster.txs[turn.signature := Tx(steps[i], turn.lastValid, Flying)]);
      Wait(turn.moves);
      if turn.report == Unknown {
        return false, Some(Died); // it polls until it knows; the process dies first
      }
      if turn.report == Confirmed {
        state.MarkDone(steps[i], Some(turn.signature));
        return true, None;
      }
      state.Clear(steps[i]);
      return false, if turn.report != Expired || attempt == MAX_ATTEMPTS then Some(Threw) else None;
    }

    /** One step of a run: passed over, settled, deferred or sent. */
    method RunStep(steps: seq<StepId>, i: nat, turns: seq<Turn>, first: nat, ghost known: set<Signature>, ghost s: System)
      returns (end: Option<RunEnd>, next: nat, ghost trace: seq<Action>)
      requires i < |steps| && first <= |turns| && Within(cluster, known, turns, first) && s == World(At(steps, i, 1))
      modifies this`cluster, state
      ensures first <= next <= |turns| && NoStart(trace) && end != Some(Completed)
      ensures Within(cluster, known, turns, next) && (Slow(turns) || next <= first + 1)
      ensures end.Some? ==> Explained(end.value, turns, known, first + 1)
      ensures World(if end.Some? then Idle else At(steps, i + 1, 1)) == DoAll(plan, s, trace)
      ensures end.None? ==> steps[i] in state.records && state.records[steps[i]].Done?
      ensures forall k :: k in old(state.records) && k != steps[i] ==> k in state.records && state.records[k] == old(state.records)[k]
    {
      hide Selected, DoAll, Do;
      if steps[i] in state.records && state.records[steps[i]].Done? {
        DoAllThen(plan, s, [], Advance);
        Advances(plan, s);
        assert [] + [Advance] == [Advance];
        return None, first, [Advance];
      }
      var ended, confirmed, after, settling := SettlePending(steps, i, turns, first, known, s);
      next, trace := after, settling;
      if ended.Some? || confirmed {
        return ended, next, trace;
      }
      if next < |turns| && turns[next].defers {
        assert turns[next] in turns;
        DoAllThen(plan, s, trace, Stop);
        Stops(plan, DoAll(plan, s, trace));
        return Some(Deferred), next, trace + [Stop];
      }
      var sent, afterSend, sending := SendStep(steps, i, turns, next, known, DoAll(plan, s, trace));
      DoAllConcat(plan, s, trace, sending);
      return sent, afterSend, trace + sending;
    }

    /** Runs steps in order until one ends the run; `turns` is what the run lives to see. */
    method RunSteps(steps: seq<StepId>, turns: seq<Turn>, ghost known: set<Signature>, ghost s: System) returns (end: RunEnd, ghost trace: seq<Action>)
      requires s == World(At(steps, 0, 1)) && cluster.txs.Keys <= known
      modifies this`cluster, state
      ensures Explained(end, turns, known, |steps|)
      ensures World(if end == Completed then At(steps, |steps|, 1) else Idle) == DoAll(plan, s, trace) && NoStart(trace)
      ensures end == Completed ==> forall j :: 0 <= j < |steps| ==> steps[j] in state.records && state.records[steps[j]].Done?
    {
      hide Selected, Do, DoAll;
      trace := [];
      DoAllThen(plan, s, [], Stop);
      var next: nat := 0;
      for i := 0 to |steps|
        invariant next <= |turns| && NoStart(trace) && Within(cluster, known, turns, next) && (Slow(turns) || next <= i)
        invariant World(At(steps, i, 1)) == DoAll(plan, s, trace)
        invariant forall j :: 0 <= j < i ==> steps[j] in state.records && state.records[steps[j]].Done?
      {
        var ended, after, ran := RunStep(steps, i, turns, next, known, DoAll(plan, s, trace));
        DoAllConcat(plan, s, trace, ran);
        trace, next := trace + ran, after;
        if ended.Some? {
          return ended.value, trace;
        }
      }
      end := Completed;
    }

    /** Runs the steps of the selected phases. */
    method Execute(phases: set<string>, turns: seq<Turn>) returns (end: RunEnd, ghost trace: seq<Action>)
      modifies this`cluster, state
      ensures World(Idle) == DoAll(plan, old(World(Idle)), trace)
      ensures end == Completed ==> forall k: nat :: k < |plan.phases| && plan.phases[k] in phases ==> k in state.records && state.records[k].Done?
      ensures SamePhases(trace, phases)
      ensures Explained(end, turns, old(cluster).txs.Keys, |Selected(plan, phases, |plan.phases|)|)
    {
      var steps := Selected(plan, phases, |plan.phases|);
      hide Selected, Do, DoAll, SamePhases;
      ghost var s := World(Idle);
      DoAllThen(plan, s, [], StartRun(phases));
      StartsWith(phases);
      Starts(plan, s, phases);
      var ended, ran := RunSteps(steps, turns, cluster.txs.Keys, World(At(steps, 0, 1)));
      end := ended;
      DoAllConcat(plan, s, [StartRun(phases)], ran);
      DoAllThen(plan, s, [StartRun(phases)] + ran, Stop);
      Stops(plan, DoAll(plan, s, [StartRun(phases)] + ran));
      GoesOn([StartRun(phases)], ran + [Stop], phases);
      trace := [StartRun(phases)] + ran + [Stop];
      assert [StartRun(phases)] + (ran + [Stop]) == trace && [] + [StartRun(phases)] == [StartRun(phases)];
      if end == Completed {
        forall k: nat | k < |plan.phases| && plan.phases[k] in phases ensures k in state.records && state.records[k].Done? {
          assert k in steps;
        }
      }
    }
  }

  lemma {:induction false} Starts(plan: Plan, s: System, phases: set<string>)
    requires s.memory.Idle?
    ensures Do(plan, s, StartRun(phases)) == s.(memory := At(Selected(plan, phases, |plan.phases|), 0, 1))
  {}

  lemma {:induction false} Advances(plan: Plan, s: System)
    requires s.memory.At? && s.memory.i < |s.memory.steps| && s.memory.steps[s.memory.i] in s.records && s.records[s.memory.steps[s.memory.i]].Done?
    ensures Do(plan, s, Advance) == s.(memory := At(s.memory.steps, s.memory.i + 1, 1))
  {}

  lemma {:induction false} Stops(plan: Plan, s: System)
    ensures Do(plan, s, Stop) == s.(memory := Idle)
  {}

  predicate NoStart(trace: seq<Action>) {
    forall k :: 0 <= k < |trace| ==> !trace[k].StartRun?
  }

  /** What ends an attempt. */
  function LastAction(report: Report): Action {
    if report == Unknown then Stop else Submit(report)
  }

  lemma {:induction false} Signs(plan: Plan, s: System, x: Signature, lastValid: nat)
    requires Ready(s) && x !in s.cluster.txs
    ensures var m := s.memory;
      Do(plan, s, Sign(x, lastValid)) == System(s.cluster.(txs := s.cluster.txs[x := Tx(m.steps[m.i], lastValid, Flying)]),
                                                s.records[m.steps[m.i] := Pending(x, lastValid)], Sending(m.steps, m.i, m.attempt, x))
  {}

  /** What the end of an attempt leaves of the record and of the run. */
  lemma {:induction false} Ends(plan: Plan, s: System, r: Report)
    requires s.memory.Sending? && s.memory.i < |s.memory.steps|
    ensures var m := s.memory;
      var k := m.steps[m.i];
      Do(plan, s, LastAction(r)) ==
        if r == Unknown then s.(memory := Idle)
        else if r == Confirmed then s.(records := s.records[k := Done(Some(m.signature))], memory := At(m.steps, m.i + 1, 1))
        else s.(records := s.records - {k}, memory := if r == Expired && m.attempt != MAX_ATTEMPTS then At(m.steps, m.i, m.attempt + 1) else Idle)
  {}

  lemma {:induction false} Skips(plan: Plan, s: System)
    requires Ready(s)
    ensures Do(plan, s, Skip) == s.(records := s.records[s.memory.steps[s.memory.i] := Done(None)], memory := At(s.memory.steps, s.memory.i + 1, 1))
  {}

  lemma {:induction false} WaitsThenDoes(plan: Plan, s: System, trace: seq<Action>, moves: seq<Move>, a: Action)
    ensures var now := DoAll(plan, s, trace);
      DoAll(plan, s, trace + Networks(moves) + [a]) == Do(plan, now.(cluster := DoMoves(now.cluster, moves)), a)
  {
    MovesAreActions(plan, DoAll(plan, s, trace), moves);
    DoAllConcat(plan, s, trace, Networks(moves));
    DoAllThen(plan, s, trace + Networks(moves), a);
  }

  lemma {:induction false} StartsWith(phases: set<string>)
    ensures SamePhases([StartRun(phases)], phases)
  {}

  lemma {:induction false} GoesOn(trace: seq<Action>, more: seq<Action>, phases: set<string>)
    requires SamePhases(trace, phases) && NoStart(more)
    ensures SamePhases(trace + more, phases)
  {}
}
