/** Dependency gates: a task held until every handle it depends on has terminated. */
module Gates {
  import opened Sequences

  const ATTEMPTS: nat := 16

  /** `accepted`: how many times the engine took the gate's task. */
  datatype Gate = Gate(deps: seq<nat>, remaining: nat, released: bool, abandoned: bool, attempts: nat, accepted: nat)

  /** How a submit ended: taken; refused for now (paused, full, no memory); refused for good. */
  datatype Reply = Taken | NotNow | Never

  /** `done`: the terminal handles remembered, at most `cap` of them if `cap` is not 0. `outs`: of
      each gate's dependencies, those it still waits for. `ended`: every handle that has
      terminated, remembered or not. */
  datatype Hall = Hall(done: set<nat>, cap: nat, gates: seq<Gate>, outs: seq<set<nat>>, ended: set<nat>)

  ghost predicate Distinct(deps: seq<nat>) {
    forall i, j :: 0 <= i < j < |deps| ==> deps[i] != deps[j]
  }

  function Members(deps: seq<nat>): set<nat> {
    set d | d in deps
  }

  function CountMissing(deps: seq<nat>, done: set<nat>): nat {
    if |deps| == 0 then 0 else CountMissing(deps[..|deps| - 1], done) + if deps[|deps| - 1] in done then 0 else 1
  }

  // ---- the operations ----

  /** release_gate. */
  function Release(g: Gate, r: Reply): Gate {
    match r
    case Taken => g.(released := true, abandoned := false, accepted := g.accepted + 1)
    case Never => g.(released := true, abandoned := true)
    case NotNow =>
      var g1 := g.(attempts := g.attempts + 1);
      if g1.attempts >= ATTEMPTS then g1.(released := true, abandoned := true) else g1
  }

  /** What a terminal event does to one gate. */
  function Advance(g: Gate, h: nat, r: Reply): Gate {
    if g.released then g
    else
      var g1 := if h in g.deps && g.remaining > 0 then g.(remaining := g.remaining - 1) else g;
      if g1.remaining == 0 then Release(g1, r) else g1
  }

  function AdvanceAll(gates: seq<Gate>, h: nat, reply: nat -> Reply): (gs: seq<Gate>)
    ensures |gs| == |gates| && forall i :: 0 <= i < |gates| ==> gs[i] == Advance(gates[i], h, reply(i))
  {
    seq(|gates|, i requires 0 <= i < |gates| => Advance(gates[i], h, reply(i)))
  }

  function Without(outs: seq<set<nat>>, h: nat): (os: seq<set<nat>>)
    ensures |os| == |outs| && forall i :: 0 <= i < |outs| ==> os[i] == outs[i] - {h}
  {
    seq(|outs|, i requires 0 <= i < |outs| => outs[i] - {h})
  }

  /** The set mark_done looks in: emptied first if it is full. */
  function Pruned(hall: Hall): set<nat> {
    if hall.cap > 0 && |hall.done| >= hall.cap then {} else hall.done
  }

  /** orch_obs, for a terminal event. `memory`: the handle could be remembered. */
  function Ended(hall: Hall, h: nat, memory: bool, reply: nat -> Reply): Hall {
    var done := Pruned(hall);
    var hall1 := hall.(done := done, ended := hall.ended + {h});
    if h == 0 then hall
    else if h in done then hall1
    else hall1.(done := if memory then done + {h} else done, gates := AdvanceAll(hall.gates, h, reply), outs := Without(hall.outs, h))
  }

  /** gptps_orch_after: a gate, unless nothing is left to wait for. */
  function After(hall: Hall, deps: seq<nat>): Hall {
    var n := CountMissing(deps, hall.done);
    if n == 0 || 0 in deps then hall
    else hall.(gates := hall.gates + [Gate(deps, n, false, false, 0, 0)], outs := hall.outs + [Members(deps) - hall.done])
  }

  /** gptps_orch_prune. */
  function Prune(hall: Hall): Hall {
    hall.(done := {})
  }

  function Rearm(g: Gate, r: Reply): Gate {
    if g.abandoned then Release(g.(released := false, abandoned := false, attempts := 0), r) else g
  }

  /** gptps_orch_retry. */
  function Retry(hall: Hall, reply: nat -> Reply): Hall {
    hall.(gates := seq(|hall.gates|, i requires 0 <= i < |hall.gates| => Rearm(hall.gates[i], reply(i))))
  }

  // ---- what every operation keeps ----

  /** A gate waits for exactly the dependencies still outstanding, has been offered to the engine
      only when there were none, and has been taken at most once. */
  ghost predicate GateOk(g: Gate, out: set<nat>, done: set<nat>, ended: set<nat>) {
    && Distinct(g.deps) && 0 !in g.deps && out <= Members(g.deps) && Members(g.deps) - out <= ended
    && (!g.released ==> g.remaining == |out| && out !! done && g.attempts < ATTEMPTS && !g.abandoned)
    && (g.released ==> g.remaining == 0) && (g.released || g.attempts > 0 ==> out == {})
    && g.accepted == (if g.released && !g.abandoned then 1 else 0)
  }

  ghost predicate Ok(hall: Hall) {
    && hall.done <= hall.ended && (hall.cap > 0 ==> |hall.done| <= hall.cap)
    && |hall.outs| == |hall.gates|
    && forall i :: 0 <= i < |hall.gates| ==> GateOk(hall.gates[i], hall.outs[i], hall.done, hall.ended)
  }

  lemma {:induction false} MissingIs(deps: seq<nat>, done: set<nat>)
    requires Distinct(deps)
    ensures CountMissing(deps, done) == |Members(deps) - done|
    decreases |deps|
  {
    if |deps| > 0 {
      var n := |deps| - 1;
      MissingIs(deps[..n], done);
      var a, b := Members(deps[..n]) - done, Members(deps) - done;
      Snoc(deps);
      assert deps[n] !in deps[..n];
      assert b == if deps[n] in done then a else a + {deps[n]};
    } else {
      assert Members(deps) - done == {};
    }
  }

  lemma AdvanceOk(g: Gate, out: set<nat>, done: set<nat>, ended: set<nat>, h: nat, r: Reply, done': set<nat>)
    requires GateOk(g, out, done, ended) && h !in ended && done' <= done + {h}
    ensures GateOk(Advance(g, h, r), out - {h}, done', ended + {h})
  {
    if !g.released && h in g.deps {
      assert h in Members(g.deps) && h in out;
      assert |out - {h}| == |out| - 1;
    }
    if h !in g.deps { assert out - {h} == out; }
  }

  /** A terminal event of a handle that had not terminated keeps the invariant. */
  lemma EndedOk(hall: Hall, h: nat, memory: bool, reply: nat -> Reply)
    requires Ok(hall) && h != 0 && h !in hall.ended
    ensures Ok(Ended(hall, h, memory, reply))
  {
    hide GateOk, Advance;
    var hall' := Ended(hall, h, memory, reply);
    forall i | 0 <= i < |hall.gates| ensures GateOk(hall'.gates[i], hall'.outs[i], hall'.done, hall'.ended) {
      AdvanceOk(hall.gates[i], hall.outs[i], hall.done, hall.ended, h, reply(i), hall'.done);
    }
  }

  lemma AfterOk(hall: Hall, deps: seq<nat>)
    requires Ok(hall) && Distinct(deps)
    ensures Ok(After(hall, deps))
  {
    MissingIs(deps, hall.done);
  }

  lemma PruneOk(hall: Hall)
    requires Ok(hall)
    ensures Ok(Prune(hall))
  {
  }

  lemma RetryOk(hall: Hall, reply: nat -> Reply)
    requires Ok(hall)
    ensures Ok(Retry(hall, reply))
  {
    forall i | 0 <= i < |hall.gates| ensures GateOk(Rearm(hall.gates[i], reply(i)), hall.outs[i], hall.done, hall.ended) {
      assert GateOk(hall.gates[i], hall.outs[i], hall.done, hall.ended);
    }
  }

  // ---- every run ----

  datatype Step =
    | EndedStep(h: nat, memory: bool, reply: nat -> Reply)
    | AfterStep(deps: seq<nat>)
    | PruneStep
    | RetryStep(reply: nat -> Reply)

  /** Handles are not 0 and terminate once; a gate names each dependency once. */
  ghost predicate Allowed(hall: Hall, step: Step) {
    match step
    case EndedStep(h, memory, reply) => h != 0 && h !in hall.ended
    case AfterStep(deps) => Distinct(deps)
    case PruneStep => true
    case RetryStep(reply) => true
  }

  function Do(hall: Hall, step: Step): Hall {
    match step
    case EndedStep(h, memory, reply) => Ended(hall, h, memory, reply)
    case AfterStep(deps) => After(hall, deps)
    case PruneStep => Prune(hall)
    case RetryStep(reply) => Retry(hall, reply)
  }

  function Run(hall: Hall, steps: seq<Step>): Hall
    decreases |steps|
  {
    if |steps| == 0 then hall else Run(Do(hall, steps[0]), steps[1..])
  }

  ghost predicate AllAllowed(hall: Hall, steps: seq<Step>)
    decreases |steps|
  {
    |steps| > 0 ==> Allowed(hall, steps[0]) && AllAllowed(Do(hall, steps[0]), steps[1..])
  }

  lemma StepOk(hall: Hall, step: Step)
    requires Ok(hall) && Allowed(hall, step)
    ensures Ok(Do(hall, step))
  {
    hide Ok;
    match step
    case EndedStep(h, memory, reply) => EndedOk(hall, h, memory, reply);
    case AfterStep(deps) => AfterOk(hall, deps);
    case PruneStep => PruneOk(hall);
    case RetryStep(reply) => RetryOk(hall, reply);
  }

  lemma {:induction false} RunOk(hall: Hall, steps: seq<Step>)
    requires Ok(hall) && AllAllowed(hall, steps)
    ensures Ok(Run(hall, steps))
    decreases |steps|
  {
    hide Ok, Allowed, Do;
    if |steps| > 0 {
      StepOk(hall, steps[0]);
      RunOk(Do(hall, steps[0]), steps[1..]);
    }
  }

  function Empty(cap: nat): Hall {
    Hall({}, cap, [], [], {})
  }

  /** In every run, whatever is pruned and whenever: a gate is taken by the engine at most once, and
      is offered to it only after every one of its dependencies has terminated. */
  lemma SubmittedAfterAll(cap: nat, steps: seq<Step>, i: nat)
    requires AllAllowed(Empty(cap), steps) && i < |Run(Empty(cap), steps).gates|
    ensures var hall := Run(Empty(cap), steps); var g := hall.gates[i];
            g.accepted <= 1 && (g.released || g.attempts > 0 ==> forall d :: d in g.deps ==> d in hall.ended)
  {
    hide Run, AllAllowed;
    RunOk(Empty(cap), steps);
    var hall := Run(Empty(cap), steps);
    var g := hall.gates[i];
    assert GateOk(g, hall.outs[i], hall.done, hall.ended);
    forall d | d in g.deps && (g.released || g.attempts > 0) ensures d in hall.ended { assert d in Members(g.deps); }
  }

  // ---- what a gate waits for ----

  /** The handles that terminate in the run. */
  function EndedIn(steps: seq<Step>): set<nat> {
    if |steps| == 0 then {} else (if steps[0].EndedStep? then {steps[0].h} else {}) + EndedIn(steps[1..])
  }

  lemma {:induction false} RunOn(hall: Hall, a: seq<Step>, b: seq<Step>)
    ensures Run(hall, a + b) == Run(Run(hall, a), b)
    ensures AllAllowed(hall, a + b) <==> AllAllowed(hall, a) && AllAllowed(Run(hall, a), b)
    decreases |a|
  {
    hide Do, Allowed;
    if |a| == 0 {
      assert a + b == b;
    } else {
      assert (a + b)[1..] == a[1..] + b;
      RunOn(Do(hall, a[0]), a[1..], b);
    }
  }

  lemma SameDeps(g: Gate, h: nat, r: Reply)
    ensures Advance(g, h, r).deps == g.deps && Rearm(g, r).deps == g.deps
  {
  }

  lemma StepOuts(hall: Hall, step: Step, i: nat)
    requires Ok(hall) && Allowed(hall, step) && i < |hall.gates|
    ensures var hall' := Do(hall, step);
            && i < |hall'.gates| && i < |hall'.outs| && hall'.gates[i].deps == hall.gates[i].deps
            && hall'.outs[i] == hall.outs[i] - EndedIn([step])
  {
    hide GateOk, Advance, Rearm, CountMissing;
    assert EndedIn([step]) == if step.EndedStep? then {step.h} else {} by { assert [step][1..] == []; }
    match step
    case EndedStep(h, memory, reply) => SameDeps(hall.gates[i], h, reply(i));
    case AfterStep(deps) =>
    case PruneStep =>
    case RetryStep(reply) => SameDeps(hall.gates[i], 0, reply(i));
  }

  /** Whatever is remembered, forgotten or pruned: what a gate waits for after a run is what it
      waited for before it, without the handles that terminated in it. */
  lemma {:induction false} RunOuts(hall: Hall, steps: seq<Step>, i: nat)
    requires Ok(hall) && AllAllowed(hall, steps) && i < |hall.gates|
    ensures var hall' := Run(hall, steps);
            && i < |hall'.gates| && i < |hall'.outs| && hall'.gates[i].deps == hall.gates[i].deps
            && hall'.outs[i] == hall.outs[i] - EndedIn(steps)
    decreases |steps|
  {
    hide Ok, Do, Allowed;
    OutsFit(hall);
    if |steps| > 0 {
      StepOk(hall, steps[0]);
      StepOuts(hall, steps[0], i);
      RunOuts(Do(hall, steps[0]), steps[1..], i);
      assert [steps[0]][1..] == [];
    }
  }

  lemma OutsFit(hall: Hall)
    requires Ok(hall)
    ensures |hall.outs| == |hall.gates|
  {
  }

  lemma StepEnded(hall: Hall, step: Step)
    requires Allowed(hall, step)
    ensures Do(hall, step).ended == hall.ended + (if step.EndedStep? then {step.h} else {})
    ensures step.EndedStep? ==> step.h !in hall.ended
  {
  }

  /** What has terminated after a run: each handle once. */
  lemma {:induction false} RunEnded(hall: Hall, steps: seq<Step>)
    requires AllAllowed(hall, steps)
    ensures Run(hall, steps).ended == hall.ended + EndedIn(steps) && hall.ended !! EndedIn(steps)
    decreases |steps|
  {
    hide Do, Allowed;
    if |steps| > 0 {
      StepEnded(hall, steps[0]);
      RunEnded(Do(hall, steps[0]), steps[1..]);
    }
  }

  /** What the gate the step `k` of the run made waits for at its end. */
  function Awaited(cap: nat, steps: seq<Step>, k: nat): set<nat>
    requires k < |steps| && steps[k].AfterStep?
  {
    Members(steps[k].deps) - Run(Empty(cap), steps[..k]).done - EndedIn(steps[k + 1..])
  }

  /** The step makes gate `i`. */
  ghost predicate Makes(cap: nat, steps: seq<Step>, k: nat, i: nat) {
    && k < |steps| && steps[k].AfterStep?
    && var hall := Run(Empty(cap), steps[..k]); |hall.gates| == i && |After(hall, steps[k].deps).gates| == i + 1
  }

  /** Every gate was made by a step of the run. */
  lemma {:induction false} MadeAt(cap: nat, steps: seq<Step>, i: nat) returns (k: nat)
    requires i < |Run(Empty(cap), steps).gates|
    ensures Makes(cap, steps, k, i)
    decreases |steps|
  {
    hide After, Ended, Retry;
    if |steps| == 0 {
      assert false;
    } else {
      var n := |steps| - 1;
      var hall := Run(Empty(cap), steps[..n]);
      assert steps == steps[..n] + [steps[n]] && [steps[n]][1..] == [];
      RunOn(Empty(cap), steps[..n], [steps[n]]);
      assert Run(hall, [steps[n]]) == Do(hall, steps[n]);
      OneMore(hall, steps[n]);
      if i < |hall.gates| {
        k := MadeAt(cap, steps[..n], i);
        assert steps[..n][..k] == steps[..k];
      } else {
        k := n;
      }
    }
  }

  lemma OneMore(hall: Hall, step: Step)
    ensures |hall.gates| <= |Do(hall, step).gates| <= |hall.gates| + if step.AfterStep? then 1 else 0
  {
  }

  lemma MadeGate(cap: nat, steps: seq<Step>, k: nat, i: nat)
    requires AllAllowed(Empty(cap), steps) && Makes(cap, steps, k, i)
    ensures var hall := Run(Empty(cap), steps); Ok(hall) && i < |hall.gates| && i < |hall.outs|
    ensures var hall := Run(Empty(cap), steps); hall.gates[i].deps == steps[k].deps && hall.outs[i] == Awaited(cap, steps, k)
  {
    hide Ok, Allowed, CountMissing;
    var hall, deps, post := Run(Empty(cap), steps[..k]), steps[k].deps, steps[k + 1..];
    assert steps == steps[..k] + [steps[k]] + post && [steps[k]][1..] == [];
    RunOn(Empty(cap), steps[..k] + [steps[k]], post);
    RunOn(Empty(cap), steps[..k], [steps[k]]);
    assert AllAllowed(hall, [steps[k]]);
    assert Run(hall, [steps[k]]) == After(hall, deps);
    EmptyOk(cap);
    RunOk(Empty(cap), steps[..k]);
    StepOk(hall, steps[k]);
    OutsFit(hall);
    RunOuts(After(hall, deps), post, i);
    RunOk(After(hall, deps), post);
  }

  lemma EmptyOk(cap: nat)
    ensures Ok(Empty(cap))
  {
  }

  /** In every run, an unreleased gate counts exactly the dependencies that were not remembered when
      it was made and have not terminated since, none of which is remembered as done; a released one
      has none; and no more is remembered than the ceiling allows. */
  lemma RemainingIsExact(cap: nat, steps: seq<Step>, i: nat) returns (k: nat)
    requires AllAllowed(Empty(cap), steps) && i < |Run(Empty(cap), steps).gates|
    ensures Makes(cap, steps, k, i) && Run(Empty(cap), steps).gates[i].deps == steps[k].deps
    ensures var hall := Run(Empty(cap), steps); var g, out := hall.gates[i], Awaited(cap, steps, k);
            && (hall.cap > 0 ==> |hall.done| <= hall.cap)
            && (if g.released then out == {} else g.remaining == |out| && out !! hall.done && g.attempts < ATTEMPTS)
  {
    hide Run, AllAllowed, Makes, Awaited;
    k := MadeAt(cap, steps, i);
    MadeGate(cap, steps, k, i);
    var hall := Run(Empty(cap), steps);
    MakesAfter(cap, steps, k, i);
    assert GateOk(hall.gates[i], hall.outs[i], hall.done, hall.ended);
  }

  lemma MakesAfter(cap: nat, steps: seq<Step>, k: nat, i: nat)
    requires Makes(cap, steps, k, i)
    ensures k < |steps| && steps[k].AfterStep?
  {
  }

  // ---- gates that wait for ever ----

  /** When the step was taken, the handle had terminated and was no longer remembered. */
  predicate Forgotten(cap: nat, steps: seq<Step>, k: nat, d: nat)
    requires k < |steps|
  {
    var hall := Run(Empty(cap), steps[..k]); d in hall.ended && d !in hall.done
  }

  /** However the run goes on, the gate is not released. */
  ghost predicate NeverReleased(hall: Hall, i: nat) {
    forall post :: AllAllowed(hall, post) && i < |Run(hall, post).gates| ==> !Run(hall, post).gates[i].released
  }

  /** A dependency forgotten when the gate was made is waited for to the end of every run. */
  lemma ForgottenStaysOut(cap: nat, steps: seq<Step>, k: nat, i: nat, d: nat)
    requires AllAllowed(Empty(cap), steps) && Makes(cap, steps, k, i) && d in steps[k].deps && Forgotten(cap, steps, k, d)
    ensures d in Awaited(cap, steps, k) && i < |Run(Empty(cap), steps).gates| && !Run(Empty(cap), steps).gates[i].released
  {
    hide Allowed, CountMissing;
    var hall := Run(Empty(cap), steps[..k]);
    assert steps == steps[..k] + steps[k..] && steps[k..][1..] == steps[k + 1..];
    RunOn(Empty(cap), steps[..k], steps[k..]);
    RunEnded(hall, steps[k..]);
    assert d in Members(steps[k].deps);
    MadeGate(cap, steps, k, i);
    var end := Run(Empty(cap), steps);
    assert GateOk(end.gates[i], end.outs[i], end.done, end.ended);
  }

  /** The other way: if no dependency was forgotten then, and all have terminated, none is waited for. */
  lemma NoneAwaited(cap: nat, steps: seq<Step>, k: nat, i: nat)
    requires AllAllowed(Empty(cap), steps) && Makes(cap, steps, k, i)
    requires forall d :: d in steps[k].deps ==> !Forgotten(cap, steps, k, d) && d in Run(Empty(cap), steps).ended
    ensures Awaited(cap, steps, k) == {}
  {
    hide Allowed, CountMissing, Run, AllAllowed;
    var hall := Run(Empty(cap), steps[..k]);
    assert steps == steps[..k] + steps[k..] && steps[k..][1..] == steps[k + 1..];
    RunOn(Empty(cap), steps[..k], steps[k..]);
    RunEnded(hall, steps[k..]);
    forall d | d in steps[k].deps ensures d !in Awaited(cap, steps, k) {
      assert !Forgotten(cap, steps, k, d);
    }
    assert Awaited(cap, steps, k) <= Members(steps[k].deps);
  }

  lemma {:induction false} FreshHandle(s: set<nat>) returns (h: nat)
    ensures h != 0 && h !in s && forall x :: x in s ==> x < h
    decreases |s|
  {
    if s == {} {
      h := 1;
    } else {
      var x :| x in s;
      var h' := FreshHandle(s - {x});
      h := if x < h' then h' else x + 1;
      assert forall y :: y in s ==> y == x || y in s - {x};
    }
  }

  /** A gate that waits for nothing more is taken at the next terminal event, if the engine will. */
  lemma TakenNext(hall: Hall, i: nat)
    requires Ok(hall) && i < |hall.gates| && hall.outs[i] == {}
    ensures !NeverReleased(hall, i)
  {
    var g := hall.gates[i];
    assert GateOk(g, hall.outs[i], hall.done, hall.ended);
    if g.released {
      assert Run(hall, []) == hall;
    } else {
      var h := FreshHandle(hall.ended);
      var step := EndedStep(h, true, _ => Taken);
      assert [step][1..] == [];
      assert Run(hall, [step]) == Do(hall, step);
      assert AllAllowed(hall, [step]);
      assert Do(hall, step).gates[i].released;
    }
  }

  /** A gate all of whose dependencies have terminated is never released, however the run goes on,
      exactly if one of them had terminated and been forgotten when the gate was made. */
  lemma StuckIffForgotten(cap: nat, steps: seq<Step>, k: nat, i: nat)
    requires AllAllowed(Empty(cap), steps) && Makes(cap, steps, k, i)
    requires forall d :: d in steps[k].deps ==> d in Run(Empty(cap), steps).ended
    ensures NeverReleased(Run(Empty(cap), steps), i) <==> exists d :: d in steps[k].deps && Forgotten(cap, steps, k, d)
  {
    hide Run, AllAllowed, Ok, Awaited;
    var hall := Run(Empty(cap), steps);
    MadeGate(cap, steps, k, i);
    if exists d :: d in steps[k].deps && Forgotten(cap, steps, k, d) {
      var d :| d in steps[k].deps && Forgotten(cap, steps, k, d);
      forall post | AllAllowed(hall, post) && i < |Run(hall, post).gates| ensures !Run(hall, post).gates[i].released {
        RunOn(Empty(cap), steps, post);
        assert (steps + post)[..k] == steps[..k];
        ForgottenStaysOut(cap, steps + post, k, i, d);
      }
    } else {
      NoneAwaited(cap, steps, k, i);
      TakenNext(hall, i);
    }
  }

  /** Handle 1 terminates, and is forgotten when handle 2 does: a gate on 1 made then waits for ever. */
  lemma GateOnForgotten(r: nat -> Reply)
    ensures var steps := [EndedStep(1, true, r), EndedStep(2, true, r), AfterStep([1])];
            AllAllowed(Empty(1), steps) && NeverReleased(Run(Empty(1), steps), 0)
  {
    hide NeverReleased, Ended, After, Makes, Forgotten;
    var a, b, c := EndedStep(1, true, r), EndedStep(2, true, r), AfterStep([1]);
    var h1, h2 := Ended(Empty(1), 1, true, r), Ended(Ended(Empty(1), 1, true, r), 2, true, r);
    ForgottenThen(r);
    assert [a, b, c][1..] == [b, c] && [b, c][1..] == [c] && [c][1..] == [];
    assert [a] + [b, c] == [a, b, c] && [b] + [c] == [b, c] && [c] + [] == [c];
    assert [a, b, c][..2] == [a, b] && [a, b][1..] == [b] && [b][1..] == [];
    assert Run(h2, []) == h2;
    assert Run(h1, [b]) == h2;
    assert Run(Empty(1), [a, b]) == h2;
    assert Distinct([1]) && Allowed(h2, c) && Allowed(h1, b) && Allowed(Empty(1), a);
    NoStepsAllowed(Do(h2, c));
    AllowedOn(h2, c, []);
    AllowedOn(h1, b, [c]);
    AllowedOn(Empty(1), a, [b, c]);
    MakesOne([a, b, c], h2);
    assert Run(h2, [c]) == After(h2, [1]);
    assert Run(h1, [b, c]) == Run(h2, [c]) && Run(Empty(1), [a, b, c]) == Run(h1, [b, c]);
    assert After(h2, [1]).ended == h2.ended by { AfterEnded(h2, [1]); }
    StuckIffForgotten(1, [a, b, c], 2, 0);
  }

  lemma NoStepsAllowed(hall: Hall)
    ensures AllAllowed(hall, [])
  {
  }

  lemma AllowedOn(hall: Hall, step: Step, rest: seq<Step>)
    requires Allowed(hall, step) && AllAllowed(Do(hall, step), rest)
    ensures AllAllowed(hall, [step] + rest)
  {
    hide Do, Allowed;
    assert ([step] + rest)[1..] == rest;
  }

  lemma AfterEnded(hall: Hall, deps: seq<nat>)
    ensures After(hall, deps).ended == hall.ended
  {
  }

  lemma ForgottenThen(r: nat -> Reply)
    ensures Ended(Empty(1), 1, true, r) == Hall({1}, 1, [], [], {1})
    ensures Ended(Ended(Empty(1), 1, true, r), 2, true, r) == Hall({2}, 1, [], [], {1, 2})
  {
    assert {} + {1} == {1};
  }

  lemma MakesOne(steps: seq<Step>, hall: Hall)
    requires |steps| == 3 && steps[2] == AfterStep([1]) && Run(Empty(1), steps[..2]) == hall == Hall({2}, 1, [], [], {1, 2})
    ensures Makes(1, steps, 2, 0) && Forgotten(1, steps, 2, 1)
  {
    hide Run;
    var deps: seq<nat> := [1];
    assert deps[..0] == [];
    assert CountMissing(deps, {2}) == 1;
  }

  // ---- what a series of offers comes to ----

  /** The gate after a series of terminal events, each answered as `replies` says. */
  function Offered(g: Gate, hs: seq<nat>, replies: seq<Reply>): Gate
    requires |hs| == |replies|
    decreases |hs|
  {
    if |hs| == 0 then g else Offered(Advance(g, hs[0], replies[0]), hs[1..], replies[1..])
  }

  lemma {:induction false} OfferedOnce(g: Gate, hs: seq<nat>, replies: seq<Reply>)
    requires |hs| == |replies| && g.released
    ensures Offered(g, hs, replies) == g
    decreases |hs|
  {
    if |hs| > 0 { OfferedOnce(g, hs[1..], replies[1..]); }
  }

  /** What becomes of a gate with nothing left to wait for, of which the next `k` offers are refused for
      now, and the one after, if there is one, is not. Refused sixteen times in all it is given up;
      till then it is kept, to be offered again; and the first other answer decides it. */
  lemma {:induction false} GivenUpAtTheSixteenth(g: Gate, hs: seq<nat>, replies: seq<Reply>, k: nat)
    requires |hs| == |replies| && !g.released && !g.abandoned && g.remaining == 0 && g.attempts < 16
    requires k <= |replies| && (forall i :: 0 <= i < k ==> replies[i] == NotNow) && (k < |replies| ==> replies[k] != NotNow)
    ensures var g' := Offered(g, hs, replies);
            if g.attempts + k >= 16 then g'.released && g'.abandoned && g'.accepted == g.accepted
            else if k == |replies| then !g'.released && !g'.abandoned && g'.accepted == g.accepted && g'.attempts == g.attempts + k
            else g'.released && g'.abandoned == (replies[k] == Never) && g'.accepted == g.accepted + if replies[k] == Taken then 1 else 0
    decreases |hs|
  {
    if |hs| > 0 {
      var g1 := Advance(g, hs[0], replies[0]);
      if g1.released {
        OfferedOnce(g1, hs[1..], replies[1..]);
      } else {
        assert forall i :: 0 <= i < k - 1 ==> replies[1..][i] == replies[i + 1];
        GivenUpAtTheSixteenth(g1, hs[1..], replies[1..], k - 1);
      }
    }
  }

  /** A gate given up is offered at once by a retry, and then as one never offered before. */
  lemma RetryStartsOver(g: Gate, r: Reply, h: nat, hs: seq<nat>, replies: seq<Reply>)
    requires |hs| == |replies| && g.released && g.abandoned && g.remaining == 0
    ensures Offered(Rearm(g, r), hs, replies) == Offered(g.(released := false, abandoned := false, attempts := 0), [h] + hs, [r] + replies)
  {
    assert ([h] + hs)[1..] == hs && ([r] + replies)[1..] == replies;
  }

  // ---- what is remembered ----

  /** Every terminal event's handle could be remembered, and no one asked for any to be forgotten. */
  predicate Remembering(steps: seq<Step>) {
    forall k :: 0 <= k < |steps| ==> match steps[k] case EndedStep(h, memory, reply) => memory case PruneStep => false case _ => true
  }

  /** As long as no more handles have terminated than the ceiling allows, none is forgotten. */
  lemma {:induction false} RememberedToTheCeiling(cap: nat, steps: seq<Step>)
    requires AllAllowed(Empty(cap), steps) && Remembering(steps) && (cap == 0 || |EndedIn(steps)| <= cap)
    ensures var hall := Run(Empty(cap), steps); hall.done == hall.ended == EndedIn(steps) && hall.cap == cap
    decreases |steps|
  {
    hide AllAllowed, Run, Allowed, AdvanceAll, Without, CountMissing;
    RunEnded(Empty(cap), steps);
    if |steps| == 0 {
      assert Run(Empty(cap), steps) == Empty(cap) by { NoSteps(Empty(cap)); }
    } else {
      var n := |steps| - 1;
      var pre, step := steps[..n], steps[n];
      var hall := Run(Empty(cap), pre);
      assert steps == pre + [step];
      RunOn(Empty(cap), pre, [step]);
      RunOne(hall, step);
      RunEnded(Empty(cap), pre);
      StepEnded(hall, step);
      Larger(hall.ended, if step.EndedStep? then {step.h} else {});
      RememberedToTheCeiling(cap, pre);
    }
  }

  lemma NoSteps(hall: Hall)
    ensures Run(hall, []) == hall
  {
  }

  lemma RunOne(hall: Hall, step: Step)
    ensures Run(hall, [step]) == Do(hall, step) && (AllAllowed(hall, [step]) ==> Allowed(hall, step))
  {
    assert [step][1..] == [];
  }

  lemma Larger(a: set<nat>, b: set<nat>)
    requires a !! b
    ensures |a + b| == |a| + |b|
  {
  }

  /** A prune forgets every handle that has terminated: a gate made after it on any of them waits for ever. */
  lemma PruneForgets(cap: nat, steps: seq<Step>, d: nat)
    requires AllAllowed(Empty(cap), steps) && d in Run(Empty(cap), steps).ended
    ensures var all := steps + [PruneStep, AfterStep([d])]; var i := |Run(Empty(cap), steps).gates|;
            AllAllowed(Empty(cap), all) && Makes(cap, all, |steps| + 1, i) && NeverReleased(Run(Empty(cap), all), i)
  {
    hide Run, AllAllowed, NeverReleased, Forgotten;
    var hall, all, k := Run(Empty(cap), steps), steps + [PruneStep, AfterStep([d])], |steps| + 1;
    var h1 := Prune(hall);
    assert all == steps + [PruneStep] + [AfterStep([d])] && all[..k] == steps + [PruneStep];
    RunOn(Empty(cap), steps, [PruneStep]);
    RunOn(Empty(cap), steps + [PruneStep], [AfterStep([d])]);
    RunOne(hall, PruneStep);
    RunOne(h1, AfterStep([d]));
    OneAllowed(hall, PruneStep);
    OneAllowed(h1, AfterStep([d]));
    EmptyOk(cap);
    RunOk(Empty(cap), steps);
    NotZero(Empty(cap), steps, d);
    OneMissing(d);
    assert Forgotten(cap, all, k, d) by { ForgottenIs(cap, all, k, d, h1); }
    AfterEnded(h1, [d]);
    StuckIffForgotten(cap, all, k, |hall.gates|);
  }

  lemma OneAllowed(hall: Hall, step: Step)
    requires Allowed(hall, step)
    ensures AllAllowed(hall, [step])
  {
    assert [step][1..] == [];
  }

  lemma ForgottenIs(cap: nat, steps: seq<Step>, k: nat, d: nat, hall: Hall)
    requires k < |steps| && Run(Empty(cap), steps[..k]) == hall && d in hall.ended && d !in hall.done
    ensures Forgotten(cap, steps, k, d)
  {
  }

  lemma OneMissing(d: nat)
    ensures CountMissing([d], {}) == 1
  {
    var deps: seq<nat> := [d];
    assert deps[..0] == [];
  }

  lemma {:induction false} NotZero(hall: Hall, steps: seq<Step>, d: nat)
    requires 0 !in hall.ended && AllAllowed(hall, steps) && d in Run(hall, steps).ended
    ensures d != 0
    decreases |steps|
  {
    hide Do, Allowed;
    if |steps| > 0 {
      StepNotZero(hall, steps[0]);
      NotZero(Do(hall, steps[0]), steps[1..], d);
    }
  }

  lemma StepNotZero(hall: Hall, step: Step)
    requires 0 !in hall.ended && Allowed(hall, step)
    ensures 0 !in Do(hall, step).ended
  {
  }

  /** A handle that terminates is remembered exactly if there is memory for it; and with one more than the
      ceiling allows, all the others are forgotten. */
  lemma RememberedIff(hall: Hall, h: nat, memory: bool, reply: nat -> Reply)
    requires Ok(hall) && h != 0 && h !in hall.ended
    ensures var done := Ended(hall, h, memory, reply).done;
            && (h in done <==> memory)
            && done - {h} == if hall.cap > 0 && |hall.done| == hall.cap then {} else hall.done
  {
    hide GateOk;
  }

  // ---- each arming ends ----

  /** A gate with nothing left to wait for is released, one way or the other, within as many
      further terminal events as it has attempts left. */
  lemma {:induction false} EndsWithinAttempts(g: Gate, hs: seq<nat>, replies: seq<Reply>)
    requires |hs| == |replies| && g.remaining == 0 && (g.released || g.attempts + |hs| >= ATTEMPTS)
    requires g.released || g.attempts < ATTEMPTS
    ensures Offered(g, hs, replies).released
    decreases |hs|
  {
    if |hs| > 0 && !g.released { EndsWithinAttempts(Advance(g, hs[0], replies[0]), hs[1..], replies[1..]); }
    if |hs| > 0 && g.released { EndsWithinAttempts(g, hs[1..], replies[1..]); }
  }

  // ---- why a handle must terminate once ----

  /** A terminal event of a handle counts a gate that waits on it down exactly if the handle is not
      remembered: so a repeated one is counted again just when the handle could not be remembered,
      or has been forgotten since, or is forgotten now because the set is full. */
  lemma CountedIffForgotten(hall: Hall, h: nat, memory: bool, reply: nat -> Reply, i: nat)
    requires i < |hall.gates|
    requires var g := hall.gates[i]; !g.released && h in g.deps && g.remaining > 0
    ensures var g, g' := hall.gates[i], Ended(hall, h, memory, reply).gates[i];
            if h == 0 || (h in hall.done && (hall.cap == 0 || |hall.done| < hall.cap)) then g' == g else g'.remaining == g.remaining - 1
  {
  }

  /** A handle that terminates twice, with a prune in between, is counted out twice: the gate on
      handles 1 and 2 is taken though 2 never terminated. */
  lemma RepeatAfterPruneReleasesEarly(r: nat -> Reply)
    requires r(0) == Taken
    ensures var hall := Ended(Ended(Ended(After(Empty(1), [1, 2]), 1, true, r), 3, true, r), 1, true, r);
            |hall.gates| == 1 && hall.gates[0].accepted == 1 && 2 !in hall.ended
  {
    var deps: seq<nat> := [1, 2];
    OneGate(Empty(1), 1, 2);
    var h0 := After(Empty(1), deps);
    var h1, h2 := Ended(h0, 1, true, r), Ended(Ended(h0, 1, true, r), 3, true, r);
    OneStep(h0, 1, r);
    OneStep(h1, 3, r);
    OneStep(h2, 1, r);
    hide Ended, After;
  }

  lemma OneGate(hall: Hall, x: nat, y: nat)
    requires x != 0 && y != 0 && x !in hall.done && y !in hall.done
    ensures After(hall, [x, y]) == hall.(gates := hall.gates + [Gate([x, y], 2, false, false, 0, 0)], outs := hall.outs + [{x, y} - hall.done])
  {
    var deps: seq<nat> := [x, y];
    assert deps[..1] == [x] && deps[..1][..0] == [];
    assert CountMissing(deps[..1], hall.done) == 1;
    assert Members(deps) == {x, y};
  }

  lemma OneStep(hall: Hall, h: nat, r: nat -> Reply)
    requires h != 0 && |hall.gates| == 1 && h !in Pruned(hall)
    ensures var hall' := Ended(hall, h, true, r);
            && hall'.gates == [Advance(hall.gates[0], h, r(0))] && hall'.ended == hall.ended + {h} && hall'.cap == hall.cap
            && hall'.done == Pruned(hall) + {h}
  {
    assert AdvanceAll(hall.gates, h, r) == [Advance(hall.gates[0], h, r(0))];
  }
}
