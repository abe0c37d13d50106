/** One multiplexed link: submitters and the reader thread race over the records of requests in
    flight. Each step is what one thread does under the link's lock, or with no lock held. */
module Link {
  /** Where a submitter has got to: about to register; writing the frame; taking its record back
      after the write failed; waiting for its reply, if it is a blocking one; returned. */
  datatype Phase = Preparing | Writing | TakingBack | Awaiting | Returned

  /** Who has the record: the submitter; the link's list; the reader, to complete; no one. */
  datatype Place = Mine | Listed | Reader | Freed

  datatype Answer = NotYet | Accepted | Failed

  /** A request, asynchronous or blocking. `callbacks`, `frees`: how often its callback has run, and
      its record has been freed or, on a blocking submitter's stack, has gone. */
  datatype Req = Req(async: bool, phase: Phase, place: Place, answer: Answer, callbacks: nat, frees: nat)

  datatype State = State(reqs: seq<Req>, pend: seq<nat>, npend: nat, max: nat, dead: bool)

  datatype Step =
    | Begin(async: bool)
    | Register(id: nat)
    | Wrote(id: nat, ok: bool)
    | TakeBack(id: nat)
    | Reply(id: nat)
    | FailAll
    | Complete(id: nat)
    | Wake(id: nat)

  function Made(async: bool): Req {
    Req(async, Preparing, Mine, NotYet, 0, 0)
  }

  /** The id out of the list, if it is there. */
  function Unlink(pend: seq<nat>, id: nat): seq<nat> {
    if |pend| == 0 then [] else if pend[0] == id then pend[1..] else [pend[0]] + Unlink(pend[1..], id)
  }

  /** The submit returns an error: the record is its own again, and it frees it. */
  function Refused(r: Req): Req {
    r.(phase := Returned, place := Freed, answer := Failed, frees := r.frees + 1)
  }

  /** Off the list: an asynchronous record is the reader's to complete; a blocking one is done,
      and its submitter's again. */
  function Claimed(r: Req): Req {
    r.(place := if r.async then Reader else Mine)
  }

  function ClaimAll(reqs: seq<Req>): (rs: seq<Req>)
    ensures |rs| == |reqs| && forall i :: 0 <= i < |reqs| ==> rs[i] == if reqs[i].place == Listed then Claimed(reqs[i]) else reqs[i]
  {
    seq(|reqs|, i requires 0 <= i < |reqs| => if reqs[i].place == Listed then Claimed(reqs[i]) else reqs[i])
  }

  predicate Enabled(s: State, step: Step) {
    match step
    case Begin(async) => true
    case Register(id) => id < |s.reqs| && s.reqs[id].phase == Preparing
    case Wrote(id, ok) => id < |s.reqs| && s.reqs[id].phase == Writing
    case TakeBack(id) => id < |s.reqs| && s.reqs[id].phase == TakingBack
    case Reply(id) => true
    case FailAll => true
    case Complete(id) => id < |s.reqs| && s.reqs[id].place == Reader
    case Wake(id) => id < |s.reqs| && s.reqs[id].phase == Awaiting && s.reqs[id].place == Mine
  }

  function Do(s: State, step: Step): State
    requires Enabled(s, step)
  {
    match step
    case Begin(async) => s.(reqs := s.reqs + [Made(async)])
    case Register(id) =>
      if s.dead || s.npend >= s.max then s.(reqs := s.reqs[id := Refused(s.reqs[id])])
      else s.(reqs := s.reqs[id := s.reqs[id].(phase := Writing, place := Listed)], pend := [id] + s.pend, npend := s.npend + 1)
    case Wrote(id, ok) =>
      if ok then s.(reqs := s.reqs[id := if s.reqs[id].async then s.reqs[id].(phase := Returned, answer := Accepted) else s.reqs[id].(phase := Awaiting)])
      else s.(reqs := s.reqs[id := s.reqs[id].(phase := TakingBack)])
    case TakeBack(id) =>
      if id in s.pend then
        s.(reqs := s.reqs[id := Refused(s.reqs[id])], pend := Unlink(s.pend, id), npend := if s.npend > 0 then s.npend - 1 else 0)
      else s.(reqs := s.reqs[id := if s.reqs[id].async then s.reqs[id].(phase := Returned, answer := Accepted) else Refused(s.reqs[id])])
    case Reply(id) =>
      if id in s.pend && id < |s.reqs| then
        s.(reqs := s.reqs[id := Claimed(s.reqs[id])], pend := Unlink(s.pend, id), npend := if s.npend > 0 then s.npend - 1 else 0)
      else s
    case FailAll => s.(reqs := ClaimAll(s.reqs), pend := [], npend := 0, dead := true)
    case Complete(id) =>
      s.(reqs := s.reqs[id := s.reqs[id].(place := Freed, callbacks := s.reqs[id].callbacks + 1, frees := s.reqs[id].frees + 1)])
    case Wake(id) =>
      s.(reqs := s.reqs[id := s.reqs[id].(phase := Returned, place := Freed, answer := Accepted, frees := s.reqs[id].frees + 1)])
  }

  // ---- what every step keeps ----

  predicate ReqOk(r: Req) {
    && (r.phase == Preparing ==> r.place == Mine)
    && (r.phase == Returned <==> r.answer != NotYet)
    && r.frees == (if r.place == Freed then 1 else 0)
    && r.callbacks == (if r.async && r.place == Freed && r.answer != Failed then 1 else 0)
    && (r.answer == Failed ==> r.place == Freed)
    && (r.async ==> r.phase != Awaiting && (r.place == Mine ==> r.phase == Preparing))
    && (!r.async ==> r.place != Reader && (r.place == Freed <==> r.phase == Returned))
  }

  ghost predicate ListOk(reqs: seq<Req>, pend: seq<nat>) {
    && (forall i, j :: 0 <= i < j < |pend| ==> pend[i] != pend[j])
    && (forall id :: id in pend ==> id < |reqs|)
    && (forall id :: 0 <= id < |reqs| ==> (reqs[id].place == Listed <==> id in pend))
  }

  ghost predicate Inv(s: State) {
    && (forall id :: 0 <= id < |s.reqs| ==> ReqOk(s.reqs[id]))
    && ListOk(s.reqs, s.pend) && s.npend == |s.pend| <= s.max && (s.dead ==> s.pend == [])
  }

  lemma {:induction false} Unlinked(pend: seq<nat>, id: nat)
    requires forall i, j :: 0 <= i < j < |pend| ==> pend[i] != pend[j]
    ensures var p := Unlink(pend, id);
            && (forall x :: x in p <==> x in pend && x != id) && (forall i, j :: 0 <= i < j < |p| ==> p[i] != p[j])
            && |p| == |pend| - if id in pend then 1 else 0
    decreases |pend|
  {
    if |pend| > 0 {
      var rest := pend[1..];
      Unlinked(rest, id);
      assert pend == [pend[0]] + rest;
      assert pend[0] !in rest;
    }
  }

  lemma StepInv(s: State, step: Step)
    requires Inv(s) && Enabled(s, step)
    ensures Inv(Do(s, step))
  {
    match step
    case Begin(async) => BeginInv(s, async);
    case Register(id) => RegisterInv(s, id);
    case Wrote(id, ok) =>
    case TakeBack(id) => Unlinked(s.pend, id);
    case Reply(id) => ReplyInv(s, id);
    case FailAll =>
    case Complete(id) =>
    case Wake(id) =>
  }

  lemma ReplyInv(s: State, id: nat)
    requires Inv(s)
    ensures Inv(Do(s, Reply(id)))
  {
    Unlinked(s.pend, id);
  }

  lemma BeginInv(s: State, async: bool)
    requires Inv(s)
    ensures Inv(Do(s, Begin(async)))
  {
  }

  lemma RegisterInv(s: State, id: nat)
    requires Inv(s) && Enabled(s, Register(id))
    ensures Inv(Do(s, Register(id)))
  {
  }

  ghost predicate Reaches(s: State, steps: seq<Step>, s': State)
    decreases |steps|
  {
    if |steps| == 0 then s == s' else Enabled(s, steps[0]) && Reaches(Do(s, steps[0]), steps[1..], s')
  }

  lemma {:induction false} RunInv(s: State, steps: seq<Step>, s': State)
    requires Inv(s) && Reaches(s, steps, s')
    ensures Inv(s')
    decreases |steps|
  {
    hide Inv, Enabled, Do;
    if |steps| > 0 {
      StepInv(s, steps[0]);
      RunInv(Do(s, steps[0]), steps[1..], s');
    }
  }

  function Open(max: nat): State {
    State([], [], 0, max, false)
  }

  lemma OpenInv(max: nat)
    ensures Inv(Open(max))
  {
  }

  // ---- what a caller hears ----

  /** Under every interleaving of submitters and the reader, an asynchronous submit that returned
      an error never has its callback run, and one that returned OK has it run exactly once, or has
      its record still with the link or the reader to run it. A blocking submit has no callback.
      Every record is freed at most once, and exactly once by the end of its request. */
  lemma SingleOutcome(max: nat, steps: seq<Step>, s: State, id: nat)
    requires Reaches(Open(max), steps, s) && id < |s.reqs|
    ensures var r := s.reqs[id];
            && (r.answer == Failed ==> r.callbacks == 0 && r.frees == 1)
            && (r.async && r.answer == Accepted ==>
                  if r.place == Listed || r.place == Reader then r.callbacks == 0 && r.frees == 0 else r.callbacks == 1 && r.frees == 1)
            && (!r.async ==> r.callbacks == 0 && r.frees == if r.phase == Returned then 1 else 0)
            && r.callbacks <= 1 && r.frees <= 1
  {
    hide Reaches;
    OpenInv(max);
    RunInv(Open(max), steps, s);
    assert ReqOk(s.reqs[id]);
  }

  /** Who reads a record: the submitter until it has registered it, whoever finds it on the list,
      and the reader to complete it. */
  predicate Reads(s: State, step: Step, id: nat) {
    match step
    case Begin(async) => false
    case Register(x) => x == id
    case Wrote(x, ok) => false
    case TakeBack(x) => id in s.pend
    case Reply(x) => id in s.pend
    case FailAll => id in s.pend
    case Complete(x) => x == id
    case Wake(x) => x == id
  }

  /** No step reads a record that has been freed. */
  lemma NeverReadAfterFree(max: nat, steps: seq<Step>, s: State, step: Step, id: nat)
    requires Reaches(Open(max), steps, s) && Enabled(s, step) && id < |s.reqs| && Reads(s, step, id)
    ensures s.reqs[id].frees == 0 && s.reqs[id].place != Freed
  {
    hide Reaches;
    OpenInv(max);
    RunInv(Open(max), steps, s);
    assert ReqOk(s.reqs[id]);
  }

  /** `npend` is the length of the list and within the limit, and a dead link holds nothing. */
  lemma BoundedList(max: nat, steps: seq<Step>, s: State)
    requires Reaches(Open(max), steps, s)
    ensures s.npend == |s.pend| <= s.max && (s.dead ==> s.pend == [])
  {
    hide Reaches;
    OpenInv(max);
    RunInv(Open(max), steps, s);
  }

  /** Once the link is dead, the submitters have returned and the reader has completed what it
      took, every accepted request has had its one callback. */
  lemma AllAnswered(max: nat, steps: seq<Step>, s: State, id: nat)
    requires Reaches(Open(max), steps, s) && s.dead && id < |s.reqs| && s.reqs[id].phase == Returned
    requires forall k :: 0 <= k < |s.reqs| ==> s.reqs[k].place != Reader
    ensures s.reqs[id].callbacks == if s.reqs[id].async && s.reqs[id].answer == Accepted then 1 else 0
  {
    hide Reaches;
    OpenInv(max);
    RunInv(Open(max), steps, s);
    assert ReqOk(s.reqs[id]);
  }

  // ---- every request gets on ----

  /** How far a request is from its end. */
  function Rank(r: Req): nat {
    (match r.phase case Preparing => 4 case Writing => 3 case TakingBack => 2 case Awaiting => 2 case Returned => 0)
    + match r.place case Mine => (if r.phase == Preparing then 3 else 1) case Listed => 2 case Reader => 1 case Freed => 0
  }

  /** The request a step is a step of, if it is one of its submitter's or its reply's. */
  predicate About(s: State, step: Step, id: nat) {
    match step
    case Begin(async) => false
    case Register(x) => x == id
    case Wrote(x, ok) => x == id
    case TakeBack(x) => x == id
    case Reply(x) => x == id && id in s.pend
    case FailAll => id in s.pend
    case Complete(x) => x == id
    case Wake(x) => x == id
  }

  /** Every step brings the requests it is about nearer their end and leaves the others as they are: so a
      request has at most seven. */
  lemma StepAdvances(s: State, step: Step, id: nat)
    requires Inv(s) && Enabled(s, step) && id < |s.reqs|
    ensures Rank(s.reqs[id]) <= 7 && id < |Do(s, step).reqs|
    ensures var r, r' := s.reqs[id], Do(s, step).reqs[id]; if About(s, step, id) then Rank(r') < Rank(r) else r' == r
  {
    assert ReqOk(s.reqs[id]) && (s.reqs[id].place == Listed <==> id in s.pend);
    match step
    case Begin(async) =>
    case Register(x) =>
    case Wrote(x, ok) =>
    case TakeBack(x) =>
    case Reply(x) =>
    case FailAll =>
    case Complete(x) =>
    case Wake(x) =>
  }

  // ---- what the answer says ----

  /** The frame has gone out whole: a blocking submit waits for its reply or has had it, an asynchronous
      one has been told so. */
  predicate Out(s: State, id: nat) {
    id < |s.reqs| && (s.reqs[id].phase == Awaiting || s.reqs[id].answer == Accepted)
  }

  lemma StepOut(s: State, step: Step, id: nat)
    requires Inv(s) && Enabled(s, step)
    ensures Out(s, id) || step == Wrote(id, true) ==> Out(Do(s, step), id)
    ensures var s' := Do(s, step); Out(s', id) && !s'.reqs[id].async ==> Out(s, id) || step == Wrote(id, true)
  {
    if id < |s.reqs| { assert ReqOk(s.reqs[id]); }
    match step
    case Begin(async) =>
    case Register(x) =>
    case Wrote(x, ok) =>
    case TakeBack(x) =>
    case Reply(x) => Unlinked(s.pend, x);
    case FailAll =>
    case Complete(x) =>
    case Wake(x) =>
  }

  lemma StepKind(s: State, step: Step, id: nat)
    requires Inv(s) && Enabled(s, step) && id < |s.reqs|
    ensures var s' := Do(s, step); id < |s'.reqs| && s'.reqs[id].async == s.reqs[id].async
  {
  }

  lemma {:induction false} RunKind(s: State, steps: seq<Step>, s': State, id: nat)
    requires Inv(s) && Reaches(s, steps, s') && id < |s.reqs|
    ensures id < |s'.reqs| && s'.reqs[id].async == s.reqs[id].async
    decreases |steps|
  {
    hide Inv, Enabled, Do;
    if |steps| > 0 {
      StepInv(s, steps[0]);
      StepKind(s, steps[0], id);
      RunKind(Do(s, steps[0]), steps[1..], s', id);
    }
  }

  lemma {:induction false} RunOut(s: State, steps: seq<Step>, s': State, id: nat)
    requires Inv(s) && Reaches(s, steps, s')
    ensures Out(s, id) || Wrote(id, true) in steps ==> Out(s', id)
    ensures Out(s', id) && !s'.reqs[id].async ==> Out(s, id) || Wrote(id, true) in steps
    decreases |steps|
  {
    hide Inv, Enabled, Do;
    if |steps| > 0 {
      var s1 := Do(s, steps[0]);
      StepInv(s, steps[0]);
      StepOut(s, steps[0], id);
      RunOut(s1, steps[1..], s', id);
      if id < |s1.reqs| { RunKind(s1, steps[1..], s', id); }
    }
  }

  /** In every run, a submit whose frame was written whole has not failed; and a blocking one has
      succeeded exactly if it was. */
  lemma AnswerFollowsWrite(max: nat, steps: seq<Step>, s: State, id: nat)
    requires Reaches(Open(max), steps, s) && id < |s.reqs| && s.reqs[id].phase == Returned
    ensures Wrote(id, true) in steps ==> s.reqs[id].answer == Accepted
    ensures !s.reqs[id].async ==> (s.reqs[id].answer == Accepted <==> Wrote(id, true) in steps)
  {
    hide Reaches, Inv;
    OpenInv(max);
    RunOut(Open(max), steps, s, id);
  }

  // ---- after the reader has failed everything ----

  lemma {:induction false} StaysDead(s: State, steps: seq<Step>, s': State)
    requires Reaches(s, steps, s') && (s.dead || FailAll in steps)
    ensures s'.dead
    decreases |steps|
  {
    if |steps| > 0 { StaysDead(Do(s, steps[0]), steps[1..], s'); }
  }

  /** An error once returned stands. */
  lemma StepKeepsFailed(s: State, step: Step, id: nat)
    requires Inv(s) && Enabled(s, step) && id < |s.reqs| && s.reqs[id].answer == Failed
    ensures id < |Do(s, step).reqs| && Do(s, step).reqs[id].answer == Failed
  {
    assert ReqOk(s.reqs[id]);
    match step
    case Begin(async) =>
    case Register(x) =>
    case Wrote(x, ok) =>
    case TakeBack(x) =>
    case Reply(x) => Unlinked(s.pend, x);
    case FailAll =>
    case Complete(x) =>
    case Wake(x) =>
  }

  lemma {:induction false} StaysFailed(s: State, steps: seq<Step>, s': State, id: nat)
    requires Inv(s) && Reaches(s, steps, s') && id < |s.reqs| && s.reqs[id].answer == Failed
    ensures id < |s'.reqs| && s'.reqs[id].answer == Failed
    decreases |steps|
  {
    hide Inv, Enabled, Do;
    if |steps| > 0 {
      StepInv(s, steps[0]);
      StepKeepsFailed(s, steps[0], id);
      StaysFailed(Do(s, steps[0]), steps[1..], s', id);
    }
  }

  lemma {:induction false} RegisteredDead(s: State, steps: seq<Step>, s': State, j: nat, id: nat)
    requires Inv(s) && Reaches(s, steps, s') && j < |steps| && steps[j] == Register(id) && (s.dead || FailAll in steps[..j])
    ensures id < |s'.reqs| && s'.reqs[id].answer == Failed
    decreases |steps|
  {
    hide Inv;
    var s1 := Do(s, steps[0]);
    StepInv(s, steps[0]);
    if j == 0 {
      StaysFailed(s1, steps[1..], s', id);
    } else {
      assert steps[..j] == [steps[0]] + steps[1..][..j - 1];
      RegisteredDead(s1, steps[1..], s', j - 1, id);
    }
  }

  /** In every run in which the reader has failed everything, the link is dead from then on and lists
      nothing, and each request that came to register afterwards was told so: an error, and no callback. */
  lemma DeadForGood(max: nat, steps: seq<Step>, s: State, j: nat, id: nat)
    requires Reaches(Open(max), steps, s) && j < |steps| && steps[j] == Register(id) && FailAll in steps[..j]
    ensures s.dead && s.pend == [] && id < |s.reqs| && s.reqs[id].answer == Failed && s.reqs[id].callbacks == 0 && s.reqs[id].frees == 1
  {
    hide Reaches, Inv, ReqOk;
    OpenInv(max);
    assert FailAll in steps by { InPrefix(steps, j, FailAll); }
    StaysDead(Open(max), steps, s);
    RegisteredDead(Open(max), steps, s, j, id);
    BoundedList(max, steps, s);
    SingleOutcome(max, steps, s, id);
  }

  lemma InPrefix(steps: seq<Step>, j: nat, step: Step)
    requires j <= |steps| && step in steps[..j]
    ensures step in steps
  {
  }

  /** And no submitter is left waiting: whatever each is at, it has a step to take; once all have
      returned and the reader has completed what it kept, every asynchronous request has had either an
      error or its one callback. */
  lemma NoneLeftWaiting(max: nat, steps: seq<Step>, s: State, id: nat)
    requires Reaches(Open(max), steps, s) && FailAll in steps && id < |s.reqs|
    ensures match s.reqs[id].phase
            case Preparing => Enabled(s, Register(id))
            case Writing => Enabled(s, Wrote(id, true)) && Enabled(s, Wrote(id, false))
            case TakingBack => Enabled(s, TakeBack(id))
            case Awaiting => Enabled(s, Wake(id))
            case Returned =>
              s.reqs[id].place == Freed || Enabled(s, Complete(id))
    ensures s.reqs[id].phase == Returned && s.reqs[id].place != Reader && s.reqs[id].async ==>
              s.reqs[id].frees == 1 && s.reqs[id].callbacks == if s.reqs[id].answer == Failed then 0 else 1
  {
    hide Reaches;
    StaysDead(Open(max), steps, s);
    OpenInv(max);
    RunInv(Open(max), steps, s);
    assert ReqOk(s.reqs[id]) && (s.reqs[id].place == Listed <==> id in s.pend);
  }

  // ---- the list and the rotation ----

  /** pend_take: the walk that unlinks a record by its id. */
  method PendTake(pend: seq<nat>, id: nat) returns (found: bool, left: seq<nat>)
    ensures found == (id in pend) && left == Unlink(pend, id)
  {
    var i := 0;
    while i < |pend| && pend[i] != id
      invariant i <= |pend| && id !in pend[..i] && Unlink(pend, id) == pend[..i] + Unlink(pend[i..], id)
    {
      assert pend[i..][1..] == pend[i + 1..];
      assert pend[..i + 1] == pend[..i] + [pend[i]];
      i := i + 1;
    }
    found := i < |pend|;
    left := if found then pend[..i] + pend[i + 1..] else pend;
    if found {
      assert pend[i..][1..] == pend[i + 1..];
    } else {
      assert pend[..i] == pend && pend[i..] == [];
    }
  }

  function CountLive(alive: seq<bool>): nat {
    if |alive| == 0 then 0 else CountLive(alive[..|alive| - 1]) + if alive[|alive| - 1] then 1 else 0
  }

  lemma {:induction false} OneFewer(alive: seq<bool>, i: nat)
    requires i < |alive| && alive[i]
    ensures CountLive(alive[i := false]) == CountLive(alive) - 1
    decreases |alive|
  {
    var n := |alive| - 1;
    if i == n {
      assert alive[i := false][..n] == alive[..n];
    } else {
      OneFewer(alive[..n], i);
      assert alive[i := false][..n] == alive[..n][i := false];
    }
  }

  lemma {:induction false} SomeLive(alive: seq<bool>)
    ensures CountLive(alive) > 0 <==> exists i :: 0 <= i < |alive| && alive[i]
    decreases |alive|
  {
    if |alive| > 0 {
      var n := |alive| - 1;
      SomeLive(alive[..n]);
      if CountLive(alive[..n]) > 0 {
        var i :| 0 <= i < n && alive[..n][i];
        assert alive[i];
      }
      if i: nat :| i < |alive| && alive[i] { assert i == n || alive[..n][i]; }
    }
  }

  lemma ModStep(c: nat, n: nat)
    requires n > 0
    ensures (c + 1) % n == if c % n + 1 == n then 0 else c % n + 1
  {
    var q, r := c / n, c % n;
    assert c == q * n + r;
    if r + 1 == n {
      assert c + 1 == (q + 1) * n;
      MultipleMod(q + 1, n, 0);
    } else {
      MultipleMod(q, n, r + 1);
    }
  }

  lemma MultipleMod(q: nat, n: nat, r: nat)
    requires r < n
    ensures (q * n + r) % n == r
  {
    var x := q * n + r;
    assert x / n * n + x % n == x;
    Apart(x / n, q, n);
    Apart(q, x / n, n);
  }

  lemma {:induction false} Apart(a: nat, b: nat, n: nat)
    ensures a < b ==> a * n + n <= b * n
    decreases b
  {
    if a < b {
      assert b * n == (b - 1) * n + n;
      Apart(a, b - 1, n);
    }
  }

  lemma OneUp(alive: seq<bool>)
    ensures CountLive(alive + [true]) == CountLive(alive) + 1
  {
    assert (alive + [true])[..|alive + [true]| - 1] == alive;
  }

  /** The live links, and the cursor that goes round them. */
  class Rotation {
    const alive: array<bool>
    var nalive: nat
    var cursor: nat

    ghost predicate Valid()
      reads this, alive
    {
      nalive == CountLive(alive[..])
    }

    /** gptps_xport_open_ex, once every link is up: they come up one by one. */
    constructor (n: nat)
      ensures Valid() && fresh(alive) && alive.Length == n && cursor == 0 && forall k :: 0 <= k < n ==> alive[k]
    {
      alive, nalive, cursor := new bool[n](_ => false), 0, 0;
      new;
      for i := 0 to n
        invariant nalive == i == CountLive(alive[..i]) && cursor == 0 && forall k :: 0 <= k < i ==> alive[k]
      {
        alive[i], nalive := true, i + 1;
        OneUp(alive[..i]);
        assert alive[..i + 1] == alive[..i] + [true];
      }
      assert alive[..n] == alive[..];
    }

    /** mark_dead: counted out once, however often it is called. */
    method MarkDead(i: nat)
      requires Valid() && i < alive.Length
      modifies this`nalive, alive
      ensures Valid() && alive[..] == old(alive[..])[i := false]
    {
      if alive[i] {
        OneFewer(alive[..], i);
        ghost var s := alive[..];
        alive[i] := false;
        assert alive[..] == s[i := false];
        nalive := nalive - 1;
      } else {
        assert alive[..] == alive[..][i := false];
      }
    }

    /** next_rr: the first live link from the cursor on, going round; none exactly if none is live.
        The next search starts after it. */
    method NextLive() returns (found: bool, i: nat)
      requires Valid()
      modifies this`cursor
      ensures !found ==> (forall k :: 0 <= k < alive.Length ==> !alive[k]) && cursor == old(cursor)
      ensures found ==> i < alive.Length && alive[i]
      ensures found ==> var from := old(cursor) % alive.Length;
                && cursor == old(cursor) + Steps(from, i, alive.Length) + 1
                && forall k :: 0 <= k < alive.Length && Steps(from, k, alive.Length) < Steps(from, i, alive.Length) ==> !alive[k]
    {
      hide CountLive, Steps;
      SomeLive(alive[..]);
      found, i := false, 0;
      if nalive == 0 {
        forall k | 0 <= k < alive.Length ensures !alive[k] { assert alive[..][k] == alive[k]; }
        return;
      }
      var n := alive.Length;
      ghost var t :| 0 <= t < |alive[..]| && alive[..][t];
      ghost var from := cursor % n;
      StepsWithin(from, t, n);
      StepsWithin(from, from, n);
      var k := 0;
      while k < n
        invariant k <= Steps(from, t, n) < n && cursor == old(cursor) + k
        invariant forall x :: 0 <= x < n && Steps(from, x, n) < k ==> !alive[x]
        invariant Steps(from, cursor % n, n) == k
      {
        var cand := cursor % n;
        StepOn(from, cursor, n);
        cursor := cursor + 1;
        if alive[cand] { return true, cand; }
        k := k + 1;
      }
    }
  }

  /** One link, as its threads change it under its lock. */
  class Worker {
    const max: nat
    var pend: seq<nat>
    var npend: nat
    var dead: bool
    ghost var reqs: seq<Req>

    ghost function View(): State
      reads this
    {
      State(reqs, pend, npend, max, dead)
    }

    ghost predicate Valid()
      reads this
    {
      Inv(View())
    }

    constructor (max: nat)
      ensures Valid() && View() == Open(max)
    {
      this.max, pend, npend, dead, reqs := max, [], 0, false, [];
    }

    /** send_request's registration: refused by a dead link or a full one. */
    method Enlist(id: nat) returns (ok: bool)
      requires Valid() && Enabled(View(), Register(id))
      modifies this
      ensures Valid() && View() == Do(old(View()), Register(id)) && (ok <==> !old(dead) && old(|pend|) < max)
    {
      hide Inv;
      StepInv(View(), Register(id));
      ListLength(View());
      ok := !dead && npend < max;
      if ok {
        pend, npend := [id] + pend, npend + 1;
        reqs := reqs[id := reqs[id].(phase := Writing, place := Listed)];
      } else {
        reqs := reqs[id := Refused(reqs[id])];
      }
    }

    /** send_request after a write that failed. The submit has failed if it gets its record back, or
        is a blocking one; else the reader has the record, and answers for it. */
    method Reclaim(id: nat, async: bool) returns (failed: bool)
      requires Valid() && Enabled(View(), TakeBack(id)) && async == reqs[id].async
      modifies this
      ensures Valid() && View() == Do(old(View()), TakeBack(id)) && (failed <==> reqs[id].answer == Failed)
    {
      hide Inv;
      StepInv(View(), TakeBack(id));
      ListLength(View());
      var mine, left := PendTake(pend, id);
      failed := mine || !async;
      if mine { pend, npend := left, npend - 1; }
      reqs := reqs[id := if failed then Refused(reqs[id]) else reqs[id].(phase := Returned, answer := Accepted)];
    }

    /** reader_main's completion step: the record the reply is for, if it is there still. */
    method Answered(id: nat) returns (found: bool)
      requires Valid()
      modifies this
      ensures Valid() && View() == Do(old(View()), Reply(id)) && (found <==> id in old(pend))
    {
      hide Inv;
      StepInv(View(), Reply(id));
      ListLength(View());
      var left;
      found, left := PendTake(pend, id);
      if found {
        pend, npend := left, npend - 1;
        reqs := reqs[id := Claimed(reqs[id])];
      }
    }

    /** fail_all under the lock: the list split into the blocking records, completed at once, and the
        asynchronous ones, which the reader keeps to complete with no lock held. */
    method Retire(async: nat -> bool) returns (kept: seq<nat>)
      requires Valid() && forall id :: id in pend && id < |reqs| ==> async(id) == reqs[id].async
      modifies this
      ensures Valid() && View() == Do(old(View()), FailAll) && dead && pend == [] && npend == 0
      ensures |reqs| == |old(reqs)| && forall id :: 0 <= id < |reqs| ==> reqs[id].place != Listed
      ensures forall id :: id in kept <==> id in old(pend) && async(id)
      ensures forall i, j :: 0 <= i < j < |kept| ==> kept[i] != kept[j]
      ensures forall id :: id in kept ==> Enabled(View(), Complete(id))
    {
      hide Inv, ListOk;
      ghost var s := View();
      StepInv(s, FailAll);
      ListLength(s);
      Waiting(s);
      NoneListed(s);
      kept := Split(pend, async);
      dead, pend, npend, reqs := true, [], 0, ClaimAll(reqs);
    }

    /** The walk down the list: the asynchronous records, last first. */
    static method Split(pend: seq<nat>, async: nat -> bool) returns (kept: seq<nat>)
      requires forall i, j :: 0 <= i < j < |pend| ==> pend[i] != pend[j]
      ensures forall id :: id in kept <==> id in pend && async(id)
      ensures forall i, j :: 0 <= i < j < |kept| ==> kept[i] != kept[j]
    {
      kept := [];
      for k := 0 to |pend|
        invariant forall id :: id in kept <==> id in pend[..k] && async(id)
        invariant forall i, j :: 0 <= i < j < |kept| ==> kept[i] != kept[j]
      {
        NotTwice(pend, k);
        assert pend[..k + 1] == pend[..k] + [pend[k]];
        if async(pend[k]) { kept := [pend[k]] + kept; }
      }
      assert pend[..|pend|] == pend;
    }

    /** The reader's callback for a record it has, which it then frees. */
    method Finish(id: nat)
      requires Valid() && Enabled(View(), Complete(id))
      modifies `reqs
      ensures Valid() && View() == Do(old(View()), Complete(id))
    {
      hide Inv;
      StepInv(View(), Complete(id));
      reqs := reqs[id := reqs[id].(place := Freed, callbacks := reqs[id].callbacks + 1, frees := reqs[id].frees + 1)];
    }

    /** fail_all with no lock held: every record it kept is completed, each once. */
    method FinishAll(kept: seq<nat>)
      requires Valid() && (forall id :: id in kept ==> Enabled(View(), Complete(id))) && forall i, j :: 0 <= i < j < |kept| ==> kept[i] != kept[j]
      modifies `reqs
      ensures Valid() && |reqs| == |old(reqs)|
      ensures forall id :: 0 <= id < |reqs| ==>
                if id in kept then reqs[id].place == Freed && reqs[id].callbacks == 1 && reqs[id].frees == 1 else reqs[id] == old(reqs[id])
    {
      for k := 0 to |kept|
        invariant Valid() && |reqs| == |old(reqs)| && pend == old(pend)
        invariant forall id :: 0 <= id < |reqs| ==>
                    if id in kept[..k] then reqs[id].place == Freed && reqs[id].callbacks == 1 && reqs[id].frees == 1 else reqs[id] == old(reqs[id])
      {
        assert kept[k] !in kept[..k] && kept[k] in kept;
        assert ReqOk(reqs[kept[k]]);
        Finish(kept[k]);
        assert ReqOk(reqs[kept[k]]);
        assert kept[..k + 1] == kept[..k] + [kept[k]];
      }
      assert kept[..|kept|] == kept;
    }
  }

  lemma ListLength(s: State)
    requires Inv(s)
    ensures s.npend == |s.pend| && (forall id :: id in s.pend ==> id < |s.reqs|) && (forall i, j :: 0 <= i < j < |s.pend| ==> s.pend[i] != s.pend[j])
    ensures |s.pend| <= s.max
  {
  }

  lemma NotTwice(pend: seq<nat>, k: nat)
    requires k < |pend| && forall i, j :: 0 <= i < j < |pend| ==> pend[i] != pend[j]
    ensures pend[k] !in pend[..k]
  {
  }

  lemma Waiting(s: State)
    requires Inv(s)
    ensures forall id :: id in s.pend && s.reqs[id].async ==> Enabled(Do(s, FailAll), Complete(id))
  {
  }

  lemma NoneListed(s: State)
    ensures forall id :: 0 <= id < |s.reqs| ==> Do(s, FailAll).reqs[id].place != Listed
  {
  }

  lemma StepsWithin(c: nat, t: nat, n: nat)
    requires c < n && t < n
    ensures Steps(c, t, n) < n && Steps(c, c, n) == 0
  {
  }

  /** One step further round, and no other place is as far. */
  lemma StepOn(from: nat, c: nat, n: nat)
    requires from < n
    ensures var k := Steps(from, c % n, n); Steps(from, (c + 1) % n, n) == if k + 1 == n then 0 else k + 1
    ensures forall x :: 0 <= x < n && Steps(from, x, n) == Steps(from, c % n, n) ==> x == c % n
  {
    ModStep(c, n);
  }

  /** How many steps round the table from `c` to `t`. */
  function Steps(c: nat, t: nat, n: nat): nat
    requires c < n && t < n
  {
    if c <= t then t - c else n - c + t
  }
}
