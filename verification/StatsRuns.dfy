/** The statistics over whole runs: any number of handles, their events interleaved in any
    order the engine's threads can deliver. */
module StatsRuns {
  import opened Sequences
  import opened Stats

  // ---- one handle's samples, step by step ----

  lemma StepSamples(v: Env, o: Option<Slot>, ev: Event)
    requires HandleOk(v, o) && Legal(v, ev)
    ensures var e := StepSlot(SlotFor(o, ev), ev).1; var v' := After(v, ev);
            && Waits(v', v'.k) == AddIf(Waits(v, v.k), e.wait) && Runs(v', v'.k) == AddIf(Runs(v, v.k), e.run)
            && StartCount(v', v'.k) == StartCount(v, v.k) + if ev.kind == Started then 1 else 0
  {
    hide SlotOk, StepSlot, After, Legal, SourcesOk, StartsOk, EndsOk, WaitTerm, RunTerm, EndsAttempt, About, AddIf;
    var v', a := After(v, ev), About(v, ev);
    WaitTaken(v, o, ev);
    RunTaken(v, o, ev);
    EnvKeeps(v, ev);
    Beyond(v);
    Beyond(v');
    TermsElsewhere(v, ev);
    KNext(v, ev);
    WaitsGainOr(v, v', v'.k, a);
    RunsGainOr(v, v', ev, v'.k, a);
    StartsGain(v, v', v'.k, if ev.kind == Started then a else 0);
    AddNone(Waits(v, v.k));
    AddNone(Runs(v, v.k));
    AddNone(Waits(v, v'.k));
    AddNone(Runs(v, v'.k));
  }

  lemma AddNone(t: Tally)
    ensures AddIf(t, None) == t
  {
  }

  lemma Beyond(v: Env)
    requires EnvOk(v)
    ensures WaitTerm(v, v.k + 1) == None && RunTerm(v, v.k + 1) == None && v.k + 1 !in v.starts && WaitTerm(v, 0) == None
  {
  }

  lemma KNext(v: Env, ev: Event)
    requires EnvOk(v) && Legal(v, ev)
    ensures After(v, ev).k == v.k || After(v, ev).k == v.k + 1
    ensures 0 <= About(v, ev) <= After(v, ev).k
  {
    hide SourcesOk, StartsOk, EndsOk;
    match ev.kind
    case Queued =>
    case Started =>
    case Finished =>
    case Failed =>
    case Retried =>
    case DeadLettered =>
    case Dropped =>
  }

  /** What an event writes down. */
  lemma MapsAfter(v: Env, ev: Event)
    requires EnvOk(v) && Legal(v, ev)
    ensures var v', a := After(v, ev), About(v, ev);
            && v'.starts == (if ev.kind == Started then v.starts[a := ev.ts] else v.starts)
            && v'.sources == (if ev.kind == Queued || ev.kind == Retried then v.sources[a := ev.ts] else v.sources)
            && v'.ends == (if EndsAttempt(v, ev) then v.ends[a := ev.ts] else v.ends)
            && (ev.kind == Started ==> a >= 1 && a !in v.starts)
            && (EndsAttempt(v, ev) ==> a >= 1 && a !in v.ends)
  {
    match ev.kind
    case Queued =>
    case Started =>
    case Finished =>
    case Failed =>
    case Retried =>
    case DeadLettered =>
    case Dropped =>
  }

  /** Only the attempt the event is about changes. */
  lemma TermsElsewhere(v: Env, ev: Event)
    requires EnvOk(v) && Legal(v, ev)
    ensures var v', a := After(v, ev), About(v, ev);
            && (forall b :: b != a && b > 0 ==> WaitTerm(v', b) == WaitTerm(v, b) && RunTerm(v', b) == RunTerm(v, b))
            && (forall b :: b != a ==> (b in v'.starts <==> b in v.starts))
            && (ev.kind == Started ==> a >= 1 && a !in v.starts && a in v'.starts)
            && (ev.kind != Started ==> (a in v'.starts <==> a in v.starts))
            && (EndsAttempt(v, ev) ==> a >= 1)
            && (if EndsAttempt(v, ev) then RunTerm(v, a) == None else RunTerm(v', a) == RunTerm(v, a))
  {
    MapsAfter(v, ev);
    hide After, Legal, About, EndsAttempt, SourcesOk;
  }

  lemma WaitsGainOr(v: Env, v': Env, n: nat, a: nat)
    requires forall b :: b != a && b > 0 ==> WaitTerm(v', b) == WaitTerm(v, b)
    requires a <= n
    ensures WaitTerm(v, a) == None && a > 0 ==> Waits(v', n) == AddIf(Waits(v, n), WaitTerm(v', a))
    ensures WaitTerm(v', a) == WaitTerm(v, a) || a == 0 ==> Waits(v', n) == Waits(v, n)
  {
    if a > 0 && WaitTerm(v, a) == None { WaitsGain(v, v', n, a); }
    if WaitTerm(v', a) == WaitTerm(v, a) || a == 0 { WaitsGain(v, v', n, n + 1); }
  }

  lemma RunsGainOr(v: Env, v': Env, ev: Event, n: nat, a: nat)
    requires forall b :: b != a && b > 0 ==> RunTerm(v', b) == RunTerm(v, b)
    requires a <= n && if EndsAttempt(v, ev) then RunTerm(v, a) == None && a > 0 else RunTerm(v', a) == RunTerm(v, a)
    ensures Runs(v', n) == AddIf(Runs(v, n), if EndsAttempt(v, ev) then RunTerm(v', a) else None)
  {
    if EndsAttempt(v, ev) { RunsGain(v, v', n, a); } else { RunsGain(v, v', n, n + 1); }
  }

  // ---- runs ----

  /** The table and the counter rows: row 0 the engine's, row 1 + t task type t's. */
  datatype Board = Board(slots: map<nat, Slot>, rows: seq<Row>)

  const ZERO: Row := Row(0, 0, 0, 0, 0, 0, 0, 0, 0, 0, 0, NONE, NONE)

  predicate Counts(r: nat, task: nat) {
    r == 0 || r == task + 1
  }

  function Lookup(slots: map<nat, Slot>, h: nat): Option<Slot> {
    if h in slots then Some(slots[h]) else None
  }

  function Store(slots: map<nat, Slot>, h: nat, o: Option<Slot>): map<nat, Slot> {
    if o.Some? then slots[h := o.value] else slots - {h}
  }

  function ApplyRows(rows: seq<Row>, task: nat, ev: Event, e: Effect): (rs: seq<Row>)
    ensures |rs| == |rows|
    ensures forall r :: 0 <= r < |rows| ==> rs[r] == if Counts(r, task) then Apply(rows[r], ev, e) else rows[r]
  {
    seq(|rows|, r requires 0 <= r < |rows| => if Counts(r, task) then Apply(rows[r], ev, e) else rows[r])
  }

  /** stats_observe. */
  function Observe(b: Board, ev: Event): Board {
    var s := SlotFor(Lookup(b.slots, ev.handle), ev);
    var (o, e) := StepSlot(s, ev);
    Board(Store(b.slots, ev.handle, o), ApplyRows(b.rows, s.task, ev, e))
  }

  function Start(n: nat): Board {
    Board(map[], seq(n, _ => ZERO))
  }

  function Run(evs: seq<Event>, n: nat): Board {
    if |evs| == 0 then Start(n) else Observe(Run(evs[..|evs| - 1], n), evs[|evs| - 1])
  }

  /** What has been seen of handle `h`. */
  function EnvOf(evs: seq<Event>, h: nat): Env {
    if |evs| == 0 then UNSEEN
    else
      var before := EnvOf(evs[..|evs| - 1], h);
      if evs[|evs| - 1].handle == h then After(before, evs[|evs| - 1]) else before
  }

  /** Every event arrives in an order its handle allows, and names the handle's own task. */
  ghost predicate LegalRun(evs: seq<Event>, taskOf: nat -> nat) {
    |evs| > 0 ==>
      var n := |evs| - 1;
      && LegalRun(evs[..n], taskOf) && Legal(EnvOf(evs[..n], evs[n].handle), evs[n]) && evs[n].task == taskOf(evs[n].handle)
  }

  ghost function InState(slots: map<nat, Slot>, state: SlotState, r: nat): set<nat> {
    set h | h in slots && slots[h].state == state && Counts(r, slots[h].task)
  }

  /** The samples of the handles of a row, handle by handle. */
  function AllWaits(evs: seq<Event>, hs: seq<nat>, taskOf: nat -> nat, r: nat): Tally {
    if |hs| == 0 then NONE
    else
      var h, rest := hs[|hs| - 1], AllWaits(evs, hs[..|hs| - 1], taskOf, r);
      if Counts(r, taskOf(h)) then var v := EnvOf(evs, h); Merge(rest, Waits(v, v.k)) else rest
  }

  function AllRuns(evs: seq<Event>, hs: seq<nat>, taskOf: nat -> nat, r: nat): Tally {
    if |hs| == 0 then NONE
    else
      var h, rest := hs[|hs| - 1], AllRuns(evs, hs[..|hs| - 1], taskOf, r);
      if Counts(r, taskOf(h)) then var v := EnvOf(evs, h); Merge(rest, Runs(v, v.k)) else rest
  }

  function AllStarts(evs: seq<Event>, hs: seq<nat>, taskOf: nat -> nat, r: nat): nat {
    if |hs| == 0 then 0
    else
      var h, rest := hs[|hs| - 1], AllStarts(evs, hs[..|hs| - 1], taskOf, r);
      if Counts(r, taskOf(h)) then var v := EnvOf(evs, h); rest + StartCount(v, v.k) else rest
  }

  // ---- what every run keeps ----

  ghost predicate Handled(evs: seq<Event>, slots: map<nat, Slot>, taskOf: nat -> nat) {
    && (forall h :: HandleOk(EnvOf(evs, h), Lookup(slots, h)))
    && (forall h :: h in slots ==> slots[h].task == taskOf(h))
  }

  ghost predicate Gauged(slots: map<nat, Slot>, rows: seq<Row>) {
    forall r :: 0 <= r < |rows| ==> rows[r].pending == |InState(slots, Pending, r)| && rows[r].inFlight == |InState(slots, Running, r)|
  }

  ghost predicate Sampled(evs: seq<Event>, rows: seq<Row>, hs: seq<nat>, taskOf: nat -> nat) {
    forall r :: 0 <= r < |rows| ==>
      && rows[r].wait == AllWaits(evs, hs, taskOf, r) && rows[r].run == AllRuns(evs, hs, taskOf, r)
      && rows[r].started == AllStarts(evs, hs, taskOf, r)
  }

  ghost predicate Lists(hs: seq<nat>, evs: seq<Event>) {
    && (forall i, j :: 0 <= i < j < |hs| ==> hs[i] != hs[j])
    && (forall i :: 0 <= i < |evs| ==> evs[i].handle in hs)
  }

  lemma SetStep(slots: map<nat, Slot>, h: nat, o: Option<Slot>, state: SlotState, r: nat, task: nat)
    requires h in slots ==> slots[h].task == task
    requires o.Some? ==> o.value.task == task
    ensures var was := h in slots && slots[h].state == state; var now := o.Some? && o.value.state == state;
            |InState(Store(slots, h, o), state, r)| ==
            |InState(slots, state, r)| + (if Counts(r, task) then (if now then 1 else 0) - (if was then 1 else 0) else 0)
  {
    hide Counts;
    var a, b := InState(slots, state, r), InState(Store(slots, h, o), state, r);
    assert a - {h} == b - {h};
    OneMore(a, b, h);
  }

  lemma OneMore(a: set<nat>, b: set<nat>, h: nat)
    requires a - {h} == b - {h}
    ensures |b| == |a| + (if h in b then 1 else 0) - (if h in a then 1 else 0)
  {
    var others := a - {h};
    assert a == others + (if h in a then {h} else {});
    assert b == others + (if h in b then {h} else {});
  }

  lemma StepTask(s: Slot, ev: Event)
    ensures var o := StepSlot(s, ev).0; o.Some? ==> o.value.task == s.task
  {
    match ev.kind
    case Queued =>
    case Started =>
    case Finished =>
    case Failed =>
    case Retried =>
    case DeadLettered =>
    case Dropped =>
  }

  /** One event, over the whole board. */
  lemma ObserveGauged(b: Board, ev: Event, v: Env, taskOf: nat -> nat)
    requires Gauged(b.slots, b.rows) && HandleOk(v, Lookup(b.slots, ev.handle)) && Legal(v, ev)
    requires ev.task == taskOf(ev.handle) && forall h :: h in b.slots ==> b.slots[h].task == taskOf(h)
    ensures var b' := Observe(b, ev); Gauged(b'.slots, b'.rows)
  {
    hide HandleOk, Legal, StepSlot, After, Bump, InState;
    var o := Lookup(b.slots, ev.handle);
    var s := SlotFor(o, ev);
    var (o', e) := StepSlot(s, ev);
    StepKeeps(v, o, ev);
    StepTask(s, ev);
    var b' := Observe(b, ev);
    forall r | 0 <= r < |b'.rows|
      ensures b'.rows[r].pending == |InState(b'.slots, Pending, r)| && b'.rows[r].inFlight == |InState(b'.slots, Running, r)|
    {
      SetStep(b.slots, ev.handle, o', Pending, r, s.task);
      SetStep(b.slots, ev.handle, o', Running, r, s.task);
    }
  }

  lemma EnvSnoc(evs: seq<Event>, ev: Event, h: nat)
    ensures EnvOf(evs + [ev], h) == if ev.handle == h then After(EnvOf(evs, h), ev) else EnvOf(evs, h)
  {
    assert (evs + [ev])[..|evs + [ev]| - 1] == evs;
  }

  lemma MergeAdd(a: Tally, b: Tally, x: Option<nat>)
    ensures Merge(AddIf(a, x), b) == AddIf(Merge(a, b), x) == Merge(a, AddIf(b, x))
  {
  }

  /** Only the event's own handle gains samples. */
  lemma {:induction false} AllGain(evs: seq<Event>, ev: Event, o: Option<Slot>, hs: seq<nat>, taskOf: nat -> nat, r: nat)
    requires forall i, j :: 0 <= i < j < |hs| ==> hs[i] != hs[j]
    requires HandleOk(EnvOf(evs, ev.handle), o) && Legal(EnvOf(evs, ev.handle), ev)
    ensures var e := StepSlot(SlotFor(o, ev), ev).1; var evs' := evs + [ev];
            var mine := ev.handle in hs && Counts(r, taskOf(ev.handle));
            && AllWaits(evs', hs, taskOf, r) == (if mine then AddIf(AllWaits(evs, hs, taskOf, r), e.wait) else AllWaits(evs, hs, taskOf, r))
            && AllRuns(evs', hs, taskOf, r) == (if mine then AddIf(AllRuns(evs, hs, taskOf, r), e.run) else AllRuns(evs, hs, taskOf, r))
            && AllStarts(evs', hs, taskOf, r) == AllStarts(evs, hs, taskOf, r) + if mine && ev.kind == Started then 1 else 0
    decreases |hs|
  {
    hide HandleOk, Legal, StepSlot, After, Waits, Runs, StartCount, EnvOf, Merge, AddIf, Counts;
    if |hs| > 0 {
      var n, e := |hs| - 1, StepSlot(SlotFor(o, ev), ev).1;
      var h, v := hs[n], EnvOf(evs, hs[n]);
      AllGain(evs, ev, o, hs[..n], taskOf, r);
      EnvSnoc(evs, ev, h);
      LastIs(hs, ev.handle);
      if h == ev.handle { StepSamples(v, o, ev); }
      MergeAdd(AllWaits(evs, hs[..n], taskOf, r), Waits(v, v.k), e.wait);
      MergeAdd(AllRuns(evs, hs[..n], taskOf, r), Runs(v, v.k), e.run);
    }
  }

  lemma LastIs(hs: seq<nat>, h: nat)
    requires |hs| > 0 && forall i, j :: 0 <= i < j < |hs| ==> hs[i] != hs[j]
    ensures h in hs <==> h == hs[|hs| - 1] || h in hs[..|hs| - 1]
    ensures h == hs[|hs| - 1] ==> h !in hs[..|hs| - 1]
  {
    Snoc(hs);
  }

  lemma ObserveSampled(evs: seq<Event>, b: Board, ev: Event, hs: seq<nat>, taskOf: nat -> nat)
    requires Sampled(evs, b.rows, hs, taskOf) && Lists(hs, evs + [ev]) && ev.task == taskOf(ev.handle)
    requires HandleOk(EnvOf(evs, ev.handle), Lookup(b.slots, ev.handle)) && Legal(EnvOf(evs, ev.handle), ev)
    requires forall h :: h in b.slots ==> b.slots[h].task == taskOf(h)
    ensures Sampled(evs + [ev], Observe(b, ev).rows, hs, taskOf)
  {
    hide HandleOk, Legal, StepSlot, After;
    assert (evs + [ev])[|evs|] == ev;
    var o := Lookup(b.slots, ev.handle);
    var b' := Observe(b, ev);
    forall r | 0 <= r < |b'.rows|
      ensures b'.rows[r].wait == AllWaits(evs + [ev], hs, taskOf, r) && b'.rows[r].run == AllRuns(evs + [ev], hs, taskOf, r)
      ensures b'.rows[r].started == AllStarts(evs + [ev], hs, taskOf, r)
    {
      AllGain(evs, ev, o, hs, taskOf, r);
    }
  }

  lemma ObserveHandled(evs: seq<Event>, b: Board, ev: Event, taskOf: nat -> nat)
    requires Handled(evs, b.slots, taskOf) && Legal(EnvOf(evs, ev.handle), ev) && ev.task == taskOf(ev.handle)
    ensures Handled(evs + [ev], Observe(b, ev).slots, taskOf)
  {
    hide HandleOk, Legal, StepSlot, After;
    var o := Lookup(b.slots, ev.handle);
    var s := SlotFor(o, ev);
    StepKeeps(EnvOf(evs, ev.handle), o, ev);
    StepTask(s, ev);
    forall h ensures HandleOk(EnvOf(evs + [ev], h), Lookup(Observe(b, ev).slots, h)) {
      EnvSnoc(evs, ev, h);
    }
  }

  lemma {:induction false} StartEmpty(hs: seq<nat>, taskOf: nat -> nat, r: nat)
    ensures AllWaits([], hs, taskOf, r) == NONE && AllRuns([], hs, taskOf, r) == NONE && AllStarts([], hs, taskOf, r) == 0
    decreases |hs|
  {
    hide EnvOf, Waits, Runs, StartCount, Counts;
    if |hs| > 0 {
      StartEmpty(hs[..|hs| - 1], taskOf, r);
      UnseenEmpty(hs[|hs| - 1]);
    }
  }

  lemma UnseenEmpty(h: nat)
    ensures var v := EnvOf([], h); Waits(v, v.k) == NONE && Runs(v, v.k) == NONE && StartCount(v, v.k) == 0
  {
    assert EnvOf([], h) == UNSEEN;
  }

  /** In every run the gauges of every row are the numbers of its slots that are pending and
      running, its samples are exactly those whose two ends have been seen, and each handle's
      slot says what has been seen of it. */
  lemma {:induction false} RunKeeps(evs: seq<Event>, n: nat, hs: seq<nat>, taskOf: nat -> nat)
    requires LegalRun(evs, taskOf) && Lists(hs, evs)
    ensures var b := Run(evs, n); |b.rows| == n && Handled(evs, b.slots, taskOf) && Gauged(b.slots, b.rows) && Sampled(evs, b.rows, hs, taskOf)
    decreases |evs|
  {
    hide HandleOk, Legal, After, Observe, Sampled, Gauged, Handled;
    if |evs| == 0 {
      StartKeeps(n, hs, taskOf);
    } else {
      var m, ev := evs[..|evs| - 1], evs[|evs| - 1];
      Snoc(evs);
      var b := Run(m, n);
      RunKeeps(m, n, hs, taskOf);
      HandledAt(m, b.slots, taskOf, ev.handle);
      ObserveHandled(m, b, ev, taskOf);
      ObserveGauged(b, ev, EnvOf(m, ev.handle), taskOf);
      ObserveSampled(m, b, ev, hs, taskOf);
      ObserveRows(b, ev);
    }
  }

  lemma ObserveRows(b: Board, ev: Event)
    ensures |Observe(b, ev).rows| == |b.rows|
  {
  }

  lemma HandledAt(evs: seq<Event>, slots: map<nat, Slot>, taskOf: nat -> nat, h: nat)
    requires Handled(evs, slots, taskOf)
    ensures HandleOk(EnvOf(evs, h), Lookup(slots, h)) && forall x :: x in slots ==> slots[x].task == taskOf(x)
  {
  }

  lemma StartKeeps(n: nat, hs: seq<nat>, taskOf: nat -> nat)
    ensures var b := Start(n); Handled([], b.slots, taskOf) && Gauged(b.slots, b.rows) && Sampled([], b.rows, hs, taskOf)
  {
    var b := Start(n);
    forall r | 0 <= r < n ensures |InState(b.slots, Pending, r)| == 0 && |InState(b.slots, Running, r)| == 0 {
      assert InState(b.slots, Pending, r) == {} && InState(b.slots, Running, r) == {};
    }
    forall r | 0 <= r < n ensures AllWaits([], hs, taskOf, r) == NONE && AllRuns([], hs, taskOf, r) == NONE && AllStarts([], hs, taskOf, r) == 0 {
      StartEmpty(hs, taskOf, r);
    }
  }
}
