/** The statistics observer: what one event does to its handle's slot and to the counters. */
module Stats {
  import opened Sequences

  datatype Kind = Queued | Started | Finished | Failed | Retried | DeadLettered | Dropped

  /** `cancelled`: the status is GPTPS_E_CANCELLED. `task`: the row of its type's name. */
  datatype Event = Event(kind: Kind, handle: nat, task: nat, ts: nat, cancelled: bool, attempt: nat)

  datatype SlotState = New | Pending | Running | Limbo | Done

  datatype Slot = Slot(task: nat, state: SlotState, seenQueued: bool, haveQueued: bool, haveStarted: bool,
                       queuedMs: nat, startedMs: nat, att: nat, ann: nat, oweR: nat, oweQ: bool, qStartedMs: nat)

  /** Samples of one kind: how many, their sum, the largest. */
  datatype Tally = Tally(n: nat, sum: nat, max: nat)

  const NONE: Tally := Tally(0, 0, 0)

  function Add(t: Tally, ms: nat): Tally {
    Tally(t.n + 1, t.sum + ms, if ms > t.max then ms else t.max)
  }

  function AddIf(t: Tally, ms: Option<nat>): Tally {
    if ms.Some? then Add(t, ms.value) else t
  }

  function Merge(a: Tally, b: Tally): Tally {
    Tally(a.n + b.n, a.sum + b.sum, if a.max > b.max then a.max else b.max)
  }

  /** One row of counters: the engine's, or a task type's. */
  datatype Row = Row(queued: nat, started: nat, finished: nat, failed: nat, cancelled: nat, retried: nat, dead: nat,
                     dropped: nat, terminal: nat, pending: int, inFlight: int, wait: Tally, run: Tally)

  /** What an event adds to the gauges and samples of its row. */
  datatype Effect = Effect(pending: int, inFlight: int, wait: Option<nat>, run: Option<nat>)

  const NOTHING: Effect := Effect(0, 0, None, None)

  function Minus(a: nat, b: nat): nat {
    if a > b then a - b else 0
  }

  /** A retry is known only by what came of it: its own announcement is outstanding. */
  predicate OwesRetried(s: Slot) {
    s.att > 1 && s.ann < s.att
  }

  /** finish_slot. */
  function Finish(s: Slot): Option<Slot> {
    if s.seenQueued && !OwesRetried(s) then None else Some(s.(state := Done))
  }

  function NoteAttempt(s: Slot, attempt: nat): Slot {
    if attempt > s.att then s.(att := attempt) else s
  }

  function EmptySlot(task: nat): Slot {
    Slot(task, New, false, false, false, 0, 0, 0, 0, 0, false, 0)
  }

  // ---- the arms of stats_observe ----

  function OnQueued(s0: Slot, ev: Event): (Option<Slot>, Effect) {
    var s := s0.(seenQueued := true, oweQ := false);
    var wait := if s0.oweQ then Some(Minus(s0.qStartedMs, ev.ts)) else None;
    if s.state == Done then (if OwesRetried(s) then Some(s) else None, NOTHING.(wait := wait))
    else
      var s1 := s.(state := if s.state == New then Pending else s.state);
      (Some(if s1.haveQueued then s1 else s1.(queuedMs := ev.ts, haveQueued := true)),
       Effect(if s.state == New then 1 else 0, 0, wait, None))
  }

  function OnStarted(s0: Slot, ev: Event): (Option<Slot>, Effect) {
    var s1 := if ev.attempt <= 1 then s0.(ann := 0, oweR := 0) else s0;
    var s := s1.(att := ev.attempt, state := Running, startedMs := ev.ts, haveStarted := true);
    var e := Effect(if s0.state == Pending then -1 else 0, 1, None, None);
    if ev.attempt > 1 && s.ann < ev.attempt then (Some(s.(oweR := ev.attempt)), e)
    else if !s.haveQueued then (Some(s.(oweQ := true, qStartedMs := ev.ts)), e)
    else (Some(s), e.(wait := Some(Minus(ev.ts, s.queuedMs))))
  }

  function RunSample(s: Slot, ev: Event): Option<nat> {
    if s.haveStarted && ev.ts >= s.startedMs then Some(ev.ts - s.startedMs) else None
  }

  function OnFinished(s0: Slot, ev: Event): (Option<Slot>, Effect) {
    var s := NoteAttempt(s0, ev.attempt);
    (Finish(s), if s.state == Running then Effect(0, -1, None, RunSample(s, ev)) else NOTHING)
  }

  function OnFailed(s0: Slot, ev: Event): (Option<Slot>, Effect) {
    var s := NoteAttempt(s0, ev.attempt);
    var e := if s.state == Running then Effect(0, -1, None, RunSample(s, ev))
             else if s.state == Pending then Effect(-1, 0, None, None) else NOTHING;
    var s1 := s.(state := Limbo);
    (if ev.cancelled then Finish(s1) else Some(s1), e)
  }

  function OnRetried(s0: Slot, ev: Event): (Option<Slot>, Effect) {
    var s1 := if ev.attempt > s0.ann then s0.(ann := ev.attempt) else s0;
    var owed := s1.oweR != 0 && s1.oweR == ev.attempt;
    var wait := if owed then Some(Minus(s1.startedMs, ev.ts)) else None;
    var s := if owed then s1.(oweR := 0) else s1;
    if s.att >= ev.attempt || s.state == Done then
      (if s.state == Done && s.seenQueued then None else Some(s), NOTHING.(wait := wait))
    else
      (Some(s.(state := Pending, queuedMs := ev.ts, haveQueued := true)),
       Effect(if s.state != Pending then 1 else 0, 0, wait, None))
  }

  function OnDisposed(s0: Slot, ev: Event): (Option<Slot>, Effect) {
    var s := NoteAttempt(s0, ev.attempt);
    (Finish(s), if s.state == Pending then Effect(-1, 0, None, None)
                else if s.state == Running then Effect(0, -1, None, None) else NOTHING)
  }

  function StepSlot(s: Slot, ev: Event): (Option<Slot>, Effect) {
    match ev.kind
    case Queued => OnQueued(s, ev)
    case Started => OnStarted(s, ev)
    case Finished => OnFinished(s, ev)
    case Failed => OnFailed(s, ev)
    case Retried => OnRetried(s, ev)
    case DeadLettered => OnDisposed(s, ev)
    case Dropped => OnDisposed(s, ev)
  }

  function One(b: bool): nat { if b then 1 else 0 }

  predicate Terminal(ev: Event) {
    ev.kind == Finished || ev.kind == DeadLettered || ev.kind == Dropped || (ev.kind == Failed && ev.cancelled)
  }

  /** The totals an event bumps. */
  function Bump(r: Row, ev: Event): Row {
    r.(queued := r.queued + One(ev.kind == Queued), started := r.started + One(ev.kind == Started),
       finished := r.finished + One(ev.kind == Finished), failed := r.failed + One(ev.kind == Failed),
       cancelled := r.cancelled + One(ev.kind == Failed && ev.cancelled), retried := r.retried + One(ev.kind == Retried),
       dead := r.dead + One(ev.kind == DeadLettered), dropped := r.dropped + One(ev.kind == Dropped),
       terminal := r.terminal + One(Terminal(ev)))
  }

  function Apply(r: Row, ev: Event, e: Effect): Row {
    var b := Bump(r, ev);
    b.(pending := r.pending + e.pending, inFlight := r.inFlight + e.inFlight, wait := AddIf(r.wait, e.wait), run := AddIf(r.run, e.run))
  }

  // ---- the order the events of one handle may arrive in ----

  datatype Phase = Waiting | Going | Fell | Over

  /** What has been seen of a one-shot handle. `k`: the attempt it is at; `begun`: that attempt
      has started; `announced`: its RETRIED has arrived (attempt 1 has none). `starts`: when
      each attempt started; `sources`: when the event that queued it was stamped, QUEUED for
      attempt 1 and RETRIED for a later one; `ends`: when each attempt ended. */
  datatype Env = Env(queued: bool, k: nat, phase: Phase, begun: bool, announced: bool,
                     starts: map<nat, nat>, sources: map<nat, nat>, ends: map<nat, nat>)

  const UNSEEN: Env := Env(false, 1, Waiting, false, true, map[], map[], map[])

  predicate Touched(v: Env) {
    v.queued || v.k > 1 || v.phase != Waiting
  }

  /** Every event of the handle has arrived. */
  predicate Complete(v: Env) {
    v.queued && v.phase == Over && v.announced
  }

  /** The engine may turn to the next attempt. */
  predicate MayRetry(v: Env) {
    v.phase == Fell && v.announced
  }

  /** An attempt's STARTED and its end are stamped by one thread, in order. */
  predicate EndsNow(v: Env, ev: Event) {
    v.phase == Going && ev.attempt == v.k && v.k in v.starts && ev.ts >= v.starts[v.k]
  }

  /** The orders the engine's threads can deliver: QUEUED at any time; within an attempt STARTED
      before its end; an attempt's events after the failure before it; and a RETRIED late, but
      before anything of the attempt after the one it announces. A cancel ends the handle with a FAILED
      of its own: of the attempt that waits, of the next one, or, if it lands when an attempt has reported
      its own failure and is not yet accounted for, of that same attempt a second time. */
  predicate Legal(v: Env, ev: Event) {
    match ev.kind
    case Queued => !v.queued
    case Started => (v.phase == Waiting && ev.attempt == v.k) || (MayRetry(v) && ev.attempt == v.k + 1)
    case Finished => EndsNow(v, ev)
    case Failed =>
      || EndsNow(v, ev)
      || (ev.cancelled && v.phase == Fell && ev.attempt == v.k)
      || (ev.cancelled && v.phase == Waiting && (ev.attempt == v.k || ev.attempt == 0 == v.k - 1))
      || (ev.cancelled && MayRetry(v) && ev.attempt == v.k + 1)
    case Retried => (!v.announced && ev.attempt == v.k) || (MayRetry(v) && ev.attempt == v.k + 1)
    case DeadLettered => (MayRetry(v) || v.phase == Waiting) && ev.attempt <= v.k
    case Dropped => (MayRetry(v) || v.phase == Waiting) && ev.attempt <= v.k
  }

  function After(v: Env, ev: Event): Env {
    match ev.kind
    case Queued => v.(queued := true, sources := v.sources[1 := ev.ts])
    case Started =>
      if v.phase == Waiting then v.(phase := Going, begun := true, starts := v.starts[v.k := ev.ts])
      else v.(k := v.k + 1, phase := Going, begun := true, announced := false, starts := v.starts[v.k + 1 := ev.ts])
    case Finished => v.(phase := Over, ends := v.ends[v.k := ev.ts])
    case Failed =>
      if v.phase == Going then v.(phase := if ev.cancelled then Over else Fell, ends := v.ends[v.k := ev.ts])
      else if v.phase == Waiting || ev.attempt == v.k then v.(phase := Over)
      else v.(k := v.k + 1, phase := Over, begun := false, announced := false)
    case Retried =>
      if !v.announced then v.(announced := true, sources := v.sources[v.k := ev.ts])
      else v.(k := v.k + 1, phase := Waiting, begun := false, sources := v.sources[v.k + 1 := ev.ts])
    case DeadLettered => v.(phase := Over)
    case Dropped => v.(phase := Over)
  }

  // ---- what the slot of a handle always says ----

  ghost predicate SlotOk(v: Env, s: Slot) {
    && s.seenQueued == v.queued
    && s.state == (match v.phase case Waiting => Pending case Going => Running case Fell => Limbo case Over => Done)
    && (v.phase == Waiting ==> s.att == v.k - 1 && s.haveQueued && v.k in v.sources && s.queuedMs == v.sources[v.k])
    && (v.phase == Going || v.phase == Fell ==> s.att == v.k)
    && (v.phase == Over ==> s.att <= v.k && (!v.announced ==> s.att == v.k))
    && (if v.announced then s.ann == (if v.k == 1 then 0 else v.k) else s.ann < v.k)
    && (s.oweR == if !v.announced && v.begun then v.k else 0)
    && (s.oweQ <==> !v.queued && 1 in v.starts)
    && (s.oweQ ==> s.qStartedMs == v.starts[1])
    && (v.begun ==> v.k in v.starts && s.haveStarted && s.startedMs == v.starts[v.k])
  }

  predicate Shape(v: Env) {
    && v.k >= 1 && (v.k == 1 ==> v.announced)
    && (v.phase == Waiting ==> v.announced && !v.begun) && (v.phase == Going || v.phase == Fell ==> v.begun)
  }

  ghost predicate SourcesOk(v: Env) {
    && (v.queued <==> 1 in v.sources)
    && (forall a :: a in v.sources ==> 1 <= a <= v.k) && (forall a :: 2 <= a < v.k ==> a in v.sources)
    && (v.k > 1 ==> (v.announced <==> v.k in v.sources))
  }

  ghost predicate StartsOk(v: Env) {
    && (forall a :: a in v.starts ==> 1 <= a <= v.k) && (forall a :: 1 <= a < v.k ==> a in v.starts)
    && (v.k in v.starts <==> v.begun)
  }

  ghost predicate EndsOk(v: Env) {
    && (forall a :: a in v.ends <==> a in v.starts && !(a == v.k && v.phase == Going))
    && (forall a :: a in v.ends ==> v.ends[a] >= v.starts[a])
  }

  ghost predicate EnvOk(v: Env) {
    Shape(v) && SourcesOk(v) && StartsOk(v) && EndsOk(v)
  }

  ghost predicate HandleOk(v: Env, o: Option<Slot>) {
    EnvOk(v) && if !Touched(v) || Complete(v) then o == None else o.Some? && SlotOk(v, o.value)
  }

  function IsPending(o: Option<Slot>): int { if o.Some? && o.value.state == Pending then 1 else 0 }
  function IsRunning(o: Option<Slot>): int { if o.Some? && o.value.state == Running then 1 else 0 }

  /** The slot found, or the one tab_insert makes. */
  function SlotFor(o: Option<Slot>, ev: Event): Slot {
    if o.Some? then o.value else EmptySlot(ev.task)
  }

  /** Whatever legal order the events arrive in, each leaves the slot saying what has been seen,
      and moves the gauges exactly as the slot's own state moves. */
  ghost predicate Tracks(v: Env, o: Option<Slot>, ev: Event) {
    var (o', e) := StepSlot(SlotFor(o, ev), ev);
    && HandleOk(After(v, ev), o')
    && e.pending == IsPending(o') - IsPending(o) && e.inFlight == IsRunning(o') - IsRunning(o)
  }

  lemma StepKeeps(v: Env, o: Option<Slot>, ev: Event)
    requires HandleOk(v, o) && Legal(v, ev)
    ensures Tracks(v, o, ev)
  {
    hide HandleOk, Legal, Tracks;
    match ev.kind
    case Queued => QueuedKeeps(v, o, ev);
    case Started => StartedKeeps(v, o, ev);
    case Finished => FinishedKeeps(v, o, ev);
    case Failed => FailedKeeps(v, o, ev);
    case Retried => RetriedKeeps(v, o, ev);
    case DeadLettered => DisposedKeeps(v, o, ev);
    case Dropped => DisposedKeeps(v, o, ev);
  }

  lemma EnvKeeps(v: Env, ev: Event)
    requires EnvOk(v) && Legal(v, ev)
    ensures EnvOk(After(v, ev)) && Touched(After(v, ev))
  {
    hide Shape, SourcesOk, StartsOk, EndsOk, Legal, After, Touched;
    ShapeKeeps(v, ev);
    SourcesKeep(v, ev);
    StartsKeep(v, ev);
    EndsKeep(v, ev);
  }

  lemma ShapeKeeps(v: Env, ev: Event)
    requires Shape(v) && Legal(v, ev)
    ensures Shape(After(v, ev)) && Touched(After(v, ev))
  {
    match ev.kind
    case Queued =>
    case Started =>
    case Finished =>
    case Failed =>
    case Retried =>
    case DeadLettered =>
    case Dropped =>
  }

  lemma NotNow(v: Env, ev: Event)
    ensures v.phase != Going ==> !EndsNow(v, ev)
  {
  }

  lemma SourcesKeep(v: Env, ev: Event)
    requires Shape(v) && SourcesOk(v) && Legal(v, ev)
    ensures SourcesOk(After(v, ev))
  {
    hide EndsNow;
    match ev.kind
    case Queued =>
    case Started =>
    case Finished =>
    case Failed => NotNow(v, ev);
    case Retried =>
    case DeadLettered =>
    case Dropped =>
  }

  lemma StartsKeep(v: Env, ev: Event)
    requires Shape(v) && StartsOk(v) && Legal(v, ev)
    ensures StartsOk(After(v, ev))
  {
    hide EndsNow;
    match ev.kind
    case Queued =>
    case Started =>
    case Finished =>
    case Failed => NotNow(v, ev);
    case Retried =>
    case DeadLettered =>
    case Dropped =>
  }

  lemma EndsKeep(v: Env, ev: Event)
    requires Shape(v) && StartsOk(v) && EndsOk(v) && Legal(v, ev)
    ensures EndsOk(After(v, ev))
  {
    match ev.kind
    case Queued =>
    case Started =>
    case Finished =>
    case Failed =>
    case Retried =>
    case DeadLettered =>
    case Dropped =>
  }

  lemma QueuedKeeps(v: Env, o: Option<Slot>, ev: Event)
    requires HandleOk(v, o) && Legal(v, ev) && ev.kind == Queued
    ensures Tracks(v, o, ev)
  {
    EnvKeeps(v, ev);
    hide EndsOk;
  }

  lemma StartedKeeps(v: Env, o: Option<Slot>, ev: Event)
    requires HandleOk(v, o) && Legal(v, ev) && ev.kind == Started
    ensures Tracks(v, o, ev)
  {
    EnvKeeps(v, ev);
    hide EndsOk;
  }

  lemma FinishedKeeps(v: Env, o: Option<Slot>, ev: Event)
    requires HandleOk(v, o) && Legal(v, ev) && ev.kind == Finished
    ensures Tracks(v, o, ev)
  {
    EnvKeeps(v, ev);
    hide EndsOk;
  }

  lemma FailedKeeps(v: Env, o: Option<Slot>, ev: Event)
    requires HandleOk(v, o) && Legal(v, ev) && ev.kind == Failed
    ensures Tracks(v, o, ev)
  {
    EnvKeeps(v, ev);
    hide EndsOk, SourcesOk, StartsOk;
  }

  lemma RetriedKeeps(v: Env, o: Option<Slot>, ev: Event)
    requires HandleOk(v, o) && Legal(v, ev) && ev.kind == Retried
    ensures Tracks(v, o, ev)
  {
    EnvKeeps(v, ev);
    hide EndsOk;
  }

  lemma DisposedKeeps(v: Env, o: Option<Slot>, ev: Event)
    requires HandleOk(v, o) && Legal(v, ev) && (ev.kind == DeadLettered || ev.kind == Dropped)
    ensures Tracks(v, o, ev)
  {
    EnvKeeps(v, ev);
    hide EndsOk, SourcesOk, StartsOk;
  }

  // ---- the samples of one handle ----

  /** How long attempt `a` waited, once its start and the event that queued it are known. */
  function WaitTerm(v: Env, a: nat): Option<nat> {
    if a in v.starts && a in v.sources then Some(Minus(v.starts[a], v.sources[a])) else None
  }

  function RunTerm(v: Env, a: nat): Option<nat> {
    if a in v.starts && a in v.ends then Some(Minus(v.ends[a], v.starts[a])) else None
  }

  function Waits(v: Env, n: nat): Tally {
    if n == 0 then NONE else AddIf(Waits(v, n - 1), WaitTerm(v, n))
  }

  function Runs(v: Env, n: nat): Tally {
    if n == 0 then NONE else AddIf(Runs(v, n - 1), RunTerm(v, n))
  }

  function StartCount(v: Env, n: nat): nat {
    if n == 0 then 0 else StartCount(v, n - 1) + if n in v.starts then 1 else 0
  }

  /** One more term, wherever it comes, adds one sample. */
  lemma {:induction false} WaitsGain(v: Env, v': Env, n: nat, a: nat)
    requires forall b :: 1 <= b <= n && b != a ==> WaitTerm(v', b) == WaitTerm(v, b)
    requires 1 <= a <= n ==> WaitTerm(v, a) == None
    ensures Waits(v', n) == AddIf(Waits(v, n), if 1 <= a <= n then WaitTerm(v', a) else None)
    decreases n
  {
    if n > 0 { WaitsGain(v, v', n - 1, a); }
  }

  lemma {:induction false} RunsGain(v: Env, v': Env, n: nat, a: nat)
    requires forall b :: 1 <= b <= n && b != a ==> RunTerm(v', b) == RunTerm(v, b)
    requires 1 <= a <= n ==> RunTerm(v, a) == None
    ensures Runs(v', n) == AddIf(Runs(v, n), if 1 <= a <= n then RunTerm(v', a) else None)
    decreases n
  {
    if n > 0 { RunsGain(v, v', n - 1, a); }
  }

  lemma {:induction false} StartsGain(v: Env, v': Env, n: nat, a: nat)
    requires forall b :: 1 <= b <= n && b != a ==> (b in v'.starts <==> b in v.starts)
    requires 1 <= a <= n ==> a !in v.starts && a in v'.starts
    ensures StartCount(v', n) == StartCount(v, n) + if 1 <= a <= n then 1 else 0
    decreases n
  {
    if n > 0 { StartsGain(v, v', n - 1, a); }
  }

  /** The attempt whose times an event completes or begins. */
  function About(v: Env, ev: Event): nat {
    match ev.kind
    case Queued => 1
    case Started => ev.attempt
    case Finished => v.k
    case Failed => if v.phase == Going then v.k else 0
    case Retried => ev.attempt
    case DeadLettered => 0
    case Dropped => 0
  }

  /** The wait sample an event takes is the one wait it makes known. */
  lemma WaitTaken(v: Env, o: Option<Slot>, ev: Event)
    requires HandleOk(v, o) && Legal(v, ev)
    ensures var e := StepSlot(SlotFor(o, ev), ev).1; var v' := After(v, ev); var a := About(v, ev);
            if WaitTerm(v, a) == None then e.wait == WaitTerm(v', a) else e.wait == None && WaitTerm(v', a) == WaitTerm(v, a)
  {
    hide EndsOk;
    match ev.kind
    case Queued =>
    case Started =>
    case Finished =>
    case Failed =>
    case Retried =>
    case DeadLettered =>
    case Dropped =>
  }

  /** The run sample an event takes is that of the attempt it ends. */
  lemma RunTaken(v: Env, o: Option<Slot>, ev: Event)
    requires HandleOk(v, o) && Legal(v, ev)
    ensures var e := StepSlot(SlotFor(o, ev), ev).1;
            e.run == if EndsAttempt(v, ev) then RunTerm(After(v, ev), About(v, ev)) else None
  {
    hide EndsOk, SourcesOk;
    match ev.kind
    case Queued =>
    case Started =>
    case Finished =>
    case Failed =>
    case Retried =>
    case DeadLettered =>
    case Dropped =>
  }

  /** The second FAILED of an attempt, from a cancel that came too late for the first: it closes the
      handle, and the attempt's end, its sample and the gauges stay what the first made them. */
  lemma SecondFailureOnlyCloses(v: Env, o: Option<Slot>, ev: Event)
    requires HandleOk(v, o) && ev.kind == Failed && ev.cancelled && v.phase == Fell && ev.attempt == v.k
    ensures Legal(v, ev) && After(v, ev) == v.(phase := Over) && v.k in v.ends
    ensures StepSlot(SlotFor(o, ev), ev).1 == NOTHING
    ensures StepSlot(SlotFor(o, ev), ev).0 == None <==> Complete(After(v, ev))
  {
    StepKeeps(v, o, ev);
    hide SourcesOk;
  }

  predicate EndsAttempt(v: Env, ev: Event) {
    (ev.kind == Finished || ev.kind == Failed) && v.phase == Going
  }
}
