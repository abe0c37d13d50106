/** What the counters of a run mean, read off its events: each total is a number of events, and each
    tally describes a list of durations. */
module StatsTotals {
  import opened Sequences
  import opened Stats
  import opened StatsRuns

  // ---- the totals ----

  /** Each handle's events name one task type. */
  ghost predicate Consistent(evs: seq<Event>, taskOf: nat -> nat) {
    forall i :: 0 <= i < |evs| ==> evs[i].task == taskOf(evs[i].handle)
  }

  /** The event is one of row `r`'s: row 0 is the engine's, row t + 1 is task type t's. */
  predicate OfRow(ev: Event, r: nat) {
    r == 0 || ev.task == r - 1
  }

  /** How many events of row `r` have one of the kinds, and, if asked, the cancelled status. */
  function HowMany(evs: seq<Event>, r: nat, kinds: set<Kind>, cancelled: bool): nat {
    if |evs| == 0 then 0
    else
      var n := |evs| - 1;
      HowMany(evs[..n], r, kinds, cancelled)
      + if OfRow(evs[n], r) && evs[n].kind in kinds && (cancelled ==> evs[n].cancelled) then 1 else 0
  }

  ghost predicate Totalled(evs: seq<Event>, row: Row, r: nat) {
    && row.queued == HowMany(evs, r, {Queued}, false) && row.started == HowMany(evs, r, {Started}, false)
    && row.finished == HowMany(evs, r, {Finished}, false) && row.failed == HowMany(evs, r, {Failed}, false)
    && row.cancelled == HowMany(evs, r, {Failed}, true) && row.retried == HowMany(evs, r, {Retried}, false)
    && row.dead == HowMany(evs, r, {DeadLettered}, false) && row.dropped == HowMany(evs, r, {Dropped}, false)
    && row.terminal == HowMany(evs, r, {Finished, DeadLettered, Dropped}, false) + HowMany(evs, r, {Failed}, true)
  }

  /** In every run, in whatever order its events come, each total of each row is the number of events
      of that row and of that kind: a cancellation is a FAILED with the cancelled status, and an end is
      one of those, or a FINISHED, a DEAD_LETTERED or a DROPPED. */
  lemma {:induction false} TotalsCountEvents(evs: seq<Event>, n: nat, taskOf: nat -> nat, r: nat)
    requires Consistent(evs, taskOf) && r < n
    ensures |Run(evs, n).rows| == n && Totalled(evs, Run(evs, n).rows[r], r)
    ensures forall h :: h in Run(evs, n).slots ==> Run(evs, n).slots[h].task == taskOf(h)
    decreases |evs|
  {
    hide StepSlot, HowMany, Totalled;
    if |evs| == 0 {
      NoEvents(r);
    } else {
      var m, ev := evs[..|evs| - 1], evs[|evs| - 1];
      TotalsCountEvents(m, n, taskOf, r);
      var b := Run(m, n);
      var s := SlotFor(Lookup(b.slots, ev.handle), ev);
      StepTask(s, ev);
      Snoc(evs);
      var e := StepSlot(s, ev).1;
      if OfRow(ev, r) { OneMoreEvent(m, ev, r, b.rows[r], e); } else { NotOfRow(m, ev, r, b.rows[r]); }
    }
  }

  lemma NoEvents(r: nat)
    ensures Totalled([], ZERO, r)
  {
  }

  lemma HowManySnoc(evs: seq<Event>, ev: Event, r: nat, kinds: set<Kind>, cancelled: bool)
    ensures HowMany(evs + [ev], r, kinds, cancelled) ==
            HowMany(evs, r, kinds, cancelled) + if OfRow(ev, r) && ev.kind in kinds && (cancelled ==> ev.cancelled) then 1 else 0
  {
    assert (evs + [ev])[..|evs + [ev]| - 1] == evs;
  }

  lemma OneMoreEvent(evs: seq<Event>, ev: Event, r: nat, row: Row, e: Effect)
    requires OfRow(ev, r) && Totalled(evs, row, r)
    ensures Totalled(evs + [ev], Stats.Apply(row, ev, e), r)
  {
    hide HowMany, AddIf;
    EachSnoc(evs, ev, r);
    match ev.kind
    case Queued =>
    case Started =>
    case Finished =>
    case Failed =>
    case Retried =>
    case DeadLettered =>
    case Dropped =>
  }

  lemma NotOfRow(evs: seq<Event>, ev: Event, r: nat, row: Row)
    requires !OfRow(ev, r) && Totalled(evs, row, r)
    ensures Totalled(evs + [ev], row, r)
  {
    hide HowMany;
    EachSnoc(evs, ev, r);
  }

  lemma EachSnoc(evs: seq<Event>, ev: Event, r: nat)
    ensures forall k: Kind, c ::
              HowMany(evs + [ev], r, {k}, c) == HowMany(evs, r, {k}, c) + if OfRow(ev, r) && ev.kind == k && (c ==> ev.cancelled) then 1 else 0
    ensures HowMany(evs + [ev], r, {Finished, DeadLettered, Dropped}, false) ==
            HowMany(evs, r, {Finished, DeadLettered, Dropped}, false)
            + if OfRow(ev, r) && (ev.kind == Finished || ev.kind == DeadLettered || ev.kind == Dropped) then 1 else 0
  {
    hide HowMany, OfRow;
    forall k: Kind, c
      ensures HowMany(evs + [ev], r, {k}, c) == HowMany(evs, r, {k}, c) + if OfRow(ev, r) && ev.kind == k && (c ==> ev.cancelled) then 1 else 0
    {
      HowManySnoc(evs, ev, r, {k}, c);
    }
    HowManySnoc(evs, ev, r, {Finished, DeadLettered, Dropped}, false);
  }

  // ---- the samples ----

  function Sum(xs: seq<nat>): nat {
    if |xs| == 0 then 0 else Sum(xs[..|xs| - 1]) + xs[|xs| - 1]
  }

  /** The tally is that of these durations: their number, their sum and the longest, 0 if there is none. */
  ghost predicate Describes(t: Tally, xs: seq<nat>) {
    && t.n == |xs| && t.sum == Sum(xs)
    && (forall x :: x in xs ==> x <= t.max) && (if xs == [] then t.max == 0 else t.max in xs)
  }

  /** From one stamp to a later one; clocks that went back count as no time. */
  function Between(from: nat, to: nat): nat {
    if to <= from then 0 else to - from
  }

  /** How long each attempt waited, of the first `n` whose start and queueing are both known. */
  function WaitsOf(v: Env, n: nat): seq<nat> {
    if n == 0 then [] else WaitsOf(v, n - 1) + if n in v.starts && n in v.sources then [Between(v.sources[n], v.starts[n])] else []
  }

  /** How long each attempt ran, of the first `n` whose start and end are both known. */
  function RunsOf(v: Env, n: nat): seq<nat> {
    if n == 0 then [] else RunsOf(v, n - 1) + if n in v.starts && n in v.ends then [Between(v.starts[n], v.ends[n])] else []
  }

  /** The waits, or else the runs, of all the handles whose type row `r` counts. */
  function RowSamples(evs: seq<Event>, hs: seq<nat>, taskOf: nat -> nat, r: nat, waits: bool): seq<nat> {
    if |hs| == 0 then []
    else
      var h, rest := hs[|hs| - 1], RowSamples(evs, hs[..|hs| - 1], taskOf, r, waits);
      var v := EnvOf(evs, h);
      rest + if r != 0 && taskOf(h) != r - 1 then [] else if waits then WaitsOf(v, v.k) else RunsOf(v, v.k)
  }

  /** In every run the wait and run tallies of each row are those of the waits and runs of the row's
      handles: one for each attempt whose two ends have been seen, from the one to the other. */
  lemma RowsDescribeSamples(evs: seq<Event>, n: nat, hs: seq<nat>, taskOf: nat -> nat, r: nat)
    requires LegalRun(evs, taskOf) && Lists(hs, evs) && r < n
    ensures |Run(evs, n).rows| == n
    ensures Describes(Run(evs, n).rows[r].wait, RowSamples(evs, hs, taskOf, r, true))
    ensures Describes(Run(evs, n).rows[r].run, RowSamples(evs, hs, taskOf, r, false))
  {
    hide LegalRun, Lists, Handled, Gauged, RowSamples, Describes, Run, AllWaits, AllRuns;
    RunKeeps(evs, n, hs, taskOf);
    AllDescribed(evs, hs, taskOf, r);
  }

  lemma {:induction false} AllDescribed(evs: seq<Event>, hs: seq<nat>, taskOf: nat -> nat, r: nat)
    ensures Describes(AllWaits(evs, hs, taskOf, r), RowSamples(evs, hs, taskOf, r, true))
    ensures Describes(AllRuns(evs, hs, taskOf, r), RowSamples(evs, hs, taskOf, r, false))
    decreases |hs|
  {
    hide EnvOf, Waits, Runs, WaitsOf, RunsOf, Describes, Merge;
    if |hs| == 0 {
      NothingDescribed();
    } else {
      var rest, v := hs[..|hs| - 1], EnvOf(evs, hs[|hs| - 1]);
      AllDescribed(evs, rest, taskOf, r);
      WaitsDescribed(v, v.k);
      RunsDescribed(v, v.k);
      Described(AllWaits(evs, rest, taskOf, r), RowSamples(evs, rest, taskOf, r, true), Waits(v, v.k), WaitsOf(v, v.k));
      Described(AllRuns(evs, rest, taskOf, r), RowSamples(evs, rest, taskOf, r, false), Runs(v, v.k), RunsOf(v, v.k));
      NoMore(RowSamples(evs, rest, taskOf, r, true));
      NoMore(RowSamples(evs, rest, taskOf, r, false));
    }
  }

  lemma NothingDescribed()
    ensures Describes(NONE, [])
  {
  }

  lemma NoMore(xs: seq<nat>)
    ensures xs + [] == xs
  {
  }

  lemma {:induction false} SumConcat(xs: seq<nat>, ys: seq<nat>)
    ensures Sum(xs + ys) == Sum(xs) + Sum(ys)
    decreases |ys|
  {
    if |ys| == 0 {
      NoMore(xs);
    } else {
      var n := |ys| - 1;
      SumConcat(xs, ys[..n]);
      assert (xs + ys)[..|xs + ys| - 1] == xs + ys[..n];
    }
  }

  lemma Described(t: Tally, xs: seq<nat>, u: Tally, ys: seq<nat>)
    requires Describes(t, xs) && Describes(u, ys)
    ensures Describes(Merge(t, u), xs + ys)
  {
    hide Sum;
    SumConcat(xs, ys);
    if ys == [] { NoMore(xs); }
  }

  lemma OneDescribed(t: Tally, xs: seq<nat>, x: nat)
    requires Describes(t, xs)
    ensures Describes(Add(t, x), xs + [x])
  {
    assert (xs + [x])[..|xs + [x]| - 1] == xs;
  }

  lemma {:induction false} WaitsDescribed(v: Env, n: nat)
    ensures Describes(Waits(v, n), WaitsOf(v, n))
    decreases n
  {
    hide Describes, Add;
    if n == 0 {
      NothingDescribed();
    } else {
      WaitsDescribed(v, n - 1);
      NoMore(WaitsOf(v, n - 1));
      if n in v.starts && n in v.sources {
        OneDescribed(Waits(v, n - 1), WaitsOf(v, n - 1), Between(v.sources[n], v.starts[n]));
      }
    }
  }

  lemma {:induction false} RunsDescribed(v: Env, n: nat)
    ensures Describes(Runs(v, n), RunsOf(v, n))
    decreases n
  {
    hide Describes, Add;
    if n == 0 {
      NothingDescribed();
    } else {
      RunsDescribed(v, n - 1);
      NoMore(RunsOf(v, n - 1));
      if n in v.starts && n in v.ends {
        OneDescribed(Runs(v, n - 1), RunsOf(v, n - 1), Between(v.starts[n], v.ends[n]));
      }
    }
  }
}
