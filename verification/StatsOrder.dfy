/** The statistics do not depend on the order events arrive in. */
module StatsOrder {
  import opened Sequences
  import opened Stats
  import opened StatsRuns

  // ---- once every event is in ----

  lemma {:induction false} CompleteSamples(v: Env, n: nat)
    requires EnvOk(v) && Complete(v) && n <= v.k
    ensures Waits(v, n).n == StartCount(v, n) == Runs(v, n).n
    decreases n
  {
    if n > 0 {
      CompleteSamples(v, n - 1);
      assert n in v.sources;
    }
  }

  lemma {:induction false} UnseenEnv(evs: seq<Event>, h: nat)
    requires forall i :: 0 <= i < |evs| ==> evs[i].handle != h
    ensures EnvOf(evs, h) == UNSEEN
    decreases |evs|
  {
    if |evs| > 0 { UnseenEnv(evs[..|evs| - 1], h); }
  }

  ghost predicate AllComplete(evs: seq<Event>, hs: seq<nat>) {
    forall i :: 0 <= i < |hs| ==> Complete(EnvOf(evs, hs[i]))
  }

  lemma {:induction false} CompleteTallies(evs: seq<Event>, slots: map<nat, Slot>, hs: seq<nat>, taskOf: nat -> nat, r: nat)
    requires Handled(evs, slots, taskOf) && AllComplete(evs, hs)
    ensures AllWaits(evs, hs, taskOf, r).n == AllStarts(evs, hs, taskOf, r) == AllRuns(evs, hs, taskOf, r).n
    decreases |hs|
  {
    hide EnvOf, Complete, Waits, Runs, StartCount, SlotOk;
    if |hs| > 0 {
      var n := |hs| - 1;
      CompleteTallies(evs, slots, hs[..n], taskOf, r);
      var v := EnvOf(evs, hs[n]);
      assert HandleOk(v, Lookup(slots, hs[n]));
      CompleteSamples(v, v.k);
    }
  }

  lemma CompleteGone(evs: seq<Event>, slots: map<nat, Slot>, hs: seq<nat>, taskOf: nat -> nat)
    requires Handled(evs, slots, taskOf) && AllComplete(evs, hs) && Lists(hs, evs)
    ensures slots == map[]
  {
    hide EnvOf, SlotOk;
    forall h ensures h !in slots {
      assert HandleOk(EnvOf(evs, h), Lookup(slots, h));
      if h in hs {
        var i :| 0 <= i < |hs| && hs[i] == h;
      } else {
        UnseenEnv(evs, h);
      }
    }
  }

  /** Once every event is in, in whatever order: no slot is left, every gauge is back to zero, and
      every attempt that started has given its wait sample and its run sample. */
  lemma AllEventsIn(evs: seq<Event>, n: nat, hs: seq<nat>, taskOf: nat -> nat)
    requires LegalRun(evs, taskOf) && Lists(hs, evs) && AllComplete(evs, hs)
    ensures var b := Run(evs, n);
            && b.slots == map[] && |b.rows| == n
            && forall r :: 0 <= r < n ==> b.rows[r].pending == b.rows[r].inFlight == 0
                                          && b.rows[r].wait.n == b.rows[r].run.n == b.rows[r].started
  {
    hide LegalRun, Lists, AllComplete, Run, Handled;
    var b := Run(evs, n);
    RunKeeps(evs, n, hs, taskOf);
    CompleteGone(evs, b.slots, hs, taskOf);
    forall r | 0 <= r < n
      ensures b.rows[r].pending == b.rows[r].inFlight == 0 && b.rows[r].wait.n == b.rows[r].run.n == b.rows[r].started
    {
      CompleteTallies(evs, b.slots, hs, taskOf, r);
      assert InState(b.slots, Pending, r) == {} && InState(b.slots, Running, r) == {};
    }
  }

  // ---- what is written down depends only on the events themselves ----

  /** An event of the handle, of the kinds in `kinds`, for attempt `a` and stamped `t`. */
  ghost predicate Has(evs: seq<Event>, h: nat, kinds: set<Kind>, a: nat, t: nat) {
    exists i :: 0 <= i < |evs| && evs[i].handle == h && evs[i].kind in kinds && evs[i].attempt == a && evs[i].ts == t
  }

  /** The handle's FINISHED or plain FAILED of attempt `a`, or its cancelled FAILED. */
  predicate IsEnd(ev: Event, h: nat, cancelled: bool, a: nat, t: nat) {
    && ev.handle == h && ev.attempt == a && ev.ts == t
    && if cancelled then ev.kind == Failed && ev.cancelled else ev.kind == Finished || (ev.kind == Failed && !ev.cancelled)
  }

  ghost predicate HasEnd(evs: seq<Event>, h: nat, cancelled: bool, a: nat, t: nat) {
    exists ev :: ev in evs && IsEnd(ev, h, cancelled, a, t)
  }

  /** The attempt has reported an end of its own. */
  ghost predicate Ended(evs: seq<Event>, h: nat, a: nat) {
    exists t :: HasEnd(evs, h, false, a, t)
  }

  ghost predicate HasQueued(evs: seq<Event>, h: nat, t: nat) {
    exists i :: 0 <= i < |evs| && evs[i].handle == h && evs[i].kind == Queued && evs[i].ts == t
  }

  lemma HasSnoc(evs: seq<Event>, ev: Event, h: nat, kinds: set<Kind>, a: nat, t: nat)
    ensures Has(evs + [ev], h, kinds, a, t) <==> Has(evs, h, kinds, a, t) || (ev.handle == h && ev.kind in kinds && ev.attempt == a && ev.ts == t)
    ensures HasQueued(evs + [ev], h, t) <==> HasQueued(evs, h, t) || (ev.handle == h && ev.kind == Queued && ev.ts == t)
  {
    var all := evs + [ev];
    if Has(evs, h, kinds, a, t) {
      var i :| 0 <= i < |evs| && evs[i].handle == h && evs[i].kind in kinds && evs[i].attempt == a && evs[i].ts == t;
      assert all[i] == evs[i];
    }
    if HasQueued(evs, h, t) {
      var i :| 0 <= i < |evs| && evs[i].handle == h && evs[i].kind == Queued && evs[i].ts == t;
      assert all[i] == evs[i];
    }
    assert all[|evs|] == ev;
  }

  ghost predicate Written(m: map<nat, nat>, a: nat, t: nat) {
    a in m && m[a] == t
  }

  /** The handle's record of its starts, of what queued each attempt, and of its ends, in terms
      of the events that arrived. */
  ghost predicate Recorded(evs: seq<Event>, h: nat, v: Env) {
    && (forall a, t :: Written(v.starts, a, t) <==> Has(evs, h, {Started}, a, t))
    && (forall a, t :: a != 1 ==> (Written(v.sources, a, t) <==> Has(evs, h, {Retried}, a, t)))
    && (forall t :: Written(v.sources, 1, t) <==> HasQueued(evs, h, t))
    && RecordedEnd(evs, h, v)
  }

  /** The end written of an attempt is its FINISHED or plain FAILED if there is one, else its cancelled
      FAILED if it started. */
  ghost predicate RecordedEnd(evs: seq<Event>, h: nat, v: Env) {
    && (forall a, t :: Written(v.ends, a, t) <==> EndIs(evs, h, v.starts, a, t))
    && (forall a, t :: HasEnd(evs, h, true, a, t) ==> v.phase == Over)
  }

  ghost predicate EndIs(evs: seq<Event>, h: nat, starts: map<nat, nat>, a: nat, t: nat) {
    HasEnd(evs, h, false, a, t) || (HasEnd(evs, h, true, a, t) && a in starts && !Ended(evs, h, a))
  }

  lemma HasEndSnoc(evs: seq<Event>, ev: Event, h: nat, cancelled: bool, a: nat, t: nat)
    ensures HasEnd(evs + [ev], h, cancelled, a, t) <==> HasEnd(evs, h, cancelled, a, t) || IsEnd(ev, h, cancelled, a, t)
  {
    hide IsEnd;
    assert forall x :: x in evs + [ev] <==> x in evs || x == ev;
  }

  lemma EndedSnoc(evs: seq<Event>, ev: Event, h: nat, a: nat)
    ensures Ended(evs + [ev], h, a) <==> Ended(evs, h, a) || IsEnd(ev, h, false, a, ev.ts)
  {
    hide HasEnd;
    forall t ensures HasEnd(evs + [ev], h, false, a, t) <==> HasEnd(evs, h, false, a, t) || IsEnd(ev, h, false, a, t) {
      HasEndSnoc(evs, ev, h, false, a, t);
    }
  }

  lemma RecordedOther(evs: seq<Event>, ev: Event, h: nat, v: Env)
    requires Recorded(evs, h, v) && ev.handle != h
    ensures Recorded(evs + [ev], h, v)
  {
    hide Has, HasQueued, Written, HasEnd, Ended, IsEnd;
    OtherEnds(evs, ev, h);
    forall a, t, kinds ensures Has(evs + [ev], h, kinds, a, t) <==> Has(evs, h, kinds, a, t) { HasSnoc(evs, ev, h, kinds, a, t); }
    forall t ensures HasQueued(evs + [ev], h, t) <==> HasQueued(evs, h, t) { HasSnoc(evs, ev, h, {}, 0, t); }
  }

  lemma OtherEnds(evs: seq<Event>, ev: Event, h: nat)
    requires ev.handle != h
    ensures forall c, a, t :: HasEnd(evs + [ev], h, c, a, t) <==> HasEnd(evs, h, c, a, t)
    ensures forall a :: Ended(evs + [ev], h, a) <==> Ended(evs, h, a)
  {
    hide HasEnd, Ended;
    forall c, a, t ensures HasEnd(evs + [ev], h, c, a, t) <==> HasEnd(evs, h, c, a, t) { HasEndSnoc(evs, ev, h, c, a, t); }
    forall a ensures Ended(evs + [ev], h, a) <==> Ended(evs, h, a) { EndedSnoc(evs, ev, h, a); }
  }

  /** What MapsAfter says, and which attempts an event names. */
  lemma Names(v: Env, ev: Event)
    requires EnvOk(v) && Legal(v, ev)
    ensures ev.kind == Started ==> About(v, ev) == ev.attempt
    ensures ev.kind == Queued ==> About(v, ev) == 1 && 1 !in v.sources
    ensures ev.kind == Retried ==> About(v, ev) == ev.attempt >= 2 && ev.attempt !in v.sources
    ensures EndsAttempt(v, ev) ==> About(v, ev) == ev.attempt
    ensures ev.kind == Finished ==> EndsAttempt(v, ev)
    ensures ev.kind == Failed && !ev.cancelled ==> EndsAttempt(v, ev)
    ensures ev.kind == Failed && ev.cancelled ==> v.phase != Over && After(v, ev).phase == Over
    ensures v.phase == Over ==> After(v, ev).phase == Over && ev.kind != Started
  {
    hide EndsOk;
    match ev.kind
    case Queued =>
    case Started =>
    case Finished =>
    case Failed =>
    case Retried =>
    case DeadLettered =>
    case Dropped =>
  }

  /** An end is of an attempt that started and had none, or of one that has its own already, or never
      starts. */
  lemma EndNames(v: Env, ev: Event)
    requires EnvOk(v) && Legal(v, ev) && (ev.kind == Finished || ev.kind == Failed)
    ensures if EndsAttempt(v, ev) then ev.attempt in v.starts && ev.attempt !in v.ends
            else ev.attempt !in v.starts || ev.attempt in v.ends
  {
    hide SourcesOk;
  }

  lemma RecordedStarts(evs: seq<Event>, ev: Event, h: nat, v: Env)
    requires Recorded(evs, h, v) && EnvOk(v) && Legal(v, ev) && ev.handle == h
    ensures forall a, t :: Written(After(v, ev).starts, a, t) <==> Has(evs + [ev], h, {Started}, a, t)
  {
    Names(v, ev);
    MapsAfter(v, ev);
    hide Has, HasQueued, Legal, After, About, EnvOk, EndsAttempt;
    forall a, t ensures Written(After(v, ev).starts, a, t) <==> Has(evs + [ev], h, {Started}, a, t) {
      HasSnoc(evs, ev, h, {Started}, a, t);
      assert Written(v.starts, a, t) <==> Has(evs, h, {Started}, a, t);
    }
  }

  lemma RecordedSources(evs: seq<Event>, ev: Event, h: nat, v: Env)
    requires Recorded(evs, h, v) && EnvOk(v) && Legal(v, ev) && ev.handle == h
    ensures forall a, t :: a != 1 ==> (Written(After(v, ev).sources, a, t) <==> Has(evs + [ev], h, {Retried}, a, t))
    ensures forall t :: Written(After(v, ev).sources, 1, t) <==> HasQueued(evs + [ev], h, t)
  {
    Names(v, ev);
    MapsAfter(v, ev);
    hide Has, HasQueued, Legal, After, About, EnvOk, EndsAttempt;
    forall a, t | a != 1 ensures Written(After(v, ev).sources, a, t) <==> Has(evs + [ev], h, {Retried}, a, t) {
      HasSnoc(evs, ev, h, {Retried}, a, t);
      assert Written(v.sources, a, t) <==> Has(evs, h, {Retried}, a, t);
    }
    forall t ensures Written(After(v, ev).sources, 1, t) <==> HasQueued(evs + [ev], h, t) {
      HasSnoc(evs, ev, h, {}, 0, t);
      assert Written(v.sources, 1, t) <==> HasQueued(evs, h, t);
    }
  }

  lemma RecordedEnds(evs: seq<Event>, ev: Event, h: nat, v: Env)
    requires Recorded(evs, h, v) && EnvOk(v) && Legal(v, ev) && ev.handle == h
    ensures RecordedEnd(evs + [ev], h, After(v, ev))
  {
    Names(v, ev);
    if ev.kind == Finished || ev.kind == Failed { EndNames(v, ev); }
    MapsAfter(v, ev);
    hide Has, HasQueued, Legal, After, About, EnvOk, HasEnd, Ended;
    var v' := After(v, ev);
    forall a, t ensures Written(v'.ends, a, t) <==> EndIs(evs + [ev], h, v'.starts, a, t)
      ensures HasEnd(evs + [ev], h, true, a, t) ==> v'.phase == Over
    {
      HasEndSnoc(evs, ev, h, false, a, t);
      HasEndSnoc(evs, ev, h, true, a, t);
      EndedSnoc(evs, ev, h, a);
      assert Written(v.ends, a, t) <==> EndIs(evs, h, v.starts, a, t);
      assert HasEnd(evs, h, true, a, t) ==> v.phase == Over;
      OwnEnd(evs, h, v, a);
    }
  }

  /** An attempt's own end is written, and nothing else is while the handle is not over. */
  lemma OwnEnd(evs: seq<Event>, h: nat, v: Env, a: nat)
    requires RecordedEnd(evs, h, v)
    ensures Ended(evs, h, a) ==> a in v.ends
    ensures a in v.ends && v.phase != Over ==> Ended(evs, h, a)
  {
    hide HasEnd;
    if Ended(evs, h, a) {
      var t :| HasEnd(evs, h, false, a, t);
      assert Written(v.ends, a, t);
    }
    if a in v.ends { assert Written(v.ends, a, v.ends[a]); }
  }

  lemma {:induction false} RunRecords(evs: seq<Event>, taskOf: nat -> nat, h: nat)
    requires LegalRun(evs, taskOf)
    ensures EnvOk(EnvOf(evs, h)) && Recorded(evs, h, EnvOf(evs, h))
    decreases |evs|
  {
    hide EnvOk, Legal, After, Recorded;
    if |evs| == 0 {
      NothingRecorded(h);
    } else {
      var m, ev := evs[..|evs| - 1], evs[|evs| - 1];
      Snoc(evs);
      RunRecords(m, taskOf, h);
      var v := EnvOf(m, h);
      if ev.handle == h { RecordedStep(m, ev, h, v); } else { RecordedOther(m, ev, h, v); }
    }
  }

  lemma RecordedStep(evs: seq<Event>, ev: Event, h: nat, v: Env)
    requires Recorded(evs, h, v) && EnvOk(v) && Legal(v, ev) && ev.handle == h
    ensures EnvOk(After(v, ev)) && Recorded(evs + [ev], h, After(v, ev))
  {
    RecordedStarts(evs, ev, h, v);
    RecordedSources(evs, ev, h, v);
    RecordedEnds(evs, ev, h, v);
    EnvKeeps(v, ev);
    hide Has, HasQueued, Written, Legal, After, EnvOk;
  }

  lemma NothingRecorded(h: nat)
    ensures EnvOk(UNSEEN) && Recorded([], h, UNSEEN)
  {
  }

  lemma SameEvents(evs: seq<Event>, evs': seq<Event>, h: nat, kinds: set<Kind>, a: nat, t: nat)
    requires multiset(evs) == multiset(evs')
    ensures Has(evs, h, kinds, a, t) ==> Has(evs', h, kinds, a, t)
    ensures HasQueued(evs, h, t) ==> HasQueued(evs', h, t)
  {
    if Has(evs, h, kinds, a, t) {
      var i :| 0 <= i < |evs| && evs[i].handle == h && evs[i].kind in kinds && evs[i].attempt == a && evs[i].ts == t;
      assert evs[i] in multiset(evs');
      var j :| 0 <= j < |evs'| && evs'[j] == evs[i];
    }
    if HasQueued(evs, h, t) {
      var i :| 0 <= i < |evs| && evs[i].handle == h && evs[i].kind == Queued && evs[i].ts == t;
      assert evs[i] in multiset(evs');
      var j :| 0 <= j < |evs'| && evs'[j] == evs[i];
    }
  }

  /** The same events in another order leave the same record of the handle. */
  lemma SameRecord(evs: seq<Event>, evs': seq<Event>, h: nat, v: Env, v': Env)
    requires multiset(evs) == multiset(evs') && Recorded(evs, h, v) && Recorded(evs', h, v')
    requires EnvOk(v) && EnvOk(v') && Complete(v) && Complete(v')
    ensures v.k == v'.k && v.starts == v'.starts && v.sources == v'.sources && v.ends == v'.ends
  {
    SameMaps(evs, evs', h, v, v');
    SameMaps(evs', evs, h, v', v);
    SameEnds(evs, evs', h, v, v');
    SameEnds(evs', evs, h, v', v);
    hide Recorded;
  }

  lemma SameMaps(evs: seq<Event>, evs': seq<Event>, h: nat, v: Env, v': Env)
    requires multiset(evs) == multiset(evs') && Recorded(evs, h, v) && Recorded(evs', h, v')
    ensures forall a :: a in v.starts ==> a in v'.starts && v'.starts[a] == v.starts[a]
    ensures forall a :: a in v.sources ==> a in v'.sources && v'.sources[a] == v.sources[a]
  {
    hide Has, HasQueued;
    forall a | a in v.starts ensures Written(v'.starts, a, v.starts[a]) {
      assert Written(v.starts, a, v.starts[a]);
      SameEvents(evs, evs', h, {Started}, a, v.starts[a]);
    }
    forall a | a in v.sources ensures Written(v'.sources, a, v.sources[a]) {
      assert Written(v.sources, a, v.sources[a]);
      SameEvents(evs, evs', h, {Retried}, a, v.sources[a]);
    }
  }

  lemma SameHasEnd(evs: seq<Event>, evs': seq<Event>, h: nat)
    requires forall x :: x in evs <==> x in evs'
    ensures forall c, a, t :: HasEnd(evs, h, c, a, t) <==> HasEnd(evs', h, c, a, t)
    ensures forall a :: Ended(evs, h, a) <==> Ended(evs', h, a)
  {
    hide IsEnd;
  }

  lemma SameEnds(evs: seq<Event>, evs': seq<Event>, h: nat, v: Env, v': Env)
    requires multiset(evs) == multiset(evs') && Recorded(evs, h, v) && Recorded(evs', h, v') && v.starts == v'.starts
    ensures forall a :: a in v.ends ==> a in v'.ends && v'.ends[a] == v.ends[a]
  {
    hide Has, HasQueued, HasEnd, Ended;
    SameMembers(evs, evs');
    SameHasEnd(evs, evs', h);
    forall a | a in v.ends ensures Written(v'.ends, a, v.ends[a]) {
      assert Written(v.ends, a, v.ends[a]);
      assert EndIs(evs, h, v.starts, a, v.ends[a]);
      assert EndIs(evs', h, v'.starts, a, v.ends[a]);
    }
  }

  // ---- and so does when they are all in ----

  predicate Steps(ev: Event, h: nat) {
    ev.handle == h && (ev.kind == Started || ev.kind == Retried || ev.kind == Failed)
  }

  /** The attempt a handle is at is the highest one begun, announced or ended before it began; and it is
      over once a terminal event is in. */
  ghost predicate Reached(evs: seq<Event>, h: nat, v: Env) {
    && (forall x :: x in evs && Steps(x, h) ==> x.attempt <= v.k)
    && (v.k > 1 ==> exists x :: x in evs && Steps(x, h) && x.attempt == v.k)
    && (v.phase == Over <==> exists x :: x in evs && x.handle == h && Terminal(x))
  }

  lemma StepReaches(v: Env, ev: Event)
    requires EnvOk(v) && Legal(v, ev)
    ensures var v' := After(v, ev);
            && v.k <= v'.k && (v'.k != v.k ==> Steps(ev, ev.handle) && ev.attempt == v'.k)
            && (Steps(ev, ev.handle) ==> ev.attempt <= v'.k) && (v'.phase == Over <==> v.phase == Over || Terminal(ev))
  {
    hide SourcesOk, StartsOk, EndsOk;
    match ev.kind
    case Queued =>
    case Started =>
    case Finished =>
    case Failed =>
    case Retried =>
    case DeadLettered =>
    case Dropped =>
  }

  lemma ReachedStep(evs: seq<Event>, ev: Event, h: nat, v: Env)
    requires Reached(evs, h, v) && (ev.handle == h ==> EnvOk(v) && Legal(v, ev))
    ensures Reached(evs + [ev], h, if ev.handle == h then After(v, ev) else v)
  {
    hide EnvOk, Legal, After, Terminal;
    if ev.handle == h { StepReaches(v, ev); }
    var all, v' := evs + [ev], if ev.handle == h then After(v, ev) else v;
    assert forall x :: x in all <==> x in evs || x == ev;
    if v'.k > 1 && v'.k == v.k {
      var x :| x in evs && Steps(x, h) && x.attempt == v.k;
      assert x in all;
    } else if v'.k > 1 {
      assert Steps(ev, h) && ev.attempt == v'.k;
    }
    if v.phase == Over {
      var x :| x in evs && x.handle == h && Terminal(x);
      assert x in all;
    }
  }

  lemma {:induction false} RunReaches(evs: seq<Event>, taskOf: nat -> nat, h: nat)
    requires LegalRun(evs, taskOf)
    ensures Reached(evs, h, EnvOf(evs, h))
    decreases |evs|
  {
    hide EnvOk, Legal, After, Reached;
    if |evs| == 0 {
      NothingReached(h);
    } else {
      var m, ev := evs[..|evs| - 1], evs[|evs| - 1];
      Snoc(evs);
      RunReaches(m, taskOf, h);
      RunRecords(m, taskOf, h);
      ReachedStep(m, ev, h, EnvOf(m, h));
    }
  }

  lemma NothingReached(h: nat)
    ensures Reached([], h, UNSEEN)
  {
  }

  lemma SameMembers(evs: seq<Event>, evs': seq<Event>)
    requires multiset(evs) == multiset(evs')
    ensures forall x :: x in evs <==> x in evs'
  {
    forall x ensures x in evs <==> x in evs' { assert x in evs <==> x in multiset(evs); }
  }

  lemma SameReached(evs: seq<Event>, evs': seq<Event>, h: nat, v: Env, v': Env)
    requires (forall x :: x in evs <==> x in evs') && Reached(evs, h, v) && Reached(evs', h, v') && EnvOk(v) && EnvOk(v')
    ensures v.k == v'.k && (v.phase == Over <==> v'.phase == Over)
  {
  }

  /** A handle all of whose events are in one order has them all in any other. */
  lemma SameComplete(evs: seq<Event>, evs': seq<Event>, taskOf: nat -> nat, h: nat)
    requires multiset(evs) == multiset(evs') && LegalRun(evs, taskOf) && LegalRun(evs', taskOf) && Complete(EnvOf(evs, h))
    ensures Complete(EnvOf(evs', h))
  {
    hide LegalRun, EnvOf, Recorded, Reached;
    var v, v' := EnvOf(evs, h), EnvOf(evs', h);
    RunRecords(evs, taskOf, h);
    RunRecords(evs', taskOf, h);
    RunReaches(evs, taskOf, h);
    RunReaches(evs', taskOf, h);
    SameMembers(evs, evs');
    SameReached(evs, evs', h, v, v');
    SameMaps(evs, evs', h, v, v');
  }

  lemma SameListing(evs: seq<Event>, evs': seq<Event>, hs: seq<nat>, taskOf: nat -> nat)
    requires multiset(evs) == multiset(evs') && LegalRun(evs, taskOf) && LegalRun(evs', taskOf)
    requires Lists(hs, evs) && AllComplete(evs, hs)
    ensures Lists(hs, evs') && AllComplete(evs', hs)
  {
    hide LegalRun, EnvOf, Complete;
    SameMembers(evs, evs');
    forall i | 0 <= i < |evs'| ensures evs'[i].handle in hs {
      assert evs'[i] in evs;
      var j :| 0 <= j < |evs| && evs[j] == evs'[i];
    }
    forall i | 0 <= i < |hs| ensures Complete(EnvOf(evs', hs[i])) { SameComplete(evs, evs', taskOf, hs[i]); }
  }

  // ---- the totals ----

  function BumpIf(row: Row, ev: Event, r: nat): Row {
    if Counts(r, ev.task) then Bump(row, ev) else row
  }

  function Bumps(evs: seq<Event>, r: nat): Row {
    if |evs| == 0 then ZERO else BumpIf(Bumps(evs[..|evs| - 1], r), evs[|evs| - 1], r)
  }

  lemma BumpsCommute(row: Row, x: Event, y: Event, r: nat)
    ensures BumpIf(BumpIf(row, x, r), y, r) == BumpIf(BumpIf(row, y, r), x, r)
  {
  }

  lemma {:induction false} BumpsMove(a: seq<Event>, x: Event, b: seq<Event>, r: nat)
    ensures Bumps(a + [x] + b, r) == BumpIf(Bumps(a + b, r), x, r)
    decreases |b|
  {
    hide BumpIf;
    if |b| == 0 {
      assert a + [x] + b == a + [x] && a + b == a;
      assert (a + [x])[..|a + [x]| - 1] == a;
    } else {
      var n := |b| - 1;
      BumpsMove(a, x, b[..n], r);
      assert (a + [x] + b)[..|a + [x] + b| - 1] == a + [x] + b[..n];
      assert (a + b)[..|a + b| - 1] == a + b[..n];
      BumpsCommute(Bumps(a + b[..n], r), x, b[n], r);
    }
  }

  lemma {:induction false} BumpsSame(evs: seq<Event>, evs': seq<Event>, r: nat)
    requires multiset(evs) == multiset(evs')
    ensures Bumps(evs, r) == Bumps(evs', r)
    decreases |evs|
  {
    hide BumpIf;
    SameLength(evs, evs');
    if |evs| > 0 {
      var n := |evs| - 1;
      var x := evs[n];
      Snoc(evs);
      assert x in multiset(evs');
      var j :| 0 <= j < |evs'| && evs'[j] == x;
      var a, b := evs'[..j], evs'[j + 1..];
      assert evs' == a + [x] + b;
      BumpsMove(a, x, b, r);
      TakeOne(evs, evs', j);
      BumpsSame(evs[..n], a + b, r);
    }
  }

  lemma TakeOne(evs: seq<Event>, evs': seq<Event>, j: nat)
    requires multiset(evs) == multiset(evs') && |evs| > 0 && j < |evs'| && evs'[j] == evs[|evs| - 1]
    ensures multiset(evs[..|evs| - 1]) == multiset(evs'[..j] + evs'[j + 1..])
  {
    var x, a, b := evs'[j], evs'[..j], evs'[j + 1..];
    assert evs == evs[..|evs| - 1] + [x];
    assert evs' == a + [x] + b;
    assert multiset(evs') == multiset(a) + multiset{x} + multiset(b);
    assert multiset(a + b) == multiset(a) + multiset(b);
    assert multiset(a + b) + multiset{x} == multiset(evs[..|evs| - 1]) + multiset{x};
    assert multiset(a + b) + multiset{x} - multiset{x} == multiset(a + b);
    assert multiset(evs[..|evs| - 1]) + multiset{x} - multiset{x} == multiset(evs[..|evs| - 1]);
  }

  lemma SameLength(evs: seq<Event>, evs': seq<Event>)
    requires multiset(evs) == multiset(evs')
    ensures |evs| == |evs'|
  {
    assert |multiset(evs)| == |evs| && |multiset(evs')| == |evs'|;
  }

  /** The same totals: everything but the gauges and the samples. */
  predicate SameTotals(x: Row, y: Row) {
    x == y.(pending := x.pending, inFlight := x.inFlight, wait := x.wait, run := x.run)
  }

  lemma {:induction false} RunBumps(evs: seq<Event>, n: nat, hs: seq<nat>, taskOf: nat -> nat, r: nat)
    requires LegalRun(evs, taskOf) && Lists(hs, evs) && r < n
    ensures |Run(evs, n).rows| == n && SameTotals(Run(evs, n).rows[r], Bumps(evs, r))
    decreases |evs|
  {
    hide Legal, EnvOf, StepSlot, Sampled, Gauged, HandleOk, Apply, Bump, Observe;
    if |evs| > 0 {
      var m, ev := evs[..|evs| - 1], evs[|evs| - 1];
      RunBumps(m, n, hs, taskOf, r);
      RunKeeps(m, n, hs, taskOf);
      var b := Run(m, n);
      var s := SlotFor(Lookup(b.slots, ev.handle), ev);
      assert s.task == ev.task;
      ObserveRow(b, ev, r);
      BumpTotals(b.rows[r], Bumps(m, r), ev, StepSlot(s, ev).1);
    }
  }

  lemma ObserveRow(b: Board, ev: Event, r: nat)
    requires r < |b.rows|
    ensures var s := SlotFor(Lookup(b.slots, ev.handle), ev);
            |Observe(b, ev).rows| == |b.rows|
            && Observe(b, ev).rows[r] == if Counts(r, s.task) then Apply(b.rows[r], ev, StepSlot(s, ev).1) else b.rows[r]
  {
    hide StepSlot, Apply;
  }

  lemma BumpTotals(x: Row, y: Row, ev: Event, e: Effect)
    requires SameTotals(x, y)
    ensures SameTotals(Apply(x, ev, e), Bump(y, ev))
  {
  }

  // ---- two orders of the same events ----

  lemma {:induction false} SameWaits(v: Env, v': Env, n: nat)
    requires v.starts == v'.starts && v.sources == v'.sources && v.ends == v'.ends
    ensures Waits(v, n) == Waits(v', n) && Runs(v, n) == Runs(v', n)
    decreases n
  {
    if n > 0 { SameWaits(v, v', n - 1); }
  }

  lemma {:induction false} SameTallies(evs: seq<Event>, evs': seq<Event>, hs: seq<nat>, taskOf: nat -> nat, r: nat)
    requires multiset(evs) == multiset(evs') && LegalRun(evs, taskOf) && LegalRun(evs', taskOf)
    requires AllComplete(evs, hs) && AllComplete(evs', hs)
    ensures AllWaits(evs, hs, taskOf, r) == AllWaits(evs', hs, taskOf, r) && AllRuns(evs, hs, taskOf, r) == AllRuns(evs', hs, taskOf, r)
    decreases |hs|
  {
    hide EnvOf, Complete, Waits, Runs, LegalRun, Recorded, EnvOk;
    if |hs| > 0 {
      var n := |hs| - 1;
      SameTallies(evs, evs', hs[..n], taskOf, r);
      var v, v' := EnvOf(evs, hs[n]), EnvOf(evs', hs[n]);
      RunRecords(evs, taskOf, hs[n]);
      RunRecords(evs', taskOf, hs[n]);
      SameRecord(evs, evs', hs[n], v, v');
      SameWaits(v, v', v.k);
    }
  }

  /** All the events of some handles, delivered in any two orders the engine's threads allow, leave the
      very same board: every total, gauge, sample count, sum and maximum, of every row. */
  lemma OrderIndependent(evs: seq<Event>, evs': seq<Event>, n: nat, hs: seq<nat>, taskOf: nat -> nat)
    requires multiset(evs) == multiset(evs') && LegalRun(evs, taskOf) && LegalRun(evs', taskOf)
    requires Lists(hs, evs) && AllComplete(evs, hs)
    ensures Run(evs, n) == Run(evs', n)
  {
    hide LegalRun, Lists, AllComplete, Run, Bumps, AllWaits, AllRuns, Handled, Gauged, AllStarts;
    SameListing(evs, evs', hs, taskOf);
    AllEventsIn(evs, n, hs, taskOf);
    AllEventsIn(evs', n, hs, taskOf);
    RunKeeps(evs, n, hs, taskOf);
    RunKeeps(evs', n, hs, taskOf);
    var b, b' := Run(evs, n), Run(evs', n);
    forall r | 0 <= r < n ensures b.rows[r] == b'.rows[r] {
      SameTallies(evs, evs', hs, taskOf, r);
      RunBumps(evs, n, hs, taskOf, r);
      RunBumps(evs', n, hs, taskOf, r);
      BumpsSame(evs, evs', r);
    }
  }

  // ---- a cancel that lands after an attempt's own failure ----

  /** QUEUED, STARTED, the attempt's own FAILED, and the cancel's FAILED of the same attempt: a run the
      contract allows, whole, with one run sample, up to the attempt's own end. */
  lemma LateCancelRun(h: nat, task: nat, queued: nat, started: nat, failed: nat, cancelled: nat)
    requires started <= failed
    ensures var evs := [Event(Queued, h, task, queued, false, 0), Event(Started, h, task, started, false, 1),
                        Event(Failed, h, task, failed, false, 1), Event(Failed, h, task, cancelled, true, 1)];
            && LegalRun(evs, _ => task) && Complete(EnvOf(evs, h))
            && Runs(EnvOf(evs, h), EnvOf(evs, h).k) == Tally(1, failed - started, failed - started)
  {
    var a, b := Event(Queued, h, task, queued, false, 0), Event(Started, h, task, started, false, 1);
    var c, d := Event(Failed, h, task, failed, false, 1), Event(Failed, h, task, cancelled, true, 1);
    assert [a, b, c, d][..3] == [a, b, c] && [a, b, c][..2] == [a, b] && [a, b][..1] == [a] && [a][..0] == [];
    var v1 := After(UNSEEN, a);
    var v2 := After(v1, b);
    var v3 := After(v2, c);
    assert EnvOf([a], h) == v1;
    assert EnvOf([a, b], h) == v2;
    assert EnvOf([a, b, c], h) == v3;
    assert EnvOf([a, b, c, d], h) == After(v3, d);
    assert LegalRun([a], _ => task);
    assert LegalRun([a, b], _ => task);
    assert LegalRun([a, b, c], _ => task);
    assert Runs(v3, 1) == AddIf(Runs(v3, 0), RunTerm(v3, 1));
  }
}
