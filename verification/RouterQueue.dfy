/** The router's own state, updated in place under its lock. */
module RouterQueue {
  import opened RouterHeap
  import opened Router

  class Balance {
    const q: Heap
    const cap: seq<nat>
    var byBh: map<nat, Place>
    var byEh: seq<map<nat, nat>>
    var load: seq<nat>
    var nextEh: seq<nat>
    var queued: nat
    var nextBh: nat
    var nextSeq: nat
    ghost var issued: set<nat>
    ghost var owed: multiset<nat>
    ghost var told: multiset<nat>

    ghost function View(): Desk
      reads this, q
    {
      Desk(q.contents, byBh, byEh, load, cap, nextEh, queued, nextBh, nextSeq, issued, owed, told)
    }

    ghost predicate Valid()
      reads this, q, q.a
    {
      q.Valid() && Ok(View())
    }

    constructor (depths: seq<nat>)
      ensures Valid() && View() == Open(depths) && fresh(q) && fresh(q.a)
    {
      q := new Heap();
      cap := depths;
      byBh := map[];
      byEh := seq(|depths|, _ => map[]);
      load := seq(|depths|, _ => 0);
      nextEh := seq(|depths|, _ => 1);
      queued, nextBh, nextSeq := 0, 0, 0;
      issued, owed, told := {}, multiset{}, multiset{};
      new;
      OpenOk(depths);
      assert View() == Open(depths);
    }

    /** The least-loaded shard with room, if any has. */
    method PickShard() returns (best: nat, found: bool)
      requires |load| == |cap|
      ensures found ==> BestOf(load, cap, best)
      ensures !found ==> forall i :: 0 <= i < |load| ==> load[i] >= cap[i]
    {
      best, found := 0, false;
      for i := 0 to |load|
        invariant found ==> best < i && BestOf(load[..i], cap[..i], best)
        invariant !found ==> forall k :: 0 <= k < i ==> load[k] >= cap[k]
      {
        if load[i] < cap[i] && (!found || load[i] < load[best]) { best, found := i, true; }
      }
    }

    method SendTo(bh: nat, s: nat)
      requires s < |byEh| == |load| == |nextEh|
      modifies this
      ensures View() == Send(old(View()), bh, s)
    {
      var eh := nextEh[s];
      queued := if queued > 0 then queued - 1 else 0;
      byBh := byBh[bh := Sent(s, eh)];
      byEh := byEh[s := Tracking(byEh[s], eh, bh)];
      load := load[s := load[s] + 1];
      nextEh := nextEh[s := eh + 1];
    }

    method ForgetItem(bh: nat)
      modifies this
      ensures View() == Forget(old(View()), bh)
    {
      if bh in byBh {
        byBh := byBh - {bh};
        queued := if queued > 0 then queued - 1 else 0;
        owed := owed + multiset{bh};
      }
    }

    /** An item off the heap, for shard `s`. */
    method RouteTo(e: Entry, s: nat, r: Reply)
      requires s < |byEh| == |load| == |nextEh|
      modifies this
      ensures View() == Route(old(View()), e, s, r)
    {
      hide Send, Forget;
      if e.bh in byBh {
        match r
        case Tracked => SendTo(e.bh, s);
        case Untracked =>
          nextEh := nextEh[s := nextEh[s] + 1];
          ForgetItem(e.bh);
        case Refused => ForgetItem(e.bh);
      }
    }

    /** One round: the head of the heap, for shard `s`. */
    method HandOne(s: nat, reply: nat -> Reply) returns (e: Entry)
      requires Valid() && q.n > 0 && s < |load| && load[s] < cap[s]
      modifies this, q, q.a
      ensures Valid() && q.a == old(q.a) && q.n == old(q.n) - 1
      ensures First(old(q.contents), e) && |old(load)| == |old(byEh)| == |old(nextEh)|
      ensures View() == Hand(old(View()), e, s, reply(e.bh))
    {
      hide Ok, First, Before, Heaped, Route;
      ghost var d := View();
      e := q.Pop();
      IsFirst(d.heap, e);
      HandOk(d, e, s, reply(e.bh));
      RouteTo(e, s, reply(e.bh));
    }

    /** dispatch_locked. It ends with nothing queued or every shard full to its depth. What it
        takes off the heap goes highest priority first and oldest first among equals, and nothing
        left behind comes before any of it. No one is told anything yet. It is a run of the machine:
        each item to the shard that is best then. */
    method Dispatch(reply: nat -> Reply) returns (taken: seq<Entry>, ghost steps: seq<Step>)
      requires Valid()
      modifies this, q, q.a
      ensures Valid() && q.a == old(q.a) && told == old(told) && issued == old(issued)
      ensures queued == 0 || AllFull(View())
      ensures InOrder(taken, q.contents) && Together(q.contents, taken, old(q.contents))
      ensures forall i, j :: 0 <= i < j < |taken| ==>
                taken[j].prio <= taken[i].prio && (taken[j].prio == taken[i].prio ==> taken[i].seqno <= taken[j].seqno)
      ensures forall i, x :: 0 <= i < |taken| && x in q.contents ==>
                x.prio <= taken[i].prio && (x.prio == taken[i].prio ==> taken[i].seqno <= x.seqno)
      ensures Reaches(old(View()), steps, View()) && HandsOver(steps, taken, reply)
    {
      hide Heaped, Before, HeapOk, ShardsOk, LedgerOk, InOrder, Together, First, WaitingOnes, Route, Reaches, Enabled, HandsOver;
      taken, steps := [], [];
      NothingTaken(q.contents);
      NoSteps(View(), reply);
      while queued > 0
        invariant Valid() && q.a == old(q.a) && told == old(told) && issued == old(issued)
        invariant InOrder(taken, q.contents) && Together(q.contents, taken, old(q.contents))
        invariant Reaches(old(View()), steps, View()) && HandsOver(steps, taken, reply)
        decreases q.n
      {
        SomeQueued(View());
        q.Nonempty();
        var s, found := PickShard();
        if !found { break; }
        assert BestOf(load, cap, s);
        ghost var d := View();
        var e := HandOne(s, reply);
        HandKeeps(d, e, s, reply(e.bh));
        TakeOne(taken, d.heap, e, old(q.contents));
        HandMore(old(View()), steps, d, taken, e, s, reply);
        taken, steps := taken + [e], steps + [HandStep(e, s, reply(e.bh))];
      }
      ByPriority(taken, q.contents);
    }

    /** observe: a terminal event frees the shard's place, and what can be handed over then is. */
    method Observe(s: nat, eh: nat, reply: nat -> Reply) returns (taken: seq<Entry>, ghost steps: seq<Step>)
      requires Valid() && s < |byEh|
      modifies this, q, q.a
      ensures Valid() && q.a == old(q.a) && told == old(told) && issued == old(issued)
      ensures eh !in old(byEh[s]) ==> View() == old(View())
      ensures eh in old(byEh[s]) ==> queued == 0 || AllFull(View())
      ensures Reaches(old(View()), [EventStep(s, eh)] + steps, View()) && HandsOver(steps, taken, reply)
    {
      hide Ok, Reaches, Enabled, HandsOver, Ended;
      taken, steps := [], [];
      ghost var d := View();
      MayEnd(d, s, eh);
      EndedOk(d, s, eh);
      if eh in byEh[s] {
        var bh := byEh[s][eh];
        byEh := byEh[s := byEh[s] - {eh}];
        byBh := byBh - {bh};
        load := load[s := if load[s] > 0 then load[s] - 1 else 0];
        owed := owed + multiset{bh};
        EndedIs(d, s, eh);
        taken, steps := Dispatch(reply);
      } else {
        EndedIs(d, s, eh);
        NoSteps(d, reply);
      }
      EventFirst(d, s, eh, steps, View());
    }

    /** gptps_balance_submit_ex, up to the point where other threads can reach the item. */
    method Enqueue(prio: int, memory: bool, heapMemory: bool) returns (ok: bool)
      requires Valid()
      modifies this, q, q.a
      ensures Valid() && (q.a == old(q.a) || fresh(q.a))
      ensures memory && heapMemory ==> ok
      ensures View() == Submit(old(View()), prio, ok)
    {
      hide Ok, Before, Heaped, Numbered, Bag;
      ghost var d := View();
      var e := Entry(prio, nextSeq + 1, nextBh + 1);
      ok := memory;
      if memory { ok := q.Push(e, heapMemory); }
      Number(e, ok);
      SubmitOk(d, prio, ok);
    }

    method Number(e: Entry, ok: bool)
      modifies this
      ensures View() == Numbered(old(View()), e, ok)
    {
      nextBh, nextSeq := nextBh + 1, nextSeq + 1;
      if ok { byBh, queued, issued := byBh[e.bh := Waiting(e)], queued + 1, issued + {e.bh}; }
    }

    method CancelQueued(bh: nat)
      requires Valid()
      modifies this
      ensures Valid() && View() == Cancel(old(View()), bh)
    {
      hide Ok;
      ghost var d := View();
      CancelOk(d, bh);
      if bh in byBh && byBh[bh].Waiting? {
        byBh := byBh - {bh};
        queued := if queued > 0 then queued - 1 else 0;
        owed := owed + multiset{bh};
      }
      assert View() == Cancel(d, bh);
    }

    /** gptps_balance_close: whatever is still queued is owed its terminal event. If every shard
        has ended what it took, then nothing is tracked any more. */
    method Close()
      requires Valid()
      modifies this, q, q.a
      ensures Valid() && q.a == old(q.a) && q.n == 0 && told == old(told) && issued == old(issued) && byEh == old(byEh)
      ensures (forall s :: 0 <= s < |byEh| ==> byEh[s] == map[]) ==>
                forall bh :: told[bh] + owed[bh] == One(bh in issued)
    {
      hide Ok, Before, Heaped, Forget;
      while q.n > 0
        invariant Valid() && q.a == old(q.a) && told == old(told) && issued == old(issued) && byEh == old(byEh)
        decreases q.n
      {
        ghost var d := View();
        var e := q.Pop();
        DropOk(d, e);
        ForgetItem(e.bh);
        DropKeeps(d, e);
      }
      AllAccounted(View());
    }
  }

  /** Every step hands over the item taken then. */
  ghost predicate HandsOver(steps: seq<Step>, taken: seq<Entry>, reply: nat -> Reply) {
    |steps| == |taken| && forall k :: 0 <= k < |steps| ==> steps[k].HandStep? && steps[k].e == taken[k] && steps[k].reply == reply(taken[k].bh)
  }

  lemma NoSteps(d: Desk, reply: nat -> Reply)
    ensures Reaches(d, [], d) && HandsOver([], [], reply)
  {
  }

  lemma {:induction false} ReachesOn(d: Desk, steps: seq<Step>, d1: Desk, step: Step)
    requires Reaches(d, steps, d1) && Enabled(d1, step)
    ensures Reaches(d, steps + [step], Do(d1, step))
    decreases |steps|
  {
    hide Enabled, Do;
    var all := steps + [step];
    if |steps| == 0 {
      assert all[1..] == [];
    } else {
      ReachesOn(Do(d, steps[0]), steps[1..], d1, step);
      assert all[1..] == steps[1..] + [step];
    }
  }

  lemma HandMore(d: Desk, steps: seq<Step>, d1: Desk, taken: seq<Entry>, e: Entry, s: nat, reply: nat -> Reply)
    requires Reaches(d, steps, d1) && HandsOver(steps, taken, reply) && Ok(d1) && d1.queued > 0 && First(d1.heap, e)
    requires BestOf(d1.load, d1.cap, s)
    ensures |d1.load| == |d1.byEh| == |d1.nextEh|
    ensures Reaches(d, steps + [HandStep(e, s, reply(e.bh))], Hand(d1, e, s, reply(e.bh)))
    ensures HandsOver(steps + [HandStep(e, s, reply(e.bh))], taken + [e], reply)
  {
    hide Reaches, HeapOk, ShardsOk, LedgerOk, First, Hand, WaitingOnes;
    assert Best(d1, s);
    ReachesOn(d, steps, d1, HandStep(e, s, reply(e.bh)));
  }

  lemma MayEnd(d: Desk, s: nat, eh: nat)
    requires Ok(d) && s < |d.byEh|
    ensures Enabled(d, EventStep(s, eh))
  {
    hide HeapOk, ShardsOk, LedgerOk, WaitingOnes;
  }

  lemma EndedIs(d: Desk, s: nat, eh: nat)
    requires s < |d.byEh| == |d.load|
    ensures Ended(d, s, eh) ==
              if eh !in d.byEh[s] then d
              else var bh := d.byEh[s][eh];
                   d.(byEh := d.byEh[s := d.byEh[s] - {eh}], byBh := d.byBh - {bh},
                      load := d.load[s := if d.load[s] > 0 then d.load[s] - 1 else 0], owed := d.owed + multiset{bh})
  {
  }

  lemma EventFirst(d: Desk, s: nat, eh: nat, steps: seq<Step>, d': Desk)
    requires s < |d.byEh| == |d.load| && Enabled(d, EventStep(s, eh)) && Reaches(Ended(d, s, eh), steps, d')
    ensures Reaches(d, [EventStep(s, eh)] + steps, d')
  {
    hide Enabled, Ended;
    assert ([EventStep(s, eh)] + steps)[1..] == steps;
  }

  lemma HandKeeps(d: Desk, e: Entry, s: nat, r: Reply)
    requires s < |d.byEh| == |d.load| == |d.nextEh|
    ensures var d' := Hand(d, e, s, r); d'.told == d.told && d'.issued == d.issued && d'.heap == d.heap - multiset{e}
  {
  }

  /** Taken in order, and nothing left comes before any of it. */
  ghost predicate InOrder(taken: seq<Entry>, left: multiset<Entry>) {
    && (forall i, j :: 0 <= i < j < |taken| ==> !Before(taken[j], taken[i]))
    && (forall i, x :: 0 <= i < |taken| && x in left ==> !Before(x, taken[i]))
  }

  ghost predicate Together(left: multiset<Entry>, taken: seq<Entry>, all: multiset<Entry>) {
    all == left + multiset(taken)
  }

  /** What the order means: the highest priority first, and the oldest first among equals. */
  lemma ByPriority(taken: seq<Entry>, left: multiset<Entry>)
    requires InOrder(taken, left)
    ensures forall i, j :: 0 <= i < j < |taken| ==>
              taken[j].prio <= taken[i].prio && (taken[j].prio == taken[i].prio ==> taken[i].seqno <= taken[j].seqno)
    ensures forall i, x :: 0 <= i < |taken| && x in left ==>
              x.prio <= taken[i].prio && (x.prio == taken[i].prio ==> taken[i].seqno <= x.seqno)
  {
  }

  lemma NothingTaken(heap: multiset<Entry>)
    ensures InOrder([], heap) && Together(heap, [], heap)
  {
  }

  lemma TakeOne(taken: seq<Entry>, heap: multiset<Entry>, e: Entry, all: multiset<Entry>)
    requires InOrder(taken, heap) && Together(heap, taken, all) && First(heap, e)
    ensures InOrder(taken + [e], heap - multiset{e}) && Together(heap - multiset{e}, taken + [e], all)
  {
    var t := taken + [e];
    forall i, j | 0 <= i < j < |t| ensures !Before(t[j], t[i]) {
      if j == |taken| { assert e in heap; }
    }
  }

  lemma DropKeeps(d: Desk, e: Entry)
    ensures Drop(d, e).told == d.told && Drop(d, e).issued == d.issued && Drop(d, e).byEh == d.byEh
  {
  }

  lemma IsFirst(heap: multiset<Entry>, e: Entry)
    requires e in heap && forall x :: x in heap ==> !Before(x, e)
    ensures First(heap, e)
  {
  }

  /** Something queued is in the heap. */
  lemma SomeQueued(d: Desk)
    requires Ok(d) && d.queued > 0
    ensures |d.heap| > 0 && |d.load| == |d.cap|
  {
    var bh :| bh in WaitingOnes(d.byBh);
    assert d.byBh[bh].e in d.heap;
  }

  lemma AllAccounted(d: Desk)
    requires Ok(d) && d.heap == multiset{}
    ensures (forall s :: 0 <= s < |d.byEh| ==> d.byEh[s] == map[]) ==> forall bh :: d.told[bh] + d.owed[bh] == One(bh in d.issued)
  {
    if forall s :: 0 <= s < |d.byEh| ==> d.byEh[s] == map[] {
      forall bh ensures d.told[bh] + d.owed[bh] == One(bh in d.issued) {
        assert d.told[bh] + d.owed[bh] + One(bh in d.byBh) == One(bh in d.issued);
        assert bh !in d.byBh;
      }
    }
  }
}
