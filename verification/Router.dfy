/** The late-binding router: what is queued, what each shard holds, and what each balance
    handle has been told. */
module Router {
  import opened RouterHeap

  /** Where a tracked item is: in the router's queue, or handed to a shard. */
  datatype Place = Waiting(e: Entry) | Sent(shard: nat, eh: nat)

  /** `owed`: terminal events decided under the lock, their callbacks still to run; `told`: the
      terminal events delivered; `issued`: the handles given out. */
  datatype Desk = Desk(heap: multiset<Entry>, byBh: map<nat, Place>, byEh: seq<map<nat, nat>>, load: seq<nat>, cap: seq<nat>,
                       nextEh: seq<nat>, queued: nat, nextBh: nat, nextSeq: nat,
                       issued: set<nat>, owed: multiset<nat>, told: multiset<nat>)

  /** What a shard's submit came to: refused; taken and tracked; or taken with no memory to
      track it. */
  datatype Reply = Refused | Tracked | Untracked

  function Open(caps: seq<nat>): Desk {
    Desk(multiset{}, map[], seq(|caps|, _ => map[]), seq(|caps|, _ => 0), caps, seq(|caps|, _ => 1), 0, 0, 0, {}, multiset{}, multiset{})
  }

  // ---- the steps, each under the router's lock ----

  /** The next numbers are used up; the item, if there was memory for it, is tracked. */
  function Numbered(d: Desk, e: Entry, ok: bool): Desk {
    var d1 := d.(nextBh := d.nextBh + 1, nextSeq := d.nextSeq + 1);
    if ok then d1.(byBh := d.byBh[e.bh := Waiting(e)], queued := d.queued + 1, issued := d.issued + {e.bh}) else d1
  }

  function Submit(d: Desk, prio: int, memory: bool): Desk {
    var e := Entry(prio, d.nextSeq + 1, d.nextBh + 1);
    Numbered(if memory then d.(heap := d.heap + multiset{e}) else d, e, memory)
  }

  /** The shard with room that holds least, the lowest-numbered of those. */
  ghost predicate BestOf(load: seq<nat>, cap: seq<nat>, s: nat) {
    && s < |load| == |cap| && load[s] < cap[s]
    && (forall i :: 0 <= i < |load| && load[i] < cap[i] ==> load[s] <= load[i])
    && (forall i :: 0 <= i < s && load[i] < cap[i] ==> load[s] < load[i])
  }

  ghost predicate Best(d: Desk, s: nat) {
    BestOf(d.load, d.cap, s)
  }

  predicate AllFull(d: Desk) {
    |d.load| == |d.cap| && forall i :: 0 <= i < |d.load| ==> d.load[i] >= d.cap[i]
  }

  /** Nothing queued comes before `e`. */
  ghost predicate First(heap: multiset<Entry>, e: Entry) {
    e in heap && forall x :: x in heap ==> !Before(x, e)
  }

  function Tracking(m: map<nat, nat>, eh: nat, bh: nat): map<nat, nat> {
    m[eh := bh]
  }

  /** An item tracked no more, and owed its terminal event. */
  function Forget(d: Desk, bh: nat): Desk {
    if bh !in d.byBh then d
    else d.(byBh := d.byBh - {bh}, queued := if d.queued > 0 then d.queued - 1 else 0, owed := d.owed + multiset{bh})
  }

  /** The shard took the item, under its next handle. */
  function Send(d: Desk, bh: nat, s: nat): Desk
    requires s < |d.byEh| == |d.load| == |d.nextEh|
  {
    var eh := d.nextEh[s];
    d.(queued := if d.queued > 0 then d.queued - 1 else 0, nextEh := d.nextEh[s := eh + 1],
       byBh := d.byBh[bh := Sent(s, eh)], byEh := d.byEh[s := Tracking(d.byEh[s], eh, bh)], load := d.load[s := d.load[s] + 1])
  }

  /** An item off the heap: nothing if it was cancelled, else handed to shard `s`. */
  function Route(d: Desk, e: Entry, s: nat, reply: Reply): Desk
    requires s < |d.byEh| == |d.load| == |d.nextEh|
  {
    if e.bh !in d.byBh then d
    else match reply
    case Tracked => Send(d, e.bh, s)
    case Untracked => Forget(d.(nextEh := d.nextEh[s := d.nextEh[s] + 1]), e.bh)
    case Refused => Forget(d, e.bh)
  }

  /** One round of dispatch_locked. */
  function Hand(d: Desk, e: Entry, s: nat, reply: Reply): Desk
    requires s < |d.byEh| == |d.load| == |d.nextEh|
  {
    Route(d.(heap := d.heap - multiset{e}), e, s, reply)
  }

  /** observe: a terminal event of a shard's handle, if it is one the router tracks. */
  function Ended(d: Desk, s: nat, eh: nat): Desk
    requires s < |d.byEh| == |d.load|
  {
    if eh !in d.byEh[s] then d
    else
      var bh := d.byEh[s][eh];
      d.(byEh := d.byEh[s := d.byEh[s] - {eh}], byBh := d.byBh - {bh},
         load := d.load[s := if d.load[s] > 0 then d.load[s] - 1 else 0], owed := d.owed + multiset{bh})
  }

  /** gptps_balance_cancel of an item still queued: it stays in the heap, to be skipped. One a
      shard holds is the shard's to end. */
  function Cancel(d: Desk, bh: nat): Desk {
    if bh in d.byBh && d.byBh[bh].Waiting? then
      d.(byBh := d.byBh - {bh}, queued := if d.queued > 0 then d.queued - 1 else 0, owed := d.owed + multiset{bh})
    else d
  }

  /** gptps_balance_close: one item still in the heap. */
  function Drop(d: Desk, e: Entry): Desk {
    Forget(d.(heap := d.heap - multiset{e}), e.bh)
  }

  /** A callback runs, with no lock held. */
  function Tell(d: Desk, bh: nat): Desk {
    d.(owed := d.owed - multiset{bh}, told := d.told + multiset{bh})
  }

  // ---- what every step keeps ----

  ghost function WaitingOnes(byBh: map<nat, Place>): set<nat> {
    set bh | bh in byBh && byBh[bh].Waiting?
  }

  ghost predicate HeapOk(heap: multiset<Entry>, byBh: map<nat, Place>, nextBh: nat) {
    && (forall e :: e in heap ==> heap[e] == 1 && e.seqno == e.bh && 1 <= e.bh <= nextBh)
    && (forall e, f :: e in heap && f in heap && e.bh == f.bh ==> e == f)
    && (forall e :: e in heap && e.bh in byBh ==> byBh[e.bh] == Waiting(e))
    && (forall bh :: bh in byBh && byBh[bh].Waiting? ==> byBh[bh].e in heap && byBh[bh].e.bh == bh)
  }

  /** A shard's table holds exactly the items tracked there. */
  ghost predicate ShardsOk(byBh: map<nat, Place>, byEh: seq<map<nat, nat>>) {
    && (forall bh :: bh in byBh && byBh[bh].Sent? ==>
          var p := byBh[bh]; p.shard < |byEh| && p.eh in byEh[p.shard] && byEh[p.shard][p.eh] == bh)
    && (forall s, eh :: 0 <= s < |byEh| && eh in byEh[s] ==> byEh[s][eh] in byBh && byBh[byEh[s][eh]] == Sent(s, eh))
  }

  /** A shard's load is the number of items tracked there, and never exceeds its depth. */
  ghost predicate LoadsOk(byEh: seq<map<nat, nat>>, load: seq<nat>, cap: seq<nat>, nextEh: seq<nat>) {
    && |byEh| == |load| == |cap| == |nextEh|
    && (forall s :: 0 <= s < |byEh| ==> load[s] == |byEh[s]| <= cap[s] && nextEh[s] >= 1)
    && (forall s, eh :: 0 <= s < |byEh| && eh in byEh[s] ==> 1 <= eh < nextEh[s])
  }

  function One(b: bool): nat { if b then 1 else 0 }

  /** Every handle given out is tracked, or owed its terminal event, or has been told: exactly
      one of these, and exactly once. */
  ghost predicate LedgerOk(byBh: map<nat, Place>, issued: set<nat>, owed: multiset<nat>, told: multiset<nat>, nextBh: nat) {
    && (forall bh :: told[bh] + owed[bh] + One(bh in byBh) == One(bh in issued))
    && (forall bh :: bh in issued ==> 1 <= bh <= nextBh)
  }

  ghost predicate Ok(d: Desk) {
    && HeapOk(d.heap, d.byBh, d.nextBh) && d.queued == |WaitingOnes(d.byBh)| && d.nextSeq == d.nextBh
    && ShardsOk(d.byBh, d.byEh) && LoadsOk(d.byEh, d.load, d.cap, d.nextEh)
    && LedgerOk(d.byBh, d.issued, d.owed, d.told, d.nextBh)
  }

  // ---- one item at a time ----

  lemma OneMoreSet(a: set<nat>, b: set<nat>, h: nat)
    requires a - {h} == b - {h}
    ensures |b| == |a| + One(h in b) - One(h in a)
  {
    var others := a - {h};
    assert a == others + (if h in a then {h} else {});
    assert b == others + (if h in b then {h} else {});
  }

  lemma WaitingSet(byBh: map<nat, Place>, bh: nat, p: Place)
    ensures |WaitingOnes(byBh[bh := p])| == |WaitingOnes(byBh)| + One(p.Waiting?) - One(bh in byBh && byBh[bh].Waiting?)
    ensures |WaitingOnes(byBh - {bh})| == |WaitingOnes(byBh)| - One(bh in byBh && byBh[bh].Waiting?)
  {
    var a := WaitingOnes(byBh);
    assert WaitingOnes(byBh[bh := p]) - {bh} == a - {bh};
    assert WaitingOnes(byBh - {bh}) - {bh} == a - {bh};
    OneMoreSet(a, WaitingOnes(byBh[bh := p]), bh);
    OneMoreSet(a, WaitingOnes(byBh - {bh}), bh);
  }

  lemma Unissued(byBh: map<nat, Place>, issued: set<nat>, owed: multiset<nat>, told: multiset<nat>, nextBh: nat, bh: nat)
    requires LedgerOk(byBh, issued, owed, told, nextBh) && bh > nextBh
    ensures bh !in issued && bh !in byBh && bh !in owed && bh !in told
  {
    assert told[bh] + owed[bh] + One(bh in byBh) == One(bh in issued);
  }

  lemma LedgerIssue(byBh: map<nat, Place>, issued: set<nat>, owed: multiset<nat>, told: multiset<nat>, nextBh: nat, p: Place)
    requires LedgerOk(byBh, issued, owed, told, nextBh)
    ensures LedgerOk(byBh[nextBh + 1 := p], issued + {nextBh + 1}, owed, told, nextBh + 1)
    ensures LedgerOk(byBh, issued, owed, told, nextBh + 1)
  {
    Unissued(byBh, issued, owed, told, nextBh, nextBh + 1);
  }

  /** An item tracked no longer is owed its terminal event. */
  lemma LedgerOwe(byBh: map<nat, Place>, issued: set<nat>, owed: multiset<nat>, told: multiset<nat>, nextBh: nat, bh: nat)
    requires LedgerOk(byBh, issued, owed, told, nextBh) && bh in byBh
    ensures LedgerOk(byBh - {bh}, issued, owed + multiset{bh}, told, nextBh)
  {
    var byBh', owed' := byBh - {bh}, owed + multiset{bh};
    forall x ensures told[x] + owed'[x] + One(x in byBh') == One(x in issued) {
      assert told[x] + owed[x] + One(x in byBh) == One(x in issued);
    }
  }

  lemma LedgerMove(byBh: map<nat, Place>, issued: set<nat>, owed: multiset<nat>, told: multiset<nat>, nextBh: nat, bh: nat, p: Place)
    requires LedgerOk(byBh, issued, owed, told, nextBh) && bh in byBh
    ensures LedgerOk(byBh[bh := p], issued, owed, told, nextBh)
  {
    var byBh' := byBh[bh := p];
    forall x ensures told[x] + owed[x] + One(x in byBh') == One(x in issued) {
      assert told[x] + owed[x] + One(x in byBh) == One(x in issued);
    }
  }

  lemma HeapAdd(heap: multiset<Entry>, byBh: map<nat, Place>, nextBh: nat, e: Entry)
    requires HeapOk(heap, byBh, nextBh) && e.bh == e.seqno == nextBh + 1 && e.bh !in byBh
    ensures HeapOk(heap + multiset{e}, byBh[e.bh := Waiting(e)], nextBh + 1)
    ensures HeapOk(heap, byBh, nextBh + 1)
  {
  }

  lemma HeapTake(heap: multiset<Entry>, byBh: map<nat, Place>, nextBh: nat, e: Entry)
    requires HeapOk(heap, byBh, nextBh) && e in heap
    ensures e.bh !in byBh ==> HeapOk(heap - multiset{e}, byBh, nextBh)
    ensures e.bh in byBh ==> HeapOk(heap - multiset{e}, byBh - {e.bh}, nextBh)
  {
    var rest := heap - multiset{e};
    assert forall f :: f in rest <==> f in heap && f != e;
  }

  lemma HeapSend(heap: multiset<Entry>, byBh: map<nat, Place>, nextBh: nat, e: Entry, s: nat, eh: nat)
    requires HeapOk(heap, byBh, nextBh) && e in heap
    ensures HeapOk(heap - multiset{e}, byBh[e.bh := Sent(s, eh)], nextBh)
  {
    var rest := heap - multiset{e};
    assert forall f :: f in rest <==> f in heap && f != e;
  }

  /** A queued item withdrawn: it stays in the heap. */
  lemma HeapForget(heap: multiset<Entry>, byBh: map<nat, Place>, nextBh: nat, bh: nat)
    requires HeapOk(heap, byBh, nextBh)
    ensures HeapOk(heap, byBh - {bh}, nextBh)
  {
  }

  lemma ShardsForget(byBh: map<nat, Place>, byEh: seq<map<nat, nat>>, bh: nat)
    requires ShardsOk(byBh, byEh) && (bh in byBh ==> byBh[bh].Waiting?)
    ensures ShardsOk(byBh - {bh}, byEh)
  {
  }

  lemma ShardsQueue(byBh: map<nat, Place>, byEh: seq<map<nat, nat>>, e: Entry)
    requires ShardsOk(byBh, byEh) && e.bh !in byBh
    ensures ShardsOk(byBh[e.bh := Waiting(e)], byEh)
  {
  }

  lemma ShardsSend(byBh: map<nat, Place>, byEh: seq<map<nat, nat>>, bh: nat, s: nat, eh: nat)
    requires ShardsOk(byBh, byEh) && bh in byBh && byBh[bh].Waiting? && s < |byEh| && eh !in byEh[s]
    ensures ShardsOk(byBh[bh := Sent(s, eh)], byEh[s := Tracking(byEh[s], eh, bh)])
  {
  }

  lemma ShardsEnd(byBh: map<nat, Place>, byEh: seq<map<nat, nat>>, s: nat, eh: nat)
    requires ShardsOk(byBh, byEh) && s < |byEh| && eh in byEh[s]
    ensures ShardsOk(byBh - {byEh[s][eh]}, byEh[s := byEh[s] - {eh}])
  {
    var bh, byBh', byEh' := byEh[s][eh], byBh - {byEh[s][eh]}, byEh[s := byEh[s] - {eh}];
    forall t, x | 0 <= t < |byEh'| && x in byEh'[t] ensures byEh'[t][x] in byBh' && byBh'[byEh'[t][x]] == Sent(t, x) {
      assert byBh[byEh[t][x]] == Sent(t, x);
    }
  }

  lemma LoadsSend(byEh: seq<map<nat, nat>>, load: seq<nat>, cap: seq<nat>, nextEh: seq<nat>, s: nat, bh: nat)
    requires LoadsOk(byEh, load, cap, nextEh) && s < |load| && load[s] < cap[s]
    ensures nextEh[s] !in byEh[s]
    ensures LoadsOk(byEh[s := Tracking(byEh[s], nextEh[s], bh)], load[s := load[s] + 1], cap, nextEh[s := nextEh[s] + 1])
    ensures LoadsOk(byEh, load, cap, nextEh[s := nextEh[s] + 1])
  {
    var m := byEh[s];
    assert Tracking(m, nextEh[s], bh).Keys == m.Keys + {nextEh[s]};
  }

  lemma LoadsEnd(byEh: seq<map<nat, nat>>, load: seq<nat>, cap: seq<nat>, nextEh: seq<nat>, s: nat, eh: nat)
    requires LoadsOk(byEh, load, cap, nextEh) && s < |load| && eh in byEh[s]
    ensures load[s] > 0 && LoadsOk(byEh[s := byEh[s] - {eh}], load[s := load[s] - 1], cap, nextEh)
  {
    var m := byEh[s];
    assert (m - {eh}).Keys == m.Keys - {eh};
  }

  // ---- every step keeps it ----

  lemma OpenOk(caps: seq<nat>)
    ensures Ok(Open(caps))
  {
    assert WaitingOnes(map[]) == {};
  }

  lemma SubmitOk(d: Desk, prio: int, memory: bool)
    requires Ok(d)
    ensures Ok(Submit(d, prio, memory))
  {
    hide HeapOk, ShardsOk, LoadsOk, LedgerOk, WaitingOnes;
    var e := Entry(prio, d.nextSeq + 1, d.nextBh + 1);
    Unissued(d.byBh, d.issued, d.owed, d.told, d.nextBh, e.bh);
    LedgerIssue(d.byBh, d.issued, d.owed, d.told, d.nextBh, Waiting(e));
    HeapAdd(d.heap, d.byBh, d.nextBh, e);
    ShardsQueue(d.byBh, d.byEh, e);
    WaitingSet(d.byBh, e.bh, Waiting(e));
  }

  lemma HandOk(d: Desk, e: Entry, s: nat, reply: Reply)
    requires Ok(d) && e in d.heap && s < |d.load| && d.load[s] < d.cap[s]
    ensures |d.load| == |d.byEh| == |d.nextEh| && Ok(Hand(d, e, s, reply))
  {
    hide ShardsOk, LedgerOk, WaitingOnes, HeapOk;
    assert |d.load| == |d.byEh| == |d.nextEh|;
    if e.bh !in d.byBh {
      HeapTake(d.heap, d.byBh, d.nextBh, e);
    } else if reply == Tracked {
      SentOk(d, e, s);
    } else {
      RefusedOk(d, e, s, reply);
    }
  }

  lemma SentOk(d: Desk, e: Entry, s: nat)
    requires Ok(d) && e in d.heap && e.bh in d.byBh && s < |d.load| == |d.byEh| == |d.nextEh| == |d.cap| && d.load[s] < d.cap[s]
    ensures Ok(Hand(d, e, s, Tracked))
  {
    hide ShardsOk, LedgerOk, WaitingOnes, HeapOk, LoadsOk, Tracking;
    LoadsSend(d.byEh, d.load, d.cap, d.nextEh, s, e.bh);
    HeapIs(d.heap, d.byBh, d.nextBh, e);
    HeapSend(d.heap, d.byBh, d.nextBh, e, s, d.nextEh[s]);
    WaitingSet(d.byBh, e.bh, Sent(s, d.nextEh[s]));
    ShardsSend(d.byBh, d.byEh, e.bh, s, d.nextEh[s]);
    LedgerMove(d.byBh, d.issued, d.owed, d.told, d.nextBh, e.bh, Sent(s, d.nextEh[s]));
  }

  lemma RefusedOk(d: Desk, e: Entry, s: nat, reply: Reply)
    requires Ok(d) && e in d.heap && e.bh in d.byBh && s < |d.load| == |d.byEh| == |d.nextEh| == |d.cap| && d.load[s] < d.cap[s] && reply != Tracked
    ensures Ok(Hand(d, e, s, reply))
  {
    hide ShardsOk, LedgerOk, WaitingOnes, HeapOk, LoadsOk;
    LoadsSend(d.byEh, d.load, d.cap, d.nextEh, s, e.bh);
    HeapIs(d.heap, d.byBh, d.nextBh, e);
    HeapTake(d.heap, d.byBh, d.nextBh, e);
    WaitingSet(d.byBh, e.bh, Sent(0, 0));
    ShardsForget(d.byBh, d.byEh, e.bh);
    LedgerOwe(d.byBh, d.issued, d.owed, d.told, d.nextBh, e.bh);
  }

  lemma HeapIs(heap: multiset<Entry>, byBh: map<nat, Place>, nextBh: nat, e: Entry)
    requires HeapOk(heap, byBh, nextBh) && e in heap && e.bh in byBh
    ensures byBh[e.bh] == Waiting(e) && |WaitingOnes(byBh)| > 0
  {
    assert e.bh in WaitingOnes(byBh);
  }

  lemma EndedOk(d: Desk, s: nat, eh: nat)
    requires Ok(d) && s < |d.byEh|
    ensures |d.byEh| == |d.load| && Ok(Ended(d, s, eh))
  {
    hide HeapOk, LedgerOk, WaitingOnes;
    if eh in d.byEh[s] {
      var bh := d.byEh[s][eh];
      HeapForget(d.heap, d.byBh, d.nextBh, bh);
      WaitingSet(d.byBh, bh, Sent(s, eh));
      ShardsEnd(d.byBh, d.byEh, s, eh);
      LoadsEnd(d.byEh, d.load, d.cap, d.nextEh, s, eh);
      LedgerOwe(d.byBh, d.issued, d.owed, d.told, d.nextBh, bh);
    }
  }

  lemma CancelOk(d: Desk, bh: nat)
    requires Ok(d)
    ensures Ok(Cancel(d, bh))
  {
    hide HeapOk, ShardsOk, LoadsOk, LedgerOk;
    if bh in d.byBh && d.byBh[bh].Waiting? {
      assert bh in WaitingOnes(d.byBh);
      HeapForget(d.heap, d.byBh, d.nextBh, bh);
      ShardsForget(d.byBh, d.byEh, bh);
      WaitingSet(d.byBh, bh, Sent(0, 0));
      LedgerOwe(d.byBh, d.issued, d.owed, d.told, d.nextBh, bh);
    }
  }

  lemma DropOk(d: Desk, e: Entry)
    requires Ok(d) && e in d.heap
    ensures Ok(Drop(d, e))
  {
    hide HeapOk, ShardsOk, LoadsOk, LedgerOk, WaitingOnes;
    HeapTake(d.heap, d.byBh, d.nextBh, e);
    if e.bh in d.byBh {
      HeapIs(d.heap, d.byBh, d.nextBh, e);
      ShardsForget(d.byBh, d.byEh, e.bh);
      WaitingSet(d.byBh, e.bh, Sent(0, 0));
      LedgerOwe(d.byBh, d.issued, d.owed, d.told, d.nextBh, e.bh);
    }
  }

  lemma TellOk(d: Desk, bh: nat)
    requires Ok(d) && bh in d.owed
    ensures Ok(Tell(d, bh))
  {
    hide HeapOk, ShardsOk, LoadsOk, WaitingOnes;
    var d' := Tell(d, bh);
    forall x ensures d'.told[x] + d'.owed[x] + One(x in d'.byBh) == One(x in d'.issued) {
      assert d.told[x] + d.owed[x] + One(x in d.byBh) == One(x in d.issued);
    }
  }

  // ---- every run ----

  datatype Step =
    | SubmitStep(prio: int, memory: bool)
    | HandStep(e: Entry, s: nat, reply: Reply)
    | EventStep(s: nat, eh: nat)
    | CancelStep(bh: nat)
    | DropStep(e: Entry)
    | TellStep(bh: nat)

  /** A shard may report the end of any handle, any number of times. */
  ghost predicate Enabled(d: Desk, step: Step) {
    |d.byEh| == |d.load| == |d.cap| == |d.nextEh| &&
    match step
    case SubmitStep(prio, memory) => true
    case HandStep(e, s, reply) => d.queued > 0 && First(d.heap, e) && Best(d, s)
    case EventStep(s, eh) => s < |d.byEh|
    case CancelStep(bh) => true
    case DropStep(e) => First(d.heap, e)
    case TellStep(bh) => bh in d.owed
  }

  ghost function Do(d: Desk, step: Step): Desk
    requires Enabled(d, step)
  {
    match step
    case SubmitStep(prio, memory) => Submit(d, prio, memory)
    case HandStep(e, s, reply) => Hand(d, e, s, reply)
    case EventStep(s, eh) => Ended(d, s, eh)
    case CancelStep(bh) => Cancel(d, bh)
    case DropStep(e) => Drop(d, e)
    case TellStep(bh) => Tell(d, bh)
  }

  ghost predicate Reaches(d: Desk, steps: seq<Step>, d': Desk)
    decreases |steps|
  {
    if |steps| == 0 then d == d' else Enabled(d, steps[0]) && Reaches(Do(d, steps[0]), steps[1..], d')
  }

  lemma StepOk(d: Desk, step: Step)
    requires Ok(d) && Enabled(d, step)
    ensures Ok(Do(d, step))
  {
    hide Ok, Submit, Hand, Ended, Cancel, Drop, Tell;
    match step
    case SubmitStep(prio, memory) => SubmitOk(d, prio, memory);
    case HandStep(e, s, reply) => HandOk(d, e, s, reply);
    case EventStep(s, eh) => EndedOk(d, s, eh);
    case CancelStep(bh) => CancelOk(d, bh);
    case DropStep(e) => DropOk(d, e);
    case TellStep(bh) => TellOk(d, bh);
  }

  lemma {:induction false} RunOk(d: Desk, steps: seq<Step>, d': Desk)
    requires Ok(d) && Reaches(d, steps, d')
    ensures Ok(d')
    decreases |steps|
  {
    hide Ok, Enabled, Do;
    if |steps| > 0 {
      StepOk(d, steps[0]);
      RunOk(Do(d, steps[0]), steps[1..], d');
    }
  }

  /** In every run, whatever the shards report and however often, no balance handle is told of
      its end twice; and none that was not given out is told of anything. */
  lemma AtMostOneTerminal(caps: seq<nat>, steps: seq<Step>, d: Desk, bh: nat)
    requires Reaches(Open(caps), steps, d)
    ensures d.told[bh] <= 1 && (bh in d.told ==> bh in d.issued && bh !in d.byBh && bh !in d.owed)
  {
    hide Reaches, HeapOk, ShardsOk, LoadsOk;
    OpenOk(caps);
    RunOk(Open(caps), steps, d);
    assert d.told[bh] + d.owed[bh] + One(bh in d.byBh) == One(bh in d.issued);
  }

  /** Once the heap is empty, every shard has ended what it took, and the callbacks have run,
      every handle given out has been told exactly once. */
  lemma ExactlyOneTerminal(caps: seq<nat>, steps: seq<Step>, d: Desk, bh: nat)
    requires Reaches(Open(caps), steps, d) && bh in d.issued
    requires d.heap == multiset{} && d.owed == multiset{} && forall s :: 0 <= s < |d.byEh| ==> d.byEh[s] == map[]
    ensures d.told[bh] == 1
  {
    hide Reaches;
    OpenOk(caps);
    RunOk(Open(caps), steps, d);
    assert d.told[bh] + d.owed[bh] + One(bh in d.byBh) == One(bh in d.issued);
  }

  /** In every run a shard's load is what it holds, and within its depth; and `queued` counts the
      items still to be handed over. */
  lemma BoundedAndExact(caps: seq<nat>, steps: seq<Step>, d: Desk, s: nat)
    requires Reaches(Open(caps), steps, d) && s < |d.load|
    ensures |d.load| == |d.byEh| == |d.cap| && d.load[s] == |d.byEh[s]| <= d.cap[s] && d.queued == |WaitingOnes(d.byBh)|
  {
    hide Reaches, HeapOk, ShardsOk, LedgerOk;
    OpenOk(caps);
    RunOk(Open(caps), steps, d);
  }

  // ---- what becomes of an item ----

  /** How far an item is from its end: queued, a shard's, owed its terminal event, told. */
  function Rank(d: Desk, bh: nat): nat {
    if bh in d.byBh then (if d.byBh[bh].Waiting? then 3 else 2) else if bh in d.owed then 1 else 0
  }

  predicate SameItem(d: Desk, d': Desk, bh: nat) {
    (bh in d'.byBh <==> bh in d.byBh) && (bh in d.byBh ==> d'.byBh[bh] == d.byBh[bh]) && d'.owed[bh] == d.owed[bh] && d'.told[bh] == d.told[bh]
  }

  /** The item a step is a step of. */
  predicate About(d: Desk, step: Step, bh: nat) {
    match step
    case SubmitStep(prio, memory) => memory && bh == d.nextBh + 1
    case HandStep(e, s, reply) => bh == e.bh && bh in d.byBh
    case EventStep(s, eh) => s < |d.byEh| && eh in d.byEh[s] && d.byEh[s][eh] == bh
    case CancelStep(x) => x == bh && bh in d.byBh && d.byBh[bh].Waiting?
    case DropStep(e) => bh == e.bh && bh in d.byBh
    case TellStep(x) => x == bh
  }

  /** Every step brings the item it is about nearer its end and leaves the others as they are. An item a
      shard takes is that shard's under its next handle; one that is refused, withdrawn, dropped or reported
      as ended is owed its terminal event; and the callback tells it. */
  lemma StepAdvances(d: Desk, step: Step, bh: nat)
    requires Ok(d) && Enabled(d, step) && !step.SubmitStep?
    ensures !About(d, step, bh) ==> SameItem(d, Do(d, step), bh)
    ensures About(d, step, bh) ==>
              var d' := Do(d, step);
              && Rank(d', bh) < Rank(d, bh)
              && match step
                 case HandStep(e, s, reply) => if reply == Tracked then s < |d.nextEh| && bh in d'.byBh && d'.byBh[bh] == Sent(s, d.nextEh[s]) else Rank(d', bh) == 1
                 case TellStep(x) => d'.told[bh] == d.told[bh] + 1
                 case _ => Rank(d', bh) == 1
  {
    hide WaitingOnes, Before, HeapOk, ShardsOk, LoadsOk, LedgerOk, Hand, Ended, Cancel, Drop, Tell, SameItem, Rank;
    match step
    case HandStep(e, s, reply) => HandAdvances(d, e, s, reply, bh);
    case EventStep(s, eh) => EndAdvances(d, s, eh, bh);
    case CancelStep(x) => CancelAdvances(d, x, bh);
    case DropStep(e) => DropAdvances(d, e, bh);
    case TellStep(x) => TellAdvances(d, x, bh);
  }

  lemma CancelAdvances(d: Desk, x: nat, bh: nat)
    ensures var d' := Cancel(d, x);
            if x == bh && bh in d.byBh && d.byBh[bh].Waiting? then Rank(d, bh) == 3 && Rank(d', bh) == 1 else SameItem(d, d', bh)
  {
  }

  lemma TellAdvances(d: Desk, x: nat, bh: nat)
    requires LedgerOk(d.byBh, d.issued, d.owed, d.told, d.nextBh) && x in d.owed
    ensures var d' := Tell(d, x);
            if x == bh then Rank(d', bh) < Rank(d, bh) && d'.told[bh] == d.told[bh] + 1 else SameItem(d, d', bh)
  {
    assert d.told[bh] + d.owed[bh] + One(bh in d.byBh) == One(bh in d.issued);
  }

  lemma HandAdvances(d: Desk, e: Entry, s: nat, reply: Reply, bh: nat)
    requires HeapOk(d.heap, d.byBh, d.nextBh) && e in d.heap && s < |d.byEh| == |d.load| == |d.nextEh|
    ensures var d' := Hand(d, e, s, reply);
            if bh != e.bh || bh !in d.byBh then SameItem(d, d', bh)
            else Rank(d, bh) == 3 && if reply == Tracked then Rank(d', bh) == 2 && bh in d'.byBh && d'.byBh[bh] == Sent(s, d.nextEh[s]) else Rank(d', bh) == 1
  {
  }

  lemma EndAdvances(d: Desk, s: nat, eh: nat, bh: nat)
    requires ShardsOk(d.byBh, d.byEh) && s < |d.byEh| == |d.load|
    ensures var d' := Ended(d, s, eh);
            if eh in d.byEh[s] && d.byEh[s][eh] == bh then Rank(d, bh) == 2 && Rank(d', bh) == 1 else SameItem(d, d', bh)
  {
  }

  lemma DropAdvances(d: Desk, e: Entry, bh: nat)
    requires HeapOk(d.heap, d.byBh, d.nextBh) && e in d.heap
    ensures var d' := Drop(d, e);
            if bh != e.bh || bh !in d.byBh then SameItem(d, d', bh) else Rank(d, bh) == 3 && Rank(d', bh) == 1
  {
  }

  // ---- the numbers ----

  function Submits(steps: seq<Step>): nat {
    if |steps| == 0 then 0 else Submits(steps[1..]) + if steps[0].SubmitStep? then 1 else 0
  }

  /** How many items shard `s` takes in the run: those still wanted that it does not refuse. */
  ghost function Takes(d: Desk, steps: seq<Step>, s: nat, d': Desk): nat
    requires Reaches(d, steps, d')
    decreases |steps|
  {
    if |steps| == 0 then 0
    else
      var step := steps[0];
      Takes(Do(d, step), steps[1..], s, d') + if step.HandStep? && step.s == s && step.e.bh in d.byBh && step.reply != Refused then 1 else 0
  }

  lemma StepNumbers(d: Desk, step: Step, s: nat)
    requires Enabled(d, step) && s < |d.nextEh|
    ensures var d' := Do(d, step);
            && d'.nextBh == d.nextBh + (if step.SubmitStep? then 1 else 0) && d'.nextSeq == d.nextSeq + (if step.SubmitStep? then 1 else 0)
            && |d'.nextEh| == |d.nextEh|
            && d'.nextEh[s] == d.nextEh[s] + if step.HandStep? && step.s == s && step.e.bh in d.byBh && step.reply != Refused then 1 else 0
  {
    hide First, Hand;
    match step
    case SubmitStep(prio, memory) =>
    case HandStep(e, t, reply) => HandNumbers(d, e, t, reply, s);
    case EventStep(t, eh) =>
    case CancelStep(bh) =>
    case DropStep(e) =>
    case TellStep(bh) =>
  }

  lemma HandNumbers(d: Desk, e: Entry, t: nat, reply: Reply, s: nat)
    requires t < |d.byEh| == |d.load| == |d.nextEh| && s < |d.nextEh|
    ensures var d' := Hand(d, e, t, reply);
            && d'.nextBh == d.nextBh && d'.nextSeq == d.nextSeq && |d'.nextEh| == |d.nextEh|
            && d'.nextEh[s] == d.nextEh[s] + if t == s && e.bh in d.byBh && reply != Refused then 1 else 0
  {
  }

  lemma {:induction false} RunNumbers(d: Desk, steps: seq<Step>, s: nat, d': Desk)
    requires Reaches(d, steps, d') && s < |d.nextEh|
    ensures d'.nextBh == d.nextBh + Submits(steps) && d'.nextSeq == d.nextSeq + Submits(steps)
    ensures |d'.nextEh| == |d.nextEh| && d'.nextEh[s] == d.nextEh[s] + Takes(d, steps, s, d')
    decreases |steps|
  {
    hide Enabled, Do;
    if |steps| > 0 {
      StepNumbers(d, steps[0], s);
      RunNumbers(Do(d, steps[0]), steps[1..], s, d');
    }
  }

  /** In every run submits are numbered in order, whether there is memory for them or not: the next is
      queued under its number, which is its handle and its place among equals. And the router counts the
      items each shard has taken, tracked or not, as the shard itself does: from 1. */
  lemma NumberedInOrder(caps: seq<nat>, steps: seq<Step>, d: Desk, s: nat, prio: int)
    requires Reaches(Open(caps), steps, d) && s < |caps|
    ensures |d.nextEh| == |caps| && d.nextEh[s] == 1 + Takes(Open(caps), steps, s, d)
    ensures var (n, d') := (Submits(steps) + 1, Submit(d, prio, true));
            n !in d.byBh && n in d'.byBh && d'.byBh[n] == Waiting(Entry(prio, n, n)) && d'.byBh[n].e in d'.heap
  {
    hide Reaches, HeapOk, ShardsOk, LoadsOk;
    RunNumbers(Open(caps), steps, s, d);
    OpenOk(caps);
    RunOk(Open(caps), steps, d);
    Unissued(d.byBh, d.issued, d.owed, d.told, d.nextBh, d.nextBh + 1);
  }
}
