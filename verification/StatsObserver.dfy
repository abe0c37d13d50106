/** The observer itself: its handle table and its counter rows, updated in place. */
module StatsObserver {
  import opened Sequences
  import opened Probing
  import opened HandleTable
  import opened Stats
  import opened StatsRuns

  class Observer {
    const table: Table<Slot>
    const rows: array<Row>

    ghost predicate Valid()
      reads this, table, table.cells, rows
    {
      table.Valid() && rows.Length > 0
    }

    ghost function View(): Board
      reads this, table, rows
    {
      Board(table.entries, rows[..])
    }

    constructor (home: (nat, nat) -> nat, tasks: nat)
      requires forall k, cap :: cap > 0 ==> home(k, cap) < cap
      ensures Valid() && View() == Start(tasks + 1) && fresh(table) && fresh(table.cells) && fresh(rows)
    {
      table := new Table<Slot>(home);
      rows := new Row[tasks + 1](_ => ZERO);
      new;
      assert rows[..] == Start(tasks + 1).rows;
    }

    /** stats_observe: the slot found or made, moved by the event, put back or deleted, and the
        engine's row and the type's brought up to date. With no memory for a new slot only the
        totals move. */
    method Observe(ev: Event, memory: bool) returns (tracked: bool)
      requires Valid()
      modifies table, table.cells, rows
      ensures Valid() && (table.cells == old(table.cells) || fresh(table.cells))
      ensures tracked ==> View() == StatsRuns.Observe(old(View()), ev)
      ensures !tracked ==> !memory && ev.handle !in old(table.entries)
                           && View() == Board(old(table.entries), ApplyRows(old(rows[..]), ev.task, ev, NOTHING))
    {
      hide Probed, Distinct, Holds, CountUsed, StepSlot, NoneDead, Apply;
      var found := table.Get(ev.handle);
      var slot := if found.Some? then found.value else EmptySlot(ev.task);
      if found.None? {
        tracked := table.Put(ev.handle, slot, memory);
        if !tracked {
          BumpRows(ev.task, ev, NOTHING);
          return;
        }
      }
      var after, e := Move(slot, ev);
      if after.Some? {
        table.Update(ev.handle, after.value);
      } else {
        table.Delete(ev.handle);
      }
      BumpRows(slot.task, ev, e);
      tracked := true;
    }

    /** BUMP and GAUGE, on the engine's row and the type's. */
    method BumpRows(task: nat, ev: Event, e: Effect)
      requires rows.Length > 0
      modifies rows
      ensures rows[..] == ApplyRows(old(rows[..]), task, ev, e)
    {
      rows[0] := Apply(rows[0], ev, e);
      if task + 1 < rows.Length { rows[task + 1] := Apply(rows[task + 1], ev, e); }
    }

    /** The arms of the switch. */
    static method Move(slot: Slot, ev: Event) returns (after: Option<Slot>, e: Effect)
      ensures (after, e) == StepSlot(slot, ev)
    {
      var s := slot;
      e := NOTHING;
      match ev.kind {
        case Queued =>
          s := s.(seenQueued := true);
          if s.oweQ {
            e := e.(wait := Some(Minus(s.qStartedMs, ev.ts)));
            s := s.(oweQ := false);
          }
          if s.state == Done { return if OwesRetried(s) then Some(s) else None, e; }
          if s.state == New {
            s := s.(state := Pending);
            e := e.(pending := 1);
          }
          if !s.haveQueued { s := s.(queuedMs := ev.ts, haveQueued := true); }
        case Started =>
          if s.state == Pending { e := e.(pending := -1); }
          if ev.attempt <= 1 { s := s.(ann := 0, oweR := 0); }
          s := s.(att := ev.attempt, state := Running, startedMs := ev.ts, haveStarted := true);
          e := e.(inFlight := 1);
          if ev.attempt > 1 && s.ann < ev.attempt {
            s := s.(oweR := ev.attempt);
          } else if !s.haveQueued {
            s := s.(oweQ := true, qStartedMs := ev.ts);
          } else {
            e := e.(wait := Some(Minus(ev.ts, s.queuedMs)));
          }
        case Finished =>
          s := NoteAttempt(s, ev.attempt);
          if s.state == Running { e := e.(inFlight := -1, run := RunSample(s, ev)); }
          return Finish(s), e;
        case Failed =>
          s := NoteAttempt(s, ev.attempt);
          if s.state == Running {
            e := e.(inFlight := -1, run := RunSample(s, ev));
          } else if s.state == Pending {
            e := e.(pending := -1);
          }
          s := s.(state := Limbo);
          if ev.cancelled { return Finish(s), e; }
        case Retried =>
          if ev.attempt > s.ann { s := s.(ann := ev.attempt); }
          if s.oweR != 0 && s.oweR == ev.attempt {
            e := e.(wait := Some(Minus(s.startedMs, ev.ts)));
            s := s.(oweR := 0);
          }
          if s.att >= ev.attempt || s.state == Done {
            return if s.state == Done && s.seenQueued then None else Some(s), e;
          }
          if s.state != Pending { e := e.(pending := 1); }
          s := s.(state := Pending, queuedMs := ev.ts, haveQueued := true);
        case DeadLettered =>
          after, e := Dispose(s, ev);
          return;
        case Dropped =>
          after, e := Dispose(s, ev);
          return;
      }
      after := Some(s);
    }

    static method Dispose(slot: Slot, ev: Event) returns (after: Option<Slot>, e: Effect)
      ensures (after, e) == OnDisposed(slot, ev)
    {
      var s := NoteAttempt(slot, ev.attempt);
      e := NOTHING;
      if s.state == Pending {
        e := e.(pending := -1);
      } else if s.state == Running {
        e := e.(inFlight := -1);
      }
      after := Finish(s);
    }
  }
}
