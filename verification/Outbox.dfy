// The outbox relay as a protocol: any number of drain workers and event
// writers over one consumer's place in one tenant's log. Every action is one
// statement or one commit; everything in between can be interleaved.
// Sources: apps/api/src/events/relay.ts and
// apps/api/src/events/repositories/outbox.repository.ts.

module Outbox {
  import opened LogOrder

  /** How often an event may fail; with that many failures counted it is parked. */
  const MAX_FAILURES: nat := 3

  /** The wait that follows a failure: two seconds at first, then four times the one before. */
  function BackoffMs(failures: nat): (ms: nat)
    ensures ms >= 2000
  {
    if failures <= 1 then 2000 else 4 * BackoffMs(failures - 1)
  }

  /** Two seconds after the first failure, four times as long after each further one. */
  lemma Waits(failures: nat)
    ensures failures <= 1 ==> BackoffMs(failures) == 2_000
    ensures failures == 2 ==> BackoffMs(failures) == 8_000
    ensures failures == 3 ==> BackoffMs(failures) == 32_000
    ensures failures >= 1 ==> BackoffMs(failures + 1) == 4 * BackoffMs(failures)
  {
    if failures > 1 { assert BackoffMs(failures - 1) == if failures == 2 then 2_000 else 4 * BackoffMs(failures - 2); }
  }

  datatype Cursor = Cursor(at: Position, failing: Option<nat>, failures: nat, failedAt: nat)

  /** An event the consumer gave up on: its failures, and when it was parked. */
  datatype DeadLetter = DeadLetter(event: Position, failures: nat, at: nat)

  /** How far one worker is in its step. All but `Out`, `Done` and `Failed` hold an open transaction and its advisory lock. */
  datatype Phase =
    | Out
    | Locked(limit: nat)
    | Placed(take: nat, place: Cursor)
    | Fetched(take: nat, place: Cursor, events: seq<Position>)
    | Checked(take: nat, place: Cursor, events: seq<Position>, held: bool)
    | Handled(place: Cursor, events: seq<Position>)
    // Committed; the after-commit work of that batch has not started.
    | Done(batch: nat)
    // Rolled back with one event to blame, which is not recorded yet.
    | Failed(place: Cursor, event: Position)
  {
    predicate InTransaction() {
      Locked? || Placed? || Fetched? || Checked? || Handled?
    }
  }

  datatype Db = Db(
    // Writers: the next transaction id, and the running transactions with what each has appended.
    nextTxn: nat,
    open: map<nat, set<Position>>,
    // Committed events.
    log: set<Position>,
    // The consumer's row, its advisory lock, and the drains.
    cursor: Cursor,
    lock: Option<nat>,
    workers: map<nat, Phase>,
    // What the handler's committed transactions wrote, batch by batch, and which batches' after-commit work has run.
    batches: seq<seq<Position>>,
    afterRuns: seq<nat>,
    dead: seq<DeadLetter>,
    clock: nat,
    // History: when each failure of each event was recorded.
    failures: map<Position, seq<nat>>
  )
  {
    function PhaseOf(w: nat): Phase {
      if w in workers then workers[w] else Out
    }

    /** The database effects of the handler, in the order they were committed. */
    function Effects(): seq<Position> {
      Flatten(batches)
    }

    /** Below the snapshot horizon: every transaction up to `txn` has finished. */
    predicate Settled(txn: nat) {
      txn < nextTxn && forall t :: t in open ==> txn < t
    }

    function Passed(): set<Position> {
      set e | e in log && !Before(cursor.at, e)
    }

    function Unread(): set<Position> {
      set e | e in log && Before(cursor.at, e)
    }

    function FailuresOf(e: Position): seq<nat> {
      if e in failures then failures[e] else []
    }

    predicate Parkable(place: Cursor, events: seq<Position>) {
      events != [] && place.failures >= MAX_FAILURES && place.failing == Some(events[0].id)
    }
  }

  function Init(): Db {
    Db(1, map[], {}, Cursor(LOG_START, None, 0, 0), None, map[], [], [], [], 0, map[])
  }

  datatype Action =
    // Writers of events, and the clock.
    | Begin
    | Append(txn: nat, id: nat)
    | CommitTxn(txn: nat)
    | AbortTxn(txn: nat)
    | Tick(ms: nat)
    // One drain worker.
    | Lock(w: nat, limit: nat)
    | Place(w: nat)
    | Fetch(w: nat, events: seq<Position>)
    | Check(w: nat)
    | Finish(w: nat)
    | Park(w: nat)
    | Handle(w: nat)
    | Commit(w: nat)
    | After(w: nat)
    // The handler or the commit failed, and the step's one event is to blame.
    | Blame(w: nat)
    | Record(w: nat)
    // Any other failure: a transient one, a batch of several, a crash, a lost connection.
    | Drop(w: nat)
  {
    /** Whose action it is; writers and the clock are nobody's. */
    function Worker(): Option<nat> {
      match this
      case Begin => None
      case Append(_, _) => None
      case CommitTxn(_) => None
      case AbortTxn(_) => None
      case Tick(_) => None
      case Lock(w, _) => Some(w)
      case Place(w) => Some(w)
      case Fetch(w, _) => Some(w)
      case Check(w) => Some(w)
      case Finish(w) => Some(w)
      case Park(w) => Some(w)
      case Handle(w) => Some(w)
      case Commit(w) => Some(w)
      case After(w) => Some(w)
      case Blame(w) => Some(w)
      case Record(w) => Some(w)
      case Drop(w) => Some(w)
    }
  }

  /** Whether a cursor still waits out its last failure. */
  predicate BackingOff(c: Cursor, now: nat) {
    c.failures > 0 && c.failedAt + BackoffMs(c.failures) > now
  }

  /** A stuck consumer reads one event at a time. */
  function Take(c: Cursor, limit: nat): nat {
    if c.failures > 0 then 1 else limit
  }

  /** `read`: the first `take` committed events after `after`, in log order, that lie below the horizon. */
  ghost predicate IsRead(db: Db, after: Position, take: nat, events: seq<Position>) {
    && |events| <= take
    && Ascending(events)
    && (forall e :: e in events ==> e in db.log && Before(after, e) && db.Settled(e.txn))
    && (forall e :: e in db.log && Before(after, e) && db.Settled(e.txn) && e !in events ==>
          |events| == take && Before(LastOr(events, after), e))
  }

  /** The second query of `read`: committed events wait after what was read. It runs only when the read was short. */
  predicate HeldBack(db: Db, after: Position, take: nat, events: seq<Position>) {
    |events| < take && exists e :: e in db.log && Before(LastOr(events, after), e)
  }

  ghost predicate Enabled(db: Db, a: Action) {
    match a
    case Begin => true
    case Append(t, id) => t in db.open && Position(t, id) !in db.open[t]
    case CommitTxn(t) => t in db.open
    case AbortTxn(t) => t in db.open
    case Tick(_) => true
    case Lock(w, limit) => db.PhaseOf(w).Out? && db.lock.None? && limit >= 1
    case Place(w) => db.PhaseOf(w).Locked?
    case Fetch(w, events) =>
      var p := db.PhaseOf(w);
      p.Placed? && IsRead(db, p.place.at, p.take, events)
    case Check(w) => db.PhaseOf(w).Fetched?
    case Finish(w) => db.PhaseOf(w).Checked? && db.PhaseOf(w).events == []
    case Park(w) =>
      var p := db.PhaseOf(w);
      p.Checked? && db.Parkable(p.place, p.events)
    case Handle(w) =>
      var p := db.PhaseOf(w);
      p.Checked? && p.events != [] && !db.Parkable(p.place, p.events)
    case Commit(w) => db.PhaseOf(w).Handled?
    case After(w) => db.PhaseOf(w).Done?
    case Blame(w) =>
      var p := db.PhaseOf(w);
      (p.Handled? || p.Checked?) && |p.events| == 1
    case Record(w) => db.PhaseOf(w).Failed?
    case Drop(w) => !db.PhaseOf(w).Out?
  }

  /** The consumer's row once `event` is behind it: no failure is remembered. */
  function AdvanceTo(event: Position): Cursor {
    Cursor(event, None, 0, 0)
  }

  /** `recordFailure` on the consumer's row: the same event counts up, another starts at one. */
  function CountFailure(c: Cursor, event: Position, now: nat): Cursor {
    c.(failures := if c.failing == Some(event.id) then c.failures + 1 else 1,
       failing := Some(event.id),
       failedAt := now)
  }

  /** `recordFailure` writes only under the lock, and only while the cursor is before the event. */
  predicate Records(db: Db, event: Position) {
    db.lock.None? && Before(db.cursor.at, event)
  }

  function Apply(db: Db, a: Action): Db
    requires Enabled(db, a)
  {
    match a
    case Begin => db.(nextTxn := db.nextTxn + 1, open := db.open[db.nextTxn := {}])
    case Append(t, id) => db.(open := db.open[t := db.open[t] + {Position(t, id)}])
    case CommitTxn(t) => db.(log := db.log + db.open[t], open := db.open - {t})
    case AbortTxn(t) => db.(open := db.open - {t})
    case Tick(ms) => db.(clock := db.clock + ms)
    case Lock(w, limit) => db.(lock := Some(w), workers := db.workers[w := Locked(limit)])
    case Place(w) =>
      if BackingOff(db.cursor, db.clock) then
        db.(lock := None, workers := db.workers[w := Out])
      else
        db.(workers := db.workers[w := Placed(Take(db.cursor, db.PhaseOf(w).limit), db.cursor)])
    case Fetch(w, events) =>
      var p := db.PhaseOf(w);
      db.(workers := db.workers[w := Fetched(p.take, p.place, events)])
    case Check(w) =>
      var p := db.PhaseOf(w);
      db.(workers := db.workers[w := Checked(p.take, p.place, p.events, HeldBack(db, p.place.at, p.take, p.events))])
    case Finish(w) => db.(lock := None, workers := db.workers[w := Out])
    case Park(w) =>
      var p := db.PhaseOf(w);
      db.(lock := None, workers := db.workers[w := Out],
          dead := db.dead + [DeadLetter(p.events[0], p.place.failures, db.clock)],
          cursor := AdvanceTo(p.events[0]))
    case Handle(w) =>
      var p := db.PhaseOf(w);
      db.(workers := db.workers[w := Handled(p.place, p.events)])
    case Commit(w) =>
      var p := db.PhaseOf(w);
      db.(lock := None, workers := db.workers[w := Done(|db.batches|)],
          batches := db.batches + [p.events],
          cursor := AdvanceTo(LastOr(p.events, p.place.at)))
    case After(w) =>
      db.(workers := db.workers[w := Out], afterRuns := db.afterRuns + [db.PhaseOf(w).batch])
    case Blame(w) =>
      var p := db.PhaseOf(w);
      db.(lock := None, workers := db.workers[w := Failed(p.place, p.events[0])])
    case Record(w) =>
      var e := db.PhaseOf(w).event;
      if Records(db, e) then
        db.(workers := db.workers[w := Out],
            cursor := CountFailure(db.cursor, e, db.clock),
            failures := db.failures[e := db.FailuresOf(e) + [db.clock]])
      else
        db.(workers := db.workers[w := Out])
    case Drop(w) =>
      db.(lock := if db.PhaseOf(w).InTransaction() then None else db.lock, workers := db.workers[w := Out])
  }

  // ---- What every reachable state satisfies ----

  /** Transaction ids: handed out once, and an event carries its writer's. */
  ghost predicate WritersInv(db: Db) {
    && db.nextTxn >= 1
    && (forall t :: t in db.open ==> 1 <= t < db.nextTxn && forall e :: e in db.open[t] ==> e.txn == t)
    && (forall e :: e in db.log ==> 1 <= e.txn < db.nextTxn && e.txn !in db.open)
  }

  /** The cursor stands on a settled event, or at the start. */
  ghost predicate CursorInv(db: Db) {
    && (db.cursor.at == LOG_START || db.cursor.at in db.log)
    && db.Settled(db.cursor.at.txn)
  }

  ghost function DeadEvents(db: Db): seq<Position> {
    seq(|db.dead|, i requires 0 <= i < |db.dead| => db.dead[i].event)
  }

  /** Exactly once: the passed events are those applied and those parked; none is both, none is twice, all in log order. */
  ghost predicate ExactlyOnce(db: Db) {
    && Ascending(db.Effects())
    && Ascending(DeadEvents(db))
    && (forall e :: e in db.Effects() ==> e !in DeadEvents(db))
    && (forall e :: e in db.Passed() <==> e in db.Effects() || e in DeadEvents(db))
  }

  /** `e` is the next event the consumer will ever read after `place`: nothing lies or can still appear between. */
  ghost predicate IsNext(db: Db, place: Position, e: Position) {
    && e in db.log
    && Before(place, e)
    && db.Settled(e.txn)
    && forall d :: d in db.log && Before(place, d) ==> !Before(d, e)
  }

  /** A counted failure is of the next unread event, and the count is the number of failures recorded for it. */
  ghost predicate FailureInv(db: Db) {
    && (db.cursor.failures == 0 <==> db.cursor.failing.None?)
    && (forall e :: e in db.failures && Before(db.cursor.at, e) && db.failures[e] != [] ==> db.cursor.failing == Some(e.id) && IsNext(db, db.cursor.at, e))
    && (db.cursor.failures > 0 ==>
          exists e :: IsNext(db, db.cursor.at, e) && db.cursor.failing == Some(e.id)
            && |db.FailuresOf(e)| == db.cursor.failures
            && db.FailuresOf(e)[db.cursor.failures - 1] == db.cursor.failedAt)
    && db.cursor.failedAt <= db.clock
  }

  /** A parked event failed `MAX_FAILURES` times or more, and waited out the last one. */
  ghost predicate DeadInv(db: Db) {
    forall i :: 0 <= i < |db.dead| ==> ParkedAfterItsFailures(db, db.dead[i])
  }

  ghost predicate ParkedAfterItsFailures(db: Db, d: DeadLetter) {
    var times := db.FailuresOf(d.event);
    && d.failures == |times| >= MAX_FAILURES
    && d.at >= times[|times| - 1] + BackoffMs(d.failures)
  }

  /** A batch read at `place`: settled, in order, and with nothing in between left out. */
  ghost predicate BatchInv(db: Db, place: Position, events: seq<Position>) {
    && Ascending(events)
    && (forall e :: e in events ==> e in db.log && Before(place, e) && db.Settled(e.txn))
    && (forall e :: e in db.log && Before(place, e) && !Before(LastOr(events, place), e) ==> e in events)
  }

  ghost predicate WorkerInv(db: Db, w: nat, p: Phase) {
    && (p.InTransaction() <==> db.lock == Some(w))
    && match p
       case Out => true
       case Locked(limit) => limit >= 1
       case Placed(take, place) =>
         place == db.cursor && !BackingOff(place, db.clock) && take >= 1 && (place.failures > 0 ==> take == 1)
       case Fetched(take, place, events) =>
         && place == db.cursor && !BackingOff(place, db.clock)
         && BatchInv(db, place.at, events) && |events| <= take && (place.failures > 0 ==> take == 1)
       case Checked(take, place, events, held) =>
         && place == db.cursor && !BackingOff(place, db.clock)
         && BatchInv(db, place.at, events) && |events| <= take && (place.failures > 0 ==> take == 1)
       case Handled(place, events) =>
         && place == db.cursor && !BackingOff(place, db.clock)
         && BatchInv(db, place.at, events) && events != [] && (place.failures > 0 ==> |events| == 1)
       case Done(batch) =>
         batch < |db.batches| && batch !in db.afterRuns
         && forall v :: v in db.workers && v != w && db.workers[v].Done? ==> db.workers[v].batch != batch
       case Failed(place, event) =>
         && !BackingOff(place, db.clock)
         && IsNext(db, place.at, event)
         && !Before(db.cursor.at, place.at)
  }

  /** After-commit work runs at most once for a committed batch, and for nothing else. */
  ghost predicate AfterInv(db: Db) {
    && (forall i :: 0 <= i < |db.afterRuns| ==> db.afterRuns[i] < |db.batches|)
    && (forall i, j :: 0 <= i < j < |db.afterRuns| ==> db.afterRuns[i] != db.afterRuns[j])
  }

  ghost predicate LockInv(db: Db) {
    db.lock.Some? ==> db.lock.value in db.workers && db.workers[db.lock.value].InTransaction()
  }

  ghost predicate WorkersInv(db: Db) {
    forall w :: w in db.workers ==> WorkerInv(db, w, db.workers[w])
  }

  ghost predicate Inv(db: Db) {
    && WritersInv(db)
    && CursorInv(db)
    && ExactlyOnce(db)
    && FailureInv(db)
    && DeadInv(db)
    && AfterInv(db)
    && LockInv(db)
    && WorkersInv(db)
  }

  /** Writers are never held up: any transaction begins, appends, commits or aborts whatever the relay does, and time passes. */
  lemma WritersAreFree(db: Db, t: nat, id: nat, ms: nat)
    ensures Enabled(db, Begin) && Apply(db, Begin) == db.(nextTxn := db.nextTxn + 1, open := db.open[db.nextTxn := {}])
    ensures Enabled(db, Tick(ms)) && Apply(db, Tick(ms)) == db.(clock := db.clock + ms)
    ensures t in db.open && Position(t, id) !in db.open[t] ==>
              Enabled(db, Append(t, id)) && Apply(db, Append(t, id)) == db.(open := db.open[t := db.open[t] + {Position(t, id)}])
    ensures t in db.open ==>
              && Enabled(db, CommitTxn(t)) && Apply(db, CommitTxn(t)) == db.(log := db.log + db.open[t], open := db.open - {t})
              && Enabled(db, AbortTxn(t)) && Apply(db, AbortTxn(t)) == db.(open := db.open - {t})
  {
  }

  lemma InitInv()
    ensures Inv(Init())
  {
  }

  // ---- Writers cannot get behind a settled place ----

  lemma SettledStays(db: Db, a: Action, txn: nat)
    requires WritersInv(db) && Enabled(db, a) && db.Settled(txn)
    ensures Apply(db, a).Settled(txn)
  {
  }

  /** An event that commits now comes after every settled place. */
  lemma NewEventsComeLater(db: Db, a: Action, place: Position, e: Position)
    requires WritersInv(db) && Enabled(db, a) && db.Settled(place.txn)
    requires e in Apply(db, a).log && e !in db.log
    ensures Before(place, e)
  {
  }

  lemma NextStays(db: Db, a: Action, place: Position, e: Position)
    requires WritersInv(db) && Enabled(db, a) && IsNext(db, place, e)
    ensures IsNext(Apply(db, a), place, e)
  {
    SettledStays(db, a, e.txn);
    forall d | d in Apply(db, a).log && Before(place, d) ensures !Before(d, e) {
      if d !in db.log { NewEventsComeLater(db, a, e, d); }
    }
  }

  lemma BatchStays(db: Db, a: Action, place: Position, events: seq<Position>)
    requires WritersInv(db) && Enabled(db, a) && BatchInv(db, place, events) && db.Settled(place.txn)
    ensures BatchInv(Apply(db, a), place, events)
  {
    var db' := Apply(db, a);
    var last := LastOr(events, place);
    forall e | e in events ensures e in db'.log && db'.Settled(e.txn) {
      SettledStays(db, a, e.txn);
    }
    forall e | e in db'.log && Before(place, e) && !Before(last, e) ensures e in events {
      if e !in db.log {
        NewEventsComeLater(db, a, last, e);
      }
    }
  }

  lemma WritersInvStays(db: Db, a: Action)
    requires WritersInv(db) && Enabled(db, a)
    ensures WritersInv(Apply(db, a))
  {
  }

  // ---- Every action keeps the invariant ----

  lemma CursorInvStays(db: Db, a: Action)
    requires Inv(db) && Enabled(db, a)
    ensures CursorInv(Apply(db, a))
  {
    SettledStays(db, a, db.cursor.at.txn);
    if a.Commit? || a.Park? {
      var p := db.PhaseOf(a.w);
      assert WorkerInv(db, a.w, p);
      assert LastOr(p.events, p.place.at) in p.events;
      assert p.events[0] in p.events;
    }
  }

  /** Everything passed lies at or before everything just read. */
  lemma PassedBeforeBatch(db: Db, events: seq<Position>)
    requires BatchInv(db, db.cursor.at, events) && events != []
    ensures forall e :: e in db.log && !Before(LastOr(events, db.cursor.at), e) <==> e in db.Passed() || e in events
  {
    assert events[|events| - 1] in events;
  }

  lemma ExactlyOnceOnCommit(db: Db, w: nat)
    requires Inv(db) && Enabled(db, Commit(w))
    ensures ExactlyOnce(Apply(db, Commit(w)))
  {
    var p := db.PhaseOf(w);
    var db' := Apply(db, Commit(w));
    assert WorkerInv(db, w, p);
    PassedBeforeBatch(db, p.events);
    FlattenAppend(db.batches, p.events);
    assert forall x :: x in db.Effects() ==> x in db.Passed();
    AscendingAppend(db.Effects(), p.events);
    assert DeadEvents(db') == DeadEvents(db);
    assert forall x :: x in DeadEvents(db) ==> x in db.Passed();
  }

  lemma ExactlyOnceOnPark(db: Db, w: nat)
    requires Inv(db) && Enabled(db, Park(w))
    ensures ExactlyOnce(Apply(db, Park(w)))
  {
    var p := db.PhaseOf(w);
    var db' := Apply(db, Park(w));
    assert WorkerInv(db, w, p);
    assert p.events == [p.events[0]];
    PassedBeforeBatch(db, p.events);
    assert DeadEvents(db') == DeadEvents(db) + p.events;
    assert forall x :: x in DeadEvents(db) ==> x in db.Passed();
    AscendingAppend(DeadEvents(db), p.events);
    assert forall x :: x in db.Effects() ==> x in db.Passed();
  }

  lemma ExactlyOnceStays(db: Db, a: Action)
    requires Inv(db) && Enabled(db, a)
    ensures ExactlyOnce(Apply(db, a))
  {
    if a.Commit? {
      ExactlyOnceOnCommit(db, a.w);
    } else if a.Park? {
      ExactlyOnceOnPark(db, a.w);
    } else {
      var db' := Apply(db, a);
      assert DeadEvents(db') == DeadEvents(db);
      forall e | e in db'.Passed() ensures e in db.Passed() {
        if e !in db.log { NewEventsComeLater(db, a, db.cursor.at, e); }
      }
    }
  }

  /** The one event a stuck consumer can be stuck on. */
  lemma NextIsUnique(db: Db, place: Position, d: Position, e: Position)
    requires IsNext(db, place, d) && IsNext(db, place, e)
    ensures d == e
  {
  }

  /** A blamed event is still the next one, if the cursor has not passed it. */
  lemma BlamedIsNext(db: Db, w: nat)
    requires Inv(db) && db.PhaseOf(w).Failed? && Before(db.cursor.at, db.PhaseOf(w).event)
    ensures IsNext(db, db.cursor.at, db.PhaseOf(w).event)
    ensures db.cursor.at == db.PhaseOf(w).place.at
  {
    assert WorkerInv(db, w, db.PhaseOf(w));
  }

  lemma FailureInvOnRecord(db: Db, w: nat)
    requires Inv(db) && Enabled(db, Record(w)) && Records(db, db.PhaseOf(w).event)
    ensures FailureInv(Apply(db, Record(w)))
    ensures |db.FailuresOf(db.PhaseOf(w).event)| == db.cursor.failures
    ensures Apply(db, Record(w)).cursor.failures == db.cursor.failures + 1
  {
    var e := db.PhaseOf(w).event;
    var db' := Apply(db, Record(w));
    BlamedIsNext(db, w);
    assert IsNext(db', db'.cursor.at, e);
    if db.cursor.failures > 0 {
      var f :| IsNext(db, db.cursor.at, f) && db.cursor.failing == Some(f.id)
        && |db.FailuresOf(f)| == db.cursor.failures
        && db.FailuresOf(f)[db.cursor.failures - 1] == db.cursor.failedAt;
      NextIsUnique(db, db.cursor.at, e, f);
    } else {
      assert db.FailuresOf(e) == [];
    }
    forall d | d in db'.failures && Before(db'.cursor.at, d) && db'.failures[d] != []
      ensures db'.cursor.failing == Some(d.id) && IsNext(db', db'.cursor.at, d)
    {
      if d != e {
        NextIsUnique(db, db.cursor.at, d, e);
      }
    }
  }

  /** The cursor moved past every event with a failure. */
  lemma FailureInvOnAdvance(db: Db, a: Action)
    requires Inv(db) && Enabled(db, a) && (a.Commit? || a.Park?)
    ensures FailureInv(Apply(db, a))
  {
    var db' := Apply(db, a);
    var p := db.PhaseOf(a.w);
    assert WorkerInv(db, a.w, p);
    assert p.events[0] in p.events && LastOr(p.events, p.place.at) in p.events;
    forall d | d in db'.failures && db'.failures[d] != [] ensures !Before(db'.cursor.at, d) {
      if Before(db.cursor.at, d) {
        assert IsNext(db, db.cursor.at, d);
      }
    }
  }

  /** Only an advance, a parking or a record that counts touches the cursor or the failures. */
  lemma FailuresStay(db: Db, a: Action)
    requires Enabled(db, a) && !a.Commit? && !a.Park?
    requires !(a.Record? && Records(db, db.PhaseOf(a.w).event))
    ensures Apply(db, a).cursor == db.cursor && Apply(db, a).failures == db.failures
  {
  }

  lemma FailureInvStays(db: Db, a: Action)
    requires Inv(db) && Enabled(db, a)
    ensures FailureInv(Apply(db, a))
  {
    var counts := a.Record? && Records(db, db.PhaseOf(a.w).event);
    hide Apply, Enabled, CursorInv, ExactlyOnce, DeadInv, AfterInv, LockInv, WorkersInv;
    var db' := Apply(db, a);
    if a.Commit? || a.Park? {
      FailureInvOnAdvance(db, a);
    } else if counts {
      FailureInvOnRecord(db, a.w);
    } else {
      FailuresStay(db, a);
      forall e | IsNext(db, db.cursor.at, e) ensures IsNext(db', db.cursor.at, e) {
        NextStays(db, a, db.cursor.at, e);
      }
    }
  }

  /** A parked event is passed, so nothing more is recorded of it. */
  lemma OldDeadStay(db: Db, a: Action, i: nat)
    requires ExactlyOnce(db) && DeadInv(db) && Enabled(db, a) && i < |db.dead|
    ensures Apply(db, a).FailuresOf(db.dead[i].event) == db.FailuresOf(db.dead[i].event)
    ensures ParkedAfterItsFailures(Apply(db, a), db.dead[i])
  {
    assert ParkedAfterItsFailures(db, db.dead[i]);
    assert DeadEvents(db)[i] == db.dead[i].event;
    assert db.dead[i].event in db.Passed();
  }

  lemma NewDeadIsDue(db: Db, w: nat)
    requires Inv(db) && Enabled(db, Park(w))
    ensures var p := db.PhaseOf(w);
            ParkedAfterItsFailures(db, DeadLetter(p.events[0], p.place.failures, db.clock))
    ensures var db' := Apply(db, Park(w)); |db'.dead| == |db.dead| + 1 && ParkedAfterItsFailures(db', db'.dead[|db.dead|])
  {
    var p := db.PhaseOf(w);
    assert WorkerInv(db, w, p);
    var f :| IsNext(db, db.cursor.at, f) && db.cursor.failing == Some(f.id)
      && |db.FailuresOf(f)| == db.cursor.failures
      && db.FailuresOf(f)[db.cursor.failures - 1] == db.cursor.failedAt;
    assert p.events[0] in p.events;
    assert IsNext(db, db.cursor.at, p.events[0]);
    NextIsUnique(db, db.cursor.at, f, p.events[0]);
  }

  lemma DeadInvStays(db: Db, a: Action)
    requires Inv(db) && Enabled(db, a)
    ensures DeadInv(Apply(db, a))
  {
    hide ParkedAfterItsFailures, WritersInv, CursorInv, ExactlyOnce, FailureInv, AfterInv, LockInv, WorkersInv;
    var db' := Apply(db, a);
    forall i | 0 <= i < |db'.dead| ensures ParkedAfterItsFailures(db', db'.dead[i]) {
      if i < |db.dead| {
        OldDeadStay(db, a, i);
      } else {
        NewDeadIsDue(db, a.w);
      }
    }
  }

  lemma CursorOnlyAdvances(db: Db, a: Action)
    requires Inv(db) && Enabled(db, a)
    ensures !Before(Apply(db, a).cursor.at, db.cursor.at)
    ensures db.Passed() <= Apply(db, a).Passed()
  {
    if a.Commit? || a.Park? {
      var p := db.PhaseOf(a.w);
      assert WorkerInv(db, a.w, p);
      assert p.events[0] in p.events && LastOr(p.events, p.place.at) in p.events;
    }
  }

  /** While a worker holds the lock, nobody else moves the cursor or takes the lock; the clock only goes on. */
  lemma LockHolderIsAlone(db: Db, a: Action, w: nat)
    requires Inv(db) && Enabled(db, a) && w in db.workers && a.Worker() != Some(w)
    requires db.workers[w].InTransaction()
    ensures Apply(db, a).lock == Some(w) && Apply(db, a).cursor == db.cursor && Apply(db, a).clock >= db.clock
    ensures Apply(db, a).PhaseOf(w) == db.workers[w]
  {
    assert WorkerInv(db, w, db.workers[w]);
    if a.Worker().Some? && a.Worker().value in db.workers {
      assert WorkerInv(db, a.Worker().value, db.workers[a.Worker().value]);
    }
  }

  lemma TransactionInvStays(db: Db, a: Action, w: nat)
    requires Inv(db) && Enabled(db, a) && w in db.workers && a.Worker() != Some(w)
    requires db.workers[w].InTransaction()
    ensures WorkerInv(Apply(db, a), w, db.workers[w])
  {
    var p := db.workers[w];
    assert WorkerInv(db, w, p);
    LockHolderIsAlone(db, a, w);
    if p.Fetched? || p.Checked? || p.Handled? {
      BatchStays(db, a, p.place.at, p.events);
    }
  }

  lemma BlameStays(db: Db, a: Action, w: nat)
    requires Inv(db) && Enabled(db, a) && w in db.workers && a.Worker() != Some(w)
    requires db.workers[w].Failed?
    ensures WorkerInv(Apply(db, a), w, db.workers[w])
  {
    var p := db.workers[w];
    assert WorkerInv(db, w, p);
    NextStays(db, a, p.place.at, p.event);
    CursorOnlyAdvances(db, a);
    LockGoesToTheActor(db, a, w);
  }

  lemma OthersKeepTheirPhase(db: Db, a: Action, w: nat)
    requires Enabled(db, a) && a.Worker() != Some(w)
    ensures Apply(db, a).PhaseOf(w) == db.PhaseOf(w)
  {
  }

  lemma LockGoesToTheActor(db: Db, a: Action, w: nat)
    requires Enabled(db, a) && a.Worker() != Some(w) && db.lock != Some(w)
    ensures Apply(db, a).lock != Some(w) && Apply(db, a).PhaseOf(w) == db.PhaseOf(w) && Apply(db, a).clock >= db.clock
  {
  }

  /** Each committed batch's after-commit work belongs to the one worker that committed it. */
  lemma TokenStays(db: Db, a: Action, w: nat)
    requires WorkersInv(db) && Enabled(db, a) && w in db.workers && a.Worker() != Some(w)
    requires db.workers[w].Done?
    ensures WorkerInv(Apply(db, a), w, db.workers[w])
  {
    assert WorkerInv(db, w, db.workers[w]);
    LockGoesToTheActor(db, a, w);
    if a.After? {
      assert WorkerInv(db, a.w, db.workers[a.w]);
    }
  }

  /** Nothing another worker, a writer or the clock does disturbs a worker in the middle of its step. */
  lemma WorkerInvStays(db: Db, a: Action, w: nat)
    requires Inv(db) && Enabled(db, a) && w in db.workers && a.Worker() != Some(w)
    ensures Apply(db, a).PhaseOf(w) == db.workers[w]
    ensures WorkerInv(Apply(db, a), w, db.workers[w])
  {
    var p := db.workers[w];
    if p.InTransaction() {
      LockHolderIsAlone(db, a, w);
      TransactionInvStays(db, a, w);
    } else {
      assert WorkerInv(db, w, p);
      LockGoesToTheActor(db, a, w);
      if p.Failed? {
        BlameStays(db, a, w);
      } else if p.Done? {
        TokenStays(db, a, w);
      }
    }
  }

  /** A worker's own action takes it from one good phase to the next. */
  lemma OwnReadingStays(db: Db, a: Action, w: nat)
    requires CursorInv(db) && Enabled(db, a) && (a.Lock? || a.Place? || a.Fetch?) && a.w == w
    requires w in db.workers ==> WorkerInv(db, w, db.workers[w])
    ensures WorkerInv(Apply(db, a), w, Apply(db, a).PhaseOf(w))
  {
  }

  lemma OwnHandlingStays(db: Db, a: Action, w: nat)
    requires Enabled(db, a) && (a.Check? || a.Handle? || a.Finish? || a.Park? || a.After? || a.Record? || a.Drop?) && a.w == w
    requires w in db.workers && WorkerInv(db, w, db.workers[w])
    ensures WorkerInv(Apply(db, a), w, Apply(db, a).PhaseOf(w))
  {
  }

  lemma OwnCommitStays(db: Db, w: nat)
    requires WorkersInv(db) && AfterInv(db) && Enabled(db, Commit(w))
    ensures WorkerInv(Apply(db, Commit(w)), w, Apply(db, Commit(w)).PhaseOf(w))
  {
    var db' := Apply(db, Commit(w));
    assert WorkerInv(db, w, db.workers[w]);
    forall v | v in db'.workers && v != w && db'.workers[v].Done? ensures db'.workers[v].batch != |db.batches| {
      assert WorkerInv(db, v, db.workers[v]);
    }
  }

  lemma OwnBlameStays(db: Db, w: nat)
    requires Enabled(db, Blame(w)) && w in db.workers && WorkerInv(db, w, db.workers[w])
    ensures WorkerInv(Apply(db, Blame(w)), w, Apply(db, Blame(w)).PhaseOf(w))
  {
    var p := db.workers[w];
    assert p.events[0] in p.events;
    assert LastOr(p.events, p.place.at) == p.events[0];
  }

  lemma OwnWorkerInvStays(db: Db, a: Action, w: nat)
    requires Inv(db) && Enabled(db, a) && a.Worker() == Some(w)
    ensures WorkerInv(Apply(db, a), w, Apply(db, a).PhaseOf(w))
  {
    if a.Lock? || a.Place? || a.Fetch? {
      OwnReadingStays(db, a, w);
    } else if a.Commit? {
      OwnCommitStays(db, w);
    } else if a.Blame? {
      OwnBlameStays(db, w);
    } else {
      OwnHandlingStays(db, a, w);
    }
  }

  lemma WorkersInvStays(db: Db, a: Action)
    requires Inv(db) && Enabled(db, a)
    ensures WorkersInv(Apply(db, a)) && LockInv(Apply(db, a)) && AfterInv(Apply(db, a))
  {
    var db' := Apply(db, a);
    forall w | w in db'.workers ensures WorkerInv(db', w, db'.workers[w]) {
      if a.Worker() == Some(w) {
        OwnWorkerInvStays(db, a, w);
      } else {
        WorkerInvStays(db, a, w);
      }
    }
    if a.Worker().Some? && a.Worker().value in db.workers {
      assert WorkerInv(db, a.Worker().value, db.workers[a.Worker().value]);
    }
  }

  lemma InvStays(db: Db, a: Action)
    requires Inv(db) && Enabled(db, a)
    ensures Inv(Apply(db, a))
  {
    WritersInvStays(db, a);
    CursorInvStays(db, a);
    ExactlyOnceStays(db, a);
    FailureInvStays(db, a);
    DeadInvStays(db, a);
    WorkersInvStays(db, a);
  }
}
