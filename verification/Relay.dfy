// The drain itself, statement by statement, with every other process free to
// run between its statements.
// Source: apps/api/src/events/relay.ts and repositories/outbox.repository.ts.

module Relay {
  import opened LogOrder
  import Outbox
  import opened Drains
  import opened Cluster
  import Delivery

  datatype DrainOutcome =
    | Busy
    | IdleAt(heldBack: bool)
    | Backoff(until: nat)
    | Drained(count: nat, parked: nat, more: bool)
  {
    /** Whether `follow` asks for another drain. */
    predicate Loud() {
      Busy? || (IdleAt? && heldBack) || Backoff? || (Drained? && more)
    }
  }

  /** How a drain ends: with an outcome, or with one of its three kinds of throw. */
  datatype DrainResult =
    | Returned(outcome: DrainOutcome)
    | EventFailed(event: Position, failures: nat)
    | Transient
    | Broken

  datatype Step =
    | BusyStep
    | IdleStep(heldBack: bool)
    | BackoffStep(until: nat)
    | ParkedStep(event: Position)
    | HandledStep(count: nat, full: bool, heldBack: bool)
    // The transaction rolled back: with the event to blame when it was one, or for a transient cause.
    | FailedStep(single: Option<Position>)
    | TransientStep
    // Nothing had been read: the failure is the relay's own.
    | BrokenStep

  /** How a call into the database or the handler can go. */
  datatype Fault = NoFault | TransientFault | OtherFault

  /** Worker `w` is draining, and between two steps. */
  ghost predicate Ready(s: World, w: nat) {
    s.RoleOf(w).Draining? && s.db.PhaseOf(w).Out?
  }

  /** Everything committed when the drain last looked for more is behind the cursor now. */
  ghost predicate CaughtUp(s: World, w: nat) {
    s.RoleOf(w).Draining? && s.RoleOf(w).seen.Some? && s.RoleOf(w).seen.value <= s.db.Passed()
  }

  /** The first event of a non-empty set, in log order. */
  lemma {:induction false} FirstExists(s: set<Position>)
    requires s != {}
    ensures exists m :: m in s && IsFirst(s, m)
  {
    hide IsFirst, Before;
    var y :| y in s;
    var rest := s - {y};
    if rest == {} {
      FirstOfOne(y);
      assert s == {y};
    } else {
      FirstExists(rest);
      var m :| m in rest && IsFirst(rest, m);
      FirstOfMore(rest, m, y);
      assert s == rest + {y};
    }
  }

  predicate IsFirst(s: set<Position>, m: Position) {
    forall x :: x in s ==> x == m || Before(m, x)
  }

  lemma FirstOfOne(y: Position)
    ensures IsFirst({y}, y)
  {
  }

  lemma FirstOfMore(rest: set<Position>, m: Position, y: Position)
    requires m in rest && IsFirst(rest, m)
    ensures IsFirst(rest + {y}, if Before(y, m) then y else m)
  {
  }

  /** `SELECT ... ORDER BY "txn", "id" LIMIT take` below the horizon. */
  method ReadBelowHorizon(db: Outbox.Db, after: Position, take: nat) returns (events: seq<Position>)
    ensures Outbox.IsRead(db, after, take, events)
  {
    var rest := set e | e in db.log && Before(after, e) && db.Settled(e.txn);
    ghost var all := rest;
    events := [];
    while |events| < take && rest != {}
      invariant |events| <= take && Ascending(events)
      invariant forall e :: e in all <==> e in events || e in rest
      invariant forall d, e :: d in events && e in rest ==> Before(d, e)
      decreases rest
    {
      FirstExists(rest);
      var m :| m in rest && IsFirst(rest, m);
      AscendingAppend(events, [m]);
      events := events + [m];
      rest := rest - {m};
    }
    assert events != [] ==> LastOr(events, after) in events;
  }

  /** The drain keeps its job and asks for nothing; what has committed or passed stays. */
  twostate predicate Onward(shared: Shared, w: nat)
    reads shared
  {
    && shared.Valid() && old(shared.trace) <= shared.trace
    && shared.world.RoleOf(w).Draining? && old(shared.world).RoleOf(w).Draining?
    && shared.world.RoleOf(w).tries == old(shared.world).RoleOf(w).tries
    && Own(shared.trace, w) == old(Own(shared.trace, w))
  }

  /** What the last read saw is everything that had committed `since`. */
  ghost predicate LookedAt(s: World, w: nat, since: set<Position>) {
    s.RoleOf(w).Draining? && s.RoleOf(w).seen.Some? && since <= s.RoleOf(w).seen.value
  }

  /** Nothing the last read saw lies past `place`. */
  ghost predicate NothingPast(s: World, w: nat, place: Position) {
    s.RoleOf(w).Draining? && s.RoleOf(w).seen.Some? && s.RoleOf(w).seen.value <= s.db.log &&
    forall e :: e in s.RoleOf(w).seen.value ==> !Before(place, e)
  }

  /** `applied` went through the handler and committed; `dropped` went to the dead letters. */
  ghost predicate Delivered(db: Outbox.Db, applied: seq<Position>, dropped: seq<Position>) {
    && (forall e :: e in applied ==> exists i :: 0 <= i < |db.batches| && e in db.batches[i])
    && (forall e :: e in dropped ==> e in Outbox.DeadEvents(db))
  }

  lemma DeliveredStays(s: World, t: World, applied: seq<Position>, dropped: seq<Position>)
    requires Grows(s, t) && Delivered(s.db, applied, dropped)
    ensures Delivered(t.db, applied, dropped)
  {
    forall e | e in applied ensures exists i :: 0 <= i < |t.db.batches| && e in t.db.batches[i] {
      var i :| 0 <= i < |s.db.batches| && e in s.db.batches[i];
      assert t.db.batches[i] == s.db.batches[i];
    }
    forall e | e in dropped ensures e in Outbox.DeadEvents(t.db) {
      var i :| 0 <= i < |s.db.dead| && Outbox.DeadEvents(s.db)[i] == e;
      assert Outbox.DeadEvents(t.db)[i] == e;
    }
  }

  /** Everything in `events` was unread before and is passed after, and none is there twice. */
  ghost predicate MovedPast(s: World, t: World, events: seq<Position>) {
    && (forall e :: e in events ==> e in t.db.Passed() && e !in s.db.Passed())
    && (forall i, j :: 0 <= i < j < |events| ==> events[i] != events[j])
  }

  lemma MovedPastFurther(s: World, m: World, t: World, first: seq<Position>, second: seq<Position>)
    requires Grows(s, m) && Grows(m, t) && MovedPast(s, m, first) && MovedPast(m, t, second)
    ensures MovedPast(s, t, first + second) && MovedPast(s, t, first) && MovedPast(s, t, second)
  {
    forall i, j | 0 <= i < j < |first + second| ensures (first + second)[i] != (first + second)[j] {
      if i < |first| <= j {
        assert first[i] in first && second[j - |first|] in second;
      }
    }
  }

  /** A drain's own work: it applied and parked events that were unread, each once. */
  ghost predicate Progress(s: World, t: World, applied: seq<Position>, dropped: seq<Position>) {
    MovedPast(s, t, applied) && MovedPast(s, t, dropped) && Delivered(t.db, applied, dropped)
  }

  lemma ProgressFurther(s: World, m: World, t: World, applied: seq<Position>, dropped: seq<Position>, events: seq<Position>)
    requires Grows(s, m) && Grows(m, t) && Progress(s, m, applied, dropped) && MovedPast(m, t, events)
    ensures Progress(s, t, applied, dropped)
    ensures Delivered(t.db, events, []) ==> Progress(s, t, applied + events, dropped)
    ensures Delivered(t.db, [], events) ==> Progress(s, t, applied, dropped + events)
  {
    MovedPastFurther(s, m, t, applied, events);
    MovedPastFurther(s, m, t, dropped, events);
    DeliveredStays(m, t, applied, dropped);
  }

  lemma NoProgressYet(s: World)
    ensures Progress(s, s, [], [])
  {
  }

  lemma SameOrEarlier(s: World, m: World, t: World, w: nat)
    requires Grows(s, m) && Grows(m, t)
    ensures LookedAt(t, w, m.db.log) ==> LookedAt(t, w, s.db.log)
  {
  }

  /** A recorded failure is the last of the event's, now; nothing recorded means another drain is at it or past it. */
  ghost predicate Counted(db: Outbox.Db, event: Position, failures: nat) {
    if failures > 0 then |db.FailuresOf(event)| == failures && db.FailuresOf(event)[failures - 1] == db.clock
    else db.lock.Some? || !Before(db.cursor.at, event)
  }

  // ---- What a drain works off ----

  /** Nothing new was committed meanwhile. */
  ghost predicate NoneCommitted(s: World, t: World) {
    s.db.log == t.db.log
  }

  /**
   * What a drain does to the measure, (unread events, failures left), while nothing
   * new is committed: it falls. The exceptions are a failure not counted because
   * another drain holds the lock, and one counted beyond parking's three, by a drain
   * that began with three counted already and whose parking failed or was overtaken.
   */
  ghost predicate WorksOff(s: Outbox.Db, t: Outbox.Db, result: DrainResult) {
    match result
    case Returned(Drained(_, _, _)) => Delivery.Lower(t, s)
    case EventFailed(_, failures) =>
      || Delivery.Lower(t, s)
      || (failures == 0 && t.lock.Some?)
      || (failures > Outbox.MAX_FAILURES && s.cursor.failures >= Outbox.MAX_FAILURES)
    case _ => Delivery.NotHigher(t, s)
  }

  lemma NeverRises(before: seq<Action>, after: seq<Action>)
    requires Runs(Init(), after) && before <= after
    ensures Runs(Init(), before)
    ensures NoneCommitted(After(Init(), before), After(Init(), after)) ==>
              Delivery.NotHigher(After(Init(), after).db, After(Init(), before).db)
  {
    GrewAlong(before, after);
    if NoneCommitted(After(Init(), before), After(Init(), after)) { Delivery.MeasureAlong(before, after); }
  }

  /** A drain that applied or parked anything has fewer events left. */
  lemma ProgressWorksOff(s: World, t: World, applied: seq<Position>, dropped: seq<Position>)
    requires Grows(s, t) && Progress(s, t, applied, dropped) && |applied| + |dropped| >= 1 && NoneCommitted(s, t)
    ensures Delivery.Lower(t.db, s.db)
  {
    var e := if applied != [] then applied[0] else dropped[0];
    assert e in applied || e in dropped;
    Delivery.PassedLowers(s.db, t.db, e);
  }

  /** What a failed turn says of its event: it was unread, and it was counted, or why not. */
  ghost predicate TurnFailed(s: World, t: World, event: Position, failures: nat) {
    && event in t.db.log && event !in s.db.Passed()
    && Counted(t.db, event, failures)
    && (failures > 0 ==> t.db.cursor.failures == failures)
    && (0 < failures <= Outbox.MAX_FAILURES && NoneCommitted(s, t) ==> Delivery.Lower(t.db, s.db))
  }

  lemma TurnIsCounted(s: World, m: World, t: World, event: Position, failures: nat)
    requires Grows(s, m) && Grows(m, t) && event in m.db.log && event !in s.db.Passed()
    requires Counted(t.db, event, failures) && (failures > 0 ==> t.db.cursor.failures == failures)
    requires NoneCommitted(s, m) ==> Delivery.NotHigher(m.db, s.db)
    requires 0 < failures <= Outbox.MAX_FAILURES && NoneCommitted(m, t) ==> Delivery.Lower(t.db, m.db)
    ensures TurnFailed(s, t, event, failures)
  {
    if NoneCommitted(s, t) {
      assert m.db.log == t.db.log;
      Delivery.NotHigherComposes(s.db, m.db, t.db);
    }
  }

  lemma FailureWorksOff(s: World, m: World, t: World, event: Position, failures: nat)
    requires Grows(s, m) && Grows(m, t) && NoneCommitted(s, t) && TurnFailed(m, t, event, failures)
    requires Delivery.NotHigher(m.db, s.db) && Delivery.NotHigher(t.db, s.db)
    ensures WorksOff(s.db, t.db, EventFailed(event, failures))
  {
    assert m.db.log == t.db.log;
    if failures > Outbox.MAX_FAILURES {
      Delivery.OvercountedLowers(s.db, t.db);
    } else if failures > 0 {
      Delivery.NotHigherComposes(s.db, m.db, t.db);
    } else if t.db.lock.None? {
      Delivery.PassedLowers(s.db, t.db, event);
    }
  }

  /** What a drain's result says of its beginning, its last turn and its end. */
  ghost predicate Reports(s: World, m: World, t: World, result: DrainResult, applied: seq<Position>, dropped: seq<Position>) {
    && (result.Returned? && result.outcome.Drained? ==> Progress(s, t, applied, dropped) && |applied| + |dropped| >= 1)
    && (result.EventFailed? ==> TurnFailed(m, t, result.event, result.failures))
  }

  /** However a drain ends, it works off the log while nothing new is committed. */
  lemma EndsWorkedOff(began: seq<Action>, turned: seq<Action>, now: seq<Action>, result: DrainResult,
                      applied: seq<Position>, dropped: seq<Position>)
    requires Runs(Init(), now) && began <= turned <= now
    ensures Runs(Init(), began) && Runs(Init(), turned)
    ensures var s, m, t := After(Init(), began), After(Init(), turned), After(Init(), now);
            NoneCommitted(s, t) && Reports(s, m, t, result, applied, dropped) ==> WorksOff(s.db, t.db, result)
  {
    hide Runs, After, Reports, WorksOff, Delivery.NotHigher;
    GrewAlong(turned, now);
    GrewAlong(began, turned);
    GrewAlong(began, now);
    NeverRises(began, turned);
    NeverRises(began, now);
    var s, m, t := After(Init(), began), After(Init(), turned), After(Init(), now);
    if NoneCommitted(s, t) && Reports(s, m, t, result, applied, dropped) {
      assert NoneCommitted(s, m);
      ReportsWorkOff(s, m, t, result, applied, dropped);
    }
  }

  lemma ReportsWorkOff(s: World, m: World, t: World, result: DrainResult, applied: seq<Position>, dropped: seq<Position>)
    requires Grows(s, m) && Grows(m, t) && Grows(s, t) && NoneCommitted(s, t)
    requires Delivery.NotHigher(m.db, s.db) && Delivery.NotHigher(t.db, s.db) && Reports(s, m, t, result, applied, dropped)
    ensures WorksOff(s.db, t.db, result)
  {
    hide Grows, Progress, TurnFailed, Delivery.NotHigher, Delivery.Lower;
    if result.EventFailed? {
      FailureWorksOff(s, m, t, result.event, result.failures);
    } else if result.Returned? && result.outcome.Drained? {
      ProgressWorksOff(s, t, applied, dropped);
    }
  }

  // ---- What each of a worker's own actions does, as the drain needs it ----

  lemma CommitMoves(s: World, w: nat)
    requires s.RoleOf(w).Draining? && s.db.PhaseOf(w).Handled?
    ensures Enabled(s, Data(Outbox.Commit(w)))
    ensures var t := Apply(s, Data(Outbox.Commit(w)));
            var p := s.db.PhaseOf(w);
            && t.RoleOf(w) == s.RoleOf(w) && t.db.PhaseOf(w) == Outbox.Done(|s.db.batches|)
            && t.db.batches == s.db.batches + [p.events] && t.db.cursor.at == LastOr(p.events, p.place.at)
  {
  }

  lemma DropMoves(s: World, w: nat)
    requires s.RoleOf(w).Draining? && !s.db.PhaseOf(w).Out?
    ensures Enabled(s, Data(Outbox.Drop(w)))
    ensures var t := Apply(s, Data(Outbox.Drop(w)));
            t.RoleOf(w) == s.RoleOf(w) && t.db.PhaseOf(w).Out?
  {
  }

  lemma BlameMoves(s: World, w: nat)
    requires s.RoleOf(w).Draining? && (s.db.PhaseOf(w).Handled? || s.db.PhaseOf(w).Checked?) && |s.db.PhaseOf(w).events| == 1
    ensures Enabled(s, Data(Outbox.Blame(w)))
    ensures var t := Apply(s, Data(Outbox.Blame(w)));
            var p := s.db.PhaseOf(w);
            t.RoleOf(w) == s.RoleOf(w) && t.db.PhaseOf(w) == Outbox.Failed(p.place, p.events[0])
  {
  }

  lemma ParkMoves(s: World, w: nat)
    requires s.RoleOf(w).Draining? && s.db.PhaseOf(w).Checked?
    requires s.db.Parkable(s.db.PhaseOf(w).place, s.db.PhaseOf(w).events)
    ensures Enabled(s, Data(Outbox.Park(w)))
    ensures var t := Apply(s, Data(Outbox.Park(w)));
            var e := s.db.PhaseOf(w).events[0];
            && t.RoleOf(w) == s.RoleOf(w) && t.db.PhaseOf(w).Out?
            && e in Outbox.DeadEvents(t.db) && t.db.cursor.at == e
  {
    var t := Apply(s, Data(Outbox.Park(w)));
    assert Outbox.DeadEvents(t.db)[|s.db.dead|] == s.db.PhaseOf(w).events[0];
  }

  lemma FinishMoves(s: World, w: nat)
    requires s.RoleOf(w).Draining? && s.db.PhaseOf(w).Checked? && s.db.PhaseOf(w).events == []
    ensures Enabled(s, Data(Outbox.Finish(w)))
    ensures var t := Apply(s, Data(Outbox.Finish(w)));
            t.RoleOf(w) == s.RoleOf(w) && t.db.PhaseOf(w).Out? && t.db.cursor == s.db.cursor
  {
  }

  lemma HandleMoves(s: World, w: nat)
    requires s.RoleOf(w).Draining? && s.db.PhaseOf(w).Checked? && s.db.PhaseOf(w).events != []
    requires !s.db.Parkable(s.db.PhaseOf(w).place, s.db.PhaseOf(w).events)
    ensures Enabled(s, Data(Outbox.Handle(w)))
    ensures var t := Apply(s, Data(Outbox.Handle(w)));
            var p := s.db.PhaseOf(w);
            t.RoleOf(w) == s.RoleOf(w) && t.db.PhaseOf(w) == Outbox.Handled(p.place, p.events)
  {
  }

  lemma FetchMoves(s: World, w: nat, events: seq<Position>)
    requires s.RoleOf(w).Draining? && s.db.PhaseOf(w).Placed?
    requires Outbox.IsRead(s.db, s.db.PhaseOf(w).place.at, s.db.PhaseOf(w).take, events)
    ensures Enabled(s, Data(Outbox.Fetch(w, events)))
    ensures var t := Apply(s, Data(Outbox.Fetch(w, events)));
            var p := s.db.PhaseOf(w);
            t.RoleOf(w) == s.RoleOf(w) && t.db.PhaseOf(w) == Outbox.Fetched(p.take, p.place, events)
  {
  }

  /** The second query: a short read has seen everything committed, and whether any of it waits. */
  lemma CheckMoves(s: World, w: nat)
    requires s.RoleOf(w).Draining? && s.db.PhaseOf(w).Fetched?
    ensures Enabled(s, Data(Outbox.Check(w)))
    ensures var t := Apply(s, Data(Outbox.Check(w)));
            var p := s.db.PhaseOf(w);
            var held := Outbox.HeldBack(s.db, p.place.at, p.take, p.events);
            && t.RoleOf(w).Draining? && t.RoleOf(w).tries == s.RoleOf(w).tries
            && t.db.PhaseOf(w) == Outbox.Checked(p.take, p.place, p.events, held)
            && (|p.events| < p.take ==> LookedAt(t, w, s.db.log))
            && (|p.events| < p.take && !held ==> NothingPast(t, w, LastOr(p.events, p.place.at)))
  {
  }

  lemma LockMoves(s: World, w: nat, limit: nat)
    requires Ready(s, w) && s.db.lock.None? && limit >= 1
    ensures Enabled(s, Data(Outbox.Lock(w, limit)))
    ensures var t := Apply(s, Data(Outbox.Lock(w, limit)));
            t.RoleOf(w) == s.RoleOf(w) && t.db.PhaseOf(w) == Outbox.Locked(limit)
  {
  }

  lemma PlaceMoves(s: World, w: nat)
    requires s.RoleOf(w).Draining? && s.db.PhaseOf(w).Locked?
    ensures Enabled(s, Data(Outbox.Place(w)))
    ensures var t := Apply(s, Data(Outbox.Place(w)));
            && t.RoleOf(w) == s.RoleOf(w) && t.db.cursor == s.db.cursor && t.db.clock == s.db.clock
            && t.db.PhaseOf(w) == if Outbox.BackingOff(s.db.cursor, s.db.clock) then Outbox.Out
                                  else Outbox.Placed(Outbox.Take(s.db.cursor, s.db.PhaseOf(w).limit), s.db.cursor)
  {
  }

  lemma AfterMoves(s: World, w: nat)
    requires s.RoleOf(w).Draining? && s.db.PhaseOf(w).Done?
    ensures Enabled(s, Data(Outbox.After(w)))
    ensures var t := Apply(s, Data(Outbox.After(w)));
            t.RoleOf(w) == s.RoleOf(w) && t.db.PhaseOf(w).Out? && s.db.PhaseOf(w).batch in t.db.afterRuns
  {
  }

  /** The recording's own transaction: counted while the cursor is before the event and no drain holds the lock. */
  lemma RecordMoves(s: World, w: nat)
    requires Outbox.Inv(s.db) && s.RoleOf(w).Draining? && s.db.PhaseOf(w).Failed?
    ensures Enabled(s, Data(Outbox.Record(w)))
    ensures var e, t := s.db.PhaseOf(w).event, Apply(s, Data(Outbox.Record(w)));
            && t.RoleOf(w) == s.RoleOf(w) && t.db.PhaseOf(w).Out? && t.db.log == s.db.log
            && (if Outbox.Records(s.db, e) then
                  && t.db.cursor.failures > 0 && Counted(t.db, e, t.db.cursor.failures)
                  && (t.db.cursor.failures <= Outbox.MAX_FAILURES ==> Delivery.Lower(t.db, s.db))
                else Counted(t.db, e, 0))
  {
    if Outbox.Records(s.db, s.db.PhaseOf(w).event) {
      Outbox.FailureInvOnRecord(s.db, w);
      Outbox.BlamedIsNext(s.db, w);
      Delivery.CountedFailures(s.db, w);
      Delivery.RecordLowers(s.db, w);
    }
  }

  /** A batch that was unread is moved past once the cursor stands on its last event. */
  lemma BatchMovedPast(s: World, m: World, t: World, events: seq<Position>)
    requires Grows(s, m) && Grows(m, t) && Ascending(events)
    requires forall e :: e in events ==> e in m.db.Unread() && !Before(t.db.cursor.at, e)
    ensures MovedPast(s, t, events)
  {
    forall e | e in events ensures e in t.db.Passed() && e !in s.db.Passed() {
      assert e in m.db.Unread();
    }
  }

  /** With nothing seen past `place`, a cursor at `place` or further has caught up. */
  lemma ReachedPlace(m: World, t: World, w: nat, place: Position, since: set<Position>)
    requires Grows(m, t) && NothingPast(m, w, place) && LookedAt(m, w, since)
    requires t.RoleOf(w) == m.RoleOf(w) && !Before(t.db.cursor.at, place)
    ensures CaughtUp(t, w) && LookedAt(t, w, since)
  {
  }

  lemma UnreadSince(s: World, m: World, t: World, e: Position)
    requires Grows(s, m) && Grows(m, t) && e in m.db.Unread()
    ensures e in t.db.log && e !in s.db.Passed()
  {
  }

  lemma EmptyMovedPast(s: World, t: World)
    ensures MovedPast(s, t, [])
  {
  }

  // ---- How the calls of a drain turn out, and what each turn of it did ----

  /** One turn's faults: as it locks and reads its place, as it reads the log, and from there to its commit. */
  datatype Weather = Weather(lock: Fault, read: Fault, handle: Fault)

  /**
   * One turn: what it read, `tried`, `placed`, `fetched` and `checked` in the worlds
   * of its lock, its cursor and its two queries, and how it ended.
   */
  datatype TurnLog = TurnLog(
    limit: nat, weather: Weather, tried: World, placed: World, fetched: World, checked: World, read: seq<Position>,
    step: Step, failures: nat)
  {
    function Cursor(): Outbox.Cursor {
      placed.db.cursor
    }

    /** One event at a time once something failed. */
    function Take(): nat {
      if Cursor().failures > 0 then 1 else limit
    }

    predicate Locks() {
      weather.lock.NoFault? && tried.db.lock.None?
    }

    predicate Waits() {
      Cursor().failures > 0 && Cursor().failedAt + Outbox.BackoffMs(Cursor().failures) > placed.db.clock
    }

    predicate Reads() {
      Locks() && !Waits() && weather.read.NoFault?
    }

    /** The read came short, and something committed lies past it. */
    predicate HeldBack() {
      |read| < Take() && exists e :: e in checked.db.log && Before(LastOr(read, Cursor().at), e)
    }

    predicate Parks() {
      GivesUp(Cursor(), read)
    }
  }

  /** What a fault that is nobody's event's makes of a turn. */
  function Thrown(fault: Fault): Step {
    if fault.TransientFault? then TransientStep else BrokenStep
  }

  /** The first `take` settled events past `after`: no settled one is left out before them, and none at all if they are fewer. */
  ghost predicate FirstSettled(db: Outbox.Db, after: Position, take: nat, events: seq<Position>) {
    && |events| <= take && Ascending(events)
    && (forall e :: e in events ==> Waiting(db, after, e))
    && (forall e :: Waiting(db, after, e) && e !in events ==> |events| == take && forall d :: d in events ==> Before(d, e))
  }

  /** Committed, unread, and with no transaction open that began before its own. */
  predicate Waiting(db: Outbox.Db, after: Position, e: Position) {
    e in db.log && Before(after, e) && e.txn < db.nextTxn && forall t :: t in db.open ==> e.txn < t
  }

  /** The turn ended as what it saw and its faults say. */
  ghost predicate Explained(t: TurnLog) {
    t.step ==
    if !t.weather.lock.NoFault? then Thrown(t.weather.lock)
    else if t.tried.db.lock.Some? then BusyStep
    else if t.Waits() then BackoffStep(t.Cursor().failedAt + Outbox.BackoffMs(t.Cursor().failures))
    else if !t.weather.read.NoFault? then Thrown(t.weather.read)
    else Concluded(t.read, t.Take(), t.HeldBack(), t.Parks(), t.weather.handle)
  }

  /** The event at the head of what was read has failed three times. */
  predicate GivesUp(place: Outbox.Cursor, events: seq<Position>) {
    events != [] && place.failures >= 3 && place.failing == Some(events[0].id)
  }

  /** How a turn ends that has read `events`: with one to blame for any fault but a transient one, or none if there were several. */
  function Concluded(events: seq<Position>, take: nat, held: bool, givesUp: bool, fault: Fault): Step {
    if events == [] then (if fault.NoFault? then IdleStep(held) else Thrown(fault))
    else if fault.TransientFault? then TransientStep
    else if fault.OtherFault? then FailedStep(if |events| == 1 then Some(events[0]) else None)
    else if givesUp then ParkedStep(events[0])
    else HandledStep(|events|, |events| == take, held)
  }

  /** What a turn does in the database once it has read `events`. */
  function Concluding(w: nat, events: seq<Position>, givesUp: bool, step: Step): seq<Outbox.Action> {
    (if events == [] || givesUp then [] else [Outbox.Handle(w)]) +
    match step
    case IdleStep(_) => [Outbox.Finish(w)]
    case ParkedStep(_) => [Outbox.Park(w)]
    case HandledStep(_, _, _) => [Outbox.Commit(w)]
    case FailedStep(Some(_)) => [Outbox.Blame(w)]
    case _ => [Outbox.Drop(w)]
  }

  /** What follows the transaction. */
  function Following(w: nat, step: Step): seq<Outbox.Action> {
    match step
    case HandledStep(_, _, _) => [Outbox.After(w)]
    case FailedStep(Some(_)) => [Outbox.Record(w)]
    case _ => []
  }

  /** The turn's transaction, action by action. */
  function StepActions(w: nat, t: TurnLog): seq<Outbox.Action> {
    if !t.Locks() then []
    else if t.Waits() then [Outbox.Lock(w, t.limit), Outbox.Place(w)]
    else if !t.weather.read.NoFault? then [Outbox.Lock(w, t.limit), Outbox.Place(w), Outbox.Drop(w)]
    else [Outbox.Lock(w, t.limit), Outbox.Place(w), Outbox.Fetch(w, t.read), Outbox.Check(w)] + Concluding(w, t.read, t.Parks(), t.step)
  }

  function TurnActions(w: nat, t: TurnLog): seq<Outbox.Action> {
    StepActions(w, t) + Following(w, t.step)
  }

  /** The turn saw what it says it saw: from the worker's own action number `n` on. */
  ghost predicate Saw(acts: seq<Action>, w: nat, n: nat, t: TurnLog) {
    && Stood(acts, w, n, t.tried)
    && (t.Locks() ==> Took(acts, w, n + 1, t.placed))
    && (t.Reads() ==>
          && Took(acts, w, n + 2, t.fetched) && Took(acts, w, n + 3, t.checked)
          && FirstSettled(t.fetched.db, t.Cursor().at, t.Take(), t.read))
  }

  lemma SawStays(acts: seq<Action>, more: seq<Action>)
    requires acts <= more
    ensures forall w: nat, n: nat, t :: Saw(acts, w, n, t) ==> Saw(more, w, n, t)
  {
    hide Took, Stood, FirstSettled;
    TookStays(acts, more);
  }

  /** A turn that ends before it has read anything. */
  lemma EarlyLog(acts: seq<Action>, w: nat, n: nat, t: TurnLog)
    requires Stood(acts, w, n, t.tried) && (t.Locks() ==> Took(acts, w, n + 1, t.placed)) && !t.Reads()
    requires t.step == if !t.weather.lock.NoFault? then Thrown(t.weather.lock)
                       else if t.tried.db.lock.Some? then BusyStep
                       else if t.Waits() then BackoffStep(t.Cursor().failedAt + Outbox.BackoffMs(t.Cursor().failures))
                       else Thrown(t.weather.read)
    ensures Explained(t) && Saw(acts, w, n, t)
    ensures StepActions(w, t) == (if !t.Locks() then [] else [Outbox.Lock(w, t.limit), Outbox.Place(w)]) +
                                 (if !t.Locks() || t.Waits() then [] else [Outbox.Drop(w)])
  {
    hide Took, Stood;
  }

  /** A turn that has read. */
  lemma ReadLog(acts: seq<Action>, w: nat, n: nat, t: TurnLog)
    requires t.Reads() && Stood(acts, w, n, t.tried) && Took(acts, w, n + 1, t.placed) && Took(acts, w, n + 2, t.fetched) && Took(acts, w, n + 3, t.checked)
    requires FirstSettled(t.fetched.db, t.Cursor().at, t.Take(), t.read)
    requires t.step == Concluded(t.read, t.Take(), t.HeldBack(), t.Parks(), t.weather.handle)
    ensures Explained(t) && Saw(acts, w, n, t)
    ensures StepActions(w, t) == [Outbox.Lock(w, t.limit), Outbox.Place(w)] +
                                 ([Outbox.Fetch(w, t.read), Outbox.Check(w)] + Concluding(w, t.read, t.Parks(), t.step))
  {
    hide Took, Stood, FirstSettled, Concluded, Concluding, GivesUp;
  }

  lemma FailuresAside(acts: seq<Action>, w: nat, n: nat, t: TurnLog, failures: nat)
    ensures Explained(t) ==> Explained(t.(failures := failures))
    ensures Saw(acts, w, n, t) ==> Saw(acts, w, n, t.(failures := failures))
    ensures StepActions(w, t.(failures := failures)) == StepActions(w, t)
  {
    hide Took, Stood, FirstSettled;
  }

  lemma ReadIsFirst(db: Outbox.Db, after: Position, take: nat, events: seq<Position>)
    requires Outbox.IsRead(db, after, take, events)
    ensures FirstSettled(db, after, take, events)
  {
    forall e | Waiting(db, after, e) && e !in events ensures |events| == take && forall d :: d in events ==> Before(d, e) {
      assert db.Settled(e.txn);
      LastIsLast(events, after);
    }
  }

  lemma LastIsLast(events: seq<Position>, after: Position)
    requires Ascending(events)
    ensures forall d :: d in events ==> d == LastOr(events, after) || Before(d, LastOr(events, after))
  {
  }

  // ---- A drain's turns, one after another ----

  /** What went through the handler and committed, turn by turn. */
  ghost function Applied(turns: seq<TurnLog>): seq<Position> {
    if turns == [] then []
    else
      var last := turns[|turns| - 1];
      Applied(turns[..|turns| - 1]) + if last.step.HandledStep? then last.read else []
  }

  /** What was given up on, turn by turn. */
  ghost function Dropped(turns: seq<TurnLog>): seq<Position> {
    if turns == [] then []
    else
      var last := turns[|turns| - 1];
      Dropped(turns[..|turns| - 1]) + if last.step.ParkedStep? then [last.step.event] else []
  }

  ghost function AllActions(w: nat, turns: seq<TurnLog>): seq<Outbox.Action> {
    if turns == [] then [] else AllActions(w, turns[..|turns| - 1]) + TurnActions(w, turns[|turns| - 1])
  }

  /** Turn `i` saw what it says, from where the ones before it left off, and ended as that says. */
  ghost predicate SawAt(acts: seq<Action>, w: nat, n: nat, turns: seq<TurnLog>, i: nat)
    requires i < |turns|
  {
    Saw(acts, w, n + |AllActions(w, turns[..i])|, turns[i]) && Explained(turns[i])
  }

  ghost predicate AllSaw(acts: seq<Action>, w: nat, n: nat, turns: seq<TurnLog>) {
    forall i: nat :: i < |turns| ==> SawAt(acts, w, n, turns, i)
  }

  /** Events through by the end of turn `i`. */
  ghost function Through(turns: seq<TurnLog>, i: nat): nat
    requires i < |turns|
  {
    |Applied(turns[..i + 1])| + |Dropped(turns[..i + 1])|
  }

  /** No turn ended the drain: the first failed with nobody to blame, and the others got an event through with more to take. */
  ghost predicate WentOn(turns: seq<TurnLog>, batch: nat) {
    && (turns != [] ==> turns[0].step == FailedStep(None))
    && forall i: nat :: 1 <= i < |turns| ==> (turns[i].step.HandledStep? || turns[i].step.ParkedStep?) && Through(turns, i) < batch
  }

  /**
   * How a drain ends by its last turn's step, after `single` events or a whole
   * batch: by the step itself if nothing got through, and otherwise by what did.
   */
  predicate EndsBy(step: Step, failures: nat, single: bool, count: nat, parked: nat, batch: nat, result: DrainResult) {
    match step
    case TransientStep => result == Transient
    case BrokenStep => result == Broken
    case FailedStep(Some(event)) => result == EventFailed(event, failures)
    case FailedStep(None) => false
    case BusyStep => result == Returned(if count + parked == 0 then Busy else Drained(count, parked, true))
    case BackoffStep(until) => result == Returned(if count + parked == 0 then Backoff(until) else Drained(count, parked, true))
    case IdleStep(held) => result == Returned(if count + parked == 0 then IdleAt(held) else Drained(count, parked, held))
    case ParkedStep(_) => result == Returned(Drained(count, parked, true)) && (single ==> count + parked == batch)
    case HandledStep(_, full, held) =>
      result == Returned(Drained(count, parked, single || full || held)) && (single ==> count + parked == batch)
  }

  ghost predicate Ends(turns: seq<TurnLog>, batch: nat, result: DrainResult)
    requires turns != []
  {
    var last := turns[|turns| - 1];
    EndsBy(last.step, last.failures, |turns| > 1, |Applied(turns)|, |Dropped(turns)|, batch, result)
  }

  /** A whole batch first, and single events after it. */
  ghost predicate Limited(turns: seq<TurnLog>, batch: nat, weather: nat -> Weather) {
    forall i: nat :: i < |turns| ==> turns[i].limit == (if i == 0 then batch else 1) && turns[i].weather == weather(i)
  }

  /** These turns, from the worker's own action number `n` on, are one drain with this result. */
  ghost predicate DrainedBy(acts: seq<Action>, w: nat, n: nat, batch: nat, weather: nat -> Weather, turns: seq<TurnLog>, result: DrainResult) {
    && AllSaw(acts, w, n, turns) && Limited(turns, batch, weather)
    && turns != [] && WentOn(turns[..|turns| - 1], batch) && Ends(turns, batch, result)
  }

  lemma WentOnce(turns: seq<TurnLog>, batch: nat)
    requires |turns| == 1 && turns[0].step == FailedStep(None)
    ensures WentOn(turns, batch)
  {
  }

  lemma WentOnFurther(turns: seq<TurnLog>, t: TurnLog, batch: nat)
    requires turns != [] && WentOn(turns, batch) && (t.step.HandledStep? || t.step.ParkedStep?)
    requires |Applied(turns + [t])| + |Dropped(turns + [t])| < batch
    ensures WentOn(turns + [t], batch)
  {
    hide Applied, Dropped;
    assert (turns + [t])[..|turns| + 1] == turns + [t];
    forall i: nat | 1 <= i < |turns| ensures Through(turns + [t], i) < batch {
      assert (turns + [t])[..i + 1] == turns[..i + 1];
      assert Through(turns, i) < batch;
    }
  }

  lemma LimitedFurther(turns: seq<TurnLog>, t: TurnLog, batch: nat, weather: nat -> Weather)
    requires Limited(turns, batch, weather) && t.limit == (if turns == [] then batch else 1) && t.weather == weather(|turns|)
    ensures Limited(turns + [t], batch, weather)
  {
  }

  /** A batch's worth of events at most: all of it to come, or, taken one by one, what is not through yet. */
  predicate Budgeted(single: bool, budget: nat, count: nat, parked: nat, batch: nat) {
    budget >= 1 && if single then budget + count + parked == batch else budget == batch && count + parked == 0
  }

  /** A step applies no more than its limit, and only a batch of several fails with nobody to blame. */
  predicate Counts(step: Step, limit: nat) {
    && (step.HandledStep? ==> 1 <= step.count <= limit)
    && (step == FailedStep(None) ==> limit > 1)
  }

  lemma TurnCounts(s0: World, s: World, t: World, w: nat, limit: nat, step: Step, failures: nat)
    requires Turned(s0, s, t, w, limit, step, failures)
    ensures Counts(step, limit)
  {
  }

  /** What a turn's end says of the drain's beginning, its own, and now. */
  ghost predicate Turned(s0: World, s: World, t: World, w: nat, limit: nat, step: Step, failures: nat) {
    match step
    case HandledStep(count, full, heldBack) =>
      1 <= count <= limit && (!full && !heldBack ==> CaughtUp(t, w) && LookedAt(t, w, s0.db.log))
    case IdleStep(heldBack) => !heldBack ==> CaughtUp(t, w) && LookedAt(t, w, s0.db.log)
    case FailedStep(Some(event)) => TurnFailed(s, t, event, failures)
    case FailedStep(None) => limit > 1
    case BackoffStep(until) => until > t.db.clock
    case _ => true
  }

  /** The same of a drain's end; `s` is where its last turn began. */
  ghost predicate Concludes(s0: World, s: World, t: World, w: nat, result: DrainResult, through: nat) {
    match result
    case Returned(outcome) =>
      && (!outcome.Loud() ==> CaughtUp(t, w) && LookedAt(t, w, s0.db.log))
      && (outcome.Drained? ==> through >= 1)
      && (outcome.Backoff? ==> outcome.until > t.db.clock)
    case EventFailed(event, failures) => TurnFailed(s, t, event, failures)
    case _ => true
  }

  lemma ConcludesBy(s0: World, s: World, t: World, w: nat, limit: nat, step: Step, failures: nat,
                    single: bool, count: nat, parked: nat, batch: nat, result: DrainResult)
    requires Turned(s0, s, t, w, limit, step, failures) && EndsBy(step, failures, single, count, parked, batch, result)
    requires (step.HandledStep? ==> count >= step.count) && (step.ParkedStep? ==> parked >= 1)
    ensures Concludes(s0, s, t, w, result, count + parked)
  {
    hide TurnFailed, LookedAt, CaughtUp;
  }

  /** Each way a turn can fail, by where its fault struck and what had been read by then. */
  lemma WhyTurnsFail(t: TurnLog)
    requires Explained(t)
    ensures t.step.TransientStep? <==>
            t.weather.lock == TransientFault ||
            (t.Locks() && !t.Waits() && (t.weather.read == TransientFault || (t.weather.read == NoFault && t.weather.handle == TransientFault)))
    ensures t.step.BrokenStep? <==>
            t.weather.lock == OtherFault ||
            (t.Locks() && !t.Waits() && (t.weather.read == OtherFault || (t.weather.read == NoFault && t.read == [] && t.weather.handle == OtherFault)))
    ensures t.step.FailedStep? <==> t.Reads() && t.read != [] && t.weather.handle == OtherFault
    ensures t.step.FailedStep? ==> if |t.read| == 1 then t.step.single == Some(t.read[0]) else t.step.single == None
  {
  }

  /** And each way it can go well. */
  lemma WhyTurnsGoWell(t: TurnLog)
    requires Explained(t)
    ensures t.step.BusyStep? <==> t.weather.lock == NoFault && t.tried.db.lock.Some?
    ensures t.step.BackoffStep? <==> t.Locks() && t.Waits()
    ensures t.step.IdleStep? <==> t.Reads() && t.read == [] && t.weather.handle == NoFault
    ensures t.step.ParkedStep? <==>
            && t.Reads() && t.weather.handle == NoFault && t.read != []
            && t.Cursor().failures >= 3 && t.Cursor().failing == Some(t.read[0].id)
    ensures t.step.HandledStep? <==> t.Reads() && t.weather.handle == NoFault && t.read != [] && !t.step.ParkedStep?
    ensures t.step.HandledStep? ==>
            t.step.count == |t.read| && (t.step.full <==> |t.read| == t.Take()) && (t.step.heldBack <==> t.HeldBack())
  {
  }

  /**
   * A batch that fails with nobody to blame is taken again one event at a time,
   * and no other drain is. From there it ends by a failed event, by a fault that is
   * nobody's event's, by what keeps any drain waiting, or with a batch's worth through.
   */
  lemma FailedBatchesGoOneByOne(acts: seq<Action>, w: nat, n: nat, batch: nat, weather: nat -> Weather, turns: seq<TurnLog>, result: DrainResult)
    requires DrainedBy(acts, w, n, batch, weather, turns, result)
    ensures |turns| > 1 <==> turns[0].Reads() && |turns[0].read| > 1 && weather(0).handle == OtherFault
    ensures forall i: nat :: 1 <= i < |turns| && turns[i].Reads() ==> |turns[i].read| <= 1
    ensures forall i: nat :: 1 <= i < |turns| && turns[i].Locks() ==> TurnActions(w, turns[i])[0] == Outbox.Lock(w, 1)
    ensures var last := turns[|turns| - 1];
            && (result.EventFailed? <==> last.Reads() && |last.read| == 1 && last.weather.handle == OtherFault)
            && (result.EventFailed? ==> last.read == [result.event])
            && (|turns| > 1 && (last.step.HandledStep? || last.step.ParkedStep?) ==> |Applied(turns)| + |Dropped(turns)| == batch)
  {
    hide AllSaw, Explained, Applied, Dropped, TurnLog.HeldBack, TurnLog.Waits, TurnLog.Locks;
    EveryTurn(acts, w, n, turns);
    var earlier := turns[..|turns| - 1];
    assert forall i: nat :: i < |earlier| ==> earlier[i] == turns[i];
    WhyTurnsFail(turns[0]);
    WhyTurnsFail(turns[|turns| - 1]);
  }

  /** Every turn ended by what it saw, and read no more than it might. */
  lemma EveryTurn(acts: seq<Action>, w: nat, n: nat, turns: seq<TurnLog>)
    requires AllSaw(acts, w, n, turns)
    ensures forall i: nat :: i < |turns| ==> Explained(turns[i]) && (turns[i].Reads() ==> |turns[i].read| <= turns[i].Take())
  {
    hide AllActions, Explained, Took, Stood;
    forall i: nat | i < |turns| ensures Explained(turns[i]) && (turns[i].Reads() ==> |turns[i].read| <= turns[i].Take()) {
      assert SawAt(acts, w, n, turns, i);
    }
  }

  /** A longer run has seen no less. */
  lemma AllSawStays(acts: seq<Action>, more: seq<Action>, w: nat, n: nat, turns: seq<TurnLog>)
    requires acts <= more && AllSaw(acts, w, n, turns)
    ensures AllSaw(more, w, n, turns)
  {
    hide AllActions, Explained, Saw;
    SawStays(acts, more);
    forall i: nat | i < |turns| ensures SawAt(more, w, n, turns, i) {
      assert SawAt(acts, w, n, turns, i);
    }
  }

  /** What the turns so far have done since the drain began. */
  ghost predicate Done(began: seq<Action>, now: seq<Action>, w: nat, turns: seq<TurnLog>) {
    && Runs(Init(), began) && Runs(Init(), now)
    && Steps(now, w) == Steps(began, w) + AllActions(w, turns)
    && AllSaw(now, w, |Steps(began, w)|, turns)
    && Progress(After(Init(), began), After(Init(), now), Applied(turns), Dropped(turns))
  }

  lemma NothingDoneYet(acts: seq<Action>, w: nat, batch: nat, weather: nat -> Weather)
    requires Runs(Init(), acts)
    ensures Done(acts, acts, w, []) && WentOn([], batch) && Limited([], batch, weather) && Applied([]) == [] && Dropped([]) == []
  {
    hide Runs, After, Steps, Progress;
    NoProgressYet(After(Init(), acts));
  }

  lemma DoneSays(began: seq<Action>, now: seq<Action>, w: nat, turns: seq<TurnLog>)
    requires Done(began, now, w, turns)
    ensures Steps(now, w) == Steps(began, w) + AllActions(w, turns) && AllSaw(now, w, |Steps(began, w)|, turns)
    ensures Runs(Init(), began) && Runs(Init(), now)
    ensures Progress(After(Init(), began), After(Init(), now), Applied(turns), Dropped(turns))
  {
  }

  lemma OneMoreTurn(w: nat, turns: seq<TurnLog>, t: TurnLog)
    ensures AllActions(w, turns + [t]) == AllActions(w, turns) + TurnActions(w, t)
    ensures Applied(turns + [t]) == Applied(turns) + if t.step.HandledStep? then t.read else []
    ensures Dropped(turns + [t]) == Dropped(turns) + if t.step.ParkedStep? then [t.step.event] else []
    ensures (turns + [t])[..|turns|] == turns
  {
    hide TurnActions;
    assert (turns + [t])[..|turns|] == turns;
  }

  lemma SawAtStays(acts: seq<Action>, now: seq<Action>, w: nat, n: nat, turns: seq<TurnLog>, t: TurnLog, i: nat)
    requires acts <= now && i < |turns| && SawAt(acts, w, n, turns, i)
    ensures SawAt(now, w, n, turns + [t], i)
  {
    hide Saw, Explained, AllActions;
    SawStays(acts, now);
    assert (turns + [t])[..i] == turns[..i];
  }

  lemma SawAtLast(now: seq<Action>, w: nat, n: nat, turns: seq<TurnLog>, t: TurnLog)
    requires Saw(now, w, n + |AllActions(w, turns)|, t) && Explained(t)
    ensures SawAt(now, w, n, turns + [t], |turns|)
  {
    hide Saw, Explained, AllActions;
    assert (turns + [t])[..|turns|] == turns;
  }

  lemma SawJoins(acts: seq<Action>, now: seq<Action>, w: nat, n: nat, turns: seq<TurnLog>, t: TurnLog)
    requires acts <= now && AllSaw(acts, w, n, turns) && Saw(now, w, n + |AllActions(w, turns)|, t) && Explained(t)
    ensures AllSaw(now, w, n, turns + [t])
  {
    hide Saw, Explained, AllActions, SawAt;
    SawAtLast(now, w, n, turns, t);
    forall i: nat | i < |turns| ensures SawAt(now, w, n, turns + [t], i) {
      SawAtStays(acts, now, w, n, turns, t, i);
    }
  }

  lemma TurnJoins(began: seq<Action>, acts: seq<Action>, now: seq<Action>, w: nat, turns: seq<TurnLog>, t: TurnLog, events: seq<Position>)
    requires Done(began, acts, w, turns) && Runs(Init(), now) && began <= acts <= now
    requires Saw(now, w, |Steps(acts, w)|, t) && Explained(t) && Steps(now, w) == Steps(acts, w) + TurnActions(w, t)
    requires MovedPast(After(Init(), acts), After(Init(), now), events)
    requires match t.step
             case HandledStep(_, _, _) => events == t.read && Delivered(After(Init(), now).db, events, [])
             case ParkedStep(event) => events == [event] && Delivered(After(Init(), now).db, [], events)
             case _ => true
    ensures Done(began, now, w, turns + [t])
  {
    hide Runs, After, Steps, Saw, Explained, AllSaw, Progress, MovedPast, Delivered, TurnActions, Grows, Applied, Dropped, AllActions;
    GrewAlong(began, acts);
    GrewAlong(acts, now);
    OneMoreTurn(w, turns, t);
    SawJoins(acts, now, w, |Steps(began, w)|, turns, t);
    ProgressJoins(After(Init(), began), After(Init(), acts), After(Init(), now), turns, t, events);
  }

  lemma ProgressJoins(s: World, m: World, n: World, turns: seq<TurnLog>, t: TurnLog, events: seq<Position>)
    requires Grows(s, m) && Grows(m, n) && Progress(s, m, Applied(turns), Dropped(turns)) && MovedPast(m, n, events)
    requires match t.step
             case HandledStep(_, _, _) => events == t.read && Delivered(n.db, events, [])
             case ParkedStep(event) => events == [event] && Delivered(n.db, [], events)
             case _ => true
    ensures Progress(s, n, Applied(turns + [t]), Dropped(turns + [t]))
  {
    hide Progress, MovedPast, Delivered, Grows, Applied, Dropped;
    OneMoreTurn(0, turns, t);
    ProgressFurther(s, m, n, Applied(turns), Dropped(turns), events);
    assert Applied(turns) + [] == Applied(turns) && Dropped(turns) + [] == Dropped(turns);
  }

  /** Where a step that had read `events` at `place` leaves the worker, the cursor and the dead letters. */
  ghost predicate Left(place: Position, events: seq<Position>, t: World, w: nat, step: Step) {
    var q := t.db.PhaseOf(w);
    match step
    case HandledStep(_, _, _) =>
      q.Done? && q.batch < |t.db.batches| && t.db.batches[q.batch] == events && t.db.cursor.at == LastOr(events, place)
    case ParkedStep(event) => q.Out? && event in Outbox.DeadEvents(t.db) && t.db.cursor.at == event
    case FailedStep(Some(event)) => q.Failed? && q.event == event
    case IdleStep(_) => q.Out? && !Before(t.db.cursor.at, place)
    case _ => q.Out?
  }

  /** What a step left behind, by how it ended; `events` are those it moved the cursor past. */
  ghost predicate StepLeaves(s: World, t: World, w: nat, step: Step, events: seq<Position>) {
    var q := t.db.PhaseOf(w);
    MovedPast(s, t, events) &&
    match step
    case HandledStep(count, full, heldBack) =>
      && count == |events| && 1 <= count
      && q.Done? && q.batch < |t.db.batches| && t.db.batches[q.batch] == events
      && (!full && !heldBack ==> CaughtUp(t, w) && LookedAt(t, w, s.db.log))
    case ParkedStep(event) => events == [event] && q.Out? && event in Outbox.DeadEvents(t.db)
    case IdleStep(heldBack) => events == [] && q.Out? && (!heldBack ==> CaughtUp(t, w) && LookedAt(t, w, s.db.log))
    case FailedStep(Some(event)) => events == [] && q.Failed? && q.event == event && event in t.db.log && event !in s.db.Passed()
    case BackoffStep(until) => events == [] && q.Out? && until > t.db.clock
    case _ => events == [] && q.Out?
  }

  lemma StepLeft(s: World, m: World, t: World, w: nat, step: Step, givesUp: bool, fault: Fault, events: seq<Position>)
    requires Grows(s, m) && Grows(m, t) && m.db.PhaseOf(w).Checked? && t.RoleOf(w) == m.RoleOf(w)
    requires var p := m.db.PhaseOf(w);
             && p.place == m.db.cursor && Ascending(p.events)
             && (forall e :: e in p.events ==> e in m.db.Unread() && !Before(LastOr(p.events, p.place.at), e))
             && (|p.events| < p.take ==> LookedAt(m, w, s.db.log))
             && (|p.events| < p.take && !p.held ==> NothingPast(m, w, LastOr(p.events, p.place.at)))
             && 1 <= p.take && |p.events| <= p.take
             && step == Concluded(p.events, p.take, p.held, givesUp, fault)
             && events == if step.HandledStep? then p.events else if step.ParkedStep? then [p.events[0]] else []
    requires Left(m.db.PhaseOf(w).place.at, m.db.PhaseOf(w).events, t, w, step) && (step.ParkedStep? ==> |m.db.PhaseOf(w).events| == 1)
    ensures StepLeaves(s, t, w, step, events)
  {
    hide Grows, MovedPast, LookedAt, NothingPast, CaughtUp;
    var p := m.db.PhaseOf(w);
    if step.HandledStep? || step.ParkedStep? {
      BatchMovedPast(s, m, t, events);
    } else {
      EmptyMovedPast(s, t);
      if step.FailedStep? && step.single.Some? { UnreadSince(s, m, t, p.events[0]); }
    }
    if (step.HandledStep? && !step.full && !step.heldBack) || (step.IdleStep? && !step.heldBack) {
      ReachedPlace(m, t, w, LastOr(p.events, p.place.at), s.db.log);
    }
  }

  /** A step seen from earlier on. */
  lemma StepLeftBefore(s: World, m: World, t: World, w: nat, step: Step, events: seq<Position>)
    requires Grows(s, m) && StepLeaves(m, t, w, step, events)
    ensures StepLeaves(s, t, w, step, events)
  {
    forall e | e in events ensures e !in s.db.Passed() {
      assert e !in m.db.Passed();
    }
  }

  /** What a turn left behind, by how its step ended; `events` are those it moved the cursor past. */
  ghost predicate TurnLeaves(s: World, t: World, w: nat, limit: nat, log: TurnLog, events: seq<Position>) {
    MovedPast(s, t, events) &&
    match log.step
    case HandledStep(count, full, heldBack) =>
      && events == log.read && count == |events| && 1 <= count <= limit && Delivered(t.db, events, [])
      && (!full && !heldBack ==> CaughtUp(t, w) && LookedAt(t, w, s.db.log))
    case ParkedStep(event) => events == [event] && Delivered(t.db, [], events)
    case IdleStep(heldBack) => events == [] && (!heldBack ==> CaughtUp(t, w) && LookedAt(t, w, s.db.log))
    case FailedStep(Some(event)) => events == [] && Counted(t.db, event, log.failures) && TurnFailed(s, t, event, log.failures)
    case FailedStep(None) => events == [] && limit > 1
    case BackoffStep(until) => events == [] && until > t.db.clock
    case _ => events == []
  }

  /** What the step left, and what followed it, make the turn's. */
  lemma TurnLeft(s: World, m: World, t: World, w: nat, limit: nat, log: TurnLog, events: seq<Position>)
    requires Grows(s, m) && Grows(m, t) && StepLeaves(s, m, w, log.step, events)
    requires log.step.HandledStep? ==> events == log.read && |events| <= limit && t.RoleOf(w) == m.RoleOf(w)
    requires log.step == FailedStep(None) ==> limit > 1
    requires if log.step.FailedStep? && log.step.single.Some? then
               MovedPast(s, t, events) && Counted(t.db, log.step.single.value, log.failures) && TurnFailed(s, t, log.step.single.value, log.failures)
             else log.step.HandledStep? || t == m
    ensures TurnLeaves(s, t, w, limit, log, events)
  {
    hide TurnFailed, Counted;
    if log.step.HandledStep? {
      assert Delivered(m.db, events, []);
      DeliveredStays(m, t, events, []);
    }
  }

  lemma RecordedLeaves(s: World, m: World, t: World, w: nat, step: Step, failures: nat, events: seq<Position>)
    requires Grows(s, m) && Grows(m, t) && StepLeaves(s, m, w, step, events) && step.FailedStep? && step.single.Some?
    requires var e := step.single.value;
             && Counted(t.db, e, failures) && (failures > 0 ==> t.db.cursor.failures == failures)
             && (NoneCommitted(s, m) ==> Delivery.NotHigher(m.db, s.db))
             && (0 < failures <= Outbox.MAX_FAILURES && NoneCommitted(m, t) ==> Delivery.Lower(t.db, m.db))
    ensures MovedPast(s, t, events) && TurnFailed(s, t, step.single.value, failures)
  {
    hide Counted, Grows, NoneCommitted, TurnFailed, MovedPast;
    TurnIsCounted(s, m, t, step.single.value, failures);
    EmptyMovedPast(s, t);
  }

  lemma NothingLeft(s: World, t: World, w: nat, step: Step)
    requires step.TransientStep? || step.BrokenStep? || step.BusyStep? || (step.BackoffStep? && step.until > t.db.clock)
    requires t.db.PhaseOf(w).Out?
    ensures StepLeaves(s, t, w, step, [])
  {
  }

  class EventRelay {
    const shared: Shared

    constructor (shared: Shared)
      ensures this.shared == shared
    {
      this.shared := shared;
    }

    /**
     * The lock and the cursor. `tried` is the world as the lock is tried, `placed`
     * as the cursor is read: but for a fault of the database, busy exactly on a held
     * lock, backing off exactly while the last failure's wait lasts, and otherwise on
     * to as much as may be taken, which is one event once something failed.
     */
    method Open(w: nat, limit: nat, fault: Fault) returns (step: Option<Step>, ghost tried: World, ghost placed: World)
      requires shared.Valid() && Ready(shared.world, w) && limit >= 1
      modifies shared
      ensures Onward(shared, w)
      ensures var n := |old(Steps(shared.trace, w))|;
              Stood(shared.trace, w, n, tried) && (fault.NoFault? && tried.db.lock.None? ==> Took(shared.trace, w, n + 1, placed))
      ensures Steps(shared.trace, w) == old(Steps(shared.trace, w)) +
              if fault.NoFault? && tried.db.lock.None? then [Outbox.Lock(w, limit), Outbox.Place(w)] else []
      ensures var c := placed.db.cursor;
              step == if fault.TransientFault? then Some(TransientStep)
                      else if fault.OtherFault? then Some(BrokenStep)
                      else if tried.db.lock.Some? then Some(BusyStep)
                      else if c.failures > 0 && c.failedAt + Outbox.BackoffMs(c.failures) > placed.db.clock
                      then Some(BackoffStep(c.failedAt + Outbox.BackoffMs(c.failures)))
                      else None
      ensures step.None? ==>
        var p := shared.world.db.PhaseOf(w);
        && p.Placed? && p.place == shared.world.db.cursor == placed.db.cursor
        && p.take == (if placed.db.cursor.failures > 0 then 1 else limit)
      ensures step.Some? ==> shared.world.db.PhaseOf(w).Out?
      ensures fault.NoFault? && tried.db.lock.None? ==> placed.db.clock == shared.world.db.clock
    {
      hide Runs, After, Own, Steps, Took, Stood, Enabled, Apply, Outbox.Enabled, Outbox.Apply;
      shared.Pause(w);
      tried, placed := shared.world, shared.world;
      if !fault.NoFault? { return Some(if fault.TransientFault? then TransientStep else BrokenStep), tried, placed; }
      if shared.world.db.lock.Some? { return Some(BusyStep), tried, placed; }
      LockMoves(shared.world, w, limit);
      ghost var t0 := shared.trace;
      shared.Act(Data(Outbox.Lock(w, limit)));

      shared.Pause(w);
      placed := shared.world;
      var cursor := shared.world.db.cursor;
      var now := shared.world.db.clock;
      PlaceMoves(shared.world, w);
      shared.Act(Data(Outbox.Place(w)));
      TookStays(t0, shared.trace);
      if Outbox.BackingOff(cursor, now) {
        return Some(BackoffStep(cursor.failedAt + Outbox.BackoffMs(cursor.failures))), tried, placed;
      }
      return None, tried, placed;
    }

    /** `read`, both of its queries: the first settled events past the place, and, when they come short, whether more waits. */
    method Read(w: nat) returns (events: seq<Position>, heldBack: bool, ghost fetched: World, ghost checked: World)
      requires shared.Valid() && shared.world.RoleOf(w).Draining? && shared.world.db.PhaseOf(w).Placed?
      modifies shared
      ensures Onward(shared, w)
      ensures Steps(shared.trace, w) == old(Steps(shared.trace, w)) + [Outbox.Fetch(w, events), Outbox.Check(w)]
      ensures var n := |old(Steps(shared.trace, w))|; Took(shared.trace, w, n, fetched) && Took(shared.trace, w, n + 1, checked)
      ensures var p := old(shared.world).db.PhaseOf(w);
              && FirstSettled(fetched.db, p.place.at, p.take, events)
              && (heldBack <==> |events| < p.take && exists e :: e in checked.db.log && Before(LastOr(events, p.place.at), e))
              && shared.world.db.PhaseOf(w) == Outbox.Checked(p.take, p.place, events, heldBack)
              && |events| <= p.take
              && (|events| < p.take ==> LookedAt(shared.world, w, old(shared.world).db.log))
              && (|events| < p.take && !heldBack ==> NothingPast(shared.world, w, LastOr(events, p.place.at)))
    {
      hide Runs, After, Own, Steps, Took, Stood, Enabled, Apply, Outbox.Enabled, Outbox.Apply, FirstSettled, Outbox.IsRead;
      ghost var start := shared.trace;
      shared.Pause(w);
      fetched := shared.world;
      var place := shared.world.db.PhaseOf(w).place.at;
      var take := shared.world.db.PhaseOf(w).take;
      events := ReadBelowHorizon(shared.world.db, place, take);
      ReadIsFirst(shared.world.db, place, take, events);
      FetchMoves(shared.world, w, events);
      shared.Act(Data(Outbox.Fetch(w, events)));
      ghost var t1 := shared.trace;
      shared.Pause(w);
      checked := shared.world;
      GrewAlong(start, shared.trace);
      heldBack := Outbox.HeldBack(shared.world.db, place, take, events);
      CheckMoves(shared.world, w);
      shared.Act(Data(Outbox.Check(w)));
      TookStays(t1, shared.trace);
    }

    /** What a checked step's batch is, while it holds the lock. */
    lemma CheckedBatch(w: nat)
      requires shared.Valid() && shared.world.db.PhaseOf(w).Checked?
      ensures var p := shared.world.db.PhaseOf(w); var db := shared.world.db;
              && p.place == db.cursor
              && (p.place.failures > 0 ==> |p.events| <= 1)
              && Ascending(p.events) && (forall e :: e in p.events ==> e in db.Unread())
              && (forall e :: e in p.events ==> !Before(LastOr(p.events, p.place.at), e))
    {
      shared.Safe();
      assert Outbox.WorkerInv(shared.world.db, w, shared.world.db.PhaseOf(w));
    }

    /** Hands a batch to the consumer: its writes and the new cursor commit together, or nothing does. */
    method HandOver(w: nat, take: nat, held: bool, fault: Fault) returns (step: Step)
      requires shared.Valid() && shared.world.RoleOf(w).Draining? && shared.world.db.PhaseOf(w).Handled?
      requires shared.world.db.PhaseOf(w).events != []
      modifies shared
      ensures Onward(shared, w) && shared.world.RoleOf(w) == old(shared.world).RoleOf(w)
      ensures step == Concluded(old(shared.world).db.PhaseOf(w).events, take, held, false, fault)
      ensures Steps(shared.trace, w) == old(Steps(shared.trace, w)) + Concluding(w, [], false, step)
      ensures var p := old(shared.world).db.PhaseOf(w); Left(p.place.at, p.events, shared.world, w, step)
    {
      hide Runs, After, Own, Steps, Took, Stood, Enabled, Apply, Outbox.Enabled, Outbox.Apply;
      shared.Pause(w);
      var events := shared.world.db.PhaseOf(w).events;
      match fault
      case NoFault =>
        CommitMoves(shared.world, w);
        shared.Act(Data(Outbox.Commit(w)));
        return HandledStep(|events|, |events| == take, held);
      case OtherFault =>
        if |events| == 1 {
          BlameMoves(shared.world, w);
          shared.Act(Data(Outbox.Blame(w)));
          return FailedStep(Some(events[0]));
        }
        DropMoves(shared.world, w);
        shared.Act(Data(Outbox.Drop(w)));
        return FailedStep(None);
      case TransientFault =>
        DropMoves(shared.world, w);
        shared.Act(Data(Outbox.Drop(w)));
        return TransientStep;
    }

    /** Gives up on the event that failed often enough: into the dead letters and behind the cursor, or the transaction fails. */
    method ParkHead(w: nat, fault: Fault) returns (step: Step)
      requires shared.Valid() && shared.world.RoleOf(w).Draining?
      requires var p := shared.world.db.PhaseOf(w); p.Checked? && |p.events| == 1 && shared.world.db.Parkable(p.place, p.events)
      modifies shared
      ensures Onward(shared, w) && shared.world.RoleOf(w) == old(shared.world).RoleOf(w)
      ensures step == Concluded(old(shared.world).db.PhaseOf(w).events, 1, false, true, fault)
      ensures Steps(shared.trace, w) == old(Steps(shared.trace, w)) + Concluding(w, [], true, step)
      ensures var p := old(shared.world).db.PhaseOf(w); Left(p.place.at, p.events, shared.world, w, step)
    {
      hide Runs, After, Own, Steps, Took, Stood, Enabled, Apply, Outbox.Enabled, Outbox.Apply;
      var event := shared.world.db.PhaseOf(w).events[0];
      match fault
      case NoFault =>
        ParkMoves(shared.world, w);
        shared.Act(Data(Outbox.Park(w)));
        return ParkedStep(event);
      case OtherFault =>
        BlameMoves(shared.world, w);
        shared.Act(Data(Outbox.Blame(w)));
        return FailedStep(Some(event));
      case TransientFault =>
        DropMoves(shared.world, w);
        shared.Act(Data(Outbox.Drop(w)));
        return TransientStep;
    }

    /** A checked step has nothing to do, parks its event, or hands its batch to the consumer. */
    method Conclude(w: nat, fault: Fault) returns (step: Step)
      requires shared.Valid() && shared.world.RoleOf(w).Draining? && shared.world.db.PhaseOf(w).Checked?
      modifies shared
      ensures Onward(shared, w) && shared.world.RoleOf(w) == old(shared.world).RoleOf(w)
      ensures var p := old(shared.world).db.PhaseOf(w);
              var givesUp := GivesUp(p.place, p.events);
              && step == Concluded(p.events, p.take, p.held, givesUp, fault)
              && Steps(shared.trace, w) == old(Steps(shared.trace, w)) + Concluding(w, p.events, givesUp, step)
      ensures var p := old(shared.world).db.PhaseOf(w); Left(p.place.at, p.events, shared.world, w, step)
    {
      hide Runs, After, Own, Steps, Took, Stood, Enabled, Apply, Outbox.Enabled, Outbox.Apply, Left;
      shared.Pause(w);
      var p := shared.world.db.PhaseOf(w);
      if p.events == [] {
        step := ConcludeEmpty(w, fault);
      } else if shared.world.db.Parkable(p.place, p.events) {
        CheckedBatch(w);
        step := ParkHead(w, fault);
      } else {
        HandleMoves(shared.world, w);
        shared.Act(Data(Outbox.Handle(w)));
        step := HandOver(w, p.take, p.held, fault);
      }
    }

    /** Nothing read: nothing to do, and any fault is the relay's own. */
    method ConcludeEmpty(w: nat, fault: Fault) returns (step: Step)
      requires shared.Valid() && shared.world.RoleOf(w).Draining?
      requires shared.world.db.PhaseOf(w).Checked? && shared.world.db.PhaseOf(w).events == []
      modifies shared
      ensures Onward(shared, w) && shared.world.RoleOf(w) == old(shared.world).RoleOf(w)
      ensures var p := old(shared.world).db.PhaseOf(w);
              && step == Concluded([], p.take, p.held, false, fault)
              && Left(p.place.at, [], shared.world, w, step)
      ensures Steps(shared.trace, w) == old(Steps(shared.trace, w)) + Concluding(w, [], false, step)
    {
      hide Runs, After, Own, Steps, Took, Stood, Enabled, Apply, Outbox.Enabled, Outbox.Apply;
      var held := shared.world.db.PhaseOf(w).held;
      if fault.NoFault? {
        CheckedBatch(w);
        FinishMoves(shared.world, w);
        shared.Act(Data(Outbox.Finish(w)));
        return IdleStep(held);
      }
      DropMoves(shared.world, w);
      shared.Act(Data(Outbox.Drop(w)));
      return if fault.TransientFault? then TransientStep else BrokenStep;
    }

    /** The rest of a step that has its place: read, then conclude. `events` are those it moved the cursor past. */
    method ReadAndConclude(w: nat, fault: Fault)
      returns (step: Step, ghost events: seq<Position>, ghost read: seq<Position>, ghost fetched: World, ghost checked: World)
      requires shared.Valid() && shared.world.RoleOf(w).Draining?
      requires shared.world.db.PhaseOf(w).Placed? && shared.world.db.PhaseOf(w).take >= 1
      modifies shared
      ensures Onward(shared, w)
      ensures var n := |old(Steps(shared.trace, w))|; Took(shared.trace, w, n, fetched) && Took(shared.trace, w, n + 1, checked)
      ensures var p := old(shared.world).db.PhaseOf(w);
              var held := |read| < p.take && exists e :: e in checked.db.log && Before(LastOr(read, p.place.at), e);
              var givesUp := GivesUp(p.place, read);
              && FirstSettled(fetched.db, p.place.at, p.take, read)
              && step == Concluded(read, p.take, held, givesUp, fault)
              && Steps(shared.trace, w) == old(Steps(shared.trace, w)) + ([Outbox.Fetch(w, read), Outbox.Check(w)] + Concluding(w, read, givesUp, step))
              && (step.HandledStep? ==> events == read && |read| <= p.take)
              && (step.FailedStep? && step.single.None? ==> 1 < |read| <= p.take)
      ensures StepLeaves(old(shared.world), shared.world, w, step, events)
    {
      hide Runs, After, Own, Steps, Took, Stood, Enabled, Apply, Outbox.Enabled, Outbox.Apply, FirstSettled;
      events := [];
      ghost var before, started := shared.world, shared.trace;
      ghost var place := shared.world.db.PhaseOf(w).place.at;
      var batch, heldBack;
      batch, heldBack, fetched, checked := Read(w);
      read := batch;
      CheckedBatch(w);
      ghost var looked, at := shared.world, shared.trace;
      GrewAlong(started, at);
      step := Conclude(w, fault);
      GrewAlong(at, shared.trace);
      TookStays(at, shared.trace);
      events := if step.HandledStep? then read else if step.ParkedStep? then [read[0]] else [];
      StepLeft(before, looked, shared.world, w, step, GivesUp(looked.db.PhaseOf(w).place, read), fault, events);
    }

    /** Lock, cursor, read, handle, advance: one transaction, and how it turned out. */
    method Step(w: nat, limit: nat, weather: Weather) returns (step: Step, ghost events: seq<Position>, ghost log: TurnLog)
      requires shared.Valid() && Ready(shared.world, w) && limit >= 1
      modifies shared
      ensures Onward(shared, w)
      ensures log.limit == limit && log.weather == weather && log.step == step && Explained(log)
      ensures Saw(shared.trace, w, |old(Steps(shared.trace, w))|, log)
      ensures Steps(shared.trace, w) == old(Steps(shared.trace, w)) + StepActions(w, log)
      ensures StepLeaves(old(shared.world), shared.world, w, step, events)
      ensures step.HandledStep? ==> events == log.read && |events| <= limit
      // Only a batch of several fails without an event to blame.
      ensures step.FailedStep? && step.single.None? ==> limit > 1
    {
      hide Runs, After, Own, Steps, Saw, Took, Stood, Enabled, Apply, Outbox.Enabled, Outbox.Apply, FirstSettled, StepLeaves,
           Concluded, Concluding, Explained, StepActions, GivesUp;
      ghost var before, started, n := shared.world, shared.trace, |Steps(shared.trace, w)|;
      ghost var tried, placed;
      var early;
      early, tried, placed := Open(w, limit, weather.lock);
      events := [];
      step := if early.Some? then early.value else Thrown(weather.read);
      log := TurnLog(limit, weather, tried, placed, placed, placed, [], step, 0);
      if early.Some? {
        EarlyLog(shared.trace, w, n, log);
        NothingLeft(before, shared.world, w, step);
        return;
      }
      ghost var at, placing := shared.trace, shared.world;
      GrewAlong(started, at);
      if !weather.read.NoFault? {
        DropMoves(shared.world, w);
        shared.Act(Data(Outbox.Drop(w)));
        TookStays(at, shared.trace);
        EarlyLog(shared.trace, w, n, log);
        NothingLeft(before, shared.world, w, step);
      } else {
        ghost var read, fetched, checked;
        step, events, read, fetched, checked := ReadAndConclude(w, weather.handle);
        log := TurnLog(limit, weather, tried, placed, fetched, checked, read, step, 0);
        TookStays(at, shared.trace);
        ReadLog(shared.trace, w, n, log);
        StepLeftBefore(before, placing, shared.world, w, step, events);
      }
    }

    /** `recordFailure`, in a transaction of its own: the count, or 0 when it recorded nothing. */
    method RecordFailure(w: nat) returns (failures: nat)
      requires shared.Valid() && shared.world.RoleOf(w).Draining? && shared.world.db.PhaseOf(w).Failed?
      modifies shared
      ensures Onward(shared, w) && Ready(shared.world, w)
      ensures Steps(shared.trace, w) == old(Steps(shared.trace, w)) + [Outbox.Record(w)]
      ensures Counted(shared.world.db, old(shared.world).db.PhaseOf(w).event, failures)
      ensures failures > 0 ==> shared.world.db.cursor.failures == failures
      ensures 0 < failures <= Outbox.MAX_FAILURES && NoneCommitted(old(shared.world), shared.world) ==>
                Delivery.Lower(shared.world.db, old(shared.world).db)
    {
      hide Runs, After, Own, Steps, Took, Stood, Enabled, Apply, Outbox.Enabled, Outbox.Apply, Outbox.Inv, Counted, Delivery.Lower, Delivery.NotHigher;
      ghost var start, started := shared.world, shared.trace;
      shared.Pause(w);
      ghost var waited := shared.world;
      NeverRises(started, shared.trace);
      GrewAlong(started, shared.trace);
      var e := shared.world.db.PhaseOf(w).event;
      var records := Outbox.Records(shared.world.db, e);
      shared.Safe();
      RecordMoves(shared.world, w);
      shared.Act(Data(Outbox.Record(w)));
      if NoneCommitted(start, waited) { Delivery.NotHigherComposes(start.db, waited.db, shared.world.db); }
      return if records then shared.world.db.cursor.failures else 0;
    }

    /** The after-commit work of a committed step; its own failure is logged and lost. */
    method AfterCommit(w: nat)
      requires shared.Valid() && shared.world.RoleOf(w).Draining? && shared.world.db.PhaseOf(w).Done?
      modifies shared
      ensures Onward(shared, w) && Ready(shared.world, w) && shared.world.RoleOf(w) == old(shared.world).RoleOf(w)
      ensures Steps(shared.trace, w) == old(Steps(shared.trace, w)) + [Outbox.After(w)]
      ensures old(shared.world).db.PhaseOf(w).batch in shared.world.db.afterRuns
    {
      hide Runs, After, Own, Steps, Took, Stood, Enabled, Apply, Outbox.Enabled, Outbox.Apply;
      shared.Pause(w);
      AfterMoves(shared.world, w);
      shared.Act(Data(Outbox.After(w)));
    }

    /** One turn of the loop: a step, and what follows it outside the transaction. */
    method Turn(w: nat, limit: nat, weather: Weather) returns (step: Step, failures: nat, ghost events: seq<Position>, ghost log: TurnLog)
      requires shared.Valid() && Ready(shared.world, w) && limit >= 1
      modifies shared
      ensures Onward(shared, w) && Ready(shared.world, w)
      ensures log.limit == limit && log.weather == weather && log.step == step && log.failures == failures && Explained(log)
      ensures Saw(shared.trace, w, |old(Steps(shared.trace, w))|, log)
      ensures Steps(shared.trace, w) == old(Steps(shared.trace, w)) + TurnActions(w, log)
      ensures TurnLeaves(old(shared.world), shared.world, w, limit, log, events)
    {
      hide Runs, After, Own, Steps, Took, Stood, Saw, Enabled, Apply, Outbox.Enabled, Outbox.Apply, Explained, StepActions, TurnLeaves,
           MovedPast, Delivered, CaughtUp, LookedAt, Counted, TurnFailed, Grows, NoneCommitted;
      failures := 0;
      ghost var start, started := shared.world, shared.trace;
      step, events, log := Step(w, limit, weather);
      ghost var stepped, at := shared.world, shared.trace;
      NeverRises(started, at);
      GrewAlong(started, at);
      if step.HandledStep? {
        AfterCommit(w);
      } else if step.FailedStep? && step.single.Some? {
        failures := RecordFailure(w);
        GrewAlong(at, shared.trace);
        RecordedLeaves(start, stepped, shared.world, w, step, failures, events);
      }
      GrewAlong(at, shared.trace);
      SawStays(at, shared.trace);
      FailuresAside(shared.trace, w, |Steps(started, w)|, log, failures);
      log := log.(failures := failures);
      TurnLeft(start, stepped, shared.world, w, limit, log, events);
    }

    /** The drain's next turn, added to those it has had. */
    method NextTurn(w: nat, limit: nat, weather: Weather, ghost began: seq<Action>, ghost turns: seq<TurnLog>)
      returns (step: Step, failures: nat, ghost log: TurnLog)
      requires shared.Valid() && Ready(shared.world, w) && limit >= 1
      requires began <= shared.trace && Done(began, shared.trace, w, turns)
      modifies shared
      ensures Onward(shared, w) && Ready(shared.world, w)
      ensures log.limit == limit && log.weather == weather && log.step == step && log.failures == failures
      ensures Done(began, shared.trace, w, turns + [log])
      ensures |Applied(turns + [log])| == |Applied(turns)| + if step.HandledStep? then step.count else 0
      ensures |Dropped(turns + [log])| == |Dropped(turns)| + if step.ParkedStep? then 1 else 0
      ensures (turns + [log])[..|turns|] == turns
      ensures Turned(After(Init(), began), old(shared.world), shared.world, w, limit, step, failures)
    {
      hide Runs, After, Own, Steps, Took, Stood, Saw, Explained, AllActions, TurnActions, Applied, Dropped, AllSaw,
           Enabled, Apply, Outbox.Enabled, Outbox.Apply, Grows, MovedPast, Delivered, Progress, LookedAt, CaughtUp, Counted, TurnFailed;
      ghost var start, turned := shared.world, shared.trace;
      GrewAlong(began, turned);
      ghost var events;
      step, failures, events, log := Turn(w, limit, weather);
      GrewAlong(turned, shared.trace);
      SameOrEarlier(After(Init(), began), start, shared.world, w);
      TurnJoins(began, turned, shared.trace, w, turns, log, events);
      OneMoreTurn(w, turns, log);
    }

    /** The turns of a drain, up to the one that ends it; `turned` is where that one began. */
    method DrainSteps(w: nat, batch: nat, weather: nat -> Weather)
      returns (result: DrainResult, ghost turns: seq<TurnLog>, ghost turned: seq<Action>)
      requires shared.Valid() && Ready(shared.world, w) && batch >= 1
      modifies shared
      ensures Onward(shared, w) && Ready(shared.world, w) && old(shared.trace) <= turned <= shared.trace
      ensures Done(old(shared.trace), shared.trace, w, turns) && Runs(Init(), turned)
      ensures turns != [] && WentOn(turns[..|turns| - 1], batch) && Limited(turns, batch, weather) && Ends(turns, batch, result)
      ensures |Applied(turns)| + |Dropped(turns)| <= batch
      ensures Concludes(old(shared.world), After(Init(), turned), shared.world, w, result, |Applied(turns)| + |Dropped(turns)|)
    {
      hide Runs, After, Own, Steps, Enabled, Apply, Done, WentOn, Limited, Applied, Dropped, Turned, Concludes, EndsBy;
      ghost var began := shared.trace;
      turned := shared.trace;
      var count, parked := 0, 0;
      var single := false;
      var budget := batch;
      var turn := 0;
      turns := [];
      NothingDoneYet(shared.trace, w, batch, weather);
      while true
        invariant Onward(shared, w) && Ready(shared.world, w)
        invariant Done(began, shared.trace, w, turns) && WentOn(turns, batch) && Limited(turns, batch, weather)
        invariant turn == |turns| && single == (turns != [])
        invariant count == |Applied(turns)| && parked == |Dropped(turns)| && Budgeted(single, budget, count, parked, batch)
        decreases !single, budget
      {
        ghost var start, earlier, was := shared.world, turns, single;
        turned := shared.trace;
        var step, failures, ended;
        ghost var log;
        step, failures, log := NextTurn(w, if single then 1 else batch, weather(turn), began, turns);
        LimitedFurther(turns, log, batch, weather);
        TurnCounts(After(Init(), began), start, shared.world, w, if single then 1 else batch, step, failures);
        turns, turn := turns + [log], turn + 1;
        ended, result, single, count, parked, budget := Tally(step, failures, single, count, parked, budget, batch);
        if ended {
          ConcludesBy(After(Init(), began), start, shared.world, w, log.limit, step, failures, was, count, parked, batch, result);
          break;
        }
        if was { WentOnFurther(earlier, log, batch); } else { WentOnce(turns, batch); }
      }
    }

    /** What the loop makes of a step: whether the drain ends by it and how, or what it has left to take. */
    method Tally(step: Step, failures: nat, single: bool, count: nat, parked: nat, budget: nat, batch: nat)
      returns (ended: bool, result: DrainResult, single': bool, count': nat, parked': nat, budget': nat)
      requires Budgeted(single, budget, count, parked, batch)
      requires Counts(step, if single then 1 else batch)
      ensures count' == count + (if step.HandledStep? then step.count else 0)
      ensures parked' == parked + (if step.ParkedStep? then 1 else 0)
      ensures ended ==> EndsBy(step, failures, single, count', parked', batch, result)
      ensures !ended ==> single' && Budgeted(single', budget', count', parked', batch)
      ensures !ended ==> if single then budget' < budget && (step.HandledStep? || step.ParkedStep?) else step == FailedStep(None)
    {
      ended, result, single', count', parked', budget' := true, Broken, single, count, parked, budget;
      match step
      case TransientStep => result := Transient;
      case BrokenStep => result := Broken;
      case FailedStep(None) => ended, single' := false, true;
      case FailedStep(Some(event)) => result := EventFailed(event, failures);
      case BusyStep => result := Returned(if count == 0 && parked == 0 then Busy else Drained(count, parked, true));
      case BackoffStep(until) => result := Returned(if count == 0 && parked == 0 then Backoff(until) else Drained(count, parked, true));
      case IdleStep(heldBack) =>
        result := Returned(if count == 0 && parked == 0 then IdleAt(heldBack) else Drained(count, parked, heldBack));
      case ParkedStep(event) =>
        parked' := parked + 1;
        result := Returned(Drained(count, parked', true));
        if single {
          budget' := budget - 1;
          ended := budget' == 0;
        }
      case HandledStep(handled, full, heldBack) =>
        count' := count + handled;
        result := Returned(Drained(count', parked, single || full || heldBack));
        if single {
          budget' := budget - handled;
          ended := budget' == 0;
        }
    }

    /**
     * One drain: a whole batch, or, once a batch has failed, single events until as
     * many as a batch are through. `turns` is what it did, turn by turn: every turn
     * ended by what it saw and by its faults, only the first takes a whole batch, a
     * drain goes on from that one only when it failed with nobody to blame, and from
     * a single event only when it was applied or parked and the batch is not through.
     * It ends quietly only when it has caught up.
     */
    method Drain(w: nat, batch: nat, weather: nat -> Weather)
      returns (result: DrainResult, ghost applied: seq<Position>, ghost dropped: seq<Position>, ghost turns: seq<TurnLog>)
      requires shared.Valid() && Ready(shared.world, w) && batch >= 1
      modifies shared
      ensures Onward(shared, w) && Ready(shared.world, w)
      ensures Steps(shared.trace, w) == old(Steps(shared.trace, w)) + AllActions(w, turns)
      ensures DrainedBy(shared.trace, w, |old(Steps(shared.trace, w))|, batch, weather, turns, result)
      ensures applied == Applied(turns) && dropped == Dropped(turns)
      ensures |applied| + |dropped| <= batch && Progress(old(shared.world), shared.world, applied, dropped)
      ensures match result
              case Returned(Drained(count, parked, more)) => count == |applied| && parked == |dropped| && count + parked >= 1
              case Returned(Backoff(until)) => until > shared.world.db.clock
              case EventFailed(event, failures) => Counted(shared.world.db, event, failures)
              case _ => true
      ensures result.Returned? && !result.outcome.Loud() ==>
                CaughtUp(shared.world, w) && LookedAt(shared.world, w, old(shared.world).db.log)
      // While nothing new is committed, the drain works off the log.
      ensures NoneCommitted(old(shared.world), shared.world) ==> WorksOff(old(shared.world).db, shared.world.db, result)
    {
      hide Runs, After, Own, Steps, Took, Stood, Enabled, Apply, AllSaw, WentOn, Limited, AllActions, Applied, Dropped, Done, Progress,
           LookedAt, CaughtUp, Counted, NoneCommitted, WorksOff;
      ghost var began, turned := shared.trace, shared.trace;
      result, turns, turned := DrainSteps(w, batch, weather);
      applied, dropped := Applied(turns), Dropped(turns);
      DoneSays(began, shared.trace, w, turns);
      EndsWorkedOff(began, turned, shared.trace, result, applied, dropped);
    }
  }
}
