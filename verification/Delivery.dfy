// What the relay promises over whole runs: exactly once, after-commit work,
// and poison events that never block the log.
// Sources: apps/api/src/events/relay.ts and consumer.ts.

module Delivery {
  import opened LogOrder
  import opened Outbox
  import Drains
  import Cluster

  // ---- Exactly once ----

  lemma {:induction false} AscendingHasNoRepeats(s: seq<Position>, e: Position)
    requires Ascending(s)
    ensures multiset(s)[e] == if e in s then 1 else 0
  {
    if s != [] {
      assert s == [s[0]] + s[1..];
      AscendingHasNoRepeats(s[1..], e);
    }
  }

  /** In every run, each passed event was applied once or parked once, never both; no other event was touched. */
  lemma EachEventOnce(acts: seq<Drains.Action>, e: Position)
    requires Drains.Runs(Drains.Init(), acts)
    ensures var db := Drains.After(Drains.Init(), acts).db;
            multiset(db.Effects())[e] + multiset(DeadEvents(db))[e] == if e in db.Passed() then 1 else 0
  {
    Drains.EveryRunIsSafe(acts);
    var db := Drains.After(Drains.Init(), acts).db;
    AscendingHasNoRepeats(db.Effects(), e);
    AscendingHasNoRepeats(DeadEvents(db), e);
  }

  /** What was applied or parked stays so, in place: later actions only add after it. */
  lemma EffectsAreFinal(db: Db, a: Action)
    requires Inv(db) && Enabled(db, a)
    ensures db.Effects() <= Apply(db, a).Effects()
    ensures db.dead <= Apply(db, a).dead
    ensures db.afterRuns <= Apply(db, a).afterRuns
  {
    if a.Commit? {
      FlattenAppend(db.batches, db.PhaseOf(a.w).events);
    }
  }

  /** After-commit work: only a committed batch has any, it runs at most once, and only by the worker that committed it. */
  lemma AfterCommitAtMostOnce(acts: seq<Drains.Action>, batch: nat)
    requires Drains.Runs(Drains.Init(), acts)
    ensures var db := Drains.After(Drains.Init(), acts).db;
            && multiset(db.afterRuns)[batch] <= (if batch < |db.batches| then 1 else 0)
            && forall w :: db.PhaseOf(w) == Done(batch) ==> multiset(db.afterRuns)[batch] == 0 && batch < |db.batches|
  {
    Drains.EveryRunIsSafe(acts);
    var db := Drains.After(Drains.Init(), acts).db;
    DistinctCount(db.afterRuns, batch);
    forall w | db.PhaseOf(w) == Done(batch)
      ensures multiset(db.afterRuns)[batch] == 0 && batch < |db.batches|
    {
      assert WorkerInv(db, w, Done(batch));
    }
  }

  lemma {:induction false} DistinctCount(s: seq<nat>, x: nat)
    requires forall i, j :: 0 <= i < j < |s| ==> s[i] != s[j]
    ensures multiset(s)[x] == if x in s then 1 else 0
  {
    if s != [] {
      assert s == [s[0]] + s[1..];
      DistinctCount(s[1..], x);
    }
  }

  // ---- Poison events ----

  /** Unread events, then failures the stuck one has left: what the relay works down. */
  function FailuresLeft(db: Db): nat {
    if db.cursor.failures >= MAX_FAILURES then 0 else MAX_FAILURES - db.cursor.failures
  }

  ghost predicate Lower(after: Db, before: Db) {
    |after.Unread()| < |before.Unread()| ||
    (|after.Unread()| == |before.Unread()| && FailuresLeft(after) < FailuresLeft(before))
  }

  ghost predicate NotHigher(after: Db, before: Db) {
    |after.Unread()| < |before.Unread()| ||
    (|after.Unread()| == |before.Unread()| && FailuresLeft(after) <= FailuresLeft(before))
  }

  lemma SubsetSize(a: set<Position>, b: set<Position>)
    requires a <= b
    ensures |a| <= |b|
    ensures a != b ==> |a| < |b|
  {
    if a != b {
      var x :| x in b && x !in a;
      assert a <= b - {x};
      SubsetSize(a, b - {x});
    } 
  }

  /** Only a writer's commit adds to what is unread; nothing gives failures back short of moving on. */
  lemma MeasureNeverRises(db: Db, a: Action)
    requires Inv(db) && Enabled(db, a) && !a.CommitTxn?
    ensures NotHigher(Apply(db, a), db)
    ensures a.Commit? || a.Park? ==> Lower(Apply(db, a), db)
    ensures a.Record? && Records(db, db.PhaseOf(a.w).event) && db.cursor.failures < MAX_FAILURES ==> Lower(Apply(db, a), db)
  {
    if a.Commit? || a.Park? {
      AdvanceLowers(db, a);
    } else if a.Record? && Records(db, db.PhaseOf(a.w).event) {
      RecordLowers(db, a.w);
    } else {
      FailuresStay(db, a);
      LogStays(db, a);
    }
  }

  lemma LogStays(db: Db, a: Action)
    requires Enabled(db, a) && !a.CommitTxn?
    ensures Apply(db, a).log == db.log
  {
  }

  lemma AdvanceLowers(db: Db, a: Action)
    requires Inv(db) && Enabled(db, a) && (a.Commit? || a.Park?)
    ensures Lower(Apply(db, a), db)
  {
    var db', p := Apply(db, a), db.PhaseOf(a.w);
    CursorOnlyAdvances(db, a);
    assert WorkerInv(db, a.w, p);
    var e := LastOr(p.events, p.place.at);
    assert p.events[0] in p.events && e in p.events;
    assert e in db.log && Before(db.cursor.at, e) && db'.cursor.at == (if a.Commit? then e else p.events[0]);
    PassedLowers(db, db', db'.cursor.at);
  }

  lemma RecordLowers(db: Db, w: nat)
    requires Inv(db) && Enabled(db, Record(w)) && Records(db, db.PhaseOf(w).event)
    ensures NotHigher(Apply(db, Record(w)), db)
    ensures db.cursor.failures < MAX_FAILURES ==> Lower(Apply(db, Record(w)), db)
  {
    FailureInvOnRecord(db, w);
    assert Apply(db, Record(w)).Unread() == db.Unread();
  }

  /** The same along a run, whoever acts: while nothing new is committed, the measure never rises. */
  lemma {:induction false} MeasureAlong(before: seq<Drains.Action>, after: seq<Drains.Action>)
    requires Drains.Runs(Drains.Init(), after) && before <= after
    requires Drains.Runs(Drains.Init(), before)
    requires Drains.After(Drains.Init(), before).db.log == Drains.After(Drains.Init(), after).db.log
    ensures NotHigher(Drains.After(Drains.Init(), after).db, Drains.After(Drains.Init(), before).db)
    decreases |after|
  {
    hide Drains.Apply, Drains.Enabled, NotHigher, Cluster.Own;
    if before == after {
      SameIsNotHigher(Drains.After(Drains.Init(), before).db);
    } else {
      var less := after[..|after| - 1];
      assert before <= less && less <= after;
      Cluster.GrewAlong(before, less);
      Cluster.GrewAlong(less, after);
      Drains.EveryRunIsSafe(less);
      MeasureAlong(before, less);
      StepNeverRises(Drains.After(Drains.Init(), less), after[|after| - 1]);
      NotHigherComposes(Drains.After(Drains.Init(), before).db, Drains.After(Drains.Init(), less).db, Drains.After(Drains.Init(), after).db);
    }
  }

  lemma SameIsNotHigher(db: Db)
    ensures NotHigher(db, db)
  {
  }

  lemma NotHigherComposes(s: Db, m: Db, t: Db)
    requires NotHigher(m, s)
    ensures NotHigher(t, m) ==> NotHigher(t, s)
    ensures Lower(t, m) ==> Lower(t, s)
  {
  }

  lemma StepNeverRises(s: Drains.World, a: Drains.Action)
    requires Inv(s.db) && Drains.Enabled(s, a) && Drains.Apply(s, a).db.log == s.db.log
    ensures NotHigher(Drains.Apply(s, a).db, s.db)
  {
    if a.Data? {
      if a.a.CommitTxn? { EmptyCommitStands(s.db, a.a); } else { MeasureNeverRises(s.db, a.a); }
    }
  }

  lemma EmptyCommitStands(db: Db, a: Action)
    requires Enabled(db, a) && a.CommitTxn? && Apply(db, a).log == db.log
    ensures NotHigher(Apply(db, a), db)
  {
    assert Apply(db, a).Unread() == db.Unread();
  }

  /** An event that was unread and is passed now makes the unread ones fewer. */
  lemma PassedLowers(s: Db, t: Db, e: Position)
    requires s.log == t.log && s.Passed() <= t.Passed() && e in s.log && e !in s.Passed() && e in t.Passed()
    ensures Lower(t, s)
  {
    assert e in s.Unread() && e !in t.Unread();
    forall d | d in t.Unread() ensures d in s.Unread() {
      assert d !in s.Passed();
    }
    SubsetSize(t.Unread(), s.Unread());
  }

  /** A drain that left more failures counted than parking takes, and did not lower the measure, found them at that count. */
  lemma OvercountedLowers(s: Db, t: Db)
    requires NotHigher(t, s) && t.cursor.failures > MAX_FAILURES
    ensures Lower(t, s) || s.cursor.failures >= MAX_FAILURES
  {
  }

  /** The measure as one number. */
  ghost function Rank(db: Db): nat {
    (MAX_FAILURES + 1) * |db.Unread()| + FailuresLeft(db)
  }

  lemma LowerRank(s: Db, t: Db)
    requires Lower(t, s)
    ensures Rank(t) < Rank(s)
  {
    if |t.Unread()| < |s.Unread()| {
      assert (MAX_FAILURES + 1) * |s.Unread()| >= (MAX_FAILURES + 1) * (|t.Unread()| + 1);
    }
  }

  ghost predicate FallsAlong(dbs: seq<Db>) {
    forall i, j :: 0 <= i && j == i + 1 && j < |dbs| ==> Lower(dbs[j], dbs[i])
  }

  /**
   * No event blocks the log: drains that each lower the measure are at most four for
   * every unread event and three more, and after as many as that nothing is unread.
   */
  lemma {:induction false} NoEventBlocks(dbs: seq<Db>)
    requires dbs != [] && FallsAlong(dbs)
    ensures |dbs| - 1 + Rank(dbs[|dbs| - 1]) <= Rank(dbs[0]) <= (MAX_FAILURES + 1) * |dbs[0].Unread()| + MAX_FAILURES
    ensures |dbs| - 1 == Rank(dbs[0]) ==> dbs[|dbs| - 1].Unread() == {}
  {
    if |dbs| > 1 {
      var less := dbs[..|dbs| - 1];
      NoEventBlocks(less);
      LowerRank(dbs[|dbs| - 2], dbs[|dbs| - 1]);
    }
  }

  /** A consumer that has failed often enough cannot try the event again: its next step parks it. */
  lemma StuckEventIsParkedNext(db: Db, w: nat)
    requires Inv(db) && db.PhaseOf(w).Checked? && db.PhaseOf(w).events != []
    ensures Enabled(db, Park(w)) <==> db.cursor.failures >= MAX_FAILURES
    ensures Enabled(db, Handle(w)) <==> db.cursor.failures < MAX_FAILURES
  {
    var p := db.PhaseOf(w);
    assert WorkerInv(db, w, p);
    if db.cursor.failures > 0 {
      var f :| IsNext(db, db.cursor.at, f) && db.cursor.failing == Some(f.id)
        && |db.FailuresOf(f)| == db.cursor.failures
        && db.FailuresOf(f)[db.cursor.failures - 1] == db.cursor.failedAt;
      assert p.events[0] in p.events;
      assert IsNext(db, db.cursor.at, p.events[0]);
      NextIsUnique(db, db.cursor.at, f, p.events[0]);
    }
  }

  // ---- The waits between failures ----

  /** The wait after the nth failure stands between it and the next. */
  ghost predicate WellSpaced(times: seq<nat>) {
    forall i :: 0 <= i < |times| - 1 ==> times[i + 1] >= times[i] + BackoffMs(i + 1)
  }

  ghost predicate Spaced(db: Db) {
    forall e :: e in db.failures ==> WellSpaced(db.failures[e])
  }

  /** The failure being recorded is of an attempt that had seen every failure recorded so far. */
  ghost predicate SawTheCount(db: Db, a: Action)
    requires Enabled(db, a)
  {
    a.Record? && Records(db, db.PhaseOf(a.w).event) ==> db.PhaseOf(a.w).place == db.cursor
  }

  lemma OldFailuresStand(db: Db, a: Action)
    requires Enabled(db, a) && !(a.Record? && Records(db, db.PhaseOf(a.w).event))
    ensures Apply(db, a).failures == db.failures
  {
  }

  /** A failure counted while the consumer still waits out the last one: only an attempt that overlapped can. */
  predicate CountsEarly(db: Db, a: Action) {
    a.Record? && db.PhaseOf(a.w).Failed? && Records(db, db.PhaseOf(a.w).event) && BackingOff(db.cursor, db.clock)
  }

  /** What is recorded of the next event is exactly what the cursor counts. */
  lemma CountedFailures(db: Db, w: nat)
    requires Inv(db) && db.PhaseOf(w).Failed? && Records(db, db.PhaseOf(w).event)
    ensures var times := db.FailuresOf(db.PhaseOf(w).event);
            |times| == db.cursor.failures && (times != [] ==> times[|times| - 1] == db.cursor.failedAt)
  {
    var e := db.PhaseOf(w).event;
    assert WorkerInv(db, w, db.PhaseOf(w));
    BlamedIsNext(db, w);
    if db.cursor.failures > 0 {
      var f :| IsNext(db, db.cursor.at, f) && db.cursor.failing == Some(f.id)
        && |db.FailuresOf(f)| == db.cursor.failures
        && db.FailuresOf(f)[db.cursor.failures - 1] == db.cursor.failedAt;
      NextIsUnique(db, db.cursor.at, e, f);
    }
  }

  /** Exactly when an action keeps every retry behind the wait before it. */
  lemma SpacedKeptIff(db: Db, a: Action)
    requires Inv(db) && Enabled(db, a) && Spaced(db)
    ensures Spaced(Apply(db, a)) <==> !CountsEarly(db, a)
  {
    var counts := a.Record? && Records(db, db.PhaseOf(a.w).event);
    hide Inv, Apply, Enabled;
    if counts {
      CountKeepsSpacedIff(db, a.w);
    } else {
      OldFailuresStand(db, a);
    }
  }

  lemma CountKeepsSpacedIff(db: Db, w: nat)
    requires Inv(db) && Enabled(db, Record(w)) && Spaced(db) && Records(db, db.PhaseOf(w).event)
    ensures Spaced(Apply(db, Record(w))) <==> !BackingOff(db.cursor, db.clock)
  {
    var e := db.PhaseOf(w).event;
    var times, n := db.FailuresOf(e), |db.FailuresOf(e)|;
    CountedFailures(db, w);
    var after := Apply(db, Record(w)).failures;
    hide Inv, BackoffMs, Records;
    assert after == db.failures[e := times + [db.clock]];
    OneMoreSpaced(times, db.clock);
    assert Spaced(Apply(db, Record(w))) <==> WellSpaced(times + [db.clock]) by {
      assert Spaced(Apply(db, Record(w))) ==> WellSpaced(after[e]);
    }
  }

  lemma OneMoreSpaced(times: seq<nat>, now: nat)
    requires WellSpaced(times)
    ensures WellSpaced(times + [now]) <==> times == [] || now >= times[|times| - 1] + BackoffMs(|times|)
  {
    hide BackoffMs;
    var longer := times + [now];
    if times != [] && WellSpaced(longer) {
      var i := |times| - 1;
      assert longer[i + 1] >= longer[i] + BackoffMs(i + 1);
    }
  }

  /** An attempt that had seen the count began after its wait. */
  lemma CurrentIsNotEarly(db: Db, a: Action)
    requires Inv(db) && Enabled(db, a) && SawTheCount(db, a)
    ensures !CountsEarly(db, a)
  {
    if a.Record? { assert WorkerInv(db, a.w, db.PhaseOf(a.w)); }
  }

  lemma SpacedStays(db: Db, a: Action)
    requires Inv(db) && Enabled(db, a) && Spaced(db) && SawTheCount(db, a)
    ensures Spaced(Apply(db, a))
  {
    hide Inv, Apply, Enabled;
    CurrentIsNotEarly(db, a);
    SpacedKeptIff(db, a);
  }

  ghost predicate ParkedLate(db: Db, d: DeadLetter) {
    var times := db.FailuresOf(d.event);
    times != [] && d.at >= times[0] + 2000 + 8000 + 32000
  }

  /** 2 + 8 + 32 s from the first failure to the parking, wherever the failures are spaced. */
  lemma ParkedAfterAllWaits(db: Db, i: nat)
    requires Inv(db) && Spaced(db) && i < |db.dead|
    ensures ParkedLate(db, db.dead[i])
  {
    var d := db.dead[i];
    var times := db.FailuresOf(d.event);
    assert ParkedAfterItsFailures(db, d);
    assert times[1] >= times[0] + BackoffMs(1) && times[2] >= times[1] + BackoffMs(2);
    assert BackoffMs(2) == 8000;
    LaterFailures(times, 2, |times| - 1);
    BackoffGrows(3, d.failures);
    assert BackoffMs(3) == 4 * BackoffMs(2) == 32000;
  }

  lemma {:induction false} LaterFailures(times: seq<nat>, i: nat, j: nat)
    requires WellSpaced(times) && i <= j < |times|
    ensures times[i] <= times[j]
    decreases j
  {
    if i < j { LaterFailures(times, i, j - 1); assert times[j - 1 + 1] >= times[j - 1]; }
  }

  lemma {:induction false} BackoffGrows(m: nat, n: nat)
    requires m <= n
    ensures BackoffMs(m) <= BackoffMs(n)
    decreases n
  {
    if m < n { BackoffGrows(m, n - 1); }
  }

  /** Whatever else runs, a parked event failed three times and waited out its last failure: 32 s or more. */
  lemma ParkedAfterTheLastWait(db: Db, i: nat)
    requires Inv(db) && i < |db.dead|
    ensures var d := db.dead[i];
            var times := db.FailuresOf(d.event);
            |times| >= MAX_FAILURES && d.at >= times[|times| - 1] + 32000
  {
    assert ParkedAfterItsFailures(db, db.dead[i]);
    BackoffGrows(3, db.dead[i].failures);
    assert BackoffMs(3) == 4 * BackoffMs(2) == 32000 by { assert BackoffMs(2) == 8000; }
  }

  // ---- One drain at a time ----

  ghost predicate OneDrain(db: Db) {
    forall v, w :: v in db.workers && w in db.workers && !db.workers[v].Out? && !db.workers[w].Out? ==> v == w
  }

  /** A drain that is alone still sees the cursor it failed at. */
  ghost predicate BlameIsCurrent(db: Db) {
    forall w :: w in db.workers && db.workers[w].Failed? ==> db.workers[w].place == db.cursor
  }

  lemma BlameStaysCurrent(db: Db, a: Action)
    requires Inv(db) && Enabled(db, a) && OneDrain(db) && OneDrain(Apply(db, a)) && BlameIsCurrent(db)
    ensures BlameIsCurrent(Apply(db, a)) && SawTheCount(db, a)
  {
    if a.Worker().Some? && a.Worker().value in db.workers {
      assert WorkerInv(db, a.Worker().value, db.workers[a.Worker().value]);
    }
  }

  ghost predicate Alone(s: Drains.World, acts: seq<Drains.Action>)
    requires Drains.Runs(s, acts)
    decreases |acts|
  {
    OneDrain(Drains.After(s, acts).db) && (acts == [] || Alone(s, acts[..|acts| - 1]))
  }

  lemma ServedStep(s: Drains.World, a: Drains.Action)
    requires Inv(s.db) && Drains.Enabled(s, a) && OneDrain(s.db) && OneDrain(Drains.Apply(s, a).db)
    requires BlameIsCurrent(s.db) && Spaced(s.db)
    ensures BlameIsCurrent(Drains.Apply(s, a).db) && Spaced(Drains.Apply(s, a).db)
  {
    if a.Data? {
      BlameStaysCurrent(s.db, a.a);
      SpacedStays(s.db, a.a);
    }
  }

  lemma {:induction false} SpacedAlone(acts: seq<Drains.Action>)
    requires Drains.Runs(Drains.Init(), acts) && Alone(Drains.Init(), acts)
    ensures BlameIsCurrent(Drains.After(Drains.Init(), acts).db) && Spaced(Drains.After(Drains.Init(), acts).db)
    decreases |acts|
  {
    if acts != [] {
      var before := acts[..|acts| - 1];
      SpacedAlone(before);
      Drains.EveryRunIsSafe(before);
      ServedStep(Drains.After(Drains.Init(), before), acts[|acts| - 1]);
    }
  }

  /** With one drain at a time, every wait is served: an event is parked 42 s or more after it first failed. */
  lemma WaitsAreServed(acts: seq<Drains.Action>, i: nat)
    requires Drains.Runs(Drains.Init(), acts) && Alone(Drains.Init(), acts)
    requires i < |Drains.After(Drains.Init(), acts).db.dead|
    ensures var db := Drains.After(Drains.Init(), acts).db; Spaced(db) && ParkedLate(db, db.dead[i])
  {
    Drains.EveryRunIsSafe(acts);
    SpacedAlone(acts);
    ParkedAfterAllWaits(Drains.After(Drains.Init(), acts).db, i);
  }

  // ---- Several drains at once ----

  /** Where a list of actions leads, if each is possible in its turn. */
  ghost function Follow(db: Db, acts: seq<Action>): Option<Db>
    decreases |acts|
  {
    if acts == [] then Some(db)
    else if Enabled(db, acts[0]) then Follow(Apply(db, acts[0]), acts[1..])
    else None
  }

  lemma {:induction false} FollowAppend(db: Db, first: seq<Action>, second: seq<Action>)
    requires Follow(db, first).Some?
    ensures Follow(db, first + second) == Follow(Follow(db, first).value, second)
    decreases |first|
  {
    if first == [] {
      assert first + second == second;
    } else {
      FollowAppend(Apply(db, first[0]), first[1..], second);
      assert (first + second)[1..] == first[1..] + second;
    }
  }

  lemma FollowOne(db: Db, a: Action, rest: seq<Action>)
    requires Enabled(db, a)
    ensures Follow(db, [a] + rest) == Follow(Apply(db, a), rest)
  {
    assert ([a] + rest)[1..] == rest;
  }

  /** Worker `w` in its transaction, at `phase`. */
  function Inside(db: Db, w: nat, phase: Phase): Db {
    db.(lock := Some(w), workers := db.workers[w := phase])
  }

  lemma Moves(db: Db, w: nat, from: Phase, to: Phase)
    ensures Inside(db, w, from).(workers := Inside(db, w, from).workers[w := to]) == Inside(db, w, to)
    ensures Inside(db, w, from).(lock := None, workers := Inside(db, w, from).workers[w := to]) == db.(lock := None, workers := db.workers[w := to])
  {
    assert db.workers[w := from][w := to] == db.workers[w := to];
  }

  /** A first attempt: nothing recorded yet, one event to read. */
  ghost predicate Untried(db: Db, e: Position) {
    && db.log == {e} && db.Settled(e.txn) && Before(LOG_START, e)
    && db.cursor == Cursor(LOG_START, None, 0, 0) && db.lock.None?
  }

  /** One worker reads the event, and its handler fails. */
  function Attempt(w: nat, e: Position): seq<Action> {
    Reading(w, e) + Failing(w)
  }

  function Reading(w: nat, e: Position): seq<Action> {
    [Lock(w, 1)] + ([Place(w)] + ([Fetch(w, [e])] + []))
  }

  function Failing(w: nat): seq<Action> {
    [Check(w)] + ([Handle(w)] + ([Blame(w)] + []))
  }

  lemma AttemptReads(db: Db, w: nat, e: Position)
    requires Untried(db, e) && db.PhaseOf(w).Out?
    ensures Follow(db, Reading(w, e)) == Some(Inside(db, w, Fetched(1, db.cursor, [e])))
  {
    var d1 := Inside(db, w, Locked(1));
    var d2 := Inside(db, w, Placed(1, db.cursor));
    Moves(db, w, Locked(1), Placed(1, db.cursor));
    Moves(db, w, Placed(1, db.cursor), Fetched(1, db.cursor, [e]));
    assert IsRead(d2, LOG_START, 1, [e]);
    FollowOne(d2, Fetch(w, [e]), []);
    FollowOne(d1, Place(w), [Fetch(w, [e])] + []);
    FollowOne(db, Lock(w, 1), [Place(w)] + ([Fetch(w, [e])] + []));
  }

  lemma ReadFails(db: Db, w: nat, e: Position)
    requires Untried(db, e)
    ensures Follow(Inside(db, w, Fetched(1, db.cursor, [e])), Failing(w)) == Some(db.(workers := db.workers[w := Failed(db.cursor, e)]))
  {
    var d3 := Inside(db, w, Fetched(1, db.cursor, [e]));
    var d4 := Inside(db, w, Checked(1, db.cursor, [e], false));
    var d5 := Inside(db, w, Handled(db.cursor, [e]));
    Moves(db, w, Fetched(1, db.cursor, [e]), Checked(1, db.cursor, [e], false));
    Moves(db, w, Checked(1, db.cursor, [e], false), Handled(db.cursor, [e]));
    Moves(db, w, Handled(db.cursor, [e]), Failed(db.cursor, e));
    FollowOne(d5, Blame(w), []);
    FollowOne(d4, Handle(w), [Blame(w)] + []);
    FollowOne(d3, Check(w), [Handle(w)] + ([Blame(w)] + []));
  }

  lemma AttemptFails(db: Db, w: nat, e: Position)
    requires Untried(db, e) && db.PhaseOf(w).Out?
    ensures Follow(db, Attempt(w, e)) == Some(db.(workers := db.workers[w := Failed(db.cursor, e)]))
  {
    AttemptReads(db, w, e);
    ReadFails(db, w, e);
    FollowAppend(db, Reading(w, e), Failing(w));
  }

  function Attempts(u: nat, v: nat, w: nat, e: Position): seq<Action> {
    Attempt(u, e) + (Attempt(v, e) + Attempt(w, e))
  }

  function Recordings(u: nat, v: nat, w: nat): seq<Action> {
    [Record(u)] + ([Record(v)] + ([Record(w)] + []))
  }

  lemma ThreeAttemptsFail(db: Db, u: nat, v: nat, w: nat, e: Position)
    requires Untried(db, e) && db.workers == map[] && u != v && v != w && u != w
    ensures var f := Failed(db.cursor, e);
            Follow(db, Attempts(u, v, w, e)) == Some(db.(workers := map[u := f, v := f, w := f]))
  {
    var f := Failed(db.cursor, e);
    var d1 := db.(workers := map[u := f]);
    var d2 := db.(workers := map[u := f, v := f]);
    assert db.workers[u := f] == d1.workers && d1.workers[v := f] == d2.workers;
    assert d2.workers[w := f] == map[u := f, v := f, w := f];
    AttemptFails(db, u, e);
    AttemptFails(d1, v, e);
    AttemptFails(d2, w, e);
    FollowAppend(d1, Attempt(v, e), Attempt(w, e));
    FollowAppend(db, Attempt(u, e), Attempt(v, e) + Attempt(w, e));
  }

  lemma CountsOne(db: Db, w: nat, e: Position)
    requires db.PhaseOf(w).Failed? && db.PhaseOf(w).event == e && Records(db, e)
    requires db.cursor.failing == (if db.cursor.failures == 0 then None else Some(e.id))
    ensures var db' := Apply(db, Record(w));
            && db'.cursor == Cursor(db.cursor.at, Some(e.id), db.cursor.failures + 1, db.clock)
            && db'.FailuresOf(e) == db.FailuresOf(e) + [db.clock]
            && db'.lock == db.lock && db'.clock == db.clock
            && forall v :: v != w ==> db'.PhaseOf(v) == db.PhaseOf(v)
  {
  }

  lemma ThreeRecords(d3: Db, u: nat, v: nat, w: nat, e: Position)
    requires d3.cursor == Cursor(LOG_START, None, 0, 0) && d3.lock.None? && d3.failures == map[] && Before(LOG_START, e)
    requires u != v && v != w && u != w
    requires forall x :: x == u || x == v || x == w ==> d3.PhaseOf(x).Failed? && d3.PhaseOf(x).event == e
    ensures var end := Follow(d3, Recordings(u, v, w));
            && end.Some?
            && end.value.FailuresOf(e) == [d3.clock, d3.clock, d3.clock]
            && end.value.cursor == Cursor(LOG_START, Some(e.id), MAX_FAILURES, d3.clock)
  {
    CountsOne(d3, u, e);
    var d4 := Apply(d3, Record(u));
    CountsOne(d4, v, e);
    var d5 := Apply(d4, Record(v));
    CountsOne(d5, w, e);
    FollowOne(d5, Record(w), []);
    FollowOne(d4, Record(v), [Record(w)] + []);
    FollowOne(d3, Record(u), [Record(v)] + ([Record(w)] + []));
  }

  lemma NoWaitIsNotSpaced(db: Db, e: Position, t: nat)
    requires db.FailuresOf(e) == [t, t, t]
    ensures !Spaced(db)
  {
    var times := db.failures[e];
    assert times[0 + 1] < times[0] + BackoffMs(0 + 1);
  }

  /**
   * Drains that overlap burn the count: three that read the event before any of
   * them records its failure take it from none to three at one instant, so the
   * 2 s and 8 s waits never happen.
   */
  lemma OverlappingDrainsSkipTheWaits(db: Db, u: nat, v: nat, w: nat, e: Position)
    requires Untried(db, e) && db.workers == map[] && db.failures == map[] && u != v && v != w && u != w
    ensures var end := Follow(db, Attempts(u, v, w, e) + Recordings(u, v, w));
            && end.Some?
            && end.value.FailuresOf(e) == [db.clock, db.clock, db.clock]
            && end.value.cursor == Cursor(LOG_START, Some(e.id), MAX_FAILURES, db.clock)
            && !Spaced(end.value)
  {
    ThreeAttemptsFail(db, u, v, w, e);
    FollowAppend(db, Attempts(u, v, w, e), Recordings(u, v, w));
    ThreeRecords(Follow(db, Attempts(u, v, w, e)).value, u, v, w, e);
    NoWaitIsNotSpaced(Follow(db, Attempts(u, v, w, e) + Recordings(u, v, w)).value, e, db.clock);
  }
}
