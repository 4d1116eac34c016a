// Asking for drains and running them: the pending flag, the job, and what each
// outcome schedules.
// Sources: apps/api/src/events/drain-requests.ts, drain.processor.ts and
// outbox-sweep.ts.

module Requests {
  import opened LogOrder
  import Outbox
  import opened Drains
  import opened Cluster
  import opened Relay

  /** Events one drain takes before it yields. */
  const DRAIN_BATCH: nat := 100

  /** What a request does: it adds a job, finds one coming, or is refused by Redis before or after it set the flag. */
  datatype Asked = Added | Found | FlagRefused | JobRefused

  /** How Redis answers: whether it looks at the flag, and whether it takes the job. */
  datatype Redis = Redis(flag: bool, job: bool)

  /** Since `from`, the run took `a`, from the world `s`. */
  ghost predicate TookSince(from: seq<Action>, acts: seq<Action>, a: Action, s: World) {
    exists pre :: Reached(pre, s) && from <= pre && pre + [a] <= acts
  }

  lemma TookSinceStays(from: seq<Action>, acts: seq<Action>, more: seq<Action>, a: Action, s: World)
    requires TookSince(from, acts, a, s) && acts <= more
    ensures TookSince(from, more, a, s)
  {
    var pre :| Reached(pre, s) && from <= pre && pre + [a] <= acts;
    assert pre + [a] <= more;
  }

  lemma TakesNow(from: seq<Action>, acts: seq<Action>, a: Action, s: World)
    requires Reached(acts, s) && from <= acts
    ensures TookSince(from, acts + [a], a, s)
  {
    assert acts + [a] <= acts + [a];
  }

  function AskedActions(asked: Asked, r: nat): seq<Action> {
    match asked
    case Added => [Ask(r), Add(r)]
    case Found => [Ask(r)]
    case FlagRefused => [RefuseFlag(r)]
    case JobRefused => [Ask(r), RefuseJob(r), Undo(r)]
  }

  // ---- What each scheduling action does, as its caller needs it ----

  lemma AskMoves(s: World, r: nat)
    requires s.RoleOf(r).Asking?
    ensures Enabled(s, Ask(r)) && Apply(s, Ask(r)).db == s.db
    ensures Apply(s, Ask(r)).RoleOf(r) == if s.flag then Idle else Holding
    ensures Enabled(s, RefuseFlag(r)) && Apply(s, RefuseFlag(r)).db == s.db && Apply(s, RefuseFlag(r)).RoleOf(r).Idle?
  {
  }

  lemma HoldMoves(s: World, r: nat)
    requires s.RoleOf(r).Holding?
    ensures Enabled(s, Add(r)) && Apply(s, Add(r)).db == s.db && Apply(s, Add(r)).RoleOf(r).Idle?
    ensures Enabled(s, RefuseJob(r)) && Apply(s, RefuseJob(r)).db == s.db && Apply(s, RefuseJob(r)).RoleOf(r).Undoing?
  {
  }

  lemma UndoMoves(s: World, r: nat)
    requires s.RoleOf(r).Undoing?
    ensures Enabled(s, Undo(r)) && Apply(s, Undo(r)).db == s.db && Apply(s, Undo(r)).RoleOf(r).Idle?
  {
  }

  lemma TakeMoves(s: World, w: nat, tries: nat)
    requires s.RoleOf(w).Idle? && s.db.PhaseOf(w).Out? && tries in s.jobs
    ensures Enabled(s, Take(w, tries)) && Apply(s, Take(w, tries)).db == s.db
    ensures Apply(s, Take(w, tries)).RoleOf(w) == Starting(tries)
  {
  }

  lemma StartMoves(s: World, w: nat)
    requires s.RoleOf(w).Starting?
    ensures Enabled(s, Start(w)) && Apply(s, Start(w)).db == s.db && !Apply(s, Start(w)).flag
    ensures Apply(s, Start(w)).RoleOf(w) == Draining(s.RoleOf(w).tries, None)
  {
  }

  lemma EndMoves(s: World, w: nat)
    requires Ready(s, w)
    ensures Enabled(s, Throw(w)) && Apply(s, Throw(w)).db == s.db && Apply(s, Throw(w)).RoleOf(w).Idle?
    ensures Enabled(s, End(w, true)) && Apply(s, End(w, true)).db == s.db && Apply(s, End(w, true)).RoleOf(w).Asking?
    ensures CaughtUp(s, w) ==>
              Enabled(s, End(w, false)) && Apply(s, End(w, false)).db == s.db && Apply(s, End(w, false)).RoleOf(w).Idle?
  {
  }

  lemma SweepMoves(s: World, r: nat)
    requires s.RoleOf(r).Idle? && s.db.Unread() != {}
    ensures Enabled(s, Drains.Sweep(r)) && Apply(s, Drains.Sweep(r)).db == s.db && Apply(s, Drains.Sweep(r)).RoleOf(r).Asking?
  {
  }

  lemma AllRead(db: Outbox.Db, earlier: set<Position>)
    requires db.Unread() == {} && earlier <= db.log
    ensures earlier <= db.Passed()
  {
    forall e | e in earlier ensures e in db.Passed() {
      assert e !in db.Unread();
    }
  }

  lemma SeenIsPassed(s: World, w: nat, since: set<Position>)
    requires CaughtUp(s, w) && LookedAt(s, w, since)
    ensures since <= s.db.Passed()
  {
  }

  lemma LagsIff(db: Outbox.Db)
    ensures db.Unread() != {} <==> exists e :: e in db.log && Before(db.cursor.at, e)
  {
    forall e | e in db.log && Before(db.cursor.at, e) ensures e in db.Unread() {}
  }

  lemma DrainStays(acts: seq<Action>, more: seq<Action>, w: nat, n: nat, batch: nat, weather: nat -> Weather, turns: seq<TurnLog>, result: DrainResult)
    requires acts <= more && DrainedBy(acts, w, n, batch, weather, turns, result)
    ensures DrainedBy(more, w, n, batch, weather, turns, result)
  {
    hide AllSaw, WentOn, Ends, Limited;
    AllSawStays(acts, more, w, n, turns);
  }

  class DrainRequests {
    const shared: Shared

    constructor (shared: Shared)
      ensures this.shared == shared
    {
      this.shared := shared;
    }

    /** Never throws. `seen` is the world at the moment the flag was looked at. */
    method Request(r: nat, redis: Redis) returns (ok: bool, ghost asked: Asked, ghost seen: World)
      requires shared.Valid() && shared.world.RoleOf(r).Asking?
      modifies shared
      ensures shared.Valid() && old(shared.trace) <= shared.trace
      ensures shared.world.RoleOf(r).Idle? && shared.world.db.PhaseOf(r) == old(shared.world).db.PhaseOf(r)
      ensures Own(shared.trace, r) == old(Own(shared.trace, r)) + AskedActions(asked, r)
      ensures Steps(shared.trace, r) == old(Steps(shared.trace, r))
      ensures TookSince(old(shared.trace), shared.trace, if redis.flag then Ask(r) else RefuseFlag(r), seen)
      ensures asked == if !redis.flag then FlagRefused else if seen.flag then Found else if redis.job then Added else JobRefused
      ensures ok <==> asked.Added?
    {
      hide Runs, After, Own, Steps, Stood, Took, TookSince, Enabled, Apply, Outbox.Enabled, Outbox.Apply;
      shared.Pause(r);
      seen := shared.world;
      AskMoves(shared.world, r);
      TakesNow(old(shared.trace), shared.trace, if redis.flag then Ask(r) else RefuseFlag(r), seen);
      if !redis.flag {
        shared.Act(RefuseFlag(r));
        return false, FlagRefused, seen;
      }
      var mine := !shared.world.flag;
      shared.Act(Ask(r));
      if !mine { return false, Found, seen; }
      ok, asked := AddJob(r, redis.job, old(shared.trace), seen);
    }

    /** With the flag set, the job is added, or the flag is taken back. */
    method AddJob(r: nat, takes: bool, ghost from: seq<Action>, ghost seen: World) returns (ok: bool, ghost asked: Asked)
      requires shared.Valid() && shared.world.RoleOf(r).Holding? && TookSince(from, shared.trace, Ask(r), seen)
      modifies shared
      ensures shared.Valid() && old(shared.trace) <= shared.trace && TookSince(from, shared.trace, Ask(r), seen)
      ensures shared.world.RoleOf(r).Idle? && shared.world.db.PhaseOf(r) == old(shared.world).db.PhaseOf(r)
      ensures Own(shared.trace, r) == old(Own(shared.trace, r)) + if takes then [Add(r)] else [RefuseJob(r), Undo(r)]
      ensures Steps(shared.trace, r) == old(Steps(shared.trace, r))
      ensures ok == takes && asked == if takes then Added else JobRefused
    {
      hide Runs, After, Own, Steps, Stood, Took, TookSince, Enabled, Apply, Outbox.Enabled, Outbox.Apply;
      ok, asked := takes, if takes then Added else JobRefused;
      shared.Pause(r);
      HoldMoves(shared.world, r);
      if takes {
        shared.Act(Add(r));
      } else {
        shared.Act(RefuseJob(r));
        shared.Pause(r);
        UndoMoves(shared.world, r);
        shared.Act(Undo(r));
      }
      TookSinceStays(from, old(shared.trace), shared.trace, Ask(r), seen);
    }

    /** Takes the flag down before anything is read, so a request made later enqueues a job that starts after this one. */
    method Started(w: nat)
      requires shared.Valid() && shared.world.RoleOf(w).Starting?
      modifies shared
      ensures shared.Valid() && old(shared.trace) <= shared.trace
      ensures shared.world.RoleOf(w) == Draining(old(shared.world).RoleOf(w).tries, None)
      ensures shared.world.db.PhaseOf(w) == old(shared.world).db.PhaseOf(w)
      ensures !shared.world.flag
      ensures Own(shared.trace, w) == old(Own(shared.trace, w)) + [Start(w)]
      ensures Steps(shared.trace, w) == old(Steps(shared.trace, w))
    {
      hide Runs, After, Own, Steps, Stood, Took, TookSince, Enabled, Apply, Outbox.Enabled, Outbox.Apply;
      shared.Pause(w);
      StartMoves(shared.world, w);
      shared.Act(Start(w));
    }
  }

  /** The drain says there is nothing more to come for. */
  predicate Quiet(result: DrainResult) {
    match result
    case Returned(IdleAt(held)) => !held
    case Returned(Drained(_, _, more)) => !more
    case _ => false
  }

  /** How a job ends: a throw leaves it to its next try, and a drain that may have left something asks for another. */
  function Followed(w: nat, result: DrainResult, asked: Asked): seq<Action> {
    if !result.Returned? then [Throw(w)]
    else if Quiet(result) then [End(w, false)]
    else [End(w, true)] + AskedActions(asked, w)
  }

  class DrainProcessor {
    const shared: Shared
    const relay: EventRelay
    const requests: DrainRequests

    constructor (shared: Shared)
      ensures this.shared == shared && relay.shared == shared && requests.shared == shared
    {
      this.shared := shared;
      relay := new EventRelay(shared);
      requests := new DrainRequests(shared);
    }

    /** Clears the flag, drains, and asks again unless the drain caught up; a throw leaves the job to its next try. */
    method Process(w: nat, tries: nat, weather: nat -> Weather, redis: Redis)
      returns (result: DrainResult, ghost asked: Asked, ghost turns: seq<TurnLog>)
      requires relay.shared == shared && requests.shared == shared
      requires shared.Valid() && shared.world.RoleOf(w).Idle? && shared.world.db.PhaseOf(w).Out?
      requires tries in shared.world.jobs
      modifies shared
      ensures shared.Valid() && old(shared.trace) <= shared.trace
      ensures shared.world.RoleOf(w).Idle? && shared.world.db.PhaseOf(w).Out?
      ensures Own(shared.trace, w) == old(Own(shared.trace, w)) + ([Take(w, tries), Start(w)] + Followed(w, result, asked))
      ensures Steps(shared.trace, w) == old(Steps(shared.trace, w)) + AllActions(w, turns)
      ensures DrainedBy(shared.trace, w, |old(Steps(shared.trace, w))|, DRAIN_BATCH, weather, turns, result)
      // Stopping is honest: with nothing asked for, all that had committed before the job was taken is passed.
      ensures Quiet(result) ==> old(shared.world).db.log <= shared.world.db.Passed()
    {
      hide Runs, After, Own, Steps, Stood, Took, TookSince, DrainedBy, AllActions, AskedActions, CaughtUp, Quiet, Enabled, Apply;
      result, turns := StartAndDrain(w, tries, weather);
      ghost var drained := shared.trace;
      asked := Follow(w, result, redis);
      GrewAlong(drained, shared.trace);
      DrainStays(drained, shared.trace, w, |old(Steps(shared.trace, w))|, DRAIN_BATCH, weather, turns, result);
    }

    /** The job as it is taken: the flag comes down, then the drain. */
    method StartAndDrain(w: nat, tries: nat, weather: nat -> Weather) returns (result: DrainResult, ghost turns: seq<TurnLog>)
      requires relay.shared == shared && requests.shared == shared
      requires shared.Valid() && shared.world.RoleOf(w).Idle? && shared.world.db.PhaseOf(w).Out?
      requires tries in shared.world.jobs
      modifies shared
      ensures shared.Valid() && old(shared.trace) <= shared.trace && Ready(shared.world, w)
      ensures Own(shared.trace, w) == old(Own(shared.trace, w)) + [Take(w, tries), Start(w)]
      ensures Steps(shared.trace, w) == old(Steps(shared.trace, w)) + AllActions(w, turns)
      ensures DrainedBy(shared.trace, w, |old(Steps(shared.trace, w))|, DRAIN_BATCH, weather, turns, result)
      ensures Quiet(result) ==> CaughtUp(shared.world, w) && old(shared.world).db.log <= shared.world.db.Passed()
    {
      hide Runs, After, Own, Steps, Stood, Took, TookSince, DrainedBy, AllActions, Applied, Dropped, Progress, WorksOff, Counted,
           NoneCommitted, CaughtUp, LookedAt, Enabled, Apply, Outbox.Enabled, Outbox.Apply;
      ghost var trace0 := shared.trace;
      TakeMoves(shared.world, w, tries);
      shared.Act(Take(w, tries));
      requests.Started(w);
      GrewAlong(trace0, shared.trace);
      ghost var log, applied, dropped := shared.world.db.log, [], [];
      result, applied, dropped, turns := relay.Drain(w, DRAIN_BATCH, weather);
      if Quiet(result) { SeenIsPassed(shared.world, w, log); }
    }

    /** `follow`, and the job's end. */
    method Follow(w: nat, result: DrainResult, redis: Redis) returns (ghost asked: Asked)
      requires requests.shared == shared
      requires shared.Valid() && Ready(shared.world, w) && (Quiet(result) ==> CaughtUp(shared.world, w))
      modifies shared
      ensures shared.Valid() && old(shared.trace) <= shared.trace
      ensures shared.world.RoleOf(w).Idle? && shared.world.db.PhaseOf(w).Out?
      ensures Own(shared.trace, w) == old(Own(shared.trace, w)) + Followed(w, result, asked)
      ensures Steps(shared.trace, w) == old(Steps(shared.trace, w))
    {
      hide Runs, After, Own, Steps, Stood, Took, TookSince, CaughtUp, Enabled, Apply, Outbox.Enabled, Outbox.Apply;
      asked := Found;
      EndMoves(shared.world, w);
      if !result.Returned? {
        shared.Act(Throw(w));
      } else if result.outcome.Loud() {
        shared.Act(End(w, true));
        ghost var seen;
        var ok;
        ok, asked, seen := requests.Request(w, redis);
      } else {
        shared.Act(End(w, false));
      }
    }
  }

  class OutboxSweep {
    const shared: Shared
    const requests: DrainRequests

    constructor (shared: Shared)
      ensures this.shared == shared && requests.shared == shared
    {
      this.shared := shared;
      requests := new DrainRequests(shared);
    }

    /** Asks for a drain exactly when some committed event is unread, settled or not. */
    method Sweep(r: nat, redis: Redis) returns (lagging: bool, ghost asked: Asked, ghost seen: World)
      requires requests.shared == shared
      requires shared.Valid() && shared.world.RoleOf(r).Idle?
      modifies shared
      ensures shared.Valid() && old(shared.trace) <= shared.trace
      ensures shared.world.RoleOf(r).Idle?
      ensures Own(shared.trace, r) == old(Own(shared.trace, r)) + if lagging then [Drains.Sweep(r)] + AskedActions(asked, r) else []
      // `seen` is the world it looked at.
      ensures exists pre :: Reached(pre, seen) && old(shared.trace) <= pre <= shared.trace
      ensures lagging <==> exists e :: e in seen.db.log && Before(seen.db.cursor.at, e)
      ensures lagging ==> TookSince(old(shared.trace), shared.trace, Drains.Sweep(r), seen)
      ensures !lagging ==> old(shared.world).db.log <= shared.world.db.Passed()
    {
      hide Runs, After, Own, Steps, Stood, Took, TookSince, Enabled, Apply, Outbox.Enabled, Outbox.Apply;
      asked := Found;
      ghost var log0, trace0 := shared.world.db.log, shared.trace;
      shared.Pause(r);
      GrewAlong(trace0, shared.trace);
      seen := shared.world;
      ghost var looked := shared.trace;
      assert Reached(looked, seen);
      lagging := shared.world.db.Unread() != {};
      LagsIff(seen.db);
      if lagging {
        SweepMoves(shared.world, r);
        TakesNow(trace0, shared.trace, Drains.Sweep(r), seen);
        shared.Act(Drains.Sweep(r));
        ghost var flagged, was := shared.world, shared.trace;
        var ok;
        ok, asked, flagged := requests.Request(r, redis);
        TookSinceStays(trace0, was, shared.trace, Drains.Sweep(r), seen);
      } else {
        AllRead(shared.world.db, log0);
      }
    }
  }
}
