// Who asks for drains, and when: the Redis pending flag, the job queue, the
// workers and the sweep, around the relay protocol of Outbox.dfy. One consumer
// in one tenant.
// Sources: apps/api/src/events/drain-requests.ts, drain.processor.ts,
// outbox-sweep.ts and outbox-listener.ts.

module Drains {
  import opened LogOrder
  import Outbox

  /** Tries a job has before BullMQ gives it up (apps/api/src/jobs/jobs.module.ts). */
  const ATTEMPTS: nat := 5

  /** What one process is doing about this consumer. */
  datatype Role =
    | Idle
    // `request`: about to set the flag; the flag is ours and the job is not added; adding it failed.
    | Asking
    | Holding
    | Undoing
    // `process`: the job is taken; the flag is cleared and the relay drains. `seen` is
    // what had committed when a read last looked for more than it returned.
    | Starting(tries: nat)
    | Draining(tries: nat, seen: Option<set<Position>>)

  datatype World = World(
    db: Outbox.Db,
    flag: bool,
    // Jobs waiting in the queue, each with the tries it has left.
    jobs: multiset<nat>,
    roles: map<nat, Role>,
    // Notifications Postgres has sent and no listener has acted on.
    wakes: nat
  )
  {
    function RoleOf(r: nat): Role {
      if r in roles then roles[r] else Idle
    }

    /** Somebody will still ask for a drain, or a drain will still read. */
    ghost predicate Live() {
      wakes > 0 || jobs != multiset{} || exists r :: r in roles && Pending(roles[r])
    }

    /** A waiting drain: its job is queued, about to be queued, or taken and not started. */
    ghost predicate Waiting() {
      jobs != multiset{} || exists r :: r in roles && (roles[r].Holding? || roles[r].Starting?)
    }

    /** A set flag that stands for no waiting drain: it swallows requests until it expires. */
    ghost predicate Orphaned() {
      flag && !Waiting()
    }

    /** A drain in progress has looked past `e` and has yet to answer for it. */
    ghost predicate Seen(e: Position) {
      exists r :: r in roles && roles[r].Draining? && roles[r].seen.Some? && e in roles[r].seen.value
    }

    /** Unread events nobody is going to read. */
    ghost function Forgotten(): set<Position> {
      set e | e in db.Unread() && !Live() && !Seen(e)
    }

    /** Nothing is queued, running or on its way. */
    ghost predicate Quiescent() {
      wakes == 0 && jobs == multiset{} && forall r :: r in roles ==> roles[r].Idle? || roles[r].Undoing?
    }
  }

  predicate Pending(role: Role) {
    role.Asking? || role.Holding? || role.Starting? || (role.Draining? && role.seen.None?)
  }

  function Init(): World {
    World(Outbox.Init(), false, multiset{}, map[], 0)
  }

  datatype Action =
    | Data(a: Outbox.Action)
    | Wake(r: nat)
    | Sweep(r: nat)
    | Ask(r: nat)
    | Add(r: nat)
    | Undo(r: nat)
    | Expire
    | Take(w: nat, tries: nat)
    | Start(w: nat)
    | End(w: nat, loud: bool)
    | Throw(w: nat)
    // What goes wrong outside the database: a notification with no listener, Redis
    // refusing the flag or the job, a process that dies while asking.
    | LoseWake
    | RefuseFlag(r: nat)
    | RefuseJob(r: nat)
    | Die(r: nat)
  {
    function Actor(): Option<nat> {
      match this
      case Data(a) => a.Worker()
      case Wake(r) => Some(r)
      case Sweep(r) => Some(r)
      case Ask(r) => Some(r)
      case Add(r) => Some(r)
      case Undo(r) => Some(r)
      case Expire => None
      case Take(w, _) => Some(w)
      case Start(w) => Some(w)
      case End(w, _) => Some(w)
      case Throw(w) => Some(w)
      case LoseWake => None
      case RefuseFlag(r) => Some(r)
      case RefuseJob(r) => Some(r)
      case Die(r) => Some(r)
    }
  }

  ghost predicate Enabled(s: World, a: Action) {
    match a
    case Data(d) =>
      Outbox.Enabled(s.db, d) && (d.Worker().Some? ==> s.RoleOf(d.Worker().value).Draining?)
    case Wake(r) => s.wakes > 0 && s.RoleOf(r).Idle?
    case Sweep(r) => s.db.Unread() != {} && s.RoleOf(r).Idle?
    case Ask(r) => s.RoleOf(r).Asking?
    case Add(r) => s.RoleOf(r).Holding?
    case Undo(r) => s.RoleOf(r).Undoing?
    case Expire => true
    case Take(w, tries) => tries in s.jobs && s.RoleOf(w).Idle? && s.db.PhaseOf(w).Out?
    case Start(w) => s.RoleOf(w).Starting?
    case End(w, loud) =>
      var role := s.RoleOf(w);
      && role.Draining? && s.db.PhaseOf(w).Out?
      && (!loud ==> role.seen.Some? && role.seen.value <= s.db.Passed())
    case Throw(w) =>
      (s.RoleOf(w).Starting? || s.RoleOf(w).Draining?) && s.db.PhaseOf(w).Out?
    case LoseWake => s.wakes > 0
    case RefuseFlag(r) => s.RoleOf(r).Asking?
    case RefuseJob(r) => s.RoleOf(r).Holding?
    case Die(r) => s.RoleOf(r).Asking? || s.RoleOf(r).Holding? || s.RoleOf(r).Undoing?
  }

  /** What a read's second query does to what a drain has seen; a full read asks no second query. */
  function SeenAfter(s: World, d: Outbox.Action): map<nat, Role>
    requires Enabled(s, Data(d))
  {
    if d.Check? then
      var p := s.db.PhaseOf(d.w);
      if |p.events| < p.take then s.roles[d.w := s.RoleOf(d.w).(seen := Some(s.db.log))] else s.roles
    else
      s.roles
  }

  function Apply(s: World, a: Action): World
    requires Enabled(s, a)
  {
    match a
    case Data(d) =>
      s.(db := Outbox.Apply(s.db, d),
         roles := SeenAfter(s, d),
         // The trigger notifies on commit, once for the tenant.
         wakes := if d.CommitTxn? && s.db.open[d.txn] != {} then s.wakes + 1 else s.wakes)
    case Wake(r) => s.(wakes := s.wakes - 1, roles := s.roles[r := Asking])
    case Sweep(r) => s.(roles := s.roles[r := Asking])
    case Ask(r) =>
      if s.flag then s.(roles := s.roles[r := Idle])
      else s.(flag := true, roles := s.roles[r := Holding])
    case Add(r) => s.(jobs := s.jobs + multiset{ATTEMPTS}, roles := s.roles[r := Idle])
    case Undo(r) => s.(flag := false, roles := s.roles[r := Idle])
    case Expire => s.(flag := false)
    case Take(w, tries) => s.(jobs := s.jobs - multiset{tries}, roles := s.roles[w := Starting(tries)])
    case Start(w) => s.(flag := false, roles := s.roles[w := Draining(s.RoleOf(w).tries, None)])
    case End(w, loud) => s.(roles := s.roles[w := if loud then Asking else Idle])
    case Throw(w) =>
      var tries := s.RoleOf(w).tries;
      s.(jobs := if tries > 1 then s.jobs + multiset{tries - 1} else s.jobs, roles := s.roles[w := Idle])
    case LoseWake => s.(wakes := s.wakes - 1)
    case RefuseFlag(r) => s.(roles := s.roles[r := Idle])
    case RefuseJob(r) => s.(roles := s.roles[r := Undoing])
    case Die(r) => s.(roles := s.roles[r := Idle])
  }

  /** A request that is lost: only the next sweep makes up for it. */
  predicate Loses(s: World, a: Action) {
    match a
    case LoseWake => true
    case RefuseFlag(_) => true
    case RefuseJob(_) => true
    case Die(_) => true
    case Throw(w) =>
      var role := s.RoleOf(w);
      (role.Starting? || role.Draining?) && role.tries <= 1
    case _ => false
  }

  // ---- No wake is lost ----

  /** An actor that is not acting keeps its role; nobody else's reading changes what it has seen. */
  lemma OthersKeepTheirRole(s: World, a: Action, q: nat)
    requires Enabled(s, a) && a.Actor() != Some(q)
    ensures q in Apply(s, a).roles <==> q in s.roles
    ensures Apply(s, a).RoleOf(q) == s.RoleOf(q)
  {
  }

  /** A waiting drain stays one until it starts. */
  lemma WaitingStays(s: World, a: Action)
    requires Enabled(s, a) && !Loses(s, a) && s.Waiting() && !a.Start?
    ensures Apply(s, a).Waiting()
  {
    var s' := Apply(s, a);
    if a.Add? {
      assert ATTEMPTS in s'.jobs;
    } else if a.Take? {
      assert s'.roles[a.w].Starting?;
    } else if a.Throw? {
      assert s.RoleOf(a.w).tries - 1 in s'.jobs;
    } else if s.jobs == multiset{} {
      var q :| q in s.roles && (s.roles[q].Holding? || s.roles[q].Starting?);
      OthersKeepTheirRole(s, a, q);
      assert s'.roles[q] == s.roles[q];
    }
  }

  /** An action that loses no request leaves no flag without its drain. */
  lemma FlagStandsForADrain(s: World, a: Action)
    requires Enabled(s, a) && !Loses(s, a) && !s.Orphaned()
    ensures !Apply(s, a).Orphaned()
  {
    var s' := Apply(s, a);
    if s'.flag {
      if s.flag {
        WaitingStays(s, a);
      } else {
        assert s'.roles[a.r].Holding?;
      }
    }
  }

  lemma AskingIsLive(s: World, r: nat)
    requires r in s.roles && Pending(s.roles[r])
    ensures s.Live()
  {
  }

  lemma WaitingIsLive(s: World)
    requires s.Waiting()
    ensures s.Live()
  {
    if s.jobs == multiset{} {
      var q :| q in s.roles && (s.roles[q].Holding? || s.roles[q].Starting?);
      AskingIsLive(s, q);
    }
  }

  /** A drain to come is still to come, unless this action is its read. */
  lemma LiveStays(s: World, a: Action)
    requires Enabled(s, a) && !Loses(s, a) && !s.Orphaned() && s.Live()
    requires !(a.Data? && a.a.Check?)
    ensures Apply(s, a).Live()
  {
    var s' := Apply(s, a);
    if s.Waiting() && !a.Start? {
      WaitingStays(s, a);
      WaitingIsLive(s');
    } else if a.Wake? || a.Sweep? || a.Ask? || a.Start? || (a.End? && a.loud) {
      AskingIsLive(s', a.Actor().value);
    } else if a.Throw? {
      assert s.RoleOf(a.w).tries - 1 in s'.jobs;
    } else if s.wakes == 0 {
      var q :| q in s.roles && Pending(s.roles[q]);
      if a.Actor() == Some(q) {
        assert s'.roles[q] == s.roles[q];
      } else {
        OthersKeepTheirRole(s, a, q);
      }
      AskingIsLive(s', q);
    }
  }

  /** What a drain has looked past is passed by the time the drain ends quietly, and asked for again if it ends otherwise. */
  lemma SeenStays(s: World, a: Action, e: Position)
    requires Outbox.Inv(s.db) && Enabled(s, a) && !Loses(s, a) && s.Seen(e) && e in s.db.log
    ensures Apply(s, a).Seen(e) || Apply(s, a).Live() || e in Apply(s, a).db.Passed()
  {
    var s' := Apply(s, a);
    var q :| q in s.roles && s.roles[q].Draining? && s.roles[q].seen.Some? && e in s.roles[q].seen.value;
    if a.Actor() != Some(q) {
      OthersKeepTheirRole(s, a, q);
    } else if a.Throw? {
      assert s.RoleOf(a.w).tries - 1 in s'.jobs;
    } else if a.End? && a.loud {
      AskingIsLive(s', q);
    } else if a.Data? {
      assert s'.roles[q].Draining? && s'.roles[q].seen.Some? && e in s'.roles[q].seen.value;
    }
  }

  lemma CommitsWake(s: World, a: Action, e: Position)
    requires Enabled(s, a) && e in Apply(s, a).db.log && e !in s.db.log
    ensures Apply(s, a).wakes > 0
  {
  }

  /** A read that looks for more has seen everything committed. */
  lemma CheckSees(s: World, a: Action, e: Position)
    requires Enabled(s, a) && a.Data? && a.a.Check? && !s.Seen(e) && s.Live() && e in s.db.log
    ensures Apply(s, a).Seen(e) || Apply(s, a).Live()
  {
    var s' := Apply(s, a);
    var w := a.a.w;
    if s'.roles[w].seen.Some? && e in s'.roles[w].seen.value {
    } else if s.wakes == 0 && s.jobs == multiset{} {
      var q :| q in s.roles && Pending(s.roles[q]);
      if q != w { OthersKeepTheirRole(s, a, q); }
      AskingIsLive(s', q);
    }
  }

  /** An action that loses no request forgets no event: whatever is unread has a drain to come. */
  lemma NothingForgotten(s: World, a: Action)
    requires Outbox.Inv(s.db) && Enabled(s, a) && !Loses(s, a) && !s.Orphaned()
    ensures Apply(s, a).Forgotten() <= s.Forgotten()
  {
    var s' := Apply(s, a);
    forall e | e in s'.Forgotten() ensures e in s.Forgotten() {
      if e !in s.db.log {
        CommitsWake(s, a, e);
      } else {
        assert e in s.db.Unread() by {
          if a.Data? { Outbox.CursorOnlyAdvances(s.db, a.a); }
        }
        if s.Seen(e) {
          SeenStays(s, a, e);
        } else if s.Live() {
          if a.Data? && a.a.Check? { CheckSees(s, a, e); } else { LiveStays(s, a); }
        }
      }
    }
  }

  // ---- At most one waiting drain ----

  ghost function Takers(s: World): set<nat> {
    set r | r in s.roles && (s.roles[r].Holding? || s.roles[r].Starting?)
  }

  /** The waiting drains: one place in line per consumer, however many ask. */
  ghost function Places(s: World): nat {
    |s.jobs| + |Takers(s)|
  }

  /** A drain waits only under a set flag, and one at a time. */
  ghost predicate OnePlace(s: World) {
    Places(s) <= if s.flag then 1 else 0
  }

  predicate Overtakes(a: Action) {
    a.Expire? || a.Undo? || a.Throw?
  }

  /**
   * What the flag cannot see: it expires or somebody else's failed request clears
   * it while a drain waits, or a failed job is tried again beside a waiting drain
   * or with no flag to show for it.
   */
  ghost predicate OutrunsTheFlag(s: World, a: Action) {
    match a
    case Expire => Places(s) == 1
    case Undo(_) => Places(s) == 1
    case Throw(w) => s.RoleOf(w).Draining? && s.RoleOf(w).tries > 1 && (Places(s) == 1 || !s.flag)
    case _ => false
  }

  lemma TakersAfter(s: World, a: Action)
    requires Enabled(s, a) && a.Actor().Some? && !a.Data?
    ensures var r := a.Actor().value;
            Takers(Apply(s, a)) == if Apply(s, a).RoleOf(r).Holding? || Apply(s, a).RoleOf(r).Starting? then Takers(s) + {r} else Takers(s) - {r}
  {
  }

  lemma SamePlaces(s: World, a: Action)
    requires Enabled(s, a) && (a.Data? || a.Actor().None?)
    ensures Takers(Apply(s, a)) == Takers(s)
  {
  }

  lemma OnePlaceStays(s: World, a: Action)
    requires Enabled(s, a) && OnePlace(s) && !Overtakes(a)
    ensures OnePlace(Apply(s, a))
  {
    if a.Data? || a.Actor().None? {
      SamePlaces(s, a);
    } else {
      PlacesAfter(s, a);
    }
  }

  /** Exactly when an action keeps one waiting drain at most, under its flag. */
  lemma OnePlaceKeptIff(s: World, a: Action)
    requires Enabled(s, a) && OnePlace(s)
    ensures OnePlace(Apply(s, a)) <==> !OutrunsTheFlag(s, a)
  {
    if !Overtakes(a) {
      OnePlaceStays(s, a);
    } else if a.Expire? {
      SamePlaces(s, a);
    } else {
      TakersAfter(s, a);
      assert a.Actor().value in Takers(s) <==> s.RoleOf(a.Actor().value).Holding? || s.RoleOf(a.Actor().value).Starting?;
    }
  }

  lemma PlacesAfter(s: World, a: Action)
    requires Enabled(s, a) && !a.Data? && a.Actor().Some? && !Overtakes(a)
    ensures match a
            case Ask(_) => Places(Apply(s, a)) == Places(s) + if s.flag then 0 else 1
            case Start(_) => Places(Apply(s, a)) == Places(s) - 1
            case _ => Places(Apply(s, a)) <= Places(s)
  {
    var r := a.Actor().value;
    TakersAfter(s, a);
    assert r in Takers(s) <==> s.RoleOf(r).Holding? || s.RoleOf(r).Starting?;
  }

  /** An expiry does make a second place in line: a request right after it enqueues again. */
  lemma ExpiryMakesASecondPlace(s: World, r: nat)
    requires s.flag && Places(s) == 1 && s.RoleOf(r).Asking?
    ensures Enabled(s, Expire) && Enabled(Apply(s, Expire), Ask(r))
    ensures Places(Apply(Apply(s, Expire), Ask(r))) == 2
  {
    var s' := Apply(s, Expire);
    assert Takers(s') == Takers(s);
    TakersAfter(s', Ask(r));
    assert r !in Takers(s);
  }

  // ---- Whole runs ----

  ghost predicate Runs(s: World, acts: seq<Action>)
    decreases |acts|, 0
  {
    acts == [] ||
    (Runs(s, acts[..|acts| - 1]) && Enabled(After(s, acts[..|acts| - 1]), acts[|acts| - 1]))
  }

  ghost function After(s: World, acts: seq<Action>): World
    requires Runs(s, acts)
    decreases |acts|, 1
  {
    if acts == [] then s else Apply(After(s, acts[..|acts| - 1]), acts[|acts| - 1])
  }

  /** No request is lost anywhere along the run. */
  ghost predicate LosesNothing(s: World, acts: seq<Action>)
    requires Runs(s, acts)
    decreases |acts|
  {
    acts == [] ||
    (LosesNothing(s, acts[..|acts| - 1]) && !Loses(After(s, acts[..|acts| - 1]), acts[|acts| - 1]))
  }

  lemma {:induction false} EveryRunIsSafe(acts: seq<Action>)
    requires Runs(Init(), acts)
    ensures Outbox.Inv(After(Init(), acts).db)
    decreases |acts|
  {
    if acts == [] {
      Outbox.InitInv();
    } else {
      var before := acts[..|acts| - 1];
      var last := acts[|acts| - 1];
      EveryRunIsSafe(before);
      if last.Data? { Outbox.InvStays(After(Init(), before).db, last.a); }
    }
  }

  /** No wake is lost: while no request is, every unread event has a drain to come and no flag swallows one. */
  lemma {:induction false} NoLostWake(acts: seq<Action>)
    requires Runs(Init(), acts) && LosesNothing(Init(), acts)
    ensures !After(Init(), acts).Orphaned()
    ensures After(Init(), acts).Forgotten() == {}
    decreases |acts|
  {
    if acts != [] {
      var before := acts[..|acts| - 1];
      NoLostWake(before);
      EveryRunIsSafe(before);
      FlagStandsForADrain(After(Init(), before), acts[|acts| - 1]);
      NothingForgotten(After(Init(), before), acts[|acts| - 1]);
    }
  }

  /** When all is quiet, every committed event was applied once or parked. */
  lemma QuietMeansDelivered(acts: seq<Action>)
    requires Runs(Init(), acts) && LosesNothing(Init(), acts) && After(Init(), acts).Quiescent()
    ensures var db := After(Init(), acts).db;
            forall e :: e in db.log <==> e in db.Effects() || e in Outbox.DeadEvents(db)
  {
    var s := After(Init(), acts);
    forall e | e in s.db.Unread() ensures e in s.Forgotten() {
      assert !s.Seen(e);
    }
    NoLostWake(acts);
    EveryRunIsSafe(acts);
    assert forall e :: e in s.db.log ==> e in s.db.Unread() || e in s.db.Passed();
  }

  /** The safety net: whatever was lost, a sweep's request past an expired flag leaves nothing forgotten. */
  lemma SweepCatchesUp(s: World, r: nat)
    requires s.db.Unread() != {} && !s.flag && s.RoleOf(r).Idle?
    ensures Enabled(s, Sweep(r)) && Enabled(Apply(s, Sweep(r)), Ask(r))
    ensures var s' := Apply(Apply(s, Sweep(r)), Ask(r));
            s'.Forgotten() == {} && !s'.Orphaned() && s'.db == s.db
  {
    var s' := Apply(Apply(s, Sweep(r)), Ask(r));
    assert s'.roles[r].Holding?;
    AskingIsLive(s', r);
  }
}
