// The shared Postgres and Redis, as the imperative relay code uses them: one
// atomic operation at a time, with every other process free to run in between.

module Cluster {
  import opened LogOrder
  import Outbox
  import opened Drains

  /** What never goes back, whoever acts. */
  ghost predicate Grows(s: World, t: World) {
    && s.db.log <= t.db.log
    && s.db.Passed() <= t.db.Passed()
    && s.db.clock <= t.db.clock
    && s.db.batches <= t.db.batches && s.db.dead <= t.db.dead
  }

  predicate Schedules(a: Action, r: nat) {
    a.Actor() == Some(r) && !a.Data?
  }

  /** What one process did outside the database, in order. */
  ghost function Own(acts: seq<Action>, r: nat): seq<Action> {
    if acts == [] then []
    else
      var last := acts[|acts| - 1];
      Own(acts[..|acts| - 1], r) + if Schedules(last, r) then [last] else []
  }

  /** What one worker did in the database, in order. */
  ghost function Steps(acts: seq<Action>, w: nat): seq<Outbox.Action> {
    if acts == [] then []
    else
      var last := acts[|acts| - 1];
      Steps(acts[..|acts| - 1], w) + if last.Data? && last.a.Worker() == Some(w) then [last.a] else []
  }

  /** The run took worker `w`'s own database action number `n` from the world `s`. */
  ghost predicate Took(acts: seq<Action>, w: nat, n: nat, s: World) {
    exists pre, a :: Reached(pre, s) && pre + [Data(a)] <= acts && a.Worker() == Some(w) && |Steps(pre, w)| == n
  }

  /** The run passed through `s` when worker `w` had done `n` things in the database. */
  ghost predicate Stood(acts: seq<Action>, w: nat, n: nat, s: World) {
    exists pre :: Reached(pre, s) && pre <= acts && |Steps(pre, w)| == n
  }

  ghost predicate Reached(acts: seq<Action>, s: World) {
    Runs(Init(), acts) && s == After(Init(), acts)
  }

  lemma TookStays(acts: seq<Action>, more: seq<Action>)
    requires acts <= more
    ensures forall w: nat, n: nat, s :: Took(acts, w, n, s) ==> Took(more, w, n, s)
    ensures forall w: nat, n: nat, s :: Stood(acts, w, n, s) ==> Stood(more, w, n, s)
  {
    forall w: nat, n: nat, s | Took(acts, w, n, s) ensures Took(more, w, n, s) {
      var pre, a :| Reached(pre, s) && pre + [Data(a)] <= acts && a.Worker() == Some(w) && |Steps(pre, w)| == n;
      assert pre + [Data(a)] <= more;
    }
  }

  lemma TookNow(acts: seq<Action>, s: World, w: nat, a: Outbox.Action)
    requires Reached(acts, s) && a.Worker() == Some(w)
    ensures Took(acts + [Data(a)], w, |Steps(acts, w)|, s)
  {
    assert acts + [Data(a)] <= acts + [Data(a)];
  }

  lemma StandsNow(acts: seq<Action>, s: World, w: nat)
    requires Reached(acts, s)
    ensures Stood(acts, w, |Steps(acts, w)|, s)
  {
    assert acts <= acts;
  }

  lemma {:induction false} OthersTakeNoStepOfMine(acts: seq<Action>, more: seq<Action>, me: nat)
    requires ByOthers(more, me)
    ensures Steps(acts + more, me) == Steps(acts, me)
  {
    if more == [] {
      assert acts + more == acts;
    } else {
      var less := more[..|more| - 1];
      assert (acts + more)[..|acts + more| - 1] == acts + less;
      OthersTakeNoStepOfMine(acts, less, me);
    }
  }

  ghost predicate ByOthers(acts: seq<Action>, me: nat) {
    forall i :: 0 <= i < |acts| ==> acts[i].Actor() != Some(me)
  }

  lemma RunsExtend(s: World, acts: seq<Action>, a: Action)
    requires Runs(s, acts) && Enabled(After(s, acts), a)
    ensures Runs(s, acts + [a]) && After(s, acts + [a]) == Apply(After(s, acts), a)
    ensures forall r: nat :: Own(acts + [a], r) == Own(acts, r) + if Schedules(a, r) then [a] else []
    ensures forall r: nat :: Steps(acts + [a], r) == Steps(acts, r) + if a.Data? && a.a.Worker() == Some(r) then [a.a] else []
  {
    assert (acts + [a])[..|acts|] == acts;
  }

  /** Someone else's action leaves a process's role and its step where they were. */
  lemma OneLeavesMe(s: World, a: Action, me: nat)
    requires Enabled(s, a) && a.Actor() != Some(me)
    ensures Apply(s, a).RoleOf(me) == s.RoleOf(me) && Apply(s, a).db.PhaseOf(me) == s.db.PhaseOf(me)
  {
    OthersKeepTheirRole(s, a, me);
    if a.Data? { Outbox.OthersKeepTheirPhase(s.db, a.a, me); }
  }

  lemma ActionGrows(s: World, a: Action)
    requires Outbox.Inv(s.db) && Enabled(s, a)
    ensures Grows(s, Apply(s, a))
  {
    if a.Data? { Outbox.CursorOnlyAdvances(s.db, a.a); }
  }

  /** Along a run, what has committed, passed, been applied or been parked stays so. */
  lemma {:induction false} GrewAlong(before: seq<Action>, after: seq<Action>)
    requires Runs(Init(), after) && before <= after
    ensures Runs(Init(), before) && Grows(After(Init(), before), After(Init(), after))
    decreases |after|
  {
    if before == after {
    } else {
      var less := after[..|after| - 1];
      assert before <= less;
      GrewAlong(before, less);
      EveryRunIsSafe(less);
      ActionGrows(After(Init(), less), after[|after| - 1]);
    }
  }

  lemma {:induction false} OthersLeaveMe(acts: seq<Action>, more: seq<Action>, me: nat)
    requires Runs(Init(), acts) && Runs(Init(), acts + more) && ByOthers(more, me)
    ensures var s := After(Init(), acts); var t := After(Init(), acts + more);
            t.RoleOf(me) == s.RoleOf(me) && t.db.PhaseOf(me) == s.db.PhaseOf(me)
    ensures Own(acts + more, me) == Own(acts, me)
    decreases |more|
  {
    if more == [] {
      assert acts + more == acts;
    } else {
      var less := more[..|more| - 1];
      assert (acts + more)[..|acts + more| - 1] == acts + less;
      OthersLeaveMe(acts, less, me);
      OneLeavesMe(After(Init(), acts + less), more[|more| - 1], me);
    }
  }

  class Shared {
    var world: World
    // Everything that has happened, in order.
    ghost var trace: seq<Action>

    ghost predicate Valid()
      reads this
    {
      Runs(Init(), trace) && world == After(Init(), trace)
    }

    constructor ()
      ensures Valid() && trace == []
    {
      world := Init();
      trace := [];
    }

    /** The state is reachable, so every invariant of the protocol holds of it. */
    lemma Safe()
      requires Valid()
      ensures Outbox.Inv(world.db)
    {
      EveryRunIsSafe(trace);
    }

    /**
     * Any number of actions by anyone but `me`. Callers may rely on no more than
     * that; doing nothing is one of the possibilities, and is this body's.
     */
    method Interfere(ghost me: nat)
      requires Valid()
      modifies this
      ensures Valid()
      ensures exists more :: ByOthers(more, me) && trace == old(trace) + more
    {
      assert ByOthers([], me) && trace == old(trace) + [];
    }

    /** What interference cannot touch. */
    method Pause(ghost me: nat)
      requires Valid()
      modifies this
      ensures Valid() && old(trace) <= trace
      ensures world.RoleOf(me) == old(world).RoleOf(me)
      ensures world.db.PhaseOf(me) == old(world).db.PhaseOf(me)
      ensures Own(trace, me) == old(Own(trace, me))
      ensures Steps(trace, me) == old(Steps(trace, me)) && Stood(trace, me, |Steps(trace, me)|, world)
    {
      hide Runs, After, Own, Steps, Stood;
      Interfere(me);
      ghost var more :| ByOthers(more, me) && trace == old(trace) + more;
      OthersLeaveMe(old(trace), more, me);
      OthersTakeNoStepOfMine(old(trace), more, me);
      StandsNow(trace, world, me);
    }

    /** One atomic action. */
    method Act(a: Action)
      requires Valid() && Enabled(world, a)
      modifies this
      ensures Valid()
      ensures trace == old(trace) + [a] && world == Apply(old(world), a)
      ensures forall r: nat :: Own(trace, r) == old(Own(trace, r)) + if Schedules(a, r) then [a] else []
      ensures forall r: nat :: Steps(trace, r) == old(Steps(trace, r)) + if a.Data? && a.a.Worker() == Some(r) then [a.a] else []
      ensures a.Data? && a.a.Worker().Some? ==> Took(trace, a.a.Worker().value, |old(Steps(trace, a.a.Worker().value))|, old(world))
    {
      hide Apply, Enabled, Took;
      if a.Data? && a.a.Worker().Some? { TookNow(trace, world, a.a.Worker().value, a.a); }
      RunsExtend(Init(), trace, a);
      world := Apply(world, a);
      trace := trace + [a];
    }
  }
}
