// Whole runs of an organization's membership changes, what they keep, and the two
// interleavings that leave derived state behind.
// Sources: apps/api/src/memberships/members.service.ts and
// apps/api/src/teams/teams.service.ts.

module MemberRuns {
  import opened LogOrder
  import opened Members

  ghost predicate Runs(s: State, acts: seq<Action>)
    decreases |acts|, 0
  {
    acts == [] ||
    (Runs(s, acts[..|acts| - 1]) && Enabled(After(s, acts[..|acts| - 1]), acts[|acts| - 1]))
  }

  ghost function After(s: State, acts: seq<Action>): State
    requires Runs(s, acts)
    decreases |acts|, 1
  {
    if acts == [] then s else Apply(After(s, acts[..|acts| - 1]), acts[|acts| - 1])
  }

  /** Nobody is changing anything, and everything agrees. */
  ghost predicate Quiet(s: State) {
    && s.lock.None? && s.phases == map[]
    && RowsInv(s) && OwnersInv(s) && AgreeInv(s) && TeamsInv(s)
  }

  /** From any organization with an active owner, no interleaving of changes, additions and joins takes the last one. */
  lemma {:induction false} EveryRunKeepsAnOwner(s: State, acts: seq<Action>)
    requires Quiet(s) && Runs(s, acts)
    ensures Inv(After(s, acts)) && Owners(After(s, acts).members) != {}
    decreases |acts|
  {
    hide Apply, Enabled, RowsInv, AgreeInv, TeamsInv, Owners;
    if acts != [] {
      EveryRunKeepsAnOwner(s, acts[..|acts| - 1]);
      InvStays(After(s, acts[..|acts| - 1]), acts[|acts| - 1]);
    }
    SomeOwner(After(s, acts));
  }

  lemma SomeOwner(s: State)
    requires OwnersInv(s)
    ensures Owners(s.members) != {}
  {
  }

  ghost predicate NeverDrifts(s: State, acts: seq<Action>)
    requires Runs(s, acts)
    decreases |acts|
  {
    acts == [] || (NeverDrifts(s, acts[..|acts| - 1]) && !Drifts(After(s, acts[..|acts| - 1]), acts[|acts| - 1]))
  }

  ghost predicate NeverMisplaces(s: State, acts: seq<Action>)
    requires Runs(s, acts)
    decreases |acts|
  {
    acts == [] || (NeverMisplaces(s, acts[..|acts| - 1]) && !Misplaces(After(s, acts[..|acts| - 1]), acts[|acts| - 1]))
  }

  /** Seats and picker rows agree with the memberships after every run without a drifting step. */
  lemma {:induction false} DerivedStateAgrees(s: State, acts: seq<Action>)
    requires Quiet(s) && Runs(s, acts)
    ensures NeverDrifts(s, acts) ==> AgreeInv(After(s, acts))
    ensures NeverMisplaces(s, acts) ==> TeamsInv(After(s, acts))
    decreases |acts|
  {
    hide Apply, Enabled, Inv, AgreeInv, TeamsInv, Drifts, Misplaces;
    if acts != [] {
      var before, last := acts[..|acts| - 1], acts[|acts| - 1];
      EveryRunKeepsAnOwner(s, before);
      DerivedStateAgrees(s, before);
      if NeverDrifts(s, acts) { AgreementKeptIff(After(s, before), last); }
      if NeverMisplaces(s, acts) { TeamsKeptIff(After(s, before), last); }
    }
  }

  // ---- Changes and joins that keep out of each other's way ----

  /** Nobody joins as a membership a change has loaded. */
  predicate KeepsClear(s: State, a: Action) {
    a.Join? ==> forall q :: q in s.phases && (s.phases[q].Loaded? || s.phases[q].Counted?) ==> s.phases[q].id != a.id
  }

  ghost predicate AllKeepClear(s: State, acts: seq<Action>)
    requires Runs(s, acts)
    decreases |acts|
  {
    acts == [] || (AllKeepClear(s, acts[..|acts| - 1]) && KeepsClear(After(s, acts[..|acts| - 1]), acts[|acts| - 1]))
  }

  /** What was loaded under the lock is the row. */
  ghost predicate FreshInv(s: State) {
    forall p :: p in s.phases && (s.phases[p].Loaded? || s.phases[p].Counted?) ==>
      s.phases[p].id in s.members && s.members[s.phases[p].id] == s.phases[p].target
  }

  lemma FreshStays(s: State, a: Action)
    requires Inv(s) && FreshInv(s) && Enabled(s, a) && KeepsClear(s, a)
    ensures FreshInv(Apply(s, a)) && !Drifts(s, a)
  {
    hide PhaseInv, Decide, RowsInv, OwnersInv, Mirrored, WithoutMember;
    var t := Apply(s, a);
    forall p | p in t.phases && (t.phases[p].Loaded? || t.phases[p].Counted?)
      ensures t.phases[p].id in t.members && t.members[t.phases[p].id] == t.phases[p].target
    {
      if p != a.p { assert p in s.phases && t.phases[p] == s.phases[p] && UnderLock(s.phases[p]); }
    }
  }

  lemma {:induction false} ClearRunsAgree(s: State, acts: seq<Action>)
    requires Quiet(s) && Runs(s, acts) && AllKeepClear(s, acts)
    ensures FreshInv(After(s, acts)) && NeverDrifts(s, acts)
    ensures AgreeInv(After(s, acts))
    decreases |acts|
  {
    hide Apply, Enabled, Inv, AgreeInv, TeamsInv, Drifts, KeepsClear;
    if acts != [] {
      var before, last := acts[..|acts| - 1], acts[|acts| - 1];
      EveryRunKeepsAnOwner(s, before);
      ClearRunsAgree(s, before);
      FreshStays(After(s, before), last);
    }
    DerivedStateAgrees(s, acts);
  }

  // ---- What goes wrong otherwise ----

  ghost predicate Reaches(s: State, acts: seq<Action>, t: State) {
    Runs(s, acts) && After(s, acts) == t
  }

  lemma Stands(s: State)
    ensures Reaches(s, [], s)
  {
  }

  lemma Extend(s: State, acts: seq<Action>, t: State, a: Action)
    requires Reaches(s, acts, t) && Enabled(t, a)
    ensures Reaches(s, acts + [a], Apply(t, a))
  {
    assert (acts + [a])[..|acts|] == acts;
  }

  /** A change on its own, from its lock to its commit. */
  lemma ChangesAlone(s0: State, acts: seq<Action>, s: State, p: nat, actor: Actor, id: nat, change: Change) returns (t: State)
    requires Reaches(s0, acts, s) && s.PhaseOf(p).Out? && s.lock.None?
    requires id in s.members && !s.members[id].status.REMOVED?
    requires Decide(actor, id, s.members[id], |Owners(s.members)|, change).Write? && Commits(s, id, s.members[id], change)
    ensures Reaches(s0, acts + [Begin(p, actor, id, change)] + [Load(p)] + [Count(p)] + [Finish(p)], t)
    ensures t.members == Written(s, id, s.members[id], change).members && t.seats == Written(s, id, s.members[id], change).seats
    ensures t.teams == Written(s, id, s.members[id], change).teams && forall q :: q != p ==> t.PhaseOf(q) == s.PhaseOf(q)
  {
    hide Reaches, Decide, Commits, Mirrored, WithoutMember, Owners;
    var a1 := Begin(p, actor, id, change);
    Extend(s0, acts, s, a1);
    var t1 := Apply(s, a1);
    Extend(s0, acts + [a1], t1, Load(p));
    var t2 := Apply(t1, Load(p));
    Extend(s0, acts + [a1] + [Load(p)], t2, Count(p));
    var t3 := Apply(t2, Count(p));
    Extend(s0, acts + [a1] + [Load(p)] + [Count(p)], t3, Finish(p));
    SameCommits(s, t3, id, change);
    t := Apply(t3, Finish(p));
  }

  lemma SameCommits(s: State, t: State, id: nat, change: Change)
    requires t.members == s.members && t.seats == s.seats && t.limit == s.limit && id in s.members
    ensures Commits(s, id, s.members[id], change) <==> Commits(t, id, s.members[id], change)
  {
  }

  /**
   * A team addition locks its team, not the organization: a removal that starts
   * after the addition looked at its member, and commits before it inserts,
   * leaves a removed member in the team.
   */
  lemma RemovedMembersCanBeInTeams(s: State, p: nat, q: nat, actor: Actor, id: nat, team: nat) returns (t: State)
    requires p != q && s.PhaseOf(p).Out? && s.PhaseOf(q).Out? && s.lock.None? && actor.role.OWNER?
    requires id in s.members && s.members[id] == Member(s.members[id].user, AGENT, ACTIVE, HUMAN) && s.members[id].user.Some?
    ensures Reaches(s, [Check(q, team, id)] + [Begin(p, actor, id, Remove)] + [Load(p)] + [Count(p)] + [Finish(p)] + [Insert(q)], t)
    ensures id in t.members && t.members[id].status.REMOVED? && TeamPlace(team, id) in t.teams && !TeamsInv(t)
  {
    hide Reaches;
    Stands(s);
    Extend(s, [], s, Check(q, team, id));
    assert [] + [Check(q, team, id)] == [Check(q, team, id)];
    var t1 := Apply(s, Check(q, team, id));
    var t2 := ChangesAlone(s, [Check(q, team, id)], t1, p, actor, id, Remove);
    Extend(s, [Check(q, team, id)] + [Begin(p, actor, id, Remove)] + [Load(p)] + [Count(p)] + [Finish(p)], t2, Insert(q));
    t := Apply(t2, Insert(q));
    assert !Works(t, TeamPlace(team, id).member);
  }

  /**
   * An invitation may name a team whatever its role, and accepting it only looks
   * whether the team is active: a requester invited with a team is in it, with
   * nobody else doing anything.
   */
  lemma InvitedRequestersAreInTeams(s: State, p: nat, id: nat, user: nat, team: nat) returns (t: State)
    requires Quiet(s) && MayJoin(s, id, user, REQUESTER, Some(team))
    ensures Reaches(s, [Join(p, id, user, REQUESTER, Some(team))], t)
    ensures id in t.members && t.members[id].role.REQUESTER? && t.members[id].status.ACTIVE?
    ensures TeamPlace(team, id) in t.teams && !TeamsInv(t)
  {
    var a := Join(p, id, user, REQUESTER, Some(team));
    Stands(s);
    Extend(s, [], s, a);
    assert [] + [a] == [a];
    t := Apply(s, a);
    assert !Works(t, TeamPlace(team, id).member);
  }

  /**
   * Accepting an invitation does not take the organization's lock either: someone
   * who wrote in from outside and joins as an agent while an owner removes the
   * outsider keeps the seat and the picker row of a membership that is removed.
   */
  lemma ClaimedSeatsCanBeLost(s: State, p: nat, q: nat, actor: Actor, id: nat, user: nat) returns (t: State)
    requires Quiet(s) && p != q && actor.role.OWNER?
    requires id in s.members && s.members[id] == Member(None, REQUESTER, ACTIVE, EXTERNAL) && MayJoin(s, id, user, AGENT, None)
    ensures Reaches(s, [Begin(p, actor, id, Remove)] + [Load(p)] + [Join(q, id, user, AGENT, None)] + [Count(p)] + [Finish(p)], t)
    ensures t.members == s.members[id := Member(Some(user), AGENT, REMOVED, HUMAN)]
    ensures t.seats == |SeatHolders(t.members)| + 1 && user in t.picker && t.picker[user] == Badge(AGENT, ACTIVE) && !AgreeInv(t)
  {
    hide Reaches, AgreeInv, TeamsInv, RowsInv;
    Stands(s);
    assert [] + [Begin(p, actor, id, Remove)] == [Begin(p, actor, id, Remove)];
    t := LoadedThenClaimed(s, [], s, p, q, actor, id, user);
    t := RemovesAnyway(s, [] + [Begin(p, actor, id, Remove)] + [Load(p)] + [Join(q, id, user, AGENT, None)], t, p, actor, id, user);
    ClaimLosesSeat(s, t, id, user);
  }

  lemma LoadedThenClaimed(s0: State, acts: seq<Action>, s: State, p: nat, q: nat, actor: Actor, id: nat, user: nat) returns (t: State)
    requires Reaches(s0, acts, s) && p != q && s.PhaseOf(p).Out? && s.PhaseOf(q).Out? && s.lock.None?
    requires id in s.members && s.members[id] == Member(None, REQUESTER, ACTIVE, EXTERNAL) && MayJoin(s, id, user, AGENT, None)
    ensures Reaches(s0, acts + [Begin(p, actor, id, Remove)] + [Load(p)] + [Join(q, id, user, AGENT, None)], t)
    ensures t.PhaseOf(p) == Loaded(actor, id, Remove, s.members[id])
    ensures t.members == s.members[id := Member(Some(user), AGENT, ACTIVE, HUMAN)] && t.seats == s.seats + 1
    ensures t.picker == s.picker[user := Badge(AGENT, ACTIVE)]
  {
    hide Reaches;
    Extend(s0, acts, s, Begin(p, actor, id, Remove));
    var t1 := Apply(s, Begin(p, actor, id, Remove));
    Extend(s0, acts + [Begin(p, actor, id, Remove)], t1, Load(p));
    var t2 := Apply(t1, Load(p));
    Extend(s0, acts + [Begin(p, actor, id, Remove)] + [Load(p)], t2, Join(q, id, user, AGENT, None));
    t := Apply(t2, Join(q, id, user, AGENT, None));
  }

  /** The removal goes by the outsider it loaded: no seat to give back, no picker row to mark. */
  lemma RemovesAnyway(s0: State, acts: seq<Action>, s: State, p: nat, actor: Actor, id: nat, user: nat) returns (t: State)
    requires Reaches(s0, acts, s) && actor.role.OWNER?
    requires s.PhaseOf(p) == Loaded(actor, id, Remove, Member(None, REQUESTER, ACTIVE, EXTERNAL))
    requires id in s.members && s.members[id] == Member(Some(user), AGENT, ACTIVE, HUMAN)
    ensures Reaches(s0, acts + [Count(p)] + [Finish(p)], t)
    ensures t.members == s.members[id := Member(Some(user), AGENT, REMOVED, HUMAN)] && t.seats == s.seats && t.picker == s.picker
  {
    hide Reaches;
    Extend(s0, acts, s, Count(p));
    var t1 := Apply(s, Count(p));
    Extend(s0, acts + [Count(p)], t1, Finish(p));
    t := Apply(t1, Finish(p));
  }

  lemma ClaimLosesSeat(s: State, t: State, id: nat, user: nat)
    requires AgreeInv(s) && id in s.members && s.members[id] == Member(None, REQUESTER, ACTIVE, EXTERNAL)
    requires t.members == s.members[id := Member(Some(user), AGENT, REMOVED, HUMAN)] && t.seats == s.seats + 1
    ensures t.seats == |SeatHolders(t.members)| + 1 && !AgreeInv(t)
  {
    HoldersWith(s.members, id, t.members[id]);
  }
}
