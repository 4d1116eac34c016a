// The membership changes as they run: lock the organization, load the target, let
// the change decide and write, with joins, team changes and everyone else's
// waiting changes free to run in between.
// Source: apps/api/src/memberships/members.service.ts.

module MembersService {
  import opened LogOrder
  import opened Members
  import opened MemberRuns

  ghost predicate ByOthers(acts: seq<Action>, me: nat) {
    forall i :: 0 <= i < |acts| ==> acts[i].p != me
  }

  /** What one process did, in order. */
  ghost function Own(acts: seq<Action>, p: nat): seq<Action> {
    if acts == [] then []
    else
      var last := acts[|acts| - 1];
      Own(acts[..|acts| - 1], p) + if last.p == p then [last] else []
  }

  lemma OwnExtends(acts: seq<Action>, a: Action)
    ensures forall p: nat :: Own(acts + [a], p) == Own(acts, p) + if a.p == p then [a] else []
  {
    assert (acts + [a])[..|acts|] == acts;
  }

  /** Others leave a change where it is, and the holder of the lock holding it. */
  lemma OneLeavesMe(s: State, a: Action, me: nat)
    requires Inv(s) && Enabled(s, a) && a.p != me
    ensures Apply(s, a).PhaseOf(me) == s.PhaseOf(me)
  {
    hide Decide, Mirrored, WithoutMember;
  }

  lemma {:induction false} OthersLeaveMe(s: State, acts: seq<Action>, more: seq<Action>, me: nat)
    requires Quiet(s) && Runs(s, acts) && Runs(s, acts + more) && ByOthers(more, me)
    ensures After(s, acts + more).PhaseOf(me) == After(s, acts).PhaseOf(me)
    ensures Own(acts + more, me) == Own(acts, me)
    decreases |more|
  {
    hide Apply, Enabled, Inv;
    if more == [] {
      assert acts + more == acts;
    } else {
      var less := more[..|more| - 1];
      assert (acts + more)[..|acts + more| - 1] == acts + less;
      OthersLeaveMe(s, acts, less, me);
      EveryRunKeepsAnOwner(s, acts + less);
      OneLeavesMe(After(s, acts + less), more[|more| - 1], me);
    }
  }

  /** Since `from`, the run took `a`, and took it from the state `s`. */
  ghost predicate Took(start: State, from: seq<Action>, acts: seq<Action>, a: Action, s: State) {
    exists pre :: Reaches(start, pre, s) && from <= pre && pre + [a] <= acts
  }

  lemma TookStays(start: State, acts: seq<Action>, more: seq<Action>)
    requires acts <= more
    ensures forall from, a, s :: Took(start, from, acts, a, s) ==> Took(start, from, more, a, s)
  {
    forall from, a, s | Took(start, from, acts, a, s) ensures Took(start, from, more, a, s) {
      var pre :| Reaches(start, pre, s) && from <= pre && pre + [a] <= acts;
      assert pre + [a] <= more;
    }
  }

  lemma TookNow(start: State, acts: seq<Action>, a: Action, s: State)
    requires Reaches(start, acts, s)
    ensures forall from :: from <= acts ==> Took(start, from, acts + [a], a, s)
  {
    forall from | from <= acts ensures Took(start, from, acts + [a], a, s) {
      assert from <= acts && acts + [a] <= acts + [a];
    }
  }

  class Organization {
    ghost const start: State
    var state: State
    ghost var trace: seq<Action>

    ghost predicate Valid()
      reads this
    {
      Quiet(start) && Reaches(start, trace, state)
    }

    lemma Safe()
      requires Valid()
      ensures Inv(state)
    {
      EveryRunKeepsAnOwner(start, trace);
    }

    constructor (start: State)
      requires Quiet(start)
      ensures Valid() && trace == [] && state == start
    {
      this.start, state, trace := start, start, [];
      new;
      Stands(start);
    }

    /** Any number of actions by anyone but `me`; callers may rely on no more than that. */
    method Interfere(ghost me: nat)
      requires Valid()
      modifies this
      ensures Valid()
      ensures exists more :: ByOthers(more, me) && trace == old(trace) + more
    {
      assert ByOthers([], me) && trace == old(trace) + [];
    }

    /** Since `from`, this run took `a`, from the state `s`. */
    ghost predicate DidSince(from: seq<Action>, a: Action, s: State)
      reads this
    {
      Took(start, from, trace, a, s)
    }

    method Pause(ghost me: nat)
      requires Valid()
      modifies this
      ensures Valid() && Inv(state) && old(trace) <= trace
      ensures forall from, a, s :: old(DidSince(from, a, s)) ==> DidSince(from, a, s)
      ensures state.PhaseOf(me) == old(state).PhaseOf(me) && Own(trace, me) == old(Own(trace, me))
    {
      Interfere(me);
      ghost var more :| ByOthers(more, me) && trace == old(trace) + more;
      OthersLeaveMe(start, old(trace), more, me);
      Safe();
      TookStays(start, old(trace), trace);
    }

    method Act(a: Action)
      requires Valid() && Enabled(state, a)
      modifies this
      ensures Valid() && Inv(state) && state == Apply(old(state), a) && trace == old(trace) + [a]
      ensures forall p: nat :: Own(trace, p) == old(Own(trace, p)) + if a.p == p then [a] else []
      ensures forall from, b, s :: old(DidSince(from, b, s)) ==> DidSince(from, b, s)
      ensures forall from :: from <= old(trace) ==> DidSince(from, a, old(state))
    {
      hide Apply, Enabled, Runs, After, Quiet, Inv;
      TookStays(start, trace, trace + [a]);
      TookNow(start, trace, a, state);
      Extend(start, trace, state, a);
      OwnExtends(trace, a);
      state := Apply(state, a);
      trace := trace + [a];
      Safe();
    }
  }

  // ---- Where each step leaves a change ----

  /** Everything but who is where in a transaction. */
  predicate SameData(s: State, t: State) {
    t.members == s.members && t.seats == s.seats && t.picker == s.picker && t.teams == s.teams
  }

  lemma BeginMoves(s: State, p: nat, actor: Actor, id: nat, change: Change)
    requires s.PhaseOf(p).Out? && s.lock.None?
    ensures Enabled(s, Begin(p, actor, id, change))
    ensures var t := Apply(s, Begin(p, actor, id, change)); t.PhaseOf(p) == Locked(actor, id, change) && SameData(s, t)
  {
  }

  lemma LoadMoves(s: State, p: nat)
    requires s.PhaseOf(p).Locked?
    ensures Enabled(s, Load(p))
    ensures var c, t := s.PhaseOf(p), Apply(s, Load(p));
            && SameData(s, t)
            && if c.id in s.members && !s.members[c.id].status.REMOVED?
               then t.PhaseOf(p) == Loaded(c.actor, c.id, c.change, s.members[c.id])
               else t.PhaseOf(p).Out? && t.lock.None?
  {
  }

  lemma CountMoves(s: State, p: nat)
    requires s.PhaseOf(p).Loaded?
    ensures Enabled(s, Count(p))
    ensures var c, t := s.PhaseOf(p), Apply(s, Count(p));
            SameData(s, t) && t.PhaseOf(p) == Counted(c.actor, c.id, c.change, c.target, |Owners(s.members)|)
  {
  }

  lemma FinishMoves(s: State, p: nat)
    requires s.PhaseOf(p).Counted?
    ensures Enabled(s, Finish(p))
    ensures var c, t := s.PhaseOf(p), Apply(s, Finish(p));
            && t.PhaseOf(p).Out? && t.lock.None?
            && if Writes(s, p) then c.id in s.members && SameData(Written(s, c.id, c.target, c.change), t) else SameData(s, t)
  {
  }

  lemma WritesIff(s: State, p: nat)
    requires s.PhaseOf(p).Counted?
    ensures var c := s.PhaseOf(p); Writes(s, p) <==> VerdictOf(c).Write? && Commits(s, c.id, c.target, c.change)
    ensures var c := s.PhaseOf(p); Commits(s, c.id, c.target, c.change) ==> c.id in s.members
  {
  }

  lemma OwnersRemain(s: State)
    requires Inv(s)
    ensures Owners(s.members) != {}
  {
    SomeOwner(s);
  }

  lemma Same(s: State)
    ensures SameData(s, s)
  {
  }

  lemma AbortMoves(s: State, p: nat)
    requires UnderLock(s.PhaseOf(p))
    ensures Enabled(s, Abort(p))
    ensures var t := Apply(s, Abort(p)); t.PhaseOf(p).Out? && t.lock.None? && SameData(s, t)
  {
  }

  // ---- The change ----

  datatype Outcome =
    | Missing
    | LockTimeout
    | Decided(verdict: Verdict)
    // 402, or a check of the database: the transaction rolls back.
    | NotCommitted
    | Failed

  /** Where the database or the revocation store gives out, if anywhere. */
  datatype Outage = Nowhere | AtLoad | AtCount | AtCommit

  function ChangeActions(o: Outcome, outage: Outage, p: nat, actor: Actor, id: nat, change: Change): seq<Action> {
    match o
    case LockTimeout => []
    case Missing => [Begin(p, actor, id, change), Load(p)]
    case Failed =>
      if outage.AtLoad? then [Begin(p, actor, id, change), Abort(p)]
      else if outage.AtCount? then [Begin(p, actor, id, change), Load(p), Abort(p)]
      else [Begin(p, actor, id, change), Load(p), Count(p), Abort(p)]
    case _ => [Begin(p, actor, id, change), Load(p), Count(p), Finish(p)]
  }

  class MembersService {
    const organization: Organization

    constructor (organization: Organization)
      ensures this.organization == organization
    {
      this.organization := organization;
    }

    /**
     * The shape of every change. `loaded` is the organization the target was read
     * in, `counted` the one the owners were counted in, `s` and `t` those just
     * before and just after the last step. It answers by the target and the
     * owners it read, and writes exactly when that decision is to write, the plan
     * and the checks allow it, and nothing gives out.
     */
    method Change(p: nat, actor: Actor, id: nat, change: Change, outage: Outage)
      returns (o: Outcome, ghost loaded: State, ghost counted: State, ghost s: State, ghost t: State)
      requires organization.Valid() && organization.state.PhaseOf(p).Out?
      modifies organization
      ensures organization.Valid() && organization.state.PhaseOf(p).Out? && organization.state == t
      ensures old(organization.trace) <= organization.trace
      ensures Own(organization.trace, p) == old(Own(organization.trace, p)) + ChangeActions(o, outage, p, actor, id, change)
      // What it read, and when.
      ensures Since(old(organization.trace), o, outage, p, loaded, counted, s)
      // Each answer by its cause.
      ensures o.LockTimeout? ==> t.lock.Some?
      ensures !o.LockTimeout? ==>
                if outage.AtLoad? then o == Failed
                else if id !in loaded.members || loaded.members[id].status == REMOVED then o == Missing
                else if outage.AtCount? then o == Failed
                else
                  var target := loaded.members[id];
                  var verdict := Decide(actor, id, target, |Owners(counted.members)|, change);
                  o == if verdict != Write then Decided(verdict)
                       else if !Commits(s, id, target, change) then NotCommitted
                       else if outage.AtCommit? then Failed
                       else Decided(Write)
      // What it leaves.
      ensures if o == Decided(Write) then id in loaded.members && id in s.members && SameData(Written(s, id, loaded.members[id], change), t)
              else SameData(s, t)
      // The last owner stays, whatever else ran.
      ensures Owners(t.members) != {}
    {
      hide Apply, Enabled, Reaches, Own, Quiet, Decide, Commits, Written, Inv, Owners, Organization.DidSince, SameData;
      organization.Pause(p);
      s, loaded, counted := organization.state, organization.state, organization.state;
      if organization.state.lock.Some? {
        o := LockTimeout;
        Same(s);
      } else {
        BeginMoves(organization.state, p, actor, id, change);
        organization.Act(Begin(p, actor, id, change));
        o, loaded, counted, s := LoadAndDecide(p, organization.state.PhaseOf(p), outage);
      }
      t := organization.state;
      OwnersRemain(t);
    }

    /** Loads the target under the lock and, when it is there, goes on to decide. */
    method LoadAndDecide(p: nat, c: Phase, outage: Outage) returns (o: Outcome, ghost loaded: State, ghost counted: State, ghost s: State)
      requires organization.Valid() && c.Locked? && organization.state.PhaseOf(p) == c
      modifies organization
      ensures organization.Valid() && Inv(organization.state) && organization.state.PhaseOf(p).Out? && !o.LockTimeout?
      ensures old(organization.trace) <= organization.trace
      ensures Own(organization.trace, p) == old(Own(organization.trace, p)) + ChangeActions(o, outage, p, c.actor, c.id, c.change)[1..]
      ensures forall from :: from <= old(organization.trace) ==> Since(from, o, outage, p, loaded, counted, s)
      ensures if outage.AtLoad? then o == Failed
              else if c.id !in loaded.members || loaded.members[c.id].status == REMOVED then o == Missing
              else if outage.AtCount? then o == Failed
              else
                var target := loaded.members[c.id];
                var verdict := Decide(c.actor, c.id, target, |Owners(counted.members)|, c.change);
                o == if verdict != Write then Decided(verdict)
                     else if !Commits(s, c.id, target, c.change) then NotCommitted
                     else if outage.AtCommit? then Failed
                     else Decided(Write)
      ensures if o == Decided(Write) then c.id in loaded.members && c.id in s.members && SameData(Written(s, c.id, loaded.members[c.id], c.change), organization.state)
              else SameData(s, organization.state)
    {
      hide Apply, Enabled, Reaches, Own, Quiet, Decide, Commits, Written, Inv, Owners, Organization.DidSince, SameData;
      s, loaded, counted := organization.state, organization.state, organization.state;
      if outage.AtLoad? {
        o, s := Fail(p);
      } else {
        organization.Pause(p);
        LoadMoves(organization.state, p);
        s, loaded := organization.state, organization.state;
        organization.Act(Load(p));
        o := Missing;
        var d := organization.state.PhaseOf(p);
        if d.Loaded? {
          o, counted, s := DecideAndWrite(p, d, outage);
        }
      }
    }

    /** Where in this run the change read the target, counted the owners, and took its last step. */
    ghost predicate Since(from: seq<Action>, o: Outcome, outage: Outage, p: nat, loaded: State, counted: State, s: State)
      reads organization
    {
      match o
      case LockTimeout => Reaches(organization.start, organization.trace, s)
      case Missing => organization.DidSince(from, Load(p), loaded) && s == loaded
      case Failed =>
        && organization.DidSince(from, Abort(p), s)
        && (!outage.AtLoad? ==> organization.DidSince(from, Load(p), loaded))
        && (outage.AtCommit? ==> organization.DidSince(from, Count(p), counted))
      case _ =>
        && organization.DidSince(from, Load(p), loaded) && organization.DidSince(from, Count(p), counted)
        && organization.DidSince(from, Finish(p), s)
    }

    /** Something gave out: the transaction rolls back. */
    method Fail(p: nat) returns (o: Outcome, ghost s: State)
      requires organization.Valid() && UnderLock(organization.state.PhaseOf(p))
      modifies organization
      ensures organization.Valid() && Inv(organization.state) && organization.state.PhaseOf(p).Out? && o == Failed
      ensures old(organization.trace) <= organization.trace
      ensures Own(organization.trace, p) == old(Own(organization.trace, p)) + [Abort(p)]
      ensures forall from, a, s :: old(organization.DidSince(from, a, s)) ==> organization.DidSince(from, a, s)
      ensures forall from :: from <= old(organization.trace) ==> organization.DidSince(from, Abort(p), s)
      ensures SameData(s, organization.state)
    {
      hide Apply, Enabled, Reaches, Own, Quiet, Inv, SameData, Organization.DidSince;
      organization.Pause(p);
      s := organization.state;
      AbortMoves(organization.state, p);
      organization.Act(Abort(p));
      o := Failed;
    }

    /** Counts the owners under the lock, decides, and commits what the decision writes. */
    method DecideAndWrite(p: nat, c: Phase, outage: Outage) returns (o: Outcome, ghost counted: State, ghost s: State)
      requires organization.Valid() && c.Loaded? && organization.state.PhaseOf(p) == c
      modifies organization
      ensures organization.Valid() && Inv(organization.state) && organization.state.PhaseOf(p).Out?
      ensures old(organization.trace) <= organization.trace
      ensures Own(organization.trace, p) == old(Own(organization.trace, p)) +
              if outage.AtCount? then [Abort(p)] else [Count(p)] + if o.Failed? then [Abort(p)] else [Finish(p)]
      ensures forall from, a, s :: old(organization.DidSince(from, a, s)) ==> organization.DidSince(from, a, s)
      ensures forall from :: from <= old(organization.trace) ==>
                && (if o.Failed? then organization.DidSince(from, Abort(p), s) else organization.DidSince(from, Finish(p), s))
                && (!outage.AtCount? ==> organization.DidSince(from, Count(p), counted))
      ensures if outage.AtCount? then o == Failed
              else
                var verdict := Decide(c.actor, c.id, c.target, |Owners(counted.members)|, c.change);
                o == if verdict != Write then Decided(verdict)
                     else if !Commits(s, c.id, c.target, c.change) then NotCommitted
                     else if outage.AtCommit? then Failed
                     else Decided(Write)
      ensures if o == Decided(Write) then c.id in s.members && SameData(Written(s, c.id, c.target, c.change), organization.state)
              else SameData(s, organization.state)
    {
      hide Apply, Enabled, Reaches, Own, Quiet, Decide, Commits, Written, Inv, Owners, SameData, Organization.DidSince;
      counted := organization.state;
      if outage.AtCount? {
        o, s := Fail(p);
      } else {
        organization.Pause(p);
        CountMoves(organization.state, p);
        counted := organization.state;
        organization.Act(Count(p));
        o, s := Decided(Nothing), organization.state;
        var d := organization.state.PhaseOf(p);
        var verdict := VerdictOf(d);
        organization.Pause(p);
        s := organization.state;
        var commits := Commits(organization.state, c.id, c.target, c.change);
        if verdict.Write? && commits && outage.AtCommit? {
          AbortMoves(organization.state, p);
          organization.Act(Abort(p));
          o := Failed;
        } else {
          FinishMoves(organization.state, p);
          WritesIff(organization.state, p);
          organization.Act(Finish(p));
          o := if verdict.Write? && !commits then NotCommitted else Decided(verdict);
        }
      }
    }
  }
}
