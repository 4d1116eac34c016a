// Members of one organization: role changes, disables, enables and removals under
// the organization's lock, next to team additions and joins that do not take it.
// Sources: apps/api/src/memberships/members.service.ts,
// apps/api/src/memberships/repositories/membership.repository.ts,
// apps/api/src/platform/repositories/user-org-index.repository.ts,
// apps/api/src/quota/quota.service.ts, apps/api/src/teams/teams.service.ts and
// apps/api/src/memberships/acceptance/invitation-acceptance.service.ts.

module Members {
  import opened LogOrder

  datatype Role = REQUESTER | AGENT | ADMIN | OWNER
  datatype Status = ACTIVE | DISABLED | REMOVED
  datatype Kind = HUMAN | SERVICE_ACCOUNT | EXTERNAL

  datatype Member = Member(user: Option<nat>, role: Role, status: Status, kind: Kind)
  {
    /** An active human at AGENT or above. */
    predicate HoldsSeat() {
      kind.HUMAN? && status.ACTIVE? && !role.REQUESTER?
    }

    predicate Owns() {
      role.OWNER? && status.ACTIVE?
    }

    /** The database's checks: an account behind people only, and outsiders only ever requesters. */
    predicate WellFormed() {
      && (user.Some? <==> kind.HUMAN?)
      && (kind.EXTERNAL? ==> role.REQUESTER?)
    }
  }

  /** What the workspace picker shows of a membership. */
  datatype Badge = Badge(role: Role, status: Status)

  datatype TeamPlace = TeamPlace(team: nat, member: nat)

  /** Who asks: the role comes from the token, and may be stale. */
  datatype Actor = Actor(id: nat, role: Role, steppedUp: bool)

  datatype Change = ChangeRole(role: Role) | Disable | Enable | Remove

  datatype Phase =
    | Out
    | Locked(actor: Actor, id: nat, change: Change)
    | Loaded(actor: Actor, id: nat, change: Change, target: Member)
    | Counted(actor: Actor, id: nat, change: Change, target: Member, owners: nat)
    // A team addition that has looked at its member.
    | Checked(team: nat, id: nat)

  datatype State = State(
    members: map<nat, Member>,
    // The AGENT_SEATS counter and the plan's limit on it.
    seats: nat,
    limit: Option<nat>,
    picker: map<nat, Badge>,
    teams: set<TeamPlace>,
    lock: Option<nat>,
    phases: map<nat, Phase>
  )
  {
    function PhaseOf(p: nat): Phase {
      if p in phases then phases[p] else Out
    }

    function At(p: nat, phase: Phase): State {
      this.(phases := phases[p := phase])
    }

    predicate Fits() {
      limit.None? || seats + 1 <= limit.value
    }
  }

  // ---- The decision ----

  datatype Refusal = NotFound | NotPermitted | StepUpRequired | IsServiceAccount | LastOwner | WrongStatus

  datatype Verdict = Refused(why: Refusal) | Nothing | Write

  /** `member:update_role`: an owner anyone, an admin those below admin and not themselves. */
  predicate MayChangeRole(actor: Actor, id: nat, target: Member) {
    actor.role.OWNER? || (actor.role.ADMIN? && id != actor.id && (target.role.AGENT? || target.role.REQUESTER?))
  }

  /** `member:disable` and `member:remove`: an owner anyone, an admin anyone but owners and themselves. */
  predicate MayEnd(actor: Actor, id: nat, target: Member) {
    actor.role.OWNER? || (actor.role.ADMIN? && id != actor.id && !target.role.OWNER?)
  }

  /** `assertNotLastOwner`, on the owners counted under the lock. */
  predicate IsLastOwner(target: Member, owners: nat) {
    target.status.ACTIVE? && owners <= 1
  }

  function Decide(actor: Actor, id: nat, target: Member, owners: nat, change: Change): Verdict {
    match change
    case ChangeRole(role) =>
      if !MayChangeRole(actor, id, target) then Refused(NotPermitted)
      else if target.kind.SERVICE_ACCOUNT? then Refused(IsServiceAccount)
      else if (role.ADMIN? || role.OWNER?) && !actor.role.OWNER? then Refused(NotPermitted)
      else if role.OWNER? && !actor.steppedUp then Refused(StepUpRequired)
      else if target.role == role then Nothing
      else if target.role.OWNER? && IsLastOwner(target, owners) then Refused(LastOwner)
      else Write
    case Disable =>
      if !MayEnd(actor, id, target) then Refused(NotPermitted)
      else if target.kind.SERVICE_ACCOUNT? then Refused(IsServiceAccount)
      else if !target.status.ACTIVE? then Refused(WrongStatus)
      else if target.role.OWNER? && IsLastOwner(target, owners) then Refused(LastOwner)
      else Write
    case Enable =>
      if !MayEnd(actor, id, target) then Refused(NotPermitted)
      else if target.kind.SERVICE_ACCOUNT? then Refused(IsServiceAccount)
      else if !target.status.DISABLED? then Refused(WrongStatus)
      else Write
    case Remove =>
      if !MayEnd(actor, id, target) then Refused(NotPermitted)
      else if target.kind.SERVICE_ACCOUNT? then Refused(IsServiceAccount)
      else if target.role.OWNER? && target.status.ACTIVE? && IsLastOwner(target, owners) then Refused(LastOwner)
      else Write
  }

  /** The membership as the change leaves it. */
  function Changed(m: Member, change: Change): Member {
    match change
    case ChangeRole(role) => m.(role := role)
    case Disable => m.(status := DISABLED)
    case Enable => m.(status := ACTIVE)
    case Remove => m.(status := REMOVED)
  }

  /** `seatChange`: consumed or released by what the target was when it was loaded. */
  function SeatsAfter(seats: nat, before: Member, after: Member): nat {
    if !before.HoldsSeat() && after.HoldsSeat() then seats + 1
    else if before.HoldsSeat() && !after.HoldsSeat() then (if seats >= 1 then seats - 1 else 0)
    else seats
  }

  function Mirrored(picker: map<nat, Badge>, user: Option<nat>, change: Change): map<nat, Badge> {
    if user.None? || user.value !in picker then picker
    else
      var b := picker[user.value];
      picker[user.value :=
        match change
        case ChangeRole(role) => b.(role := role)
        case Disable => b.(status := DISABLED)
        case Enable => b.(status := ACTIVE)
        case Remove => b.(status := REMOVED)]
  }

  function WithoutMember(teams: set<TeamPlace>, id: nat): set<TeamPlace> {
    set t | t in teams && t.member != id
  }

  predicate LeavesTeams(change: Change) {
    change.Remove? || change == ChangeRole(REQUESTER)
  }

  /** One write of the change: by the target as loaded, on the row as it is. */
  function Written(s: State, id: nat, target: Member, change: Change): State
    requires id in s.members
  {
    s.(members := s.members[id := Changed(s.members[id], change)],
       seats := SeatsAfter(s.seats, target, Changed(target, change)),
       picker := Mirrored(s.picker, target.user, change),
       teams := if LeavesTeams(change) then WithoutMember(s.teams, id) else s.teams)
  }

  /** The plan has the seat a change needs, and the row's checks admit it. */
  predicate Commits(s: State, id: nat, target: Member, change: Change) {
    && id in s.members && Changed(s.members[id], change).WellFormed()
    && (!target.HoldsSeat() && Changed(target, change).HoldsSeat() ==> s.Fits())
  }

  // ---- The organization's steps ----

  datatype Action =
    | Begin(p: nat, actor: Actor, id: nat, change: Change)
    | Load(p: nat)
    | Count(p: nat)
    | Finish(p: nat)
    // A crash, an outage, a revocation that could not be recorded: the transaction rolls back.
    | Abort(p: nat)
    | Check(p: nat, team: nat, id: nat)
    | Insert(p: nat)
    | LeaveTeam(p: nat, place: TeamPlace)
    // An invitation accepted: a new member, a removed one back, or an outsider's membership taken
    // over, put in the invitation's team while that team is active, whatever the role.
    | Join(p: nat, id: nat, user: nat, role: Role, into: Option<nat>)

  function Owners(members: map<nat, Member>): set<nat> {
    set id | id in members && members[id].Owns()
  }

  function SeatHolders(members: map<nat, Member>): set<nat> {
    set id | id in members && members[id].HoldsSeat()
  }

  predicate UnderLock(phase: Phase) {
    phase.Locked? || phase.Loaded? || phase.Counted?
  }

  /** `consume` fits, the account has no other membership, and the place in the team is not taken. */
  predicate MayJoin(s: State, id: nat, user: nat, role: Role, team: Option<nat>) {
    && (!role.REQUESTER? ==> s.Fits())
    && (team.Some? ==> TeamPlace(team.value, id) !in s.teams)
    && (forall j :: j in s.members && j != id ==> s.members[j].user != Some(user))
    && (id in s.members ==>
          || (s.members[id].user == Some(user) && s.members[id].status.REMOVED?)
          || s.members[id].kind.EXTERNAL?)
  }

  predicate Enabled(s: State, a: Action) {
    match a
    case Begin(p, _, _, _) => s.PhaseOf(p).Out? && s.lock.None?
    case Load(p) => s.PhaseOf(p).Locked?
    case Count(p) => s.PhaseOf(p).Loaded?
    case Finish(p) => s.PhaseOf(p).Counted?
    case Abort(p) => !s.PhaseOf(p).Out?
    case Check(p, _, id) =>
      && s.PhaseOf(p).Out? && id in s.members
      && s.members[id].status.ACTIVE? && !s.members[id].role.REQUESTER? && s.members[id].kind.HUMAN?
    case Insert(p) => s.PhaseOf(p).Checked?
    case LeaveTeam(p, place) => s.PhaseOf(p).Out?
    case Join(p, id, user, role, team) => s.PhaseOf(p).Out? && MayJoin(s, id, user, role, team)
  }

  function Ended(s: State, p: nat): State {
    s.(lock := if UnderLock(s.PhaseOf(p)) then None else s.lock).At(p, Out)
  }

  /** What the last step of a change decides. */
  function VerdictOf(c: Phase): Verdict
    requires c.Counted?
  {
    Decide(c.actor, c.id, c.target, c.owners, c.change)
  }

  predicate Writes(s: State, p: nat) {
    var c := s.PhaseOf(p);
    c.Counted? && VerdictOf(c).Write? && Commits(s, c.id, c.target, c.change)
  }

  function Apply(s: State, a: Action): State
    requires Enabled(s, a)
  {
    match a
    case Begin(p, actor, id, change) => s.(lock := Some(p)).At(p, Locked(actor, id, change))
    case Load(p) =>
      var c := s.PhaseOf(p);
      if c.id in s.members && !s.members[c.id].status.REMOVED? then
        s.At(p, Loaded(c.actor, c.id, c.change, s.members[c.id]))
      else Ended(s, p)
    case Count(p) =>
      var c := s.PhaseOf(p);
      s.At(p, Counted(c.actor, c.id, c.change, c.target, |Owners(s.members)|))
    case Finish(p) =>
      var c := s.PhaseOf(p);
      if Writes(s, p) then Ended(Written(s, c.id, c.target, c.change), p) else Ended(s, p)
    case Abort(p) => Ended(s, p)
    case Check(p, team, id) => s.At(p, Checked(team, id))
    case Insert(p) => s.(teams := s.teams + {TeamPlace(s.PhaseOf(p).team, s.PhaseOf(p).id)}).At(p, Out)
    case LeaveTeam(p, place) => s.(teams := s.teams - {place})
    case Join(p, id, user, role, team) =>
      s.(members := s.members[id := Member(Some(user), role, ACTIVE, HUMAN)],
         seats := if role.REQUESTER? then s.seats else s.seats + 1,
         picker := s.picker[user := Badge(role, ACTIVE)],
         teams := if team.Some? then s.teams + {TeamPlace(team.value, id)} else s.teams)
  }

  // ---- What every reachable state satisfies ----

  ghost predicate RowsInv(s: State) {
    && (forall id :: id in s.members ==> s.members[id].WellFormed())
    && (forall i, j :: i in s.members && j in s.members && i != j && s.members[i].user.Some? ==> s.members[i].user != s.members[j].user)
  }

  /** The lock has one holder, who alone is changing members. */
  ghost predicate LockInv(s: State) {
    && (forall p :: p in s.phases && UnderLock(s.phases[p]) ==> s.lock == Some(p))
    && (forall p :: p in s.phases ==> PhaseInv(s, s.phases[p]))
  }

  /** A loaded target is still what was loaded, unless its person claimed it by joining meanwhile. */
  predicate Current(s: State, id: nat, target: Member) {
    id in s.members && (s.members[id] == target || (target.kind.EXTERNAL? && s.members[id].kind.HUMAN? && s.members[id].status.ACTIVE?))
  }

  ghost predicate PhaseInv(s: State, c: Phase) {
    match c
    case Loaded(_, id, _, target) => target.WellFormed() && !target.status.REMOVED? && Current(s, id, target) && OthersOwn(s, id, target)
    case Counted(_, id, _, target, owners) => target.WellFormed() && !target.status.REMOVED? && Current(s, id, target) && OthersOwn(s, id, target) && owners <= |Owners(s.members)|
    case _ => true
  }

  /** A target that was no owner when loaded leaves an owner behind, whatever it has become. */
  ghost predicate OthersOwn(s: State, id: nat, target: Member) {
    !target.Owns() ==> exists j :: j in Owners(s.members) && j != id
  }

  ghost predicate OwnersInv(s: State) {
    exists id :: id in Owners(s.members)
  }

  ghost predicate Inv(s: State) {
    RowsInv(s) && LockInv(s) && OwnersInv(s)
  }

  /** Nothing but a change under the lock makes an owner anything else. */
  lemma OwnersOnlyGrow(s: State, a: Action)
    requires Enabled(s, a) && !a.Finish? && RowsInv(s)
    ensures Owners(s.members) <= Owners(Apply(s, a).members)
  {
  }

  lemma MoreOwners(s: State, t: State)
    requires Owners(s.members) <= Owners(t.members)
    ensures |Owners(s.members)| <= |Owners(t.members)|
  {
    Subset(Owners(s.members), Owners(t.members));
  }

  lemma {:induction false} Subset(a: set<nat>, b: set<nat>)
    requires a <= b
    ensures |a| <= |b|
  {
    if a != {} {
      var x :| x in a;
      Subset(a - {x}, b - {x});
    }
  }

  /** Two owners counted, and one of them taken away, leave one. */
  lemma AnotherOwner(owners: set<nat>, id: nat)
    requires |owners| >= 2
    ensures exists j :: j in owners && j != id
  {
    if owners <= {id} { Subset(owners, {id}); }
  }

  /** What a change writes keeps an owner: by its own check, or because others own. */
  lemma WritesKeepAnOwner(s: State, p: nat)
    requires Inv(s) && Writes(s, p)
    ensures OwnersInv(Apply(s, Finish(p)))
  {
    var c := s.PhaseOf(p);
    assert PhaseInv(s, c);
    var t := Apply(s, Finish(p));
    if c.target.Owns() {
      assert s.members[c.id] == c.target;
      if !Changed(c.target, c.change).Owns() {
        AnotherOwner(Owners(s.members), c.id);
        var j :| j in Owners(s.members) && j != c.id;
        assert j in Owners(t.members);
      } else {
        assert c.id in Owners(t.members);
      }
    } else {
      var j :| j in Owners(s.members) && j != c.id;
      assert j in Owners(t.members);
    }
  }

  /** The last-owner rule, over every interleaving: some active owner remains. */
  lemma OwnersStay(s: State, a: Action)
    requires Inv(s) && Enabled(s, a)
    ensures OwnersInv(Apply(s, a))
  {
    if a.Finish? && Writes(s, a.p) {
      WritesKeepAnOwner(s, a.p);
    } else if a.Finish? {
    } else {
      OwnersOnlyGrow(s, a);
    }
  }

  lemma RowsStay(s: State, a: Action)
    requires RowsInv(s) && Enabled(s, a)
    ensures RowsInv(Apply(s, a))
  {
  }

  /** What one change loaded stays true under its lock, whatever those without the lock do. */
  lemma LoadedStays(s: State, a: Action, c: Phase)
    requires RowsInv(s) && PhaseInv(s, c) && (c.Loaded? || c.Counted?) && Enabled(s, a) && !a.Finish?
    ensures PhaseInv(Apply(s, a), c)
  {
    var t := Apply(s, a);
    OwnersOnlyGrow(s, a);
    MoreOwners(s, t);
    if !c.target.Owns() {
      var j :| j in Owners(s.members) && j != c.id;
      assert j in Owners(t.members);
    }
  }

  lemma LoadIsCurrent(s: State, a: Action)
    requires Inv(s) && Enabled(s, a) && (a.Load? || a.Count?)
    ensures PhaseInv(Apply(s, a), Apply(s, a).PhaseOf(a.p))
  {
    var c, t := s.phases[a.p], Apply(s, a);
    assert PhaseInv(s, c);
    if a.Count? {
      SameOwners(s, t, c.id, c.target);
    } else if t.PhaseOf(a.p).Loaded? {
      var j :| j in Owners(s.members);
      assert j == c.id ==> t.PhaseOf(a.p).target.Owns();
      assert OthersOwn(s, c.id, t.PhaseOf(a.p).target);
      SameOwners(s, t, c.id, t.PhaseOf(a.p).target);
    }
  }

  lemma SameOwners(s: State, t: State, id: nat, target: Member)
    requires t.members == s.members && OthersOwn(s, id, target)
    ensures OthersOwn(t, id, target)
  {
  }

  lemma LockStays(s: State, a: Action)
    requires Inv(s) && Enabled(s, a)
    ensures LockInv(Apply(s, a))
  {
    hide PhaseInv, Decide, RowsInv, OwnersInv, Mirrored, WithoutMember;
    Rows(s);
    var t := Apply(s, a);
    forall p | p in t.phases ensures PhaseInv(t, t.phases[p]) && (UnderLock(t.phases[p]) ==> t.lock == Some(p)) {
      if t.phases[p].Loaded? || t.phases[p].Counted? {
        if p == a.p {
          LoadIsCurrent(s, a);
        } else {
          assert p in s.phases && s.phases[p] == t.phases[p] && UnderLock(s.phases[p]);
          LoadedStays(s, a, t.phases[p]);
        }
      } else {
        OtherPhase(t, t.phases[p]);
      }
    }
  }

  lemma OtherPhase(s: State, c: Phase)
    requires !c.Loaded? && !c.Counted?
    ensures PhaseInv(s, c)
  {
  }

  lemma InvStays(s: State, a: Action)
    requires Inv(s) && Enabled(s, a)
    ensures Inv(Apply(s, a))
  {
    hide RowsInv, LockInv, OwnersInv, Apply, Enabled;
    RowsStay(s, a);
    LockStays(s, a);
    OwnersStay(s, a);
  }

  // ---- State derived from the memberships ----

  /** The counter is the members that hold seats, and each account's picker row is its membership. */
  ghost predicate AgreeInv(s: State) {
    && s.seats == |SeatHolders(s.members)|
    && (forall id :: id in s.members ==> Pictured(s.picker, s.members[id]))
  }

  predicate Pictured(picker: map<nat, Badge>, m: Member) {
    m.user.Some? ==> m.user.value in picker && picker[m.user.value] == Badge(m.role, m.status)
  }

  ghost predicate TeamsInv(s: State) {
    forall place :: place in s.teams ==> Works(s, place.member)
  }

  /** In a team: neither removed nor a requester. */
  predicate Works(s: State, id: nat) {
    id in s.members && !s.members[id].status.REMOVED? && !s.members[id].role.REQUESTER?
  }

  /**
   * The one step that breaks the agreement: a change that writes to a membership
   * claimed since it was loaded, and changes it. Seat and picker then follow the
   * outsider it was, not the member it is.
   */
  predicate Drifts(s: State, a: Action) {
    a.Finish? && Writes(s, a.p) &&
    var c := s.PhaseOf(a.p);
    s.members[c.id] != c.target && Changed(s.members[c.id], c.change) != s.members[c.id]
  }

  /** An addition to a team, overtaken by a change that took its member out of teams. */
  predicate Overtaken(s: State, a: Action) {
    a.Insert? && s.PhaseOf(a.p).Checked? && !Works(s, s.PhaseOf(a.p).id)
  }

  /** A requester's invitation that names a team. */
  predicate InvitesRequester(a: Action) {
    a.Join? && a.role.REQUESTER? && a.into.Some?
  }

  /** The two steps that put someone in a team who may not be there. */
  predicate Misplaces(s: State, a: Action) {
    Overtaken(s, a) || InvitesRequester(a)
  }

  lemma HoldersWith(members: map<nat, Member>, id: nat, m: Member)
    ensures var before, after := SeatHolders(members), SeatHolders(members[id := m]);
            |after| == |before - {id}| + (if m.HoldsSeat() then 1 else 0)
    ensures |SeatHolders(members)| == |SeatHolders(members) - {id}| + (if id in members && members[id].HoldsSeat() then 1 else 0)
  {
    hide Member.HoldsSeat;
    var before, after := SeatHolders(members), SeatHolders(members[id := m]);
    assert after - {id} == before - {id};
    if m.HoldsSeat() { assert after == (before - {id}) + {id}; } else { assert after == before - {id}; }
    if id in before { assert before == (before - {id}) + {id}; } else { assert before == before - {id}; }
  }

  lemma JoinAgrees(s: State, a: Action)
    requires RowsInv(s) && AgreeInv(s) && Enabled(s, a) && a.Join?
    ensures AgreeInv(Apply(s, a))
  {
    HoldersWith(s.members, a.id, Member(Some(a.user), a.role, ACTIVE, HUMAN));
    assert a.id in s.members ==> !s.members[a.id].HoldsSeat();
    var t := Apply(s, a);
    forall j | j in t.members ensures Pictured(t.picker, t.members[j]) {
      if j != a.id { assert Pictured(s.picker, s.members[j]) && s.members[j].user != Some(a.user); }
    }
  }

  lemma WriteAgrees(s: State, p: nat)
    requires Inv(s) && AgreeInv(s) && Writes(s, p) && s.members[s.PhaseOf(p).id] == s.PhaseOf(p).target
    ensures AgreeInv(Apply(s, Finish(p)))
  {
    var c := s.PhaseOf(p);
    hide PhaseInv, Decide, Commits, Mirrored, Changed;
    HoldersWith(s.members, c.id, Changed(c.target, c.change));
    assert c.id in s.members by { WritesItsTarget(s, p); }
    WriteMirrors(s, c.id, c.change);
  }

  lemma WritesItsTarget(s: State, p: nat)
    requires Writes(s, p)
    ensures s.PhaseOf(p).id in s.members
  {
  }

  /** The mirrored row is the changed membership's, and no one else's moves. */
  lemma WriteMirrors(s: State, id: nat, change: Change)
    requires RowsInv(s) && id in s.members && forall j :: j in s.members ==> Pictured(s.picker, s.members[j])
    ensures var members, picker := s.members[id := Changed(s.members[id], change)], Mirrored(s.picker, s.members[id].user, change);
            forall j :: j in members ==> Pictured(picker, members[j])
  {
    assert Pictured(s.picker, s.members[id]);
  }

  /** A write on a claimed membership: the outsider's change moves no seat and no picker row. */
  lemma StaleWrite(s: State, p: nat)
    requires Inv(s) && Writes(s, p) && s.members[s.PhaseOf(p).id] != s.PhaseOf(p).target
    ensures var c, t := s.PhaseOf(p), Apply(s, Finish(p));
            && s.members[c.id].user.Some? && t.picker == s.picker && t.seats == s.seats
            && t.members == s.members[c.id := Changed(s.members[c.id], c.change)]
  {
    assert PhaseInv(s, s.PhaseOf(p));
  }

  lemma DriftsBreak(s: State, p: nat)
    requires Inv(s) && AgreeInv(s) && Drifts(s, Finish(p))
    ensures !AgreeInv(Apply(s, Finish(p)))
  {
    StaleWrite(s, p);
    var id := s.PhaseOf(p).id;
    assert Pictured(s.picker, s.members[id]);
    assert !Pictured(Apply(s, Finish(p)).picker, Apply(s, Finish(p)).members[id]);
  }

  /** Exactly when a step keeps the counter and the picker in agreement with the memberships. */
  lemma AgreementKeptIff(s: State, a: Action)
    requires Inv(s) && AgreeInv(s) && Enabled(s, a)
    ensures AgreeInv(Apply(s, a)) <==> !Drifts(s, a)
  {
    hide Inv, RowsInv, LockInv, Decide;
    if a.Join? {
      assert RowsInv(s) by { Rows(s); }
      JoinAgrees(s, a);
    } else if Drifts(s, a) {
      DriftsBreak(s, a.p);
    } else if a.Finish? && Writes(s, a.p) {
      var c := s.PhaseOf(a.p);
      if s.members[c.id] == c.target {
        WriteAgrees(s, a.p);
      } else {
        StaleWrite(s, a.p);
        assert s.members[c.id := s.members[c.id]] == s.members;
      }
    }
  }

  lemma Rows(s: State)
    requires Inv(s)
    ensures RowsInv(s)
  {
  }

  /** Exactly when a step keeps requesters and removed members out of every team. */
  lemma TeamsKeptIff(s: State, a: Action)
    requires Inv(s) && TeamsInv(s) && Enabled(s, a)
    ensures TeamsInv(Apply(s, a)) <==> !Misplaces(s, a)
  {
    var t := Apply(s, a);
    if Overtaken(s, a) {
      assert TeamPlace(s.PhaseOf(a.p).team, s.PhaseOf(a.p).id) in t.teams;
    } else if InvitesRequester(a) {
      assert TeamPlace(a.into.value, a.id) in t.teams && !Works(t, TeamPlace(a.into.value, a.id).member);
    } else {
      forall place | place in t.teams ensures Works(t, place.member) {
        if place in s.teams { assert Works(s, place.member); }
      }
    }
  }

  /** Nobody leaves REMOVED but by joining again. */
  lemma RemovedIsFinal(s: State, a: Action, id: nat)
    requires Inv(s) && Enabled(s, a) && id in s.members && s.members[id].status.REMOVED?
    ensures Apply(s, a).members[id] == s.members[id] || (a.Join? && a.id == id)
  {
    if a.Finish? { assert PhaseInv(s, s.PhaseOf(a.p)); }
  }

  // ---- What a decision may do, whoever asks ----

  predicate Privileged(role: Role) {
    role.ADMIN? || role.OWNER?
  }

  /** Only administrators and owners change anyone; an administrator never themselves, never an owner, and never anyone's privileges. */
  lemma NobodyEscalates(actor: Actor, id: nat, target: Member, owners: nat, change: Change)
    requires Decide(actor, id, target, owners, change).Write?
    ensures Privileged(actor.role)
    ensures actor.role.ADMIN? ==>
              && id != actor.id && !target.role.OWNER?
              && (change.ChangeRole? ==> !Privileged(target.role) && !Privileged(change.role))
    ensures change == ChangeRole(OWNER) ==> actor.role.OWNER? && actor.steppedUp
  {
  }

  /** A write always changes the membership it was decided on, its account and kind never, and a token's service account not at all. */
  lemma WritesChangePeople(actor: Actor, id: nat, target: Member, owners: nat, change: Change)
    requires Decide(actor, id, target, owners, change).Write? && !target.status.REMOVED?
    ensures Changed(target, change) != target && !target.kind.SERVICE_ACCOUNT?
    ensures Changed(target, change).user == target.user && Changed(target, change).kind == target.kind
  {
  }

  /** An owner with a fresh proof is refused a person's change exactly for the last owner's sake, or when there is nothing to change. */
  lemma OwnersAreRefusedIff(actor: Actor, id: nat, target: Member, owners: nat, change: Change)
    requires actor.role.OWNER? && actor.steppedUp && !target.kind.SERVICE_ACCOUNT? && !target.status.REMOVED?
    ensures Decide(actor, id, target, owners, change).Write? <==>
            && Changed(target, change) != target
            && (target.Owns() && !Changed(target, change).Owns() ==> owners > 1)
  {
  }

  /** An administrator changes a person exactly when it is neither themselves nor an owner, something changes, and no role involved is above agent. */
  lemma AdministratorsWriteIff(actor: Actor, id: nat, target: Member, owners: nat, change: Change)
    requires actor.role.ADMIN? && !target.kind.SERVICE_ACCOUNT? && !target.status.REMOVED?
    ensures Decide(actor, id, target, owners, change).Write? <==>
            && id != actor.id && target.role != OWNER && Changed(target, change) != target
            && (change.ChangeRole? ==> target.role in {REQUESTER, AGENT} && change.role in {REQUESTER, AGENT})
  {
  }

  /** Without a fresh proof an owner is refused what any owner is, and the making of another owner. */
  lemma UnprovenOwnersWriteIff(actor: Actor, id: nat, target: Member, owners: nat, change: Change)
    requires actor.role.OWNER? && !actor.steppedUp && !target.kind.SERVICE_ACCOUNT? && !target.status.REMOVED?
    ensures Decide(actor, id, target, owners, change).Write? <==>
            && change != ChangeRole(OWNER) && Changed(target, change) != target
            && (target.Owns() && !Changed(target, change).Owns() ==> owners > 1)
  {
  }

  /** Which refusal it is: permission first, then tokens' accounts, the proof, the status, and the last owner. */
  lemma RefusedBecause(actor: Actor, id: nat, target: Member, owners: nat, change: Change)
    requires !target.status.REMOVED?
    ensures var verdict := Decide(actor, id, target, owners, change);
            var touches := actor.role == OWNER ||
                           (actor.role == ADMIN && id != actor.id && target.role != OWNER && !(change.ChangeRole? && target.role == ADMIN));
            var raises := change.ChangeRole? && change.role in {ADMIN, OWNER} && actor.role != OWNER;
            var person := target.kind != SERVICE_ACCOUNT;
            && verdict != Refused(NotFound)
            && (verdict == Refused(NotPermitted) <==> !touches || (person && raises))
            && (verdict == Refused(IsServiceAccount) <==> touches && !person)
            && (touches && person && !raises ==>
                  && (verdict == Refused(StepUpRequired) <==> change == ChangeRole(OWNER) && !actor.steppedUp)
                  && (verdict == Refused(WrongStatus) <==>
                        (change == Disable && target.status != ACTIVE) || (change == Enable && target.status != DISABLED))
                  && (verdict == Nothing <==> change == ChangeRole(target.role) && (target.role == OWNER ==> actor.steppedUp))
                  && (verdict == Refused(LastOwner) <==>
                        && target.role == OWNER && target.status == ACTIVE && owners <= 1
                        && (change == Disable || change == Remove || (change.ChangeRole? && change.role != OWNER))))
  {
  }

  /** What a written change leaves, told without its parts: one row moved as asked, the seat it starts or ends, and the teams it leaves. */
  lemma WhatIsWritten(s: State, id: nat, target: Member, change: Change)
    requires id in s.members && s.members[id] == target && !target.status.REMOVED? && target.WellFormed()
    ensures var t, m := Written(s, id, target, change), Written(s, id, target, change).members[id];
            && t.members.Keys == s.members.Keys && t.limit == s.limit && t.lock == s.lock && t.phases == s.phases
            && (forall j :: j in s.members && j != id ==> t.members[j] == s.members[j])
            && m.user == target.user && m.kind == target.kind
            && m.role == (if change.ChangeRole? then change.role else target.role)
            && m.status == (match change case ChangeRole(_) => target.status case Disable => DISABLED case Enable => ACTIVE case Remove => REMOVED)
            && (forall place :: place in t.teams <==> place in s.teams && !(place.member == id && (change.Remove? || change == ChangeRole(REQUESTER))))
            && (forall u :: u in t.picker <==> u in s.picker)
            && (forall u :: u in s.picker && target.user != Some(u) ==> t.picker[u] == s.picker[u])
  {
  }

  /** A person holds a seat while active above requester; what a change does to the counter. */
  lemma SeatsWritten(s: State, id: nat, target: Member, change: Change)
    requires id in s.members && s.members[id] == target && target.WellFormed()
    ensures var t, m := Written(s, id, target, change), Written(s, id, target, change).members[id];
            var held := target.kind == HUMAN && target.status == ACTIVE && target.role != REQUESTER;
            var holds := m.kind == HUMAN && m.status == ACTIVE && m.role != REQUESTER;
            t.seats == if holds && !held then s.seats + 1 else if held && !holds && s.seats > 0 then s.seats - 1 else s.seats
  {
  }

  /** A decided write commits unless the plan has no seat left for it, or it would make an outsider more than a requester. */
  lemma CommitsUnless(s: State, id: nat, target: Member, change: Change)
    requires id in s.members && s.members[id] == target && target.WellFormed()
    ensures Commits(s, id, target, change) <==>
            && !(target.kind == EXTERNAL && change.ChangeRole? && change.role != REQUESTER)
            && !(target.kind == HUMAN && s.limit.Some? && s.seats >= s.limit.value
                 && ((change == Enable && target.status != ACTIVE && target.role != REQUESTER)
                     || (target.status == ACTIVE && target.role == REQUESTER && change.ChangeRole? && change.role != REQUESTER)))
  {
  }

  /** Who can join: someone with no other membership here, while the plan has the seat, as a new member, one removed before, or the outsider they wrote in as. */
  lemma JoinsIff(s: State, p: nat, id: nat, user: nat, role: Role, team: Option<nat>)
    requires s.PhaseOf(p).Out?
    ensures Enabled(s, Join(p, id, user, role, team)) <==>
            && (role == REQUESTER || s.limit.None? || s.seats < s.limit.value)
            && (team.None? || TeamPlace(team.value, id) !in s.teams)
            && (forall j :: j in s.members && s.members[j].user == Some(user) ==> j == id)
            && (id !in s.members || s.members[id].kind == EXTERNAL || (s.members[id].user == Some(user) && s.members[id].status == REMOVED))
  {
  }
}
