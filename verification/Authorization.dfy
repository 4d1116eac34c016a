// Who may read a ticket, asked three ways: by the list's filter, by opening the
// ticket, and for someone about to be told of it.
// Sources: apps/api/src/authz/permission.service.ts,
// apps/api/src/authz/scope-filter.ts, apps/api/src/notifications/audience.ts,
// apps/api/src/tickets/ticket-access.ts and packages/contracts/src/permissions.ts.

module Authorization {
  import opened LogOrder
  import Members

  type Role = Members.Role

  datatype TokenScope = TicketsRead | TicketsWrite | CommentsInternal | AssetsRead | AssetsWrite | KbRead | WebhooksWrite

  /** `Outside` is everyone with no tenant: an identity, a platform administrator, nobody. */
  datatype Actor =
    | MemberActor(id: nat, role: Role, teams: seq<nat>)
    | Service(id: nat, role: Role, scopes: set<TokenScope>)
    | Support(id: nat)
    | External(id: nat)
    | Outside
  {
    function RoleOf(): Role
      requires !Outside?
    {
      match this
      case MemberActor(_, r, _) => r
      case Service(_, r, _) => r
      case Support(_) => Members.ADMIN
      case External(_) => Members.REQUESTER
    }
  }

  datatype Visibility = ALL_TICKETS | OWN_TEAM_ONLY

  datatype Permission = TicketRead | CommentReadInternal

  datatype Condition = Own | Watch | InScope

  datatype Grant = Always | Never | AnyOf(conditions: seq<Condition>)

  /** The two rows of the matrix that decide reading. */
  function GrantFor(role: Role, permission: Permission): Grant {
    if role == Members.ADMIN || role == Members.OWNER then Always
    else
      match permission
      case TicketRead => if role == Members.AGENT then AnyOf([InScope, Own]) else AnyOf([Own, Watch])
      case CommentReadInternal => if role == Members.AGENT then AnyOf([InScope]) else Never
  }

  function ScopeGrants(scope: TokenScope): set<Permission> {
    match scope
    case TicketsRead => {TicketRead}
    case CommentsInternal => {CommentReadInternal}
    case _ => {}
  }

  /** What a decision knows of the ticket. */
  datatype Subject = Subject(own: bool, watch: bool, scope: bool)

  predicate Holds(c: Condition, s: Subject) {
    match c
    case Own => s.own
    case Watch => s.watch
    case InScope => s.scope
  }

  /** Tokens narrow their role, support only reads, and an outsider reads tickets and nothing internal. */
  predicate KindAllows(actor: Actor, permission: Permission) {
    match actor
    case Outside => false
    case Service(_, _, scopes) => exists scope :: scope in scopes && permission in ScopeGrants(scope)
    case External(_) => permission.TicketRead?
    case _ => true
  }

  predicate Can(actor: Actor, permission: Permission, s: Subject) {
    KindAllows(actor, permission) &&
    match GrantFor(actor.RoleOf(), permission)
    case Always => true
    case Never => false
    case AnyOf(conditions) => exists c :: c in conditions && Holds(c, s)
  }

  // ---- Scopes ----

  datatype Branch = Teams(teams: seq<nat>) | NoTeam | Assignee(id: nat) | Requester(id: nat) | Watcher(id: nat)

  datatype Filter = All | None_ | Any(branches: seq<Branch>)

  function TeamBranch(actor: Actor): seq<Branch> {
    if actor.MemberActor? && actor.teams != [] then [Teams(actor.teams)] else []
  }

  function ScopeFor(actor: Actor, visibility: Visibility): Filter {
    if actor.Outside? || !Can(actor, TicketRead, Subject(true, true, true)) then None_
    else if actor.RoleOf() == Members.OWNER || actor.RoleOf() == Members.ADMIN then All
    else if actor.RoleOf() == Members.REQUESTER then Any([Requester(actor.id), Watcher(actor.id)])
    else if visibility.ALL_TICKETS? then All
    else Any(TeamBranch(actor) + [NoTeam, Assignee(actor.id), Requester(actor.id), Watcher(actor.id)])
  }

  datatype Ticket = Ticket(team: Option<nat>, assignee: Option<nat>, requester: nat, watchers: set<nat>)

  /** One branch as the list's query: `team IN`, `IS NULL`, equality, a watcher row. */
  predicate Selects(branch: Branch, t: Ticket) {
    match branch
    case Teams(teams) => t.team.Some? && t.team.value in teams
    case NoTeam => t.team.None?
    case Assignee(id) => t.assignee == Some(id)
    case Requester(id) => t.requester == id
    case Watcher(id) => id in t.watchers
  }

  /** The union of the branches' queries. */
  predicate Listed(filter: Filter, t: Ticket) {
    match filter
    case All => true
    case None_ => false
    case Any(branches) => exists b :: b in branches && Selects(b, t)
  }

  /** The same branches in memory: being the requester is `own`, never `scope`. */
  predicate SelectsInMemory(branch: Branch, t: Ticket, watch: bool) {
    match branch
    case Teams(teams) => t.team.Some? && t.team.value in teams
    case NoTeam => t.team.None?
    case Assignee(id) => t.assignee == Some(id)
    case Requester(_) => false
    case Watcher(_) => watch
  }

  predicate TicketInScope(filter: Filter, t: Ticket, watch: bool) {
    match filter
    case All => true
    case None_ => false
    case Any(branches) => exists b :: b in branches && SelectsInMemory(b, t, watch)
  }

  /** The subject `TicketAccess` and the audience build of a ticket. */
  function SubjectOf(actor: Actor, t: Ticket, visibility: Visibility): Subject
    requires !actor.Outside?
  {
    var own := t.requester == actor.id;
    var watch := !own && actor.id in t.watchers;
    Subject(own, watch, TicketInScope(ScopeFor(actor, visibility), t, watch))
  }

  predicate MayOpen(actor: Actor, t: Ticket, visibility: Visibility) {
    !actor.Outside? && Can(actor, TicketRead, SubjectOf(actor, t, visibility))
  }

  // ---- Listing and opening ----

  lemma OneOf(a: seq<Branch>, b: seq<Branch>, t: Ticket)
    ensures Listed(Any(a + b), t) <==> Listed(Any(a), t) || Listed(Any(b), t)
  {
    forall x ensures x in a + b <==> x in a || x in b {}
  }

  lemma OneOfInMemory(a: seq<Branch>, b: seq<Branch>, t: Ticket, watch: bool)
    ensures TicketInScope(Any(a + b), t, watch) <==> TicketInScope(Any(a), t, watch) || TicketInScope(Any(b), t, watch)
  {
    forall x ensures x in a + b <==> x in a || x in b {}
  }

  predicate InTeams(actor: Actor, t: Ticket) {
    actor.MemberActor? && t.team.Some? && t.team.value in actor.teams
  }

  /** An own-team agent's filter, spelled out. */
  lemma AgentBranches(actor: Actor, t: Ticket, watch: bool)
    requires !actor.Outside?
    ensures var id := actor.id; var branches := TeamBranch(actor) + [NoTeam, Assignee(id), Requester(id), Watcher(id)];
            && (Listed(Any(branches), t) <==>
                  InTeams(actor, t) || t.team.None? || t.assignee == Some(id) || t.requester == id || id in t.watchers)
            && (TicketInScope(Any(branches), t, watch) <==> InTeams(actor, t) || t.team.None? || t.assignee == Some(id) || watch)
  {
    var id := actor.id;
    var rest := [NoTeam, Assignee(id), Requester(id), Watcher(id)];
    assert NoTeam in rest && Assignee(id) in rest && Requester(id) in rest && Watcher(id) in rest;
    OneOf(TeamBranch(actor), rest, t);
    OneOfInMemory(TeamBranch(actor), rest, t, watch);
    assert InTeams(actor, t) ==> Teams(actor.teams) in TeamBranch(actor);
  }

  lemma AgentCan(actor: Actor, s: Subject)
    requires !actor.Outside? && actor.RoleOf() == Members.AGENT
    ensures Can(actor, TicketRead, s) <==> KindAllows(actor, TicketRead) && (s.scope || s.own)
  {
    assert InScope in [InScope, Own] && Own in [InScope, Own];
  }

  lemma RequesterCan(actor: Actor, s: Subject)
    requires !actor.Outside? && actor.RoleOf() == Members.REQUESTER
    ensures Can(actor, TicketRead, s) <==> KindAllows(actor, TicketRead) && (s.own || s.watch)
  {
    assert Own in [Own, Watch] && Watch in [Own, Watch];
  }

  lemma RequesterBranches(id: nat, t: Ticket)
    ensures Listed(Any([Requester(id), Watcher(id)]), t) <==> t.requester == id || id in t.watchers
  {
    assert Requester(id) in [Requester(id), Watcher(id)] && Watcher(id) in [Requester(id), Watcher(id)];
  }

  /** A ticket is in an actor's list exactly when the actor can open it. */
  lemma ListingAgreesWithOpening(actor: Actor, t: Ticket, visibility: Visibility)
    ensures Listed(ScopeFor(actor, visibility), t) <==> MayOpen(actor, t, visibility)
  {
    if !actor.Outside? {
      var s, full := SubjectOf(actor, t, visibility), Subject(true, true, true);
      if actor.RoleOf() == Members.AGENT {
        AgentCan(actor, s);
        AgentCan(actor, full);
        AgentBranches(actor, t, s.watch);
      } else if actor.RoleOf() == Members.REQUESTER {
        RequesterCan(actor, s);
        RequesterCan(actor, full);
        RequesterBranches(actor.id, t);
      }
    }
  }

  /** What a role opens: administrators and owners everything, a requester what is theirs or watched, an agent what the workspace shows agents. */
  predicate Opens(id: nat, role: Role, teams: seq<nat>, t: Ticket, visibility: Visibility) {
    || role == Members.ADMIN || role == Members.OWNER
    || t.requester == id || id in t.watchers
    || (role == Members.AGENT && (visibility.ALL_TICKETS? || t.team.None? || t.team.value in teams || t.assignee == Some(id)))
  }

  /** Who may open a ticket, kind by kind: a token in no team and only with the scope for it, support everything, an outsider as a requester, nobody without a tenant. */
  lemma WhoMayOpen(actor: Actor, t: Ticket, visibility: Visibility)
    ensures MayOpen(actor, t, visibility) <==>
            match actor
            case MemberActor(id, role, teams) => Opens(id, role, teams, t, visibility)
            case Service(id, role, scopes) => TicketsRead in scopes && Opens(id, role, [], t, visibility)
            case Support(_) => true
            case External(id) => t.requester == id || id in t.watchers
            case Outside => false
  {
    ListingAgreesWithOpening(actor, t, visibility);
    if !actor.Outside? {
      var s, full := SubjectOf(actor, t, visibility), Subject(true, true, true);
      assert KindAllows(actor, TicketRead) <==> (actor.Service? ==> TicketsRead in actor.scopes);
      if actor.RoleOf() == Members.AGENT {
        AgentCan(actor, full);
        AgentBranches(actor, t, s.watch);
      } else if actor.RoleOf() == Members.REQUESTER {
        RequesterCan(actor, full);
        RequesterBranches(actor.id, t);
      }
    }
  }

  /**
   * Why the requester branch is false in memory: of what an own-team agent may
   * list, exactly the tickets that are only their own to read are out of scope,
   * and so not theirs to work on.
   */
  lemma ListedButOutOfScope(actor: Actor, t: Ticket)
    requires !actor.Outside? && actor.RoleOf() == Members.AGENT && KindAllows(actor, TicketRead)
    ensures var s := SubjectOf(actor, t, OWN_TEAM_ONLY);
            Listed(ScopeFor(actor, OWN_TEAM_ONLY), t) && !s.scope <==>
            t.requester == actor.id && t.team.Some? && !InTeams(actor, t) && t.assignee != Some(actor.id)
  {
    var s := SubjectOf(actor, t, OWN_TEAM_ONLY);
    AgentCan(actor, Subject(true, true, true));
    AgentBranches(actor, t, s.watch);
  }

  // ---- Someone about to be told ----

  /** A member as authorization sees them; one with no account is an outsider, whatever role the row says. */
  datatype Reader = Reader(id: nat, hasAccount: bool, role: Role, teams: seq<nat>)

  function ActorOf(r: Reader): (a: Actor)
    ensures !a.Outside? && a.id == r.id
  {
    if r.hasAccount then MemberActor(r.id, r.role, r.teams) else External(r.id)
  }

  predicate MayRead(r: Reader, t: Ticket, visibility: Visibility, internal: bool) {
    var actor := ActorOf(r);
    var s := SubjectOf(actor, t, visibility);
    Can(actor, TicketRead, s) && (!internal || Can(actor, CommentReadInternal, s))
  }

  /** Told of a ticket, able to open it and finding it in the list are one decision. */
  lemma ToldIsListed(r: Reader, t: Ticket, visibility: Visibility)
    ensures MayRead(r, t, visibility, false) <==> Listed(ScopeFor(ActorOf(r), visibility), t)
  {
    ListingAgreesWithOpening(ActorOf(r), t, visibility);
  }

  /** Internal notes are for administrators, owners, and agents in whose scope the ticket is; never for outsiders or requesters. */
  lemma InternalReaders(r: Reader, t: Ticket, visibility: Visibility)
    ensures MayRead(r, t, visibility, true) <==>
            r.hasAccount &&
            (r.role == Members.ADMIN || r.role == Members.OWNER || (r.role == Members.AGENT && InternalScope(r, t, visibility)))
  {
    var actor := ActorOf(r);
    var s := SubjectOf(actor, t, visibility);
    if r.hasAccount && r.role == Members.AGENT {
      AgentCan(actor, s);
      AgentCan(actor, Subject(true, true, true));
      AgentBranches(actor, t, s.watch);
      assert InScope in [InScope];
    }
  }

  /** Everything, or: their team's, nobody's, assigned to them, or watched and not their own. */
  predicate InternalScope(r: Reader, t: Ticket, visibility: Visibility) {
    visibility.ALL_TICKETS? || t.team.None? || t.team.value in r.teams || t.assignee == Some(r.id) ||
    (t.requester != r.id && r.id in t.watchers)
  }
}
