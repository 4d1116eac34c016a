// What one organization observes of the shared system is what it would observe
// on a private database: no pool, no setting, no policy and nobody else.
// Sources: packages/database/src/tenant-client.ts and packages/database/src/rls.ts.

module TenantViews {
  import opened LogOrder
  import opened TenantIsolation

  /** An organization's own rows and requests, and nothing else. */
  datatype Private = Private(rows: Rows, processes: map<nat, Process>)

  predicate Mine(y: System, org: Org, p: nat) {
    y.serves(p) == Some(org)
  }

  function ViewOf(y: System, s: State, org: Org): Private {
    Private(Visible(s.rows, Tenant(org)), map p | p in s.processes && Mine(y, org, p) :: s.processes[p])
  }

  /** The reference: the same request code over the organization's rows alone. */
  function PrivateStep(y: System, v: Private, org: Org, a: Action): Private {
    match a
    case Start(p) => v.(processes := v.processes[p := First(y, p)])
    case Starve(p) => if p in v.processes then v.(processes := v.processes[p := v.processes[p].Says(NoConnection)]) else v
    case Kill(p) => v.(processes := v.processes - {p})
    case Step(p, _) =>
      if p !in v.processes || v.processes[p].stack == [] then v
      else
        match Next(v.processes[p], y.code(p, v.processes[p].history), v.rows, Tenant(org))
        case Stay(q) => v.(processes := v.processes[p := q])
        case Open(q) => v.(processes := v.processes[p := q])
        case Close(q, commits) => Private(Overlay(v.rows, commits), v.processes[p := q])
        case Through(q, commits) => Private(Overlay(v.rows, commits), v.processes[p := q])
  }

  /**
   * Only processes that do the organization's business ever enter its scope, and they
   * enter no other's: its requests, and the platform's jobs that run as it alone.
   */
  ghost predicate Confined(y: System, org: Org) {
    && (forall p :: MayEnter(y, org, p, y.home(p)))
    && (forall p, h :: y.code(p, h).RunAs? ==> MayEnter(y, org, p, y.code(p, h).org))
  }

  predicate MayEnter(y: System, org: Org, p: nat, tenant: Option<Org>) {
    if Mine(y, org, p) then tenant.None? || tenant.value == org else tenant != Some(org)
  }

  ghost predicate ScopesConfined(y: System, s: State, org: Org) {
    forall p: nat, i: nat :: p in s.processes && i < |s.processes[p].stack| ==> MayEnter(y, org, p, s.processes[p].stack[i].tenant)
  }

  // ---- Scopes stay confined ----

  lemma NextTenants(p: Process, cmd: Command, see: Rows, setting: Setting, i: nat)
    requires p.Sound() && i < |Next(p, cmd, see, setting).process.stack|
    ensures var f := Next(p, cmd, see, setting).process.stack[i];
            || (exists j: nat :: j < |p.stack| && f.tenant == p.stack[j].tenant)
            || (cmd.RunAs? && f.tenant == cmd.org)
  {
    hide Execute;
    var q := Next(p, cmd, see, setting).process;
    if i < |p.stack| {
      assert q.stack[i].tenant == p.stack[i].tenant;
    } else if !cmd.RunAs? {
      assert q.stack[i].tenant == p.stack[|p.stack| - 1].tenant;
    }
  }

  lemma ScopesStayConfined(y: System, s: State, org: Org, a: Action)
    requires Confined(y, org) && Inv(s) && ScopesConfined(y, s, org) && Enabled(y, s, a)
    ensures ScopesConfined(y, Apply(y, s, a), org)
  {
    hide PoolInv, Next;
    var t := Apply(y, s, a);
    forall p: nat, i: nat | p in t.processes && i < |t.processes[p].stack|
      ensures MayEnter(y, org, p, t.processes[p].stack[i].tenant)
    {
      if a.Step? && p == a.p {
        var setting := SettingOf(y, s, a);
        assert t.processes[p] == MoveOf(y, s, a).process || t.processes[p] == s.processes[p];
        if t.processes[p] != s.processes[p] {
          NextTenants(s.processes[p], y.code(p, s.processes[p].history), Visible(s.rows, setting), setting, i);
        }
      }
    }
  }

  // ---- One step ----

  lemma VisibleCommits(rows: Rows, commits: Writes, org: Org)
    ensures Within(commits.Keys, org) ==>
              Visible(Overlay(rows, commits), Tenant(org)) == Overlay(Visible(rows, Tenant(org)), commits)
    ensures (forall k :: k in commits ==> k.org != org) ==>
              Visible(Overlay(rows, commits), Tenant(org)) == Visible(rows, Tenant(org))
  {
  }

  /** A step that runs no statement does not depend on the database. */
  lemma WithoutAStatement(p: Process, cmd: Command, see: Rows, setting: Setting, see': Rows, setting': Setting)
    requires p.Sound() && RunsOn(p, cmd).None?
    ensures Next(p, cmd, see, setting) == Next(p, cmd, see', setting')
  {
    assert p.SoundFrame(|p.stack| - 1);
  }

  /** A request of the organization moves as it would on the private database. */
  lemma MovesAlike(y: System, s: State, org: Org, a: Action)
    requires Inv(s) && ScopesConfined(y, s, org) && Enabled(y, s, a) && a.Step? && Mine(y, org, a.p)
    ensures MoveOf(y, s, a) ==
            Next(s.processes[a.p], y.code(a.p, s.processes[a.p].history), Visible(s.rows, Tenant(org)), Tenant(org))
  {
    hide PoolInv, Next;
    var p := s.processes[a.p];
    var cmd := y.code(a.p, p.history);
    if RunsOn(p, cmd).Some? {
      StatementsRunAtHome(y, s, a);
      assert MayEnter(y, org, a.p, p.stack[|p.stack| - 1].tenant);
    } else {
      var setting := SettingOf(y, s, a);
      WithoutAStatement(p, cmd, Visible(s.rows, setting), setting, Visible(s.rows, Tenant(org)), Tenant(org));
    }
  }

  /** What a step commits is its own scope's, so another organization's rows stand. */
  lemma CommitsAtHome(y: System, s: State, org: Org, a: Action)
    requires Inv(s) && ScopesConfined(y, s, org) && Enabled(y, s, a) && a.Step? && MoveOf(y, s, a).Close?
    ensures var commits := MoveOf(y, s, a).commits;
            if Mine(y, org, a.p) then Within(commits.Keys, org) else forall k :: k in commits ==> k.org != org
  {
    hide PoolInv, MoveOf;
    MovesAreShaped(y, s, a);
    var p := s.processes[a.p];
    assert MayEnter(y, org, a.p, p.stack[|p.stack| - 1].tenant);
  }

  /** What a step does to the rows and requests, whatever becomes of the connections. */
  lemma StepEffect(y: System, s: State, a: Action)
    requires Inv(s) && Enabled(y, s, a) && a.Step?
    ensures var m := MoveOf(y, s, a);
            && Apply(y, s, a).rows == (if m.Close? then Overlay(s.rows, m.commits) else s.rows)
            && Apply(y, s, a).processes == s.processes[a.p := m.process]
  {
    hide PoolInv, MoveOf, Overlay;
    NothingPassesThrough(y, s, a);
    if MoveOf(y, s, a).Open? { OpensNeedConnections(y, s, a); }
  }

  lemma OwnStepIsPrivate(y: System, s: State, org: Org, a: Action)
    requires Inv(s) && ScopesConfined(y, s, org) && Enabled(y, s, a) && Mine(y, org, a.p)
    ensures ViewOf(y, Apply(y, s, a), org) == PrivateStep(y, ViewOf(y, s, org), org, a)
  {
    hide PoolInv, MoveOf, Next, Apply, Overlay, Visible;
    if a.Step? {
      MovesAlike(y, s, org, a);
      StepEffect(y, s, a);
      NothingPassesThrough(y, s, a);
      var m := MoveOf(y, s, a);
      if m.Close? {
        CommitsAtHome(y, s, org, a);
        VisibleCommits(s.rows, m.commits, org);
      }
      var v, w := ViewOf(y, Apply(y, s, a), org), PrivateStep(y, ViewOf(y, s, org), org, a);
      assert v.processes == w.processes;
    } else {
      LifeEffect(y, s, org, a);
    }
  }

  lemma LifeEffect(y: System, s: State, org: Org, a: Action)
    requires Enabled(y, s, a) && !a.Step?
    ensures Mine(y, org, a.p) ==> ViewOf(y, Apply(y, s, a), org) == PrivateStep(y, ViewOf(y, s, org), org, a)
    ensures !Mine(y, org, a.p) ==> ViewOf(y, Apply(y, s, a), org) == ViewOf(y, s, org)
  {
  }

  /** Nothing another organization's request does is visible. */
  lemma OthersStepIsInvisible(y: System, s: State, org: Org, a: Action)
    requires Inv(s) && ScopesConfined(y, s, org) && Enabled(y, s, a) && !Mine(y, org, a.p)
    ensures ViewOf(y, Apply(y, s, a), org) == ViewOf(y, s, org)
  {
    hide PoolInv, MoveOf, Next, Apply, Overlay, Visible;
    if a.Step? {
      StepEffect(y, s, a);
      var m := MoveOf(y, s, a);
      if m.Close? {
        CommitsAtHome(y, s, org, a);
        VisibleCommits(s.rows, m.commits, org);
      }
      assert ViewOf(y, Apply(y, s, a), org).processes == ViewOf(y, s, org).processes;
    } else {
      LifeEffect(y, s, org, a);
    }
  }

  // ---- Whole runs ----

  ghost predicate Runs(y: System, s: State, acts: seq<Action>)
    decreases |acts|, 0
  {
    acts == [] ||
    (Runs(y, s, acts[..|acts| - 1]) && Enabled(y, After(y, s, acts[..|acts| - 1]), acts[|acts| - 1]))
  }

  ghost function After(y: System, s: State, acts: seq<Action>): State
    requires Runs(y, s, acts)
    decreases |acts|, 1
  {
    if acts == [] then s else Apply(y, After(y, s, acts[..|acts| - 1]), acts[|acts| - 1])
  }

  /** The organization's own part of a run, whichever connections it was given. */
  ghost function Own(y: System, org: Org, acts: seq<Action>): seq<Action> {
    if acts == [] then []
    else
      var last := acts[|acts| - 1];
      Own(y, org, acts[..|acts| - 1]) +
      if Mine(y, org, last.p) then [if last.Step? then Step(last.p, 0) else last] else []
  }

  ghost function PrivateRun(y: System, v: Private, org: Org, acts: seq<Action>): Private {
    if acts == [] then v
    else PrivateStep(y, PrivateRun(y, v, org, acts[..|acts| - 1]), org, acts[|acts| - 1])
  }

  lemma {:induction false} EveryRunIsClean(y: System, rows: Rows, pool: set<nat>, acts: seq<Action>)
    requires Runs(y, Init(rows, pool), acts)
    ensures Inv(After(y, Init(rows, pool), acts))
    decreases |acts|
  {
    hide Apply, Enabled;
    if acts != [] {
      EveryRunIsClean(y, rows, pool, acts[..|acts| - 1]);
      InvStays(y, After(y, Init(rows, pool), acts[..|acts| - 1]), acts[|acts| - 1]);
    }
  }

  /** Along a run, what the organization sees is its private database after its own steps alone. */
  lemma {:induction false} RunsRefineThePrivateDatabase(y: System, org: Org, rows: Rows, pool: set<nat>, acts: seq<Action>)
    requires Confined(y, org) && Runs(y, Init(rows, pool), acts)
    ensures ScopesConfined(y, After(y, Init(rows, pool), acts), org)
    ensures ViewOf(y, After(y, Init(rows, pool), acts), org) ==
            PrivateRun(y, Private(Visible(rows, Tenant(org)), map[]), org, Own(y, org, acts))
    decreases |acts|
  {
    hide Apply, Enabled, Inv, Confined, ScopesConfined, ViewOf, PrivateStep;
    var s0, v0 := Init(rows, pool), Private(Visible(rows, Tenant(org)), map[]);
    if acts == [] {
      StartsPrivate(y, org, rows, pool);
    } else {
      var before, a := acts[..|acts| - 1], acts[|acts| - 1];
      var s := After(y, s0, before);
      RunsRefineThePrivateDatabase(y, org, rows, pool, before);
      EveryRunIsClean(y, rows, pool, before);
      ScopesStayConfined(y, s, org, a);
      if Mine(y, org, a.p) {
        OwnStepIsPrivate(y, s, org, a);
        var b := if a.Step? then Step(a.p, 0) else a;
        ConnectionsDoNotMatter(y, ViewOf(y, s, org), org, a);
        assert Own(y, org, acts) == Own(y, org, before) + [b];
        assert (Own(y, org, before) + [b])[..|Own(y, org, before)|] == Own(y, org, before);
      } else {
        OthersStepIsInvisible(y, s, org, a);
        assert Own(y, org, acts) == Own(y, org, before);
      }
    }
  }

  lemma StartsPrivate(y: System, org: Org, rows: Rows, pool: set<nat>)
    ensures ScopesConfined(y, Init(rows, pool), org)
    ensures ViewOf(y, Init(rows, pool), org) == Private(Visible(rows, Tenant(org)), map[])
  {
  }

  lemma ConnectionsDoNotMatter(y: System, v: Private, org: Org, a: Action)
    ensures PrivateStep(y, v, org, a) == PrivateStep(y, v, org, if a.Step? then Step(a.p, 0) else a)
  {
  }

  /** Two systems run the same code for the organization's processes. */
  ghost predicate SameCode(y: System, y': System, org: Org) {
    forall p ::
      && (Mine(y, org, p) <==> Mine(y', org, p))
      && (Mine(y, org, p) ==> y.home(p) == y'.home(p) && forall h :: y.code(p, h) == y'.code(p, h))
  }

  lemma {:induction false} SameCodeSamePrivateRun(y: System, y': System, v: Private, org: Org, acts: seq<Action>)
    requires SameCode(y, y', org) && forall i :: 0 <= i < |acts| ==> Mine(y, org, acts[i].p)
    ensures PrivateRun(y, v, org, acts) == PrivateRun(y', v, org, acts)
  {
    hide Next;
    if acts != [] {
      SameCodeSamePrivateRun(y, y', v, org, acts[..|acts| - 1]);
      assert Mine(y, org, acts[|acts| - 1].p) && Mine(y', org, acts[|acts| - 1].p);
    }
  }

  lemma {:induction false} OwnIsMine(y: System, org: Org, acts: seq<Action>)
    ensures forall i :: 0 <= i < |Own(y, org, acts)| ==> Mine(y, org, Own(y, org, acts)[i].p)
  {
    if acts != [] { OwnIsMine(y, org, acts[..|acts| - 1]); }
  }

  /**
   * Noninterference: two systems that agree on the organization's rows and on its
   * requests' code, and in which those requests take the same steps, give them the
   * same answers and leave the organization the same rows, whatever the others
   * hold, run and do, and whichever pooled connections anyone is given.
   */
  lemma OrganizationsDoNotInterfere(y: System, y': System, org: Org, rows: Rows, rows': Rows, pool: set<nat>, pool': set<nat>,
                                    acts: seq<Action>, acts': seq<Action>)
    requires Confined(y, org) && Confined(y', org) && SameCode(y, y', org)
    requires Runs(y, Init(rows, pool), acts) && Runs(y', Init(rows', pool'), acts')
    requires Visible(rows, Tenant(org)) == Visible(rows', Tenant(org)) && Own(y, org, acts) == Own(y', org, acts')
    ensures var s, s' := After(y, Init(rows, pool), acts), After(y', Init(rows', pool'), acts');
            && (forall k: Key :: k.org == org ==> (k in s.rows <==> k in s'.rows) && (k in s.rows ==> s.rows[k] == s'.rows[k]))
            && (forall p :: Mine(y, org, p) && p in s.processes ==> p in s'.processes && s.processes[p].history == s'.processes[p].history)
  {
    hide Apply, Enabled, Confined, SameCode;
    var v := Private(Visible(rows, Tenant(org)), map[]);
    RunsRefineThePrivateDatabase(y, org, rows, pool, acts);
    RunsRefineThePrivateDatabase(y', org, rows', pool', acts');
    OwnIsMine(y, org, acts);
    SameCodeSamePrivateRun(y, y', v, org, Own(y, org, acts));
    SameHomes(y, y', org);
    SameView(y, y', org, After(y, Init(rows, pool), acts), After(y', Init(rows', pool'), acts'));
  }

  lemma SameHomes(y: System, y': System, org: Org)
    requires SameCode(y, y', org)
    ensures forall p :: Mine(y, org, p) <==> Mine(y', org, p)
  {
  }

  lemma SameView(y: System, y': System, org: Org, s: State, t: State)
    requires ViewOf(y, s, org) == ViewOf(y', t, org) && forall p :: Mine(y, org, p) <==> Mine(y', org, p)
    ensures forall k: Key :: k.org == org ==> (k in s.rows <==> k in t.rows) && (k in s.rows ==> s.rows[k] == t.rows[k])
    ensures forall p :: Mine(y, org, p) && p in s.processes ==> p in t.processes && s.processes[p] == t.processes[p]
  {
    forall k: Key | k.org == org ensures (k in s.rows <==> k in t.rows) && (k in s.rows ==> s.rows[k] == t.rows[k]) {
      assert k in Visible(s.rows, Tenant(org)) <==> k in Visible(t.rows, Tenant(org));
      assert k in s.rows ==> Visible(s.rows, Tenant(org))[k] == Visible(t.rows, Tenant(org))[k];
    }
    forall p | Mine(y, org, p) && p in s.processes ensures p in t.processes && s.processes[p] == t.processes[p] {
      assert p in ViewOf(y, s, org).processes;
      assert ViewOf(y, s, org).processes[p] == ViewOf(y', t, org).processes[p];
    }
  }
}
