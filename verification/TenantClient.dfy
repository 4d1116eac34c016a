// The tenant client as its callers use it: a query in a transaction of its own
// or in the open one, raw SQL, an interactive transaction and its end, with every
// other request's statements free to run in between.
// Sources: packages/database/src/tenant-client.ts and
// apps/api/src/prisma/prisma.service.ts.

module TenantClient {
  import opened LogOrder
  import opened TenantIsolation
  import opened TenantViews

  ghost predicate ByOthers(acts: seq<Action>, me: nat) {
    forall i :: 0 <= i < |acts| ==> acts[i].p != me
  }

  /** Where a request is, and which connections its transactions hold. */
  ghost predicate SameFor(s: State, t: State, me: nat) {
    && (me in s.processes <==> me in t.processes)
    && (me in s.processes ==> t.processes[me] == s.processes[me])
  }

  lemma OneLeavesMe(y: System, s: State, a: Action, me: nat)
    requires Inv(s) && Enabled(y, s, a) && a.p != me
    ensures SameFor(s, Apply(y, s, a), me)
  {
    hide PoolInv, MoveOf;
    if a.Step? { StepEffect(y, s, a); }
  }

  lemma {:induction false} OthersLeaveMe(y: System, rows: Rows, pool: set<nat>, acts: seq<Action>, more: seq<Action>, me: nat)
    requires Runs(y, Init(rows, pool), acts) && Runs(y, Init(rows, pool), acts + more) && ByOthers(more, me)
    ensures SameFor(After(y, Init(rows, pool), acts), After(y, Init(rows, pool), acts + more), me)
    decreases |more|
  {
    hide Apply, Enabled, Inv;
    if more == [] {
      assert acts + more == acts;
    } else {
      var less := more[..|more| - 1];
      assert (acts + more)[..|acts + more| - 1] == acts + less;
      OthersLeaveMe(y, rows, pool, acts, less, me);
      EveryRunIsClean(y, rows, pool, acts + less);
      OneLeavesMe(y, After(y, Init(rows, pool), acts + less), more[|more| - 1], me);
    }
  }

  lemma RunsExtend(y: System, s: State, acts: seq<Action>, a: Action)
    requires Runs(y, s, acts) && Enabled(y, After(y, s, acts), a)
    ensures Runs(y, s, acts + [a]) && After(y, s, acts + [a]) == Apply(y, After(y, s, acts), a)
  {
    assert (acts + [a])[..|acts|] == acts;
  }

  /** What one process did, in order. */
  ghost function OwnActions(acts: seq<Action>, p: nat): seq<Action> {
    if acts == [] then []
    else
      var last := acts[|acts| - 1];
      OwnActions(acts[..|acts| - 1], p) + if last.p == p then [last] else []
  }

  lemma OwnActionsExtend(acts: seq<Action>, a: Action)
    ensures forall p: nat :: OwnActions(acts + [a], p) == OwnActions(acts, p) + if a.p == p then [a] else []
  {
    assert (acts + [a])[..|acts|] == acts;
  }

  lemma {:induction false} OthersDoNothingOfMine(acts: seq<Action>, more: seq<Action>, me: nat)
    requires ByOthers(more, me)
    ensures OwnActions(acts + more, me) == OwnActions(acts, me)
  {
    if more == [] {
      assert acts + more == acts;
    } else {
      var less := more[..|more| - 1];
      assert (acts + more)[..|acts + more| - 1] == acts + less;
      OthersDoNothingOfMine(acts, less, me);
    }
  }

  ghost predicate Reaches(y: System, rows: Rows, pool: set<nat>, acts: seq<Action>, s: State) {
    Runs(y, Init(rows, pool), acts) && s == After(y, Init(rows, pool), acts)
  }

  /** The run took the action that is `p`'s own number `n`, from the state `s`. */
  ghost predicate Took(y: System, rows: Rows, pool: set<nat>, acts: seq<Action>, p: nat, n: nat, s: State) {
    exists pre, a :: Reaches(y, rows, pool, pre, s) && pre + [a] <= acts && a.p == p && |OwnActions(pre, p)| == n
  }

  lemma TookStays(y: System, rows: Rows, pool: set<nat>, acts: seq<Action>, more: seq<Action>)
    requires acts <= more
    ensures forall p, n, s :: Took(y, rows, pool, acts, p, n, s) ==> Took(y, rows, pool, more, p, n, s)
  {
    forall p, n, s | Took(y, rows, pool, acts, p, n, s) ensures Took(y, rows, pool, more, p, n, s) {
      var pre, a :| Reaches(y, rows, pool, pre, s) && pre + [a] <= acts && a.p == p && |OwnActions(pre, p)| == n;
      assert pre + [a] <= more;
    }
  }

  lemma TookNow(y: System, rows: Rows, pool: set<nat>, acts: seq<Action>, a: Action, s: State)
    requires Reaches(y, rows, pool, acts, s)
    ensures Took(y, rows, pool, acts + [a], a.p, |OwnActions(acts, a.p)|, s)
  {
    assert acts + [a] <= acts + [a] && a.p == a.p;
  }

  class Database {
    const y: System
    ghost const rows: Rows
    ghost const pool: set<nat>
    var state: State
    ghost var trace: seq<Action>

    ghost predicate Valid()
      reads this
    {
      Runs(y, Init(rows, pool), trace) && state == After(y, Init(rows, pool), trace)
    }

    lemma Clean()
      requires Valid()
      ensures Inv(state)
    {
      EveryRunIsClean(y, rows, pool, trace);
    }

    constructor (y: System, rows: Rows, pool: set<nat>)
      ensures Valid() && trace == [] && this.y == y && state == Init(rows, pool)
    {
      this.y, this.rows, this.pool := y, rows, pool;
      state, trace := Init(rows, pool), [];
    }

    /** Any number of actions by anyone but `me`; callers may rely on no more than that. */
    method Interfere(ghost me: nat)
      requires Valid()
      modifies this
      ensures Valid()
      ensures exists more :: ByOthers(more, me) && trace == old(trace) + more
    {
      assert ByOthers([], me) && trace == old(trace) + [];
    }

    /** What `p` has done in this run. */
    ghost function Did(p: nat): seq<Action>
      reads this
    {
      OwnActions(trace, p)
    }

    /** The state from which this run took `p`'s own action number `n`. */
    ghost predicate DidFrom(p: nat, n: nat, s: State)
      reads this
    {
      Took(y, rows, pool, trace, p, n, s)
    }

    method Pause(ghost me: nat)
      requires Valid()
      modifies this
      ensures Valid() && Inv(state) && SameFor(old(state), state, me)
      ensures Did(me) == old(Did(me))
      ensures forall p, n, s :: old(DidFrom(p, n, s)) ==> DidFrom(p, n, s)
    {
      hide Runs, After, Inv, OwnActions, Took;
      Interfere(me);
      ghost var more :| ByOthers(more, me) && trace == old(trace) + more;
      OthersLeaveMe(y, rows, pool, old(trace), more, me);
      OthersDoNothingOfMine(old(trace), more, me);
      TookStays(y, rows, pool, old(trace), trace);
      Clean();
    }

    method Act(a: Action)
      requires Valid() && Enabled(y, state, a)
      modifies this
      ensures Valid() && Inv(state) && state == Apply(y, old(state), a)
      ensures Did(a.p) == old(Did(a.p)) + [a]
      ensures forall p, n, s :: old(DidFrom(p, n, s)) ==> DidFrom(p, n, s)
      ensures DidFrom(a.p, |old(Did(a.p))|, old(state))
    {
      hide Apply, Enabled, Inv, OwnActions, Took;
      OwnActionsExtend(trace, a);
      TookStays(y, rows, pool, trace, trace + [a]);
      TookNow(y, rows, pool, trace, a, state);
      RunsExtend(y, Init(rows, pool), trace, a);
      state := Apply(y, state, a);
      trace := trace + [a];
      Clean();
    }
  }

  // ---- What each step does, as its caller needs it ----

  function CommandOf(y: System, s: State, p: nat): Command
    requires p in s.processes
  {
    y.code(p, s.processes[p].history)
  }

  /** The transaction of its own that a query gets: opened, not yet run. */
  lemma BatchOpens(y: System, s: State, p: nat, c: nat, org: Org)
    requires Inv(s) && p in s.processes && CommandOf(y, s, p).Query? && NeedsConnection(s.processes[p], CommandOf(y, s, p))
    requires s.processes[p].Top().tenant == Some(org) && c in s.pool && s.pool[c].Pooled?
    ensures Enabled(y, s, Step(p, c))
    ensures Apply(y, s, Step(p, c)).rows == s.rows && p in Apply(y, s, Step(p, c)).processes
    ensures var f := Frame(Some(org), true, Opened(map[], false, Waiting), Some(|s.processes[p].stack|));
            Apply(y, s, Step(p, c)).processes[p] == s.processes[p].Push(f)
  {
    hide PoolInv;
    StepEffect(y, s, Step(p, c));
    assert s.processes[p].SoundFrame(|s.processes[p].stack| - 1);
  }

  /** The query runs under its own organization's setting, on no row but its organization's. */
  lemma BatchRuns(y: System, s: State, p: nat, org: Org, before: Process)
    requires Inv(s) && p in s.processes && y.code(p, before.history).Query?
    requires s.processes[p] == before.Push(Frame(Some(org), true, Opened(map[], false, Waiting), Some(|before.stack|)))
    ensures Enabled(y, s, Step(p, 0)) && p in Apply(y, s, Step(p, 0)).processes
    ensures Apply(y, s, Step(p, 0)).rows == s.rows
    ensures var e := Execute(Visible(s.rows, Tenant(org)), Tenant(org), Opened(map[], false, Waiting), y.code(p, before.history).run);
            Apply(y, s, Step(p, 0)).processes[p] ==
            before.Push(Frame(Some(org), true, e.0.(around := Ran(e.1)), Some(|before.stack|)))
  {
    hide PoolInv, Execute;
    StepEffect(y, s, Step(p, 0));
    StatementsRunAtHome(y, s, Step(p, 0));
    assert s.processes[p].stack[..|before.stack|] == before.stack;
  }

  lemma BatchCommits(y: System, s: State, p: nat, before: Process, f: Frame)
    requires Inv(s) && p in s.processes && s.processes[p] == before.Push(f) && f.kind.Opened? && f.kind.around.Ran?
    ensures Enabled(y, s, Step(p, 0)) && p in Apply(y, s, Step(p, 0)).processes
    ensures Apply(y, s, Step(p, 0)).rows == Overlay(s.rows, if f.kind.failed then map[] else f.kind.writes)
    ensures Apply(y, s, Step(p, 0)).processes[p] == before.Says(f.kind.around.answer)
  {
    hide PoolInv, Overlay;
    StepEffect(y, s, Step(p, 0));
    assert before.Push(f).stack[..|before.stack|] == before.stack;
  }

  /** A statement inside the open transaction sees its organization's rows and what the transaction wrote. */
  lemma StatementRuns(y: System, s: State, p: nat)
    requires Inv(s) && p in s.processes && (CommandOf(y, s, p).Query? || CommandOf(y, s, p).Raw?)
    requires !s.processes[p].InBatch() && s.processes[p].HasTx() && s.processes[p].Top().tenant.Some?
    ensures Enabled(y, s, Step(p, 0)) && p in Apply(y, s, Step(p, 0)).processes
    ensures Apply(y, s, Step(p, 0)).rows == s.rows
    ensures var org := s.processes[p].Top().tenant.value;
            var (q, answer) := RunOn(s.processes[p], s.processes[p].Top().tx.value, Visible(s.rows, Tenant(org)), Tenant(org),
                                     CommandOf(y, s, p).run);
            Apply(y, s, Step(p, 0)).processes[p] == q.Says(answer) && q.history == s.processes[p].history
  {
    hide PoolInv, Execute;
    StepEffect(y, s, Step(p, 0));
    StatementsRunAtHome(y, s, Step(p, 0));
  }

  /** With no tenant, or raw outside a transaction: refused before the database hears of it. */
  lemma StatementIsRefused(y: System, s: State, p: nat)
    requires Inv(s) && p in s.processes && (CommandOf(y, s, p).Query? || CommandOf(y, s, p).Raw?)
    requires !s.processes[p].InBatch() && !NeedsConnection(s.processes[p], CommandOf(y, s, p))
    requires !(s.processes[p].HasTx() && s.processes[p].Top().tenant.Some?)
    ensures Enabled(y, s, Step(p, 0)) && p in Apply(y, s, Step(p, 0)).processes
    ensures Apply(y, s, Step(p, 0)).rows == s.rows
    ensures Apply(y, s, Step(p, 0)).processes[p] ==
            s.processes[p].Says(if CommandOf(y, s, p).Raw? then NotInTransaction else NoTenant)
  {
    hide PoolInv, RunOn, Execute;
    StepEffect(y, s, Step(p, 0));
    assert s.processes[p].SoundFrame(|s.processes[p].stack| - 1);
  }

  lemma StarvingWaits(y: System, s: State, p: nat)
    requires Inv(s) && p in s.processes && NeedsConnection(s.processes[p], CommandOf(y, s, p))
    ensures Enabled(y, s, Starve(p)) && p in Apply(y, s, Starve(p)).processes
    ensures Apply(y, s, Starve(p)).processes[p] == s.processes[p].Says(NoConnection)
  {
  }

  /** A request starts in the scope of its own organization, and a nested one runs as the one it names, in no transaction. */
  lemma ScopeOpens(y: System, s: State, p: nat)
    requires Inv(s)
    ensures p !in s.processes ==>
              && Enabled(y, s, Start(p))
              && Apply(y, s, Start(p)) == s.(processes := s.processes[p := Process([Frame(y.home(p), false, Scope, None)], [])])
    ensures p in s.processes && !s.processes[p].InBatch() && CommandOf(y, s, p).RunAs? ==>
              && Enabled(y, s, Step(p, 0))
              && Apply(y, s, Step(p, 0)) == s.(processes := s.processes[p :=
                   s.processes[p].Push(Frame(CommandOf(y, s, p).org, false, Scope, None)).Says(Done)])
  {
  }

  lemma TransactionOpens(y: System, s: State, p: nat, c: nat)
    requires Inv(s) && p in s.processes && CommandOf(y, s, p).Transaction? && !s.processes[p].InBatch()
    requires !s.processes[p].HasTx() ==> c in s.pool && s.pool[c].Pooled?
    ensures Enabled(y, s, Step(p, c)) && p in Apply(y, s, Step(p, c)).processes
    ensures Apply(y, s, Step(p, c)).rows == s.rows
    ensures var was := s.processes[p]; var top := was.Top();
            Apply(y, s, Step(p, c)).processes[p] ==
            (if was.HasTx() then was.Push(Frame(top.tenant, top.flag, Joined, top.tx))
             else was.Push(Frame(top.tenant, top.tenant.Some?, Opened(map[], false, Code), Some(|was.stack|)))).Says(Done)
  {
    hide PoolInv;
    StepEffect(y, s, Step(p, c));
  }

  lemma ScopeEnds(y: System, s: State, p: nat)
    requires Inv(s) && p in s.processes && CommandOf(y, s, p).Leave? && !s.processes[p].InBatch() && |s.processes[p].stack| > 1
    ensures Enabled(y, s, Step(p, 0)) && p in Apply(y, s, Step(p, 0)).processes
    ensures var top, kept := s.processes[p].Top(), Keeps(s.processes[p], CommandOf(y, s, p));
            && Apply(y, s, Step(p, 0)).processes[p] == s.processes[p].Pop().Says(if top.kind.Opened? && !kept then Aborted else Done)
            && Apply(y, s, Step(p, 0)).rows == (if kept then Overlay(s.rows, top.kind.writes) else s.rows)
  {
    hide PoolInv, Overlay;
    StepEffect(y, s, Step(p, 0));
    RowsUnwritten(s.rows);
  }

  lemma RowsUnwritten(rows: Rows)
    ensures Overlay(rows, map[]) == rows
  {
  }

  /** Leaving this scope commits its transaction: it opened one, nothing failed in it, and the code did not throw. */
  predicate Keeps(p: Process, cmd: Command)
    requires p.stack != [] && cmd.Leave?
  {
    p.Top().kind.Opened? && cmd.ok && !p.Top().kind.failed
  }

  // ---- What a statement does to the rows, key by key ----

  /** The rows of one organization, with a transaction's own writes laid over them. */
  function Sees(rows: Rows, org: Org, writes: Writes): Rows {
    Overlay(map k | k in rows && k.org == org :: rows[k], writes)
  }

  /** A row of another organization among those a statement wants to write. */
  predicate Strays(e: Effect, org: Org) {
    exists k :: k in e.puts && k.org != org
  }

  /** The statement's rows are there, the rows it saw and deleted are gone, and the rest is as it was. */
  ghost predicate Landed(e: Effect, view: Rows, before: Rows, after: Rows) {
    forall k ::
      && (k in after <==> k in e.puts || (k in before && !(k in e.deletes && k in view)))
      && (k in after ==> after[k] == if k in e.puts then e.puts[k] else before[k])
  }

  /** The same, noted in a transaction that has yet to commit. */
  ghost predicate Noted(e: Effect, view: Rows, before: Writes, after: Writes) {
    forall k ::
      && (k in after <==> k in e.puts || (k in e.deletes && k in view) || k in before)
      && (k in after ==> after[k] == if k in e.puts then Some(e.puts[k]) else if k in e.deletes && k in view then None else before[k])
  }

  lemma WritesNoted(e: Effect, view: Rows, before: Writes)
    ensures var puts: Writes := map k | k in e.puts :: Some(e.puts[k]);
            var deletes: Writes := map k | k in e.deletes && k in view :: None;
            Noted(e, view, before, before + deletes + puts)
  {
  }

  lemma ExecuteNotes(rows: Rows, org: Org, kind: Kind, run: Statement)
    requires kind.Opened?
    ensures var (after, answer) := Execute(Visible(rows, Tenant(org)), Tenant(org), kind, run);
            var view := Sees(rows, org, kind.writes);
            && after == kind.(writes := after.writes, failed := after.failed)
            && answer == (if kind.failed then Aborted else if Strays(run(view), org) then Denied else Result(run(view).answer))
            && after.failed == (kind.failed || Strays(run(view), org))
            && (if after.failed then after.writes == kind.writes else Noted(run(view), view, kind.writes, after.writes))
  {
    hide Overlay, Noted;
    assert Visible(rows, Tenant(org)) == map k | k in rows && k.org == org :: rows[k];
    var view := Sees(rows, org, kind.writes);
    WritesNoted(run(view), view, kind.writes);
  }

  lemma NotedLands(e: Effect, view: Rows, writes: Writes, before: Rows)
    requires Noted(e, view, map[], writes)
    ensures Landed(e, view, before, Overlay(before, writes))
  {
  }

  /** Every row a transaction wrote is there, every row it deleted is gone, and no other has moved. */
  ghost predicate Committed(before: Rows, writes: Writes, after: Rows) {
    forall k ::
      && (k in after <==> if k in writes then writes[k].Some? else k in before)
      && (k in after ==> after[k] == if k in writes then writes[k].value else before[k])
  }

  lemma OverlayCommits(before: Rows, writes: Writes)
    ensures Committed(before, writes, Overlay(before, writes))
  {
  }

  /** A statement has run in the transaction frame `i` opened: it answers by that transaction's view, and only its writes and its failure are noted there. */
  ghost predicate RanInside(was: Process, i: nat, org: Org, rows: Rows, run: Statement, answer: Answer, now: Process)
    requires i < |was.stack| && was.stack[i].kind.Opened?
  {
    var kind := was.stack[i].kind;
    var view := Sees(rows, org, kind.writes); var e := run(view);
    && answer == (if kind.failed then Aborted else if Strays(e, org) then Denied else Result(e.answer))
    && now.history == was.history + [answer]
    && |now.stack| == |was.stack| && (forall j :: 0 <= j < |was.stack| && j != i ==> now.stack[j] == was.stack[j])
    && var after := now.stack[i].kind;
    && now.stack[i] == was.stack[i].(kind := after) && after.Opened? && after.around == kind.around
    && (after.failed <==> answer == Aborted || answer == Denied)
    && (if after.failed then after.writes == kind.writes else Noted(e, view, kind.writes, after.writes))
  }

  lemma RunNotes(rows: Rows, p: Process, i: nat, org: Org, run: Statement)
    requires i < |p.stack| && p.stack[i].kind.Opened?
    ensures var (q, answer) := RunOn(p, i, Visible(rows, Tenant(org)), Tenant(org), run);
            RanInside(p, i, org, rows, run, answer, q.Says(answer))
  {
    hide Execute, Sees, Strays, Noted, Visible;
    ExecuteNotes(rows, org, p.stack[i].kind, run);
  }

  class PrismaService {
    const db: Database

    constructor (db: Database)
      ensures this.db == db
    {
      this.db := db;
    }

    /** Nothing free in the pool. */
    predicate Drained(s: State) {
      forall c :: c in s.pool ==> s.pool[c].Held?
    }

    /** A query's batched transaction: begin and set the tenant, run, commit. It answers and writes by the rows of its own organization as it ran, `seen`. */
    method Batch(p: nat, c: nat, org: Org) returns (answer: Answer, ghost seen: State, ghost before: State)
      requires db.Valid() && Inv(db.state) && p in db.state.processes
      requires CommandOf(db.y, db.state, p).Query? && NeedsConnection(db.state.processes[p], CommandOf(db.y, db.state, p))
      requires db.state.processes[p].Top().tenant == Some(org) && c in db.state.pool && db.state.pool[c].Pooled?
      modifies db
      ensures db.Valid() && Inv(db.state) && p in db.state.processes
      ensures db.Did(p) == old(db.Did(p)) + [Step(p, c), Step(p, 0), Step(p, 0)]
      ensures forall q, n, s :: old(db.DidFrom(q, n, s)) ==> db.DidFrom(q, n, s)
      ensures db.DidFrom(p, |old(db.Did(p))|, old(db.state))
      ensures db.DidFrom(p, |old(db.Did(p))| + 1, seen) && db.DidFrom(p, |old(db.Did(p))| + 2, before)
      ensures db.state.processes[p] == old(db.state).processes[p].Says(answer)
      ensures var view := Sees(seen.rows, org, map[]); var e := CommandOf(db.y, old(db.state), p).run(view);
              if Strays(e, org) then answer == Denied && db.state.rows == before.rows
              else answer == Result(e.answer) && Landed(e, view, before.rows, db.state.rows)
    {
      hide Inv, Runs, After, Apply, Enabled, Execute, Overlay, Sees, Strays, Landed, Noted, OwnActions, Took, Visible, Database.Did, Database.DidFrom;
      ghost var was, run := db.state.processes[p], CommandOf(db.y, db.state, p).run;
      BatchOpens(db.y, db.state, p, c, org);
      db.Act(Step(p, c));
      db.Pause(p);
      seen := db.state;
      BatchRuns(db.y, db.state, p, org, was);
      ExecuteNotes(db.state.rows, org, Opened(map[], false, Waiting), run);
      db.Act(Step(p, 0));
      ghost var f := db.state.processes[p].Top();
      db.Pause(p);
      before := db.state;
      BatchCommits(db.y, db.state, p, was, f);
      db.Act(Step(p, 0));
      var h := db.state.processes[p].history;
      answer := h[|h| - 1];
      RowsUnwritten(before.rows);
      if !f.kind.failed { NotedLands(run(Sees(seen.rows, org, map[])), Sees(seen.rows, org, map[]), f.kind.writes, before.rows); }
    }

    /** A statement of the request's code; `seen` is the database as it ran, `before` as it committed. */
    method Statement(p: nat) returns (answer: Answer, ghost seen: State, ghost before: State)
      requires db.Valid() && Inv(db.state) && p in db.state.processes && !db.state.processes[p].InBatch()
      requires CommandOf(db.y, db.state, p).Query? || CommandOf(db.y, db.state, p).Raw?
      modifies db
      ensures db.Valid() && Inv(db.state) && p in db.state.processes
      ensures forall q, n, s :: old(db.DidFrom(q, n, s)) ==> db.DidFrom(q, n, s)
      ensures var was, cmd, now := old(db.state).processes[p], CommandOf(db.y, old(db.state), p), db.state.processes[p];
              var org, mine := was.Top().tenant, |old(db.Did(p))|;
              // No tenant, no statement; and raw SQL only in a transaction of this scope.
              && (org.None? || (cmd.Raw? && !was.HasTx()) ==>
                    && now == was.Says(if cmd.Raw? then NotInTransaction else NoTenant)
                    && answer == (if cmd.Raw? then NotInTransaction else NoTenant)
                    && |db.Did(p)| == mine + 1 && db.DidFrom(p, mine, before) && db.state.rows == before.rows)
              // Inside the scope's transaction: its organization's rows and its own writes, and nothing committed yet.
              && (org.Some? && was.HasTx() ==>
                    && |db.Did(p)| == mine + 1 && db.DidFrom(p, mine, seen) && db.state.rows == seen.rows
                    && RanInside(was, was.Top().tx.value, org.value, seen.rows, cmd.run, answer, now))
              // Outside: in a transaction of its own, or with every connection taken not at all.
              && (org.Some? && !was.HasTx() && cmd.Query? ==>
                    && now == was.Says(answer)
                    && (if answer == NoConnection then
                          |db.Did(p)| == mine + 1 && db.DidFrom(p, mine, before) && Drained(before) && db.state.rows == before.rows
                        else
                          && |db.Did(p)| == mine + 3 && db.DidFrom(p, mine + 1, seen) && db.DidFrom(p, mine + 2, before)
                          && var view := Sees(seen.rows, org.value, map[]); var e := cmd.run(view);
                             if Strays(e, org.value) then answer == Denied && db.state.rows == before.rows
                             else answer == Result(e.answer) && Landed(e, view, before.rows, db.state.rows)))
    {
      assert db.state.processes[p].stack != [];
      hide Inv, Runs, After, Apply, Enabled, Execute, Overlay, RunOn, Sees, Strays, Landed, Noted, OwnActions, Took, Visible, Database.Did, Database.DidFrom;
      db.Pause(p);
      seen, before := db.state, db.state;
      var me, cmd := db.state.processes[p], CommandOf(db.y, db.state, p);
      if NeedsConnection(me, cmd) {
        if c :| c in db.state.pool && db.state.pool[c].Pooled? {
          answer, seen, before := Batch(p, c, me.Top().tenant.value);
          return;
        }
        StarvingWaits(db.y, db.state, p);
        db.Act(Starve(p));
      } else if me.HasTx() && me.Top().tenant.Some? {
        StatementRuns(db.y, db.state, p);
        db.Act(Step(p, 0));
        RunNotes(seen.rows, me, me.Top().tx.value, me.Top().tenant.value, cmd.run);
      } else {
        StatementIsRefused(db.y, db.state, p);
        db.Act(Step(p, 0));
      }
      var h := db.state.processes[p].history;
      answer := h[|h| - 1];
    }

    /** A scope of its own for the named tenant, or for none: no transaction reaches into it. */
    method RunAs(p: nat)
      requires db.Valid() && Inv(db.state) && p in db.state.processes && !db.state.processes[p].InBatch()
      requires CommandOf(db.y, db.state, p).RunAs?
      modifies db
      ensures db.Valid() && Inv(db.state) && p in db.state.processes && !db.state.processes[p].HasTx()
      ensures db.state.processes[p] ==
              old(db.state).processes[p].Push(Frame(CommandOf(db.y, old(db.state), p).org, false, Scope, None)).Says(Done)
    {
      assert db.state.processes[p].stack != [];
      hide Inv, Runs, After, Apply, Enabled, OwnActions, Took, Database.Did, Database.DidFrom;
      db.Pause(p);
      ScopeOpens(db.y, db.state, p);
      db.Act(Step(p, 0));
    }

    /** Joins the scope's open transaction, or opens one with the tenant as its first statement, unless every connection is taken. */
    method Transaction(p: nat) returns (opens: bool, ghost before: State)
      requires db.Valid() && Inv(db.state) && p in db.state.processes && !db.state.processes[p].InBatch()
      requires CommandOf(db.y, db.state, p).Transaction?
      modifies db
      ensures db.Valid() && Inv(db.state) && p in db.state.processes
      ensures |db.Did(p)| == |old(db.Did(p))| + 1 && db.DidFrom(p, |old(db.Did(p))|, before) && db.state.rows == before.rows
      ensures opens <==> old(db.state).processes[p].HasTx() || !Drained(before)
      ensures var was, now := old(db.state).processes[p], db.state.processes[p]; var top := was.Top();
              if !opens then now == was.Says(NoConnection)
              else if was.HasTx() then now == was.Push(Frame(top.tenant, top.flag, Joined, top.tx)).Says(Done)
              else now == was.Push(Frame(top.tenant, top.tenant.Some?, Opened(map[], false, Code), Some(|was.stack|))).Says(Done)
    {
      assert db.state.processes[p].stack != [];
      hide Inv, Runs, After, Apply, Enabled, OwnActions, Took, Database.Did, Database.DidFrom;
      db.Pause(p);
      opens, before := true, db.state;
      if db.state.processes[p].HasTx() {
        TransactionOpens(db.y, db.state, p, 0);
        db.Act(Step(p, 0));
      } else if c :| c in db.state.pool && db.state.pool[c].Pooled? {
        TransactionOpens(db.y, db.state, p, c);
        db.Act(Step(p, c));
      } else {
        opens := false;
        StarvingWaits(db.y, db.state, p);
        db.Act(Starve(p));
      }
    }

    /** Ends the innermost scope: its own transaction commits whole or not at all, a joined one goes on. */
    method Leave(p: nat) returns (kept: bool, ghost before: State)
      requires db.Valid() && Inv(db.state) && p in db.state.processes && !db.state.processes[p].InBatch()
      requires CommandOf(db.y, db.state, p).Leave? && |db.state.processes[p].stack| > 1
      modifies db
      ensures db.Valid() && Inv(db.state) && p in db.state.processes
      ensures |db.Did(p)| == |old(db.Did(p))| + 1 && db.DidFrom(p, |old(db.Did(p))|, before)
      ensures var was := old(db.state).processes[p]; var top := was.stack[|was.stack| - 1];
              && (kept <==> top.kind.Opened? && !top.kind.failed && CommandOf(db.y, old(db.state), p).ok)
              && db.state.processes[p] == Process(was.stack[..|was.stack| - 1], was.history + [if top.kind.Opened? && !kept then Aborted else Done])
              && (!kept ==> db.state.rows == before.rows)
              && (kept ==> Committed(before.rows, top.kind.writes, db.state.rows))
    {
      hide Inv, Runs, After, Apply, Enabled, Overlay, Committed, OwnActions, Took, Database.Did, Database.DidFrom;
      db.Pause(p);
      before := db.state;
      kept := Keeps(db.state.processes[p], CommandOf(db.y, db.state, p));
      ScopeEnds(db.y, db.state, p);
      db.Act(Step(p, 0));
      if kept { OverlayCommits(before.rows, old(db.state).processes[p].Top().kind.writes); }
    }
  }
}
