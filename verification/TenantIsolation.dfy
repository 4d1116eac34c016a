// Tenant isolation: requests of many organizations run statements over one pool
// of connections; a transaction-local setting and a row-level policy decide what
// each statement sees. What an organization observes is what it would observe
// alone, on a database of its own.
// Sources: packages/database/src/tenant-client.ts, packages/database/src/rls.ts,
// apps/api/src/prisma/prisma.service.ts and apps/api/src/platform/run-as-tenant.ts.

module TenantIsolation {
  import opened LogOrder

  type Org = nat

  /** A tenant-owned row: its organization is part of its key. */
  datatype Key = Key(org: Org, id: nat)

  type Rows = map<Key, string>
  type Writes = map<Key, Option<string>>

  /** `app.current_org_id` on one connection: never set, set to '', or a tenant. */
  datatype Setting = Unset | Empty | Tenant(org: Org)

  /** The row-level policy, for reading (USING) and for writing (WITH CHECK): NULL and '' admit nothing. */
  predicate Admits(setting: Setting, key: Key) {
    setting == Tenant(key.org)
  }

  /** What a statement answers and what it would change, from the rows it can see. */
  datatype Effect = Effect(answer: string, puts: Rows, deletes: set<Key>)

  type Statement = Rows -> Effect

  datatype Answer =
    | Done
    | Result(value: string)
    // Thrown: no tenant context, raw SQL outside a transaction, no connection in time, the policy, an aborted transaction.
    | NoTenant
    | NotInTransaction
    | NoConnection
    | Denied
    | Aborted

  /** What a request's code does next. */
  datatype Command =
    | RunAs(org: Option<Org>)
    | Transaction
    | Query(run: Statement)
    | Raw(run: Statement)
    | Leave(ok: bool)

  /** A transaction is the code's own, or made around one query: that query has run, or has not yet. */
  datatype Around = Code | Waiting | Ran(answer: Answer)

  datatype Kind =
    | Scope
    | Joined
    | Opened(writes: Writes, failed: bool, around: Around)

  /** One nested context: its tenant, the `inTransaction` flag, and which frame opened the transaction in force. */
  datatype Frame = Frame(tenant: Option<Org>, flag: bool, kind: Kind, tx: Option<nat>)

  datatype Process = Process(stack: seq<Frame>, history: seq<Answer>)
  {
    predicate Sound() {
      stack != [] && stack[0].kind.Scope? && forall i: nat :: i < |stack| ==> SoundFrame(i)
    }

    /** The transaction in force was opened in this very scope, and the flag says whether there is one. */
    predicate SoundFrame(i: nat)
      requires i < |stack|
    {
      var f := stack[i];
      && (f.tx.Some? ==>
            && f.tx.value <= i && stack[f.tx.value].kind.Opened? && stack[f.tx.value].tenant == f.tenant
            && (f.tenant.Some? ==> f.flag))
      && (f.flag ==> f.tx.Some? && f.tenant.Some?)
      && (f.kind.Opened? ==>
            && f.tx == Some(i)
            && (!f.kind.around.Code? ==> i == |stack| - 1 && f.tenant.Some?)
            && (forall k :: k in f.kind.writes ==> f.tenant == Some(k.org)))
    }

    function Top(): Frame
      requires stack != []
    {
      stack[|stack| - 1]
    }

    /** `PrismaService.db`: the open transaction, if it was opened for the current tenant. */
    predicate HasTx()
      requires stack != []
    {
      Top().tx.Some? && Top().tx.value < |stack| && stack[Top().tx.value].kind.Opened? &&
      stack[Top().tx.value].tenant == Top().tenant
    }

    predicate InBatch()
      requires stack != []
    {
      Top().kind.Opened? && !Top().kind.around.Code?
    }

    function Push(f: Frame): Process {
      this.(stack := stack + [f])
    }

    function Pop(): Process
      requires stack != []
    {
      this.(stack := stack[..|stack| - 1])
    }

    function Says(a: Answer): Process {
      this.(history := history + [a])
    }
  }

  // ---- What one step of a request does, given what its statement sees ----

  datatype Move =
    | Stay(process: Process)
    | Open(process: Process)
    | Close(process: Process, commits: Writes)
    // A query let through on a pooled connection where no tenant is set.
    | Through(process: Process, commits: Writes)

  function Overlay(rows: Rows, writes: Writes): Rows {
    map k | k in rows.Keys + writes.Keys && (k in writes ==> writes[k].Some?) ::
      if k in writes then writes[k].value else rows[k]
  }

  /** The statement on what it sees and its transaction's own writes; one refused row refuses it all. */
  function Execute(see: Rows, setting: Setting, kind: Kind, run: Statement): (Kind, Answer)
    requires kind.Opened?
  {
    if kind.failed then (kind, Aborted)
    else
      var view := Overlay(see, kind.writes);
      var e := run(view);
      if exists k :: k in e.puts && !Admits(setting, k) then (kind.(failed := true), Denied)
      else
        var puts: Writes := map k | k in e.puts :: Some(e.puts[k]);
        var deletes: Writes := map k | k in e.deletes && k in view :: None;
        (kind.(writes := kind.writes + deletes + puts), Result(e.answer))
  }

  function RunOn(p: Process, i: nat, see: Rows, setting: Setting, run: Statement): (Process, Answer)
    requires i < |p.stack| && p.stack[i].kind.Opened?
  {
    var (kind, answer) := Execute(see, setting, p.stack[i].kind, run);
    (p.(stack := p.stack[i := p.stack[i].(kind := kind)]), answer)
  }

  /** Whether this step runs a statement, and on which frame's transaction. */
  function RunsOn(p: Process, cmd: Command): Option<nat>
    requires p.stack != []
  {
    if p.InBatch() then
      if p.Top().kind.around.Waiting? && cmd.Query? then Some(|p.stack| - 1) else None
    else if (cmd.Query? || cmd.Raw?) && p.HasTx() && p.Top().tenant.Some? then p.Top().tx
    else None
  }

  predicate NeedsConnection(p: Process, cmd: Command)
    requires p.stack != []
  {
    !p.InBatch() && !p.HasTx() && (cmd.Transaction? || (cmd.Query? && p.Top().tenant.Some?))
  }

  /** The batch commits what its query wrote, and the code gets the query's answer. */
  function NextInBatch(p: Process, cmd: Command, see: Rows, setting: Setting): Move
    requires p.stack != [] && p.InBatch()
  {
    var top := p.Top();
    if top.kind.around.Ran? then
      Close(p.Pop().Says(top.kind.around.answer), if top.kind.failed then map[] else top.kind.writes)
    else if cmd.Query? then
      var (kind, answer) := Execute(see, setting, top.kind, cmd.run);
      Stay(p.(stack := p.stack[|p.stack| - 1 := top.(kind := kind.(around := Ran(answer)))]))
    else Stay(p)
  }

  function Next(p: Process, cmd: Command, see: Rows, setting: Setting): Move
    requires p.stack != []
  {
    var top := p.Top();
    if p.InBatch() then NextInBatch(p, cmd, see, setting)
    else
      match cmd
      case RunAs(org) => Stay(p.Push(Frame(org, false, Scope, None)).Says(Done))
      case Transaction =>
        if p.HasTx() then Stay(p.Push(Frame(top.tenant, top.flag, Joined, top.tx)).Says(Done))
        else Open(p.Push(Frame(top.tenant, top.tenant.Some?, Opened(map[], false, Code), Some(|p.stack|))).Says(Done))
      case Query(run) =>
        if top.tenant.None? then Stay(p.Says(NoTenant))
        else if p.HasTx() then
          var (q, answer) := RunOn(p, top.tx.value, see, setting, run);
          Stay(q.Says(answer))
        else if top.flag then
          var (kind, answer) := Execute(see, setting, Opened(map[], false, Code), run);
          Through(p.Says(answer), kind.writes)
        else Open(p.Push(Frame(top.tenant, true, Opened(map[], false, Waiting), Some(|p.stack|))))
      case Raw(run) =>
        if top.tenant.None? || !p.HasTx() then Stay(p.Says(NotInTransaction))
        else
          var (q, answer) := RunOn(p, top.tx.value, see, setting, run);
          Stay(q.Says(answer))
      case Leave(ok) =>
        if !top.kind.Opened? then Stay(p.Pop().Says(Done))
        else if ok && !top.kind.failed then Close(p.Pop().Says(Done), top.kind.writes)
        else Close(p.Pop().Says(Aborted), map[])
  }

  // ---- The shared system ----

  /** A pooled connection, or one held by a transaction with the setting it will go back to. */
  datatype Connection =
    | Pooled(setting: Setting)
    | Held(setting: Setting, before: Setting)
  {
    /** `set_config(..., true)` ends with the transaction; a setting first made there is left as ''. */
    function Released(): Connection {
      if Held? then Pooled(if before.Unset? && setting.Tenant? then Empty else before) else this
    }
  }

  datatype Slot = Slot(process: nat, frame: nat)

  /**
   * Every process's code, a function of the answers it has had; the tenant it starts
   * in, which is none for a platform process; and the organization whose business it does.
   */
  datatype System = System(code: (nat, seq<Answer>) -> Command, home: nat -> Option<Org>, serves: nat -> Option<Org>)

  datatype State = State(rows: Rows, pool: map<nat, Connection>, held: map<Slot, nat>, processes: map<nat, Process>)

  datatype Action =
    | Start(p: nat)
    | Step(p: nat, connection: nat)
    // No connection came free in time.
    | Starve(p: nat)
    // The request dies; the database rolls its transactions back.
    | Kill(p: nat)

  function Init(rows: Rows, connections: set<nat>): State {
    State(rows, map c | c in connections :: Pooled(Unset), map[], map[])
  }

  function First(y: System, p: nat): Process {
    Process([Frame(y.home(p), false, Scope, None)], [])
  }

  /** The connection a step's statement runs on has this setting. */
  function SettingOf(y: System, s: State, a: Action): Setting
    requires a.Step? && a.p in s.processes && s.processes[a.p].stack != []
  {
    var p := s.processes[a.p];
    var cmd := y.code(a.p, p.history);
    var on := RunsOn(p, cmd);
    var connection := if on.Some? && Slot(a.p, on.value) in s.held then s.held[Slot(a.p, on.value)] else a.connection;
    if connection in s.pool then s.pool[connection].setting else Unset
  }

  function Visible(rows: Rows, setting: Setting): Rows {
    map k | k in rows && Admits(setting, k) :: rows[k]
  }

  predicate Enabled(y: System, s: State, a: Action) {
    match a
    case Start(p) => p !in s.processes
    case Kill(p) => p in s.processes
    case Starve(p) =>
      && p in s.processes && s.processes[p].stack != []
      && NeedsConnection(s.processes[p], y.code(p, s.processes[p].history))
    case Step(p, c) =>
      && p in s.processes && s.processes[p].stack != []
      && var cmd := y.code(p, s.processes[p].history);
      && (NeedsConnection(s.processes[p], cmd) ==> c in s.pool && s.pool[c].Pooled?)
      // The outermost scope ends with the request.
      && (cmd.Leave? && !s.processes[p].InBatch() ==> |s.processes[p].stack| > 1)
  }

  function MoveOf(y: System, s: State, a: Action): Move
    requires a.Step? && a.p in s.processes && s.processes[a.p].stack != []
  {
    var setting := SettingOf(y, s, a);
    Next(s.processes[a.p], y.code(a.p, s.processes[a.p].history), Visible(s.rows, setting), setting)
  }

  /** `BEGIN`, then the tenant, if there is one. */
  function Begun(c: Connection, tenant: Option<Org>): Connection {
    Held(if tenant.Some? then Tenant(tenant.value) else c.setting, c.setting)
  }

  function Ended(s: State, slot: Slot): State {
    if slot in s.held && s.held[slot] in s.pool then
      s.(pool := s.pool[s.held[slot] := s.pool[s.held[slot]].Released()], held := s.held - {slot})
    else s
  }

  function SlotsOf(s: State, p: nat): set<Slot> {
    set slot | slot in s.held && slot.process == p
  }

  function Apply(y: System, s: State, a: Action): State
    requires Enabled(y, s, a)
  {
    match a
    case Start(p) => s.(processes := s.processes[p := First(y, p)])
    case Starve(p) => s.(processes := s.processes[p := s.processes[p].Says(NoConnection)])
    case Kill(p) =>
      var slots := SlotsOf(s, p);
      var released := set slot | slot in slots :: s.held[slot];
      s.(pool := map c | c in s.pool :: if c in released then s.pool[c].Released() else s.pool[c],
         held := s.held - slots,
         processes := s.processes - {p})
    case Step(p, c) =>
      var frames := |s.processes[p].stack|;
      match MoveOf(y, s, a)
      case Stay(q) => s.(processes := s.processes[p := q])
      case Open(q) =>
        if c in s.pool && q.stack != [] then
          s.(pool := s.pool[c := Begun(s.pool[c], q.Top().tenant)], held := s.held[Slot(p, frames) := c],
             processes := s.processes[p := q])
        else s
      case Close(q, commits) =>
        Ended(s.(rows := Overlay(s.rows, commits), processes := s.processes[p := q]), Slot(p, frames - 1))
      case Through(q, commits) =>
        s.(rows := Overlay(s.rows, commits), processes := s.processes[p := q])
  }

  // ---- What every reachable state satisfies ----

  predicate OpenedSlot(s: State, slot: Slot) {
    && slot.process in s.processes && slot.frame < |s.processes[slot.process].stack|
    && s.processes[slot.process].stack[slot.frame].kind.Opened?
  }

  /** A transaction's connection carries exactly its own tenant; one back in the pool carries none. */
  ghost predicate PoolInv(s: State) {
    && (forall slot :: slot in s.held <==> OpenedSlot(s, slot))
    && (forall slot :: slot in s.held ==> s.held[slot] in s.pool && s.pool[s.held[slot]].Held?)
    && (forall slot, other :: slot in s.held && other in s.held && slot != other ==> s.held[slot] != s.held[other])
    && (forall c :: c in s.pool && s.pool[c].Pooled? ==> !s.pool[c].setting.Tenant?)
    && (forall c :: c in s.pool && s.pool[c].Held? ==> !s.pool[c].before.Tenant?)
    && (forall slot :: slot in s.held ==> SlotSetting(s, slot))
  }

  predicate SlotSetting(s: State, slot: Slot)
    requires slot in s.held && s.held[slot] in s.pool
  {
    OpenedSlot(s, slot) ==>
      var tenant := s.processes[slot.process].stack[slot.frame].tenant;
      var setting := s.pool[s.held[slot]].setting;
      if tenant.Some? then setting == Tenant(tenant.value) else !setting.Tenant?
  }

  ghost predicate Inv(s: State) {
    PoolInv(s) && forall p :: p in s.processes ==> s.processes[p].Sound()
  }

  /** The statement a step runs sees and may write its own scope's organization, whatever the connection did before. */
  lemma StatementsRunAtHome(y: System, s: State, a: Action)
    requires Inv(s) && Enabled(y, s, a) && a.Step?
    requires RunsOn(s.processes[a.p], y.code(a.p, s.processes[a.p].history)).Some?
    ensures s.processes[a.p].Top().tenant.Some?
    ensures SettingOf(y, s, a) == Tenant(s.processes[a.p].Top().tenant.value)
  {
    var p := s.processes[a.p];
    var i := RunsOn(p, y.code(a.p, p.history)).value;
    assert p.SoundFrame(|p.stack| - 1);
    assert OpenedSlot(s, Slot(a.p, i));
    assert SlotSetting(s, Slot(a.p, i));
  }

  /** Nothing is ever let through on a connection without a tenant. */
  lemma NothingPassesThrough(y: System, s: State, a: Action)
    requires Inv(s) && Enabled(y, s, a) && a.Step?
    ensures !MoveOf(y, s, a).Through?
  {
    var p := s.processes[a.p];
    assert p.SoundFrame(|p.stack| - 1);
  }

  /** Everything in a set of writes, or of visible rows, belongs to `org`. */
  predicate Within(keys: set<Key>, org: Org) {
    forall k :: k in keys ==> k.org == org
  }

  lemma ExecuteAtHome(see: Rows, kind: Kind, run: Statement, org: Org)
    requires kind.Opened? && Within(see.Keys, org) && Within(kind.writes.Keys, org)
    ensures var (after, _) := Execute(see, Tenant(org), kind, run);
            after.Opened? && after.around == kind.around && Within(after.writes.Keys, org)
  {
  }

  lemma VisibleAtHome(rows: Rows, org: Org)
    ensures Within(Visible(rows, Tenant(org)).Keys, org)
  {
  }

  // ---- A request's frames stay sound ----

  lemma PushStaysSound(p: Process, f: Frame)
    requires p.Sound() && !p.InBatch()
    requires Process(p.stack + [f], p.history).SoundFrame(|p.stack|)
    ensures p.Push(f).Sound()
  {
    forall i: nat | i < |p.stack| ensures p.Push(f).SoundFrame(i) {
      assert p.SoundFrame(i);
    }
  }

  lemma PopStaysSound(p: Process)
    requires p.Sound() && |p.stack| > 1
    ensures p.Pop().Sound()
  {
    forall i: nat | i < |p.Pop().stack| ensures p.Pop().SoundFrame(i) {
      assert p.SoundFrame(i);
    }
  }

  lemma ReplaceStaysSound(p: Process, i: nat, kind: Kind)
    requires p.Sound() && i < |p.stack| && p.stack[i].kind.Opened? && kind.Opened?
    requires !kind.around.Code? ==> !p.stack[i].kind.around.Code?
    requires p.stack[i].tenant.Some? && Within(kind.writes.Keys, p.stack[i].tenant.value)
    ensures p.(stack := p.stack[i := p.stack[i].(kind := kind)]).Sound()
  {
    var q := p.(stack := p.stack[i := p.stack[i].(kind := kind)]);
    forall j: nat | j < |q.stack| ensures q.SoundFrame(j) {
      assert p.SoundFrame(j) && p.SoundFrame(i);
    }
  }

  lemma SaysStaysSound(p: Process, a: Answer)
    requires p.Sound()
    ensures p.Says(a).Sound()
  {
    forall i: nat | i < |p.stack| ensures p.Says(a).SoundFrame(i) {
      assert p.SoundFrame(i);
    }
  }

  /** The statement of a step runs at home. */
  predicate AtHome(p: Process, cmd: Command, see: Rows, setting: Setting)
    requires p.stack != []
  {
    RunsOn(p, cmd).Some? ==>
      p.Top().tenant.Some? && setting == Tenant(p.Top().tenant.value) && Within(see.Keys, p.Top().tenant.value)
  }

  lemma RunStaysSound(p: Process, i: nat, see: Rows, org: Org, run: Statement)
    requires p.Sound() && i < |p.stack| && p.stack[i].kind.Opened? && p.stack[i].tenant == Some(org) && Within(see.Keys, org)
    ensures var (q, _) := RunOn(p, i, see, Tenant(org), run); q.Sound() && |q.stack| == |p.stack| && q.history == p.history
  {
    assert p.SoundFrame(i);
    ExecuteAtHome(see, p.stack[i].kind, run, org);
    ReplaceStaysSound(p, i, Execute(see, Tenant(org), p.stack[i].kind, run).0);
  }

  lemma BatchStaysSound(p: Process, cmd: Command, see: Rows, setting: Setting)
    requires p.Sound() && p.InBatch() && AtHome(p, cmd, see, setting)
    ensures NextInBatch(p, cmd, see, setting).process.Sound()
  {
    hide Execute;
    var top := p.Top();
    assert p.SoundFrame(|p.stack| - 1);
    if top.kind.around.Ran? {
      PopStaysSound(p);
      SaysStaysSound(p.Pop(), top.kind.around.answer);
    } else if cmd.Query? {
      ExecuteAtHome(see, top.kind, cmd.run, top.tenant.value);
      var (kind, answer) := Execute(see, setting, top.kind, cmd.run);
      ReplaceStaysSound(p, |p.stack| - 1, kind.(around := Ran(answer)));
    }
  }

  lemma NextStaysSound(p: Process, cmd: Command, see: Rows, setting: Setting)
    requires p.Sound() && AtHome(p, cmd, see, setting)
    requires cmd.Leave? && !p.InBatch() ==> |p.stack| > 1
    ensures Next(p, cmd, see, setting).process.Sound()
  {
    hide Execute, RunOn;
    var top, n := p.Top(), |p.stack|;
    assert p.SoundFrame(n - 1);
    if p.InBatch() {
      BatchStaysSound(p, cmd, see, setting);
    } else {
      match cmd
      case RunAs(org) =>
        PushStaysSound(p, Frame(org, false, Scope, None));
        SaysStaysSound(p.Push(Frame(org, false, Scope, None)), Done);
      case Transaction =>
        var f := if p.HasTx() then Frame(top.tenant, top.flag, Joined, top.tx)
                 else Frame(top.tenant, top.tenant.Some?, Opened(map[], false, Code), Some(n));
        PushStaysSound(p, f);
        SaysStaysSound(p.Push(f), Done);
      case Query(run) => StatementStaysSound(p, cmd, run, see, setting);
      case Raw(run) => StatementStaysSound(p, cmd, run, see, setting);
      case Leave(ok) =>
        PopStaysSound(p);
        SaysStaysSound(p.Pop(), Done);
        SaysStaysSound(p.Pop(), Aborted);
    }
  }

  lemma StatementStaysSound(p: Process, cmd: Command, run: Statement, see: Rows, setting: Setting)
    requires p.Sound() && !p.InBatch() && AtHome(p, cmd, see, setting)
    requires cmd == Query(run) || cmd == Raw(run)
    ensures Next(p, cmd, see, setting).process.Sound()
  {
    hide Execute, RunOn;
    var top, n := p.Top(), |p.stack|;
    assert p.SoundFrame(n - 1);
    if RunsOn(p, cmd).Some? {
      RunStaysSound(p, top.tx.value, see, top.tenant.value, run);
      var (q, answer) := RunOn(p, top.tx.value, see, setting, run);
      SaysStaysSound(q, answer);
    } else if NeedsConnection(p, cmd) {
      PushStaysSound(p, Frame(top.tenant, true, Opened(map[], false, Waiting), Some(n)));
    } else {
      SaysStaysSound(p, NoTenant);
      SaysStaysSound(p, NotInTransaction);
    }
  }

  // ---- Connections stay clean ----

  predicate OpenedAt(p: Process, i: nat) {
    i < |p.stack| && p.stack[i].kind.Opened?
  }

  /** How a move changes which frames have transactions. */
  ghost predicate Shaped(p: Process, m: Move)
    requires p.stack != []
  {
    match m
    case Stay(q) =>
      forall i: nat :: (OpenedAt(q, i) <==> OpenedAt(p, i)) && (OpenedAt(p, i) ==> q.stack[i].tenant == p.stack[i].tenant)
    case Open(q) =>
      |q.stack| == |p.stack| + 1 && q.stack[..|p.stack|] == p.stack && q.Top().kind.Opened? && q.Top().tenant == p.Top().tenant
    case Close(q, commits) =>
      && p.Top().kind.Opened? && q.stack == p.stack[..|p.stack| - 1]
      && (forall k :: k in commits ==> p.Top().tenant == Some(k.org))
    case Through(_, _) => false
  }

  lemma MovesAreShaped(y: System, s: State, a: Action)
    requires Inv(s) && Enabled(y, s, a) && a.Step?
    ensures Shaped(s.processes[a.p], MoveOf(y, s, a))
  {
    hide PoolInv, Next, Shaped;
    var p := s.processes[a.p];
    var cmd := y.code(a.p, p.history);
    var setting := SettingOf(y, s, a);
    NothingPassesThrough(y, s, a);
    if p.InBatch() { BatchIsShaped(p, cmd, Visible(s.rows, setting), setting); }
    else if RunsOn(p, cmd).Some? { StatementIsShaped(p, cmd, Visible(s.rows, setting), setting); }
    else { ScopeIsShaped(p, cmd, Visible(s.rows, setting), setting); }
  }

  lemma BatchIsShaped(p: Process, cmd: Command, see: Rows, setting: Setting)
    requires p.Sound() && p.InBatch()
    ensures Shaped(p, Next(p, cmd, see, setting))
  {
    assert p.SoundFrame(|p.stack| - 1);
  }

  lemma StatementIsShaped(p: Process, cmd: Command, see: Rows, setting: Setting)
    requires p.Sound() && !p.InBatch() && RunsOn(p, cmd).Some?
    ensures Shaped(p, Next(p, cmd, see, setting))
  {
    var i, run := p.Top().tx.value, cmd.run;
    var (q, _) := RunOn(p, i, see, setting, run);
    assert q.stack == p.stack[i := p.stack[i].(kind := q.stack[i].kind)];
  }

  lemma ScopeIsShaped(p: Process, cmd: Command, see: Rows, setting: Setting)
    requires p.Sound() && !p.InBatch() && RunsOn(p, cmd).None? && !Next(p, cmd, see, setting).Through?
    ensures Shaped(p, Next(p, cmd, see, setting))
  {
    hide Execute, RunOn;
    assert p.SoundFrame(|p.stack| - 1);
  }

  lemma StepsStaySound(y: System, s: State, a: Action)
    requires Inv(s) && Enabled(y, s, a) && a.Step?
    ensures MoveOf(y, s, a).process.Sound()
  {
    hide Next, PoolInv;
    var p := s.processes[a.p];
    var cmd := y.code(a.p, p.history);
    var setting := SettingOf(y, s, a);
    if RunsOn(p, cmd).Some? {
      StatementsRunAtHome(y, s, a);
      VisibleAtHome(s.rows, p.Top().tenant.value);
    }
    NextStaysSound(p, cmd, Visible(s.rows, setting), setting);
  }

  lemma StayKeepsPool(s: State, p: nat, q: Process)
    requires PoolInv(s) && p in s.processes && s.processes[p].stack != [] && Shaped(s.processes[p], Stay(q))
    ensures PoolInv(s.(processes := s.processes[p := q]))
  {
    var t := s.(processes := s.processes[p := q]);
    forall slot | slot in s.held || OpenedSlot(t, slot) ensures slot in s.held && OpenedSlot(t, slot) && SlotSetting(t, slot) {
      assert OpenedAt(q, slot.frame) <==> OpenedAt(s.processes[p], slot.frame);
      assert OpenedSlot(t, slot) <==> OpenedSlot(s, slot);
      assert slot in s.held && SlotSetting(s, slot);
    }
  }

  /** A slot whose frame and connection are left alone keeps its setting. */
  lemma SameSlot(s: State, t: State, slot: Slot)
    requires slot in s.held && s.held[slot] in s.pool && SlotSetting(s, slot) && OpenedSlot(s, slot)
    requires slot in t.held && t.held[slot] == s.held[slot] && s.held[slot] in t.pool && t.pool[s.held[slot]] == s.pool[s.held[slot]]
    requires slot.process in t.processes && slot.frame < |t.processes[slot.process].stack|
    requires t.processes[slot.process].stack[slot.frame] == s.processes[slot.process].stack[slot.frame]
    ensures OpenedSlot(t, slot) && SlotSetting(t, slot)
  {
  }

  lemma OpenKeepsPool(s: State, p: nat, c: nat, q: Process)
    requires PoolInv(s) && p in s.processes && s.processes[p].stack != [] && Shaped(s.processes[p], Open(q))
    requires c in s.pool && s.pool[c].Pooled?
    ensures PoolInv(s.(pool := s.pool[c := Begun(s.pool[c], q.Top().tenant)],
                       held := s.held[Slot(p, |s.processes[p].stack|) := c], processes := s.processes[p := q]))
  {
    var mine := Slot(p, |s.processes[p].stack|);
    var t := s.(pool := s.pool[c := Begun(s.pool[c], q.Top().tenant)], held := s.held[mine := c], processes := s.processes[p := q]);
    forall slot | slot in t.held || OpenedSlot(t, slot) ensures slot in t.held && OpenedSlot(t, slot) && SlotSetting(t, slot) {
      if slot != mine {
        if slot.process == p { assert slot.frame < |s.processes[p].stack| ==> q.stack[slot.frame] == s.processes[p].stack[slot.frame]; }
        assert OpenedSlot(t, slot) ==> OpenedSlot(s, slot);
        SameSlot(s, t, slot);
      }
    }
  }

  lemma CloseKeepsPool(s: State, p: nat, q: Process, rows: Rows, commits: Writes)
    requires PoolInv(s) && p in s.processes && s.processes[p].stack != [] && Shaped(s.processes[p], Close(q, commits))
    ensures PoolInv(Ended(s.(rows := rows, processes := s.processes[p := q]), Slot(p, |s.processes[p].stack| - 1)))
  {
    var mine := Slot(p, |s.processes[p].stack| - 1);
    assert OpenedSlot(s, mine);
    var t := Ended(s.(rows := rows, processes := s.processes[p := q]), mine);
    forall slot | slot in t.held || OpenedSlot(t, slot) ensures slot in t.held && OpenedSlot(t, slot) && SlotSetting(t, slot) {
      if slot.process == p && slot.frame < |q.stack| { assert q.stack[slot.frame] == s.processes[p].stack[slot.frame]; }
      assert slot != mine;
      assert OpenedSlot(t, slot) ==> OpenedSlot(s, slot);
      SameSlot(s, t, slot);
    }
  }

  lemma KillKeepsPool(y: System, s: State, p: nat)
    requires PoolInv(s) && p in s.processes
    ensures PoolInv(Apply(y, s, Kill(p)))
  {
    var t := Apply(y, s, Kill(p));
    var released := set slot | slot in SlotsOf(s, p) :: s.held[slot];
    forall slot | slot in t.held ensures OpenedSlot(t, slot) && t.held[slot] !in released && SlotSetting(t, slot) {
      assert slot in s.held && SlotSetting(s, slot);
    }
    forall slot | OpenedSlot(t, slot) ensures slot in t.held {
      assert OpenedSlot(s, slot);
    }
    forall c | c in released ensures s.pool[c].Held? && !t.pool[c].setting.Tenant? {
      var slot :| slot in SlotsOf(s, p) && s.held[slot] == c;
    }
  }

  lemma StartKeepsPool(y: System, s: State, p: nat)
    requires PoolInv(s) && p !in s.processes
    ensures PoolInv(Apply(y, s, Start(p)))
  {
    var t := Apply(y, s, Start(p));
    forall slot | slot in t.held || OpenedSlot(t, slot) ensures slot in t.held && OpenedSlot(t, slot) && SlotSetting(t, slot) {
      assert OpenedSlot(t, slot) <==> OpenedSlot(s, slot);
      assert slot in s.held && SlotSetting(s, slot);
    }
  }

  lemma InvStays(y: System, s: State, a: Action)
    requires Inv(s) && Enabled(y, s, a)
    ensures Inv(Apply(y, s, a))
  {
    hide PoolInv, MoveOf;
    match a
    case Start(p) =>
      StartKeepsPool(y, s, p);
      assert forall i: nat :: i < |First(y, p).stack| ==> First(y, p).SoundFrame(i);
    case Starve(p) =>
      var q := s.processes[p].Says(NoConnection);
      SaysStaysSound(s.processes[p], NoConnection);
      assert Shaped(s.processes[p], Stay(q));
      StayKeepsPool(s, p, q);
    case Kill(p) => KillKeepsPool(y, s, p);
    case Step(p, c) =>
      StepsStaySound(y, s, a);
      StepKeepsPool(y, s, p, c);
  }

  lemma StepKeepsPool(y: System, s: State, p: nat, c: nat)
    requires Inv(s) && Enabled(y, s, Step(p, c))
    ensures PoolInv(Apply(y, s, Step(p, c)))
  {
    hide PoolInv, Shaped, Next;
    var m := MoveOf(y, s, Step(p, c));
    MovesAreShaped(y, s, Step(p, c));
    match m
    case Stay(q) => StayKeepsPool(s, p, q);
    case Open(q) =>
      OpensNeedConnections(y, s, Step(p, c));
      OpenKeepsPool(s, p, c, q);
    case Close(q, commits) => CloseKeepsPool(s, p, q, Overlay(s.rows, commits), commits);
    case Through(_, _) => NothingPassesThrough(y, s, Step(p, c));
  }

  lemma OpensNeedConnections(y: System, s: State, a: Action)
    requires Inv(s) && Enabled(y, s, a) && a.Step? && MoveOf(y, s, a).Open?
    ensures NeedsConnection(s.processes[a.p], y.code(a.p, s.processes[a.p].history))
    ensures MoveOf(y, s, a).process.stack != []
  {
  }

  /** A connection back in the pool shows no row at all, and may write none. */
  lemma IdleConnectionsSeeNothing(s: State, c: nat, key: Key)
    requires Inv(s) && c in s.pool && s.pool[c].Pooled?
    ensures !Admits(s.pool[c].setting, key) && Visible(s.rows, s.pool[c].setting) == map[]
  {
  }

  /** Exactly the settings under which the policy shows nothing, whatever the table holds. */
  lemma FailsClosedIff(setting: Setting)
    ensures (forall rows: Rows :: Visible(rows, setting) == map[]) <==> setting.Unset? || setting.Empty?
  {
    if setting.Tenant? {
      var rows: Rows := map[Key(setting.org, 0) := ""];
      assert Key(setting.org, 0) in Visible(rows, setting);
    }
  }

  /**
   * A statement's effect, as its transaction sees it from then on: its deletes gone
   * and its rows there, or, refused or aborted, nothing at all.
   */
  lemma WritesAreSeen(see: Rows, setting: Setting, kind: Kind, run: Statement)
    requires kind.Opened?
    ensures var (after, answer) := Execute(see, setting, kind, run);
            var view := Overlay(see, kind.writes); var e := run(view);
            if answer.Result? then
              && Overlay(see, after.writes) == (view - e.deletes) + e.puts && !after.failed
              && (forall k :: k in e.puts ==> Admits(setting, k))
            else after.writes == kind.writes && after.failed
  {
    var view := Overlay(see, kind.writes);
    OverlayWrites(see, kind.writes, run(view).deletes, run(view).puts);
  }

  /** What a statement answers: an aborted transaction nothing else, a row the policy refuses a refusal, and otherwise the query's own answer on the rows it sees with its transaction's writes laid over them. */
  lemma StatementAnswers(see: Rows, setting: Setting, kind: Kind, run: Statement)
    requires kind.Opened?
    ensures var (after, answer) := Execute(see, setting, kind, run);
            var e := run(Overlay(see, kind.writes));
            var refused := exists k :: k in e.puts && setting != Tenant(k.org);
            && (answer == Aborted <==> kind.failed)
            && (answer == Denied <==> !kind.failed && refused)
            && (!kind.failed && !refused ==> answer == Result(e.answer))
            && after == kind.(writes := after.writes, failed := kind.failed || refused)
            && (after.failed ==> after.writes == kind.writes)
  {
  }

  /** A scope has the transaction it finds itself in: none is in force that was opened for another tenant. */
  lemma HasTxIff(p: Process)
    requires p.Sound()
    ensures p.HasTx() <==> p.stack[|p.stack| - 1].tx.Some?
  {
    assert p.SoundFrame(|p.stack| - 1);
  }

  lemma OverlayWrites(see: Rows, writes: Writes, deletes: set<Key>, puts: Rows)
    ensures var view := Overlay(see, writes);
            var gone: Writes := map k | k in deletes && k in view :: None;
            var put: Writes := map k | k in puts :: Some(puts[k]);
            Overlay(see, writes + gone + put) == (view - deletes) + puts
  {
    var view := Overlay(see, writes);
    var gone: Writes := map k | k in deletes && k in view :: None;
    var put: Writes := map k | k in puts :: Some(puts[k]);
    var now, want := Overlay(see, writes + gone + put), (view - deletes) + puts;
    hide Overlay;
    forall k ensures (k in now <==> k in want) && (k in now ==> now[k] == want[k]) {
      OverlayAt(see, writes + gone + put, k);
      OverlayAt(see, writes, k);
    }
  }

  lemma OverlayAt(rows: Rows, writes: Writes, k: Key)
    ensures k in Overlay(rows, writes) <==> if k in writes then writes[k].Some? else k in rows
    ensures k in Overlay(rows, writes) ==> Overlay(rows, writes)[k] == if k in writes then writes[k].value else rows[k]
  {
  }
}
