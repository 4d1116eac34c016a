// A transaction's statements, chained on one promise: each starts when the one
// before it settles.
// Source: packages/database/src/serial-adapter.ts.

module SerialAdapter {
  import opened LogOrder

  datatype Statement = Query(sql: string) | Execute(sql: string) | Commit | Rollback

  datatype Outcome = Fulfilled(value: string) | Rejected(error: string)

  /** A call of `next`: its `then` hangs on an earlier call's promise, or on one already resolved. */
  datatype Call = Call(statement: Statement, after: Option<nat>, progress: Progress)

  datatype Progress = Waiting | Running | Settled(outcome: Outcome)

  /** What the one connection sees. */
  datatype Event = Starts(call: nat) | Ends(call: nat, outcome: Outcome)

  /** Every call in order, and the one the variable `tail` hangs on. */
  datatype State = State(calls: seq<Call>, tail: Option<nat>, log: seq<Event>)

  datatype Action =
    | Next(statement: Statement)
    // The promise a call waits on has settled: `then(run, run)` runs either way.
    | Start(call: nat)
    | Settle(call: nat, outcome: Outcome)

  function Init(): State {
    State([], None, [])
  }

  predicate Ready(s: State, after: Option<nat>) {
    after.None? || (after.value < |s.calls| && s.calls[after.value].progress.Settled?)
  }

  predicate Enabled(s: State, a: Action) {
    match a
    case Next(_) => true
    case Start(k) => k < |s.calls| && s.calls[k].progress.Waiting? && Ready(s, s.calls[k].after)
    case Settle(k, _) => k < |s.calls| && s.calls[k].progress.Running?
  }

  function With(s: State, k: nat, progress: Progress): seq<Call>
    requires k < |s.calls|
  {
    s.calls[k := s.calls[k].(progress := progress)]
  }

  function Apply(s: State, a: Action): State
    requires Enabled(s, a)
  {
    match a
    case Next(statement) =>
      // `tail` becomes this call's own promise, its rejection caught.
      State(s.calls + [Call(statement, s.tail, Waiting)], Some(|s.calls|), s.log)
    case Start(k) => s.(calls := With(s, k, Running), log := s.log + [Starts(k)])
    case Settle(k, outcome) => s.(calls := With(s, k, Settled(outcome)), log := s.log + [Ends(k, outcome)])
  }

  /** Each call hangs on the one before it, and nothing starts before everything earlier has settled. */
  ghost predicate Inv(s: State) {
    && s.tail == (if s.calls == [] then None else Some(|s.calls| - 1))
    && (forall k :: 0 <= k < |s.calls| ==> s.calls[k].after == if k == 0 then None else Some(k - 1))
    && (forall j, k :: 0 <= j < k < |s.calls| && !s.calls[k].progress.Waiting? ==> s.calls[j].progress.Settled?)
    && Serial(s)
  }

  /** The connection's log: the first call starts and ends, then the second, and so on; a last one may be running. */
  ghost predicate Serial(s: State) {
    && |s.log| <= 2 * |s.calls|
    && (forall i :: 0 <= i < |s.log| ==>
          if i % 2 == 0 then s.log[i] == Starts(i / 2)
          else s.calls[i / 2].progress.Settled? && s.log[i] == Ends(i / 2, s.calls[i / 2].progress.outcome))
    && (forall k :: 0 <= k < |s.calls| ==>
          && (s.calls[k].progress.Waiting? <==> |s.log| <= 2 * k)
          && (s.calls[k].progress.Settled? <==> 2 * k + 1 < |s.log|))
  }

  lemma InvStays(s: State, a: Action)
    requires Inv(s) && Enabled(s, a)
    ensures Inv(Apply(s, a))
  {
    if !a.Next? { LogIsCurrent(s, a); }
  }

  /** What starts is the first call that has not, and what ends is the last that started. */
  lemma LogIsCurrent(s: State, a: Action)
    requires Inv(s) && Enabled(s, a) && !a.Next?
    ensures |s.log| == if a.Start? then 2 * a.call else 2 * a.call + 1
  {
    var k := a.call;
    if a.Start? && k > 0 { assert s.calls[k - 1].progress.Settled?; }
  }

  ghost predicate Runs(s: State, acts: seq<Action>)
    decreases |acts|, 0
  {
    acts == [] ||
    (Runs(s, acts[..|acts| - 1]) && Enabled(After(s, acts[..|acts| - 1]), acts[|acts| - 1]))
  }

  ghost function After(s: State, acts: seq<Action>): State
    requires Runs(s, acts)
    decreases |acts|, 1
  {
    if acts == [] then s else Apply(After(s, acts[..|acts| - 1]), acts[|acts| - 1])
  }

  /** The statements handed over, in the order of the calls. */
  ghost function Given(acts: seq<Action>): seq<Statement> {
    if acts == [] then []
    else Given(acts[..|acts| - 1]) + if acts[|acts| - 1].Next? then [acts[|acts| - 1].statement] else []
  }

  /** Whatever is called, fails or takes its time: the connection runs what it was given, in order, one at a time. */
  lemma {:induction false} EveryRunIsSerial(acts: seq<Action>)
    requires Runs(Init(), acts)
    ensures Inv(After(Init(), acts))
    ensures |After(Init(), acts).calls| == |Given(acts)|
    ensures forall k :: 0 <= k < |Given(acts)| ==> After(Init(), acts).calls[k].statement == Given(acts)[k]
    decreases |acts|
  {
    hide Inv;
    if acts == [] {
      StartsSerial();
    } else {
      EveryRunIsSerial(acts[..|acts| - 1]);
      InvStays(After(Init(), acts[..|acts| - 1]), acts[|acts| - 1]);
    }
  }

  lemma StartsSerial()
    ensures Inv(Init())
  {
  }

  /** Each call settles once, when its own statement does, and as it does: nobody is handed another's outcome. */
  lemma {:induction false} OutcomesAreTheirOwn(acts: seq<Action>, k: nat, outcome: Outcome)
    requires Runs(Init(), acts)
    ensures (k < |After(Init(), acts).calls| && After(Init(), acts).calls[k].progress == Settled(outcome)) <==> Settle(k, outcome) in acts
    decreases |acts|
  {
    hide Inv;
    if acts != [] {
      var before, last := acts[..|acts| - 1], acts[|acts| - 1];
      EveryRunIsSerial(before);
      OutcomesAreTheirOwn(before, k, outcome);
      assert acts == before + [last];
    }
  }

  /** Any statement can be handed over at any time, and one that runs can settle with any outcome. */
  lemma CallersAreNotHeldUp(s: State, statement: Statement, k: nat, outcome: Outcome)
    requires k < |s.calls| && s.calls[k].progress.Running?
    ensures Enabled(s, Next(statement)) && Enabled(s, Settle(k, outcome))
    ensures Apply(s, Settle(k, outcome)).calls == s.calls[k := s.calls[k].(progress := Settled(outcome))]
    ensures Apply(s, Settle(k, outcome)).log == s.log + [Ends(k, outcome)]
  {
  }

  lemma AtMostOneRuns(s: State, j: nat, k: nat)
    requires Inv(s) && j < |s.calls| && k < |s.calls| && s.calls[j].progress.Running? && s.calls[k].progress.Running?
    ensures j == k
  {
  }

  /** A commit or rollback that has started finds every earlier statement settled, and its outcome its caller's own. */
  lemma EarlierHaveSettled(s: State, k: nat, j: nat)
    requires Inv(s) && j < k < |s.calls| && !s.calls[k].progress.Waiting?
    ensures s.calls[j].progress.Settled? && 2 * j + 1 < |s.log|
    ensures s.log[2 * j] == Starts(j) && s.log[2 * j + 1] == Ends(j, s.calls[j].progress.outcome)
  {
    assert (2 * j) / 2 == j && (2 * j + 1) / 2 == j;
  }

  /** Nothing stalls: whatever failed, the next call can start as soon as none is running, and no other can. */
  lemma FailuresDoNotStall(s: State, k: nat)
    requires Inv(s) && k < |s.calls| && s.calls[k].progress.Waiting?
    requires forall j: nat :: j < |s.calls| ==> !s.calls[j].progress.Running?
    ensures Enabled(s, Start(k)) <==> k == 0 || !s.calls[k - 1].progress.Waiting?
    ensures exists j: nat :: j <= k && Enabled(s, Start(j))
  {
    FirstWaiting(s, k);
  }

  lemma {:induction false} FirstWaiting(s: State, k: nat)
    requires Inv(s) && k < |s.calls| && s.calls[k].progress.Waiting?
    requires forall j: nat :: j < |s.calls| ==> !s.calls[j].progress.Running?
    ensures exists j: nat :: j <= k && Enabled(s, Start(j))
  {
    if k > 0 && s.calls[k - 1].progress.Waiting? {
      FirstWaiting(s, k - 1);
    } else {
      assert Enabled(s, Start(k));
    }
  }

  /** The wrapped transaction: one variable, reassigned on every call. */
  class InTurn {
    var state: State

    ghost predicate Valid()
      reads this
    {
      Inv(state)
    }

    constructor ()
      ensures Valid() && state == Init()
    {
      state := Init();
    }

    /** Queues a statement behind everything handed over before. */
    method Next(statement: Statement) returns (call: nat)
      requires Valid()
      modifies this
      ensures Valid() && state == Apply(old(state), Action.Next(statement))
      ensures call == |old(state).calls|
      ensures state == State(old(state).calls + [Call(statement, if call == 0 then None else Some(call - 1), Waiting)], Some(call), old(state).log)
    {
      InvStays(state, Action.Next(statement));
      call := |state.calls|;
      state := Apply(state, Action.Next(statement));
    }

    /** The event loop: one promise reaction, or one settled statement. */
    method Turn(a: Action)
      requires Valid() && Enabled(state, a) && !a.Next?
      modifies this
      ensures Valid() && state == Apply(old(state), a)
    {
      InvStays(state, a);
      state := Apply(state, a);
    }
  }
}
