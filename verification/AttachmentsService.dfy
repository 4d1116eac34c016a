// The attachment service as it runs: one statement or storage call at a time,
// with every other request, sweep and upload free to act in between.
// Sources: apps/api/src/attachments/attachments.service.ts and
// apps/api/src/jobs/maintenance/attachment-sweep.ts.

module AttachmentsService {
  import opened LogOrder
  import opened Attachments
  import opened AttachmentRuns

  /** What one process did, in order. */
  ghost function Own(acts: seq<Action>, p: nat): seq<Action> {
    if acts == [] then []
    else
      var last := acts[|acts| - 1];
      Own(acts[..|acts| - 1], p) + if By(last, p) then [last] else []
  }

  predicate By(a: Action, p: nat) {
    !Processless(a) && a.p == p
  }

  ghost predicate ByOthers(acts: seq<Action>, me: nat) {
    forall i :: 0 <= i < |acts| ==> !By(acts[i], me)
  }

  lemma OwnExtends(acts: seq<Action>, a: Action)
    ensures forall p: nat :: Own(acts + [a], p) == Own(acts, p) + if By(a, p) then [a] else []
  {
    assert (acts + [a])[..|acts|] == acts;
  }

  lemma {:induction false} OthersLeaveMe(limit: Option<nat>, acts: seq<Action>, more: seq<Action>, me: nat)
    requires Runs(Init(limit), acts) && Runs(Init(limit), acts + more) && ByOthers(more, me)
    ensures After(Init(limit), acts + more).PhaseOf(me) == After(Init(limit), acts).PhaseOf(me)
    ensures Own(acts + more, me) == Own(acts, me)
    decreases |more|
  {
    hide Apply, Enabled;
    if more == [] {
      assert acts + more == acts;
    } else {
      var less := more[..|more| - 1];
      assert (acts + more)[..|acts + more| - 1] == acts + less;
      OthersLeaveMe(limit, acts, less, me);
      OthersStay(After(Init(limit), acts + less), more[|more| - 1], me);
    }
  }

  /** The run took the action that is `p`'s own number `n`, from the state `s`. */
  ghost predicate Took(limit: Option<nat>, acts: seq<Action>, p: nat, n: nat, s: State) {
    exists pre, a :: Reaches(Init(limit), pre, s) && pre + [a] <= acts && By(a, p) && |Own(pre, p)| == n
  }

  /** The run passed through `s` when `p` had done `n` things of its own. */
  ghost predicate Stood(limit: Option<nat>, acts: seq<Action>, p: nat, n: nat, s: State) {
    exists pre :: Reaches(Init(limit), pre, s) && pre <= acts && |Own(pre, p)| == n
  }

  lemma TookStays(limit: Option<nat>, acts: seq<Action>, more: seq<Action>)
    requires acts <= more
    ensures forall p, n, s :: Took(limit, acts, p, n, s) ==> Took(limit, more, p, n, s)
    ensures forall p, n, s :: Stood(limit, acts, p, n, s) ==> Stood(limit, more, p, n, s)
  {
    forall p, n, s | Took(limit, acts, p, n, s) ensures Took(limit, more, p, n, s) {
      var pre, a :| Reaches(Init(limit), pre, s) && pre + [a] <= acts && By(a, p) && |Own(pre, p)| == n;
      assert pre + [a] <= more;
    }
  }

  lemma TookNow(limit: Option<nat>, acts: seq<Action>, a: Action, s: State)
    requires Reaches(Init(limit), acts, s)
    ensures forall p: nat :: By(a, p) ==> Took(limit, acts + [a], p, |Own(acts, p)|, s)
    ensures forall p: nat :: Stood(limit, acts, p, |Own(acts, p)|, s)
  {
    assert acts <= acts;
    assert acts + [a] <= acts + [a];
  }

  /** The tenant's rows and counter, and the object store. */
  class Store {
    const limit: Option<nat>
    var state: State
    // Everything that has happened, in order.
    ghost var trace: seq<Action>

    ghost predicate Valid()
      reads this
    {
      Reaches(Init(limit), trace, state)
    }

    constructor (limit: Option<nat>)
      ensures Valid() && trace == [] && this.limit == limit
    {
      this.limit := limit;
      state := Init(limit);
      trace := [];
      new;
      Stands(state);
    }

    /** The state is reachable, so everything every run keeps holds of it. */
    lemma Safe()
      requires Valid()
      ensures Inv(state)
    {
      StorageIsConserved(limit, trace);
    }

    /** Any number of actions by anyone but `me`; callers may rely on no more than that. */
    method Interfere(ghost me: nat)
      requires Valid()
      modifies this
      ensures Valid()
      ensures exists more :: ByOthers(more, me) && trace == old(trace) + more
    {
      assert ByOthers([], me) && trace == old(trace) + [];
    }

    /** What `p` has done in this run. */
    ghost function Did(p: nat): seq<Action>
      reads this
    {
      Own(trace, p)
    }

    /** The state from which this run took `p`'s own action number `n`. */
    ghost predicate DidFrom(p: nat, n: nat, s: State)
      reads this
    {
      Took(limit, trace, p, n, s)
    }

    /** A state this run passed through between `p`'s first `n` actions and its next. */
    ghost predicate WasAt(p: nat, n: nat, s: State)
      reads this
    {
      Stood(limit, trace, p, n, s)
    }

    /** What this run went through stays so. */
    twostate predicate Goes()
      reads this
    {
      && old(trace) <= trace
      && (forall p, n, s :: old(DidFrom(p, n, s)) ==> DidFrom(p, n, s))
      && (forall p, n, s :: old(WasAt(p, n, s)) ==> WasAt(p, n, s))
    }

    method Pause(ghost me: nat)
      requires Valid()
      modifies this
      ensures Valid() && state.PhaseOf(me) == old(state).PhaseOf(me) && Did(me) == old(Did(me))
      ensures Goes() && WasAt(me, |Did(me)|, state)
    {
      hide Runs, After, Own, Took, Stood;
      Interfere(me);
      ghost var more :| ByOthers(more, me) && trace == old(trace) + more;
      OthersLeaveMe(limit, old(trace), more, me);
      TookStays(limit, old(trace), trace);
      TookNow(limit, trace, Crash(me), state);
    }

    /** One atomic action, after whatever others did meanwhile. */
    method Act(a: Action)
      requires Valid() && Enabled(state, a)
      modifies this
      ensures Valid() && state == Apply(old(state), a)
      ensures forall p: nat :: Did(p) == old(Did(p)) + if By(a, p) then [a] else []
      ensures Goes() && forall p: nat :: By(a, p) ==> DidFrom(p, |old(Did(p))|, old(state))
      ensures forall p: nat :: WasAt(p, |Did(p)|, state)
    {
      hide Apply, Enabled, Runs, After, Own, Took, Stood;
      TookStays(limit, trace, trace + [a]);
      TookNow(limit, trace, a, state);
      Extend(Init(limit), trace, state, a);
      OwnExtends(trace, a);
      state := Apply(state, a);
      trace := trace + [a];
      TookNow(limit, trace, a, state);
    }
  }

  // ---- Where each step leaves its process ----

  lemma GivesUp(s: State, p: nat)
    requires !s.PhaseOf(p).Idle?
    ensures Enabled(s, Crash(p)) && Apply(s, Crash(p)).PhaseOf(p).Idle?
  {
  }

  lemma PresignMoves(s: State, p: nat, size: nat)
    requires s.PhaseOf(p).Idle? && s.Fits(size)
    ensures Enabled(s, Presign(p, size)) && Apply(s, Presign(p, size)).PhaseOf(p) == Presigning(s.nextKey, size)
    ensures var t := Apply(s, Presign(p, size));
            t.rows == s.rows[s.nextId := Row(s.nextKey, size, PENDING)] && t.used == s.used + size
  {
  }

  lemma SignMoves(s: State, p: nat)
    requires s.PhaseOf(p).Presigning?
    ensures Enabled(s, Sign(p)) && Apply(s, Sign(p)).PhaseOf(p).Idle?
    ensures Apply(s, Sign(p)).urls == s.urls[s.PhaseOf(p).key := s.PhaseOf(p).size]
  {
  }

  lemma FindMoves(s: State, p: nat, id: nat)
    requires s.PhaseOf(p).Idle? && id in s.rows && s.rows[id].status.PENDING?
    ensures Enabled(s, Find(p, id)) && Apply(s, Find(p, id)).PhaseOf(p) == Found(id, s.rows[id].key, s.rows[id].size)
  {
  }

  lemma SniffMoves(s: State, p: nat, ok: bool)
    requires s.PhaseOf(p).Found? && Staged(s.PhaseOf(p).key) in s.objects
    requires ok ==> s.objects[Staged(s.PhaseOf(p).key)] == s.PhaseOf(p).size
    ensures Enabled(s, Sniff(p, ok))
    ensures var c := s.PhaseOf(p);
            Apply(s, Sniff(p, ok)).PhaseOf(p) == if ok then Sniffed(c.id, c.key, c.size) else Refusing(c.key)
  {
  }

  lemma CopyMoves(s: State, p: nat)
    requires s.PhaseOf(p).Sniffed? && Staged(s.PhaseOf(p).key) in s.objects
    ensures var c := s.PhaseOf(p); Enabled(s, Copy(p)) && Apply(s, Copy(p)).PhaseOf(p) == Copied(c.id, c.key, c.size)
  {
  }

  lemma UnstageMoves(s: State, p: nat, gone: bool)
    requires s.PhaseOf(p).Copied? || s.PhaseOf(p).Refusing?
    ensures Enabled(s, RemoveStaged(p, gone))
    ensures var c := s.PhaseOf(p);
            Apply(s, RemoveStaged(p, gone)).PhaseOf(p) == if c.Copied? then Cleaned(c.id, c.key, c.size) else Idle
  {
  }

  lemma MarkMoves(s: State, p: nat)
    requires s.PhaseOf(p).Cleaned?
    ensures Enabled(s, MarkReady(p))
    ensures var c, t := s.PhaseOf(p), Apply(s, MarkReady(p));
            if c.id in s.rows && s.rows[c.id].status.PENDING?
            then t.PhaseOf(p).Idle? && t.rows == s.rows[c.id := s.rows[c.id].(status := READY)]
            else t.PhaseOf(p) == Losing(c.id, c.key) && t.rows == s.rows
  {
  }

  lemma UnfinalMoves(s: State, p: nat, gone: bool)
    ensures s.PhaseOf(p).Losing? ==> Enabled(s, RemoveLost(p, gone)) && Apply(s, RemoveLost(p, gone)).PhaseOf(p).Idle?
    ensures s.PhaseOf(p).Failing? ==> Enabled(s, RemoveFailed(p, gone)) && Apply(s, RemoveFailed(p, gone)).PhaseOf(p).Idle?
  {
  }

  lemma PutMoves(s: State, p: nat, size: nat)
    requires s.PhaseOf(p).Idle?
    ensures Enabled(s, Put(p, size)) && Apply(s, Put(p, size)).PhaseOf(p) == Stored(s.nextKey, size)
  {
  }

  lemma CreateMoves(s: State, p: nat)
    requires s.PhaseOf(p).Stored?
    ensures Enabled(s, CreateFails(p)) && Apply(s, CreateFails(p)).PhaseOf(p) == Failing(s.PhaseOf(p).key, None)
    ensures s.Fits(s.PhaseOf(p).size) ==>
              && Enabled(s, CreateReady(p)) && Apply(s, CreateReady(p)).PhaseOf(p).Idle?
              && Enabled(s, CreateUnheard(p)) && Apply(s, CreateUnheard(p)).PhaseOf(p) == Failing(s.PhaseOf(p).key, Some(s.nextId))
  {
  }

  lemma RemoveMoves(s: State, p: nat, id: nat)
    requires s.PhaseOf(p).Idle? && id in s.rows && s.rows[id].status.READY?
    ensures Enabled(s, Remove(p, id)) && Apply(s, Remove(p, id)).PhaseOf(p) == Removing({Final(s.rows[id].key)})
  {
  }

  lemma SweepMoves(s: State, p: nat, ids: seq<nat>)
    requires s.PhaseOf(p).Idle? && ids != [] && Abandoned(s.rows, ids)
    ensures Enabled(s, Sweep(p, ids)) && Apply(s, Sweep(p, ids)).PhaseOf(p) == Removing(PlacesOf(s.rows, ids))
  {
  }

  lemma RemoveObjectMoves(s: State, p: nat, place: Place, gone: bool)
    requires s.PhaseOf(p).Removing? && place in s.PhaseOf(p).objects
    ensures Enabled(s, RemoveObject(p, place, gone))
    ensures var left := s.PhaseOf(p).objects - {place};
            Apply(s, RemoveObject(p, place, gone)).PhaseOf(p) == if left == {} then Idle else Removing(left)
  {
  }

  // ---- What a request leaves behind ----

  lemma KeptIsThere(s: State, p: nat)
    requires Inv(s) && s.PhaseOf(p).Stored? && s.Fits(s.PhaseOf(p).size)
    ensures Enabled(s, CreateReady(p))
    ensures var c, t := s.PhaseOf(p), Apply(s, CreateReady(p));
            s.nextId in t.rows && t.rows[s.nextId] == Row(c.key, c.size, READY) && HasObject(t, c.key, c.size)
  {
    assert PhaseCopy(s, s.phases[p]);
  }

  lemma RefusedLeavesNothing(s: State, p: nat, gone: bool)
    requires Inv(s) && s.PhaseOf(p).Failing? && s.PhaseOf(p).row.None?
    ensures Enabled(s, RemoveFailed(p, gone))
    ensures var key, t := s.PhaseOf(p).key, Apply(s, RemoveFailed(p, gone));
            (forall id :: id in t.rows ==> t.rows[id].key != key) && (gone ==> Final(key) !in t.objects)
  {
    assert PhaseKeys(s, p, s.phases[p]);
  }

  lemma CompletedIsThere(s: State, p: nat, id: nat)
    requires Inv(s) && s.PhaseOf(p).Cleaned? && s.PhaseOf(p).id == id && id in s.rows && s.rows[id].status.PENDING?
    ensures Enabled(s, MarkReady(p)) && id in Apply(s, MarkReady(p)).rows
    ensures var t := Apply(s, MarkReady(p)); t.rows[id].status.READY? && HasObject(t, t.rows[id].key, t.rows[id].size)
  {
    MarkedRowHasObject(s, p, id);
  }

  /** A removal gives back exactly the file's bytes: the counter never had to be floored. */
  lemma RemovedIsGivenBack(s: State, p: nat, id: nat)
    requires Inv(s) && s.PhaseOf(p).Idle? && id in s.rows && s.rows[id].status.READY?
    ensures Enabled(s, Remove(p, id))
    ensures var t := Apply(s, Remove(p, id)); t.rows == s.rows - {id} && t.used + s.rows[id].size == s.used
  {
    TotalWithout(s.rows, id);
  }

  lemma ObjectIsGone(s: State, p: nat, place: Place)
    requires s.PhaseOf(p).Removing? && place in s.PhaseOf(p).objects
    ensures Enabled(s, RemoveObject(p, place, true)) && place !in Apply(s, RemoveObject(p, place, true)).objects
  {
  }

  // ---- What each request does ----

  /** How each call of a `complete` turns out: whether it gets an answer, and whether the bytes are of the declared kind. */
  datatype Calls = Calls(sized: bool, read: bool, genuine: bool, copied: bool, cleared: bool, marked: bool, takenBack: bool)

  /** How far a `complete` got. */
  datatype Completion =
    | NotPending
    | NoAnswer
    | NothingUploaded
    | Rejected
    | NotCopied
    | NotMarked
    | Lost
    | Completed

  function CompletionActions(c: Completion, calls: Calls, p: nat, id: nat): seq<Action> {
    match c
    case NotPending => []
    case NoAnswer => [Find(p, id), Crash(p)]
    case NothingUploaded => [Find(p, id), Crash(p)]
    case Rejected => [Find(p, id), Sniff(p, false), RemoveStaged(p, calls.cleared)]
    case NotCopied => [Find(p, id), Sniff(p, true), Crash(p)]
    case NotMarked => [Find(p, id), Sniff(p, true), Copy(p), RemoveStaged(p, calls.cleared), Crash(p)]
    case Lost => [Find(p, id), Sniff(p, true), Copy(p), RemoveStaged(p, calls.cleared), MarkReady(p), RemoveLost(p, calls.takenBack)]
    case Completed => [Find(p, id), Sniff(p, true), Copy(p), RemoveStaged(p, calls.cleared), MarkReady(p)]
  }

  /** How far a `presign` got. */
  datatype Presigned = StorageFull | NotSigned | Signed

  function PresignActions(r: Presigned, p: nat, size: nat): seq<Action> {
    match r
    case StorageFull => []
    case NotSigned => [Presign(p, size), Crash(p)]
    case Signed => [Presign(p, size), Sign(p)]
  }

  datatype Ingested = NotStored | Refused | Unheard | Kept

  /** How an ingest's transaction turns out, if the plan has room for it. */
  datatype Commit = Commits | CommitsUnheard | RollsBack

  function IngestActions(r: Ingested, gone: bool, p: nat, size: nat): seq<Action> {
    match r
    case NotStored => [Put(p, size), Crash(p)]
    case Refused => [Put(p, size), CreateFails(p), RemoveFailed(p, gone)]
    case Unheard => [Put(p, size), CreateUnheard(p), RemoveFailed(p, gone)]
    case Kept => [Put(p, size), CreateReady(p)]
  }

  class AttachmentsService {
    const store: Store

    constructor (store: Store)
      ensures this.store == store
    {
      this.store := store;
    }

    /** The row and its quota commit together, before the URL exists; a full plan leaves no row. */
    method Presign(p: nat, size: nat, signs: bool) returns (r: Presigned, ghost seen: State, ghost made: State)
      requires store.Valid() && store.state.PhaseOf(p).Idle?
      modifies store
      ensures store.Valid() && store.state.PhaseOf(p).Idle? && store.Goes()
      ensures store.Did(p) == old(store.Did(p)) + PresignActions(r, p, size)
      ensures store.WasAt(p, |old(store.Did(p))|, seen)
      ensures r == if seen.limit.Some? && seen.used + size > seen.limit.value then StorageFull else if signs then Signed else NotSigned
      ensures !r.StorageFull? ==>
                && store.DidFrom(p, |old(store.Did(p))|, seen) && store.WasAt(p, |old(store.Did(p))| + 1, made)
                && made.rows == seen.rows[seen.nextId := Row(seen.nextKey, size, PENDING)] && made.used == seen.used + size
      ensures r.Signed? ==> seen.nextKey in store.state.urls && store.state.urls[seen.nextKey] == size
    {
      hide Apply, Enabled, Reaches, Own, Store.Did, Store.DidFrom, Store.WasAt;
      store.Pause(p);
      seen, made := store.state, store.state;
      if !store.state.Fits(size) { return StorageFull, seen, made; }
      PresignMoves(store.state, p, size);
      store.Act(Attachments.Presign(p, size));
      made := store.state;
      store.Pause(p);
      if !signs {
        GivesUp(store.state, p);
        store.Act(Crash(p));
        return NotSigned, seen, made;
      }
      SignMoves(store.state, p);
      store.Act(Sign(p));
      r := Signed;
    }

    /**
     * Sniffs what is staged, copies it, clears staging, and only then marks the
     * row. `found`, `staged`, `copied` and `marked` are the states it read the row,
     * looked at the bytes, copied and marked in: every answer is by its cause in
     * those and in the calls that fail. With every call answered, a PENDING row
     * whose bytes are right and stay ends completed, or lost to whoever took it.
     */
    method Complete(p: nat, id: nat, calls: Calls)
      returns (c: Completion, ghost found: State, ghost staged: State, ghost copied: State, ghost marked: State)
      requires store.Valid() && store.state.PhaseOf(p).Idle?
      modifies store
      ensures store.Valid() && store.state.PhaseOf(p).Idle? && store.Goes()
      ensures store.Did(p) == old(store.Did(p)) + CompletionActions(c, calls, p, id)
      ensures var n := |old(store.Did(p))|;
              && store.WasAt(p, n, found)
              && (c != NotPending ==> store.DidFrom(p, n, found) && store.DidFrom(p, n + 1, staged))
              && (c in {NotCopied, NotMarked, Lost, Completed} ==> store.DidFrom(p, n + 2, copied))
              && (c in {NotMarked, Lost, Completed} ==> store.DidFrom(p, n + 4, marked))
      ensures if id !in found.rows || found.rows[id].status == READY then c == NotPending
              else
                var key, size := found.rows[id].key, found.rows[id].size;
                c == if !calls.sized then NoAnswer
                     else if Staged(key) !in staged.objects then NothingUploaded
                     else if staged.objects[Staged(key)] != size then Rejected
                     else if !calls.read then NoAnswer
                     else if !calls.genuine then Rejected
                     else if !calls.copied || Staged(key) !in copied.objects then NotCopied
                     else if !calls.marked then NotMarked
                     else if id in marked.rows && marked.rows[id].status == PENDING then Completed
                     else Lost
      ensures c.Completed? ==>
                var rows := store.state.rows; id in rows && rows[id].status.READY? && HasObject(store.state, rows[id].key, rows[id].size)
    {
      hide Apply, Enabled, Reaches, Own, HasObject, Store.Did, Store.DidFrom, Store.WasAt;
      store.Pause(p);
      found, staged, copied, marked := store.state, store.state, store.state, store.state;
      if id !in store.state.rows || store.state.rows[id].status.READY? {
        return NotPending, found, staged, copied, marked;
      }
      FindMoves(store.state, p, id);
      store.Act(Find(p, id));
      var row := store.state.PhaseOf(p);
      c, staged := Check(p, row, calls);
      if c.NotCopied? {
        c, copied, marked := Move(p, row, calls);
      }
    }

    /** Looks at the staged bytes; `NotCopied` means they passed, and the process goes on. */
    method Check(p: nat, row: Phase, calls: Calls) returns (c: Completion, ghost staged: State)
      requires store.Valid() && row.Found? && store.state.PhaseOf(p) == row
      modifies store
      ensures store.Valid() && store.Goes()
      ensures store.state.PhaseOf(p) == if c.NotCopied? then Sniffed(row.id, row.key, row.size) else Idle
      ensures store.Did(p) == old(store.Did(p)) +
                              match c
                              case Rejected => [Sniff(p, false), RemoveStaged(p, calls.cleared)]
                              case NotCopied => [Sniff(p, true)]
                              case _ => [Crash(p)]
      ensures store.DidFrom(p, |old(store.Did(p))|, staged)
      ensures c == if !calls.sized then NoAnswer
                   else if Staged(row.key) !in staged.objects then NothingUploaded
                   else if staged.objects[Staged(row.key)] != row.size then Rejected
                   else if !calls.read then NoAnswer
                   else if !calls.genuine then Rejected
                   else NotCopied
    {
      hide Apply, Enabled, Reaches, Own, Store.Did, Store.DidFrom, Store.WasAt;
      store.Pause(p);
      staged := store.state;
      if !calls.sized || Staged(row.key) !in store.state.objects {
        GivesUp(store.state, p);
        store.Act(Crash(p));
        return if calls.sized then NothingUploaded else NoAnswer, staged;
      }
      var right := store.state.objects[Staged(row.key)] == row.size;
      if right && !calls.read {
        GivesUp(store.state, p);
        store.Act(Crash(p));
        return NoAnswer, staged;
      }
      SniffMoves(store.state, p, right && calls.genuine);
      store.Act(Sniff(p, right && calls.genuine));
      c := NotCopied;
      if !right || !calls.genuine {
        store.Pause(p);
        UnstageMoves(store.state, p, calls.cleared);
        store.Act(RemoveStaged(p, calls.cleared));
        c := Rejected;
      }
    }

    /** Copies what was checked, clears staging and marks the row. */
    method Move(p: nat, row: Phase, calls: Calls) returns (c: Completion, ghost copied: State, ghost marked: State)
      requires store.Valid() && row.Found? && store.state.PhaseOf(p) == Sniffed(row.id, row.key, row.size)
      modifies store
      ensures store.Valid() && store.state.PhaseOf(p).Idle? && store.Goes()
      ensures store.Did(p) == old(store.Did(p)) +
                              match c
                              case NotCopied => [Crash(p)]
                              case NotMarked => [Copy(p), RemoveStaged(p, calls.cleared), Crash(p)]
                              case Lost => [Copy(p), RemoveStaged(p, calls.cleared), MarkReady(p), RemoveLost(p, calls.takenBack)]
                              case _ => [Copy(p), RemoveStaged(p, calls.cleared), MarkReady(p)]
      ensures store.DidFrom(p, |old(store.Did(p))|, copied)
      ensures !c.NotCopied? ==> store.DidFrom(p, |old(store.Did(p))| + 2, marked)
      ensures c == if !calls.copied || Staged(row.key) !in copied.objects then NotCopied
                   else if !calls.marked then NotMarked
                   else if row.id in marked.rows && marked.rows[row.id].status == PENDING then Completed
                   else Lost
      ensures c.Completed? ==>
                var rows := store.state.rows;
                row.id in rows && rows[row.id].status.READY? && HasObject(store.state, rows[row.id].key, rows[row.id].size)
    {
      hide Apply, Enabled, Reaches, Own, HasObject, Store.Did, Store.DidFrom, Store.WasAt;
      c := NotCopied;
      var copies;
      copies, copied := Transfer(p, row, calls);
      marked := copied;
      if copies {
        c, marked := Mark(p, row, calls);
      }
    }

    /** The copy to where no upload URL reaches, and then, best effort, the staged bytes. */
    method Transfer(p: nat, row: Phase, calls: Calls) returns (copies: bool, ghost copied: State)
      requires store.Valid() && row.Found? && store.state.PhaseOf(p) == Sniffed(row.id, row.key, row.size)
      modifies store
      ensures store.Valid() && store.Goes()
      ensures store.state.PhaseOf(p) == if copies then Cleaned(row.id, row.key, row.size) else Idle
      ensures store.Did(p) == old(store.Did(p)) + if copies then [Copy(p), RemoveStaged(p, calls.cleared)] else [Crash(p)]
      ensures store.DidFrom(p, |old(store.Did(p))|, copied)
      ensures copies <==> calls.copied && Staged(row.key) in copied.objects
    {
      hide Apply, Enabled, Reaches, Own, Store.Did, Store.DidFrom, Store.WasAt;
      store.Pause(p);
      copied := store.state;
      copies := calls.copied && Staged(row.key) in store.state.objects;
      if copies {
        CopyMoves(store.state, p);
        store.Act(Copy(p));
        store.Pause(p);
        UnstageMoves(store.state, p, calls.cleared);
        store.Act(RemoveStaged(p, calls.cleared));
      } else {
        GivesUp(store.state, p);
        store.Act(Crash(p));
      }
    }

    /** Marks the row in a transaction; the copy goes if the row is not PENDING any more. */
    method Mark(p: nat, row: Phase, calls: Calls) returns (c: Completion, ghost marked: State)
      requires store.Valid() && row.Found? && store.state.PhaseOf(p) == Cleaned(row.id, row.key, row.size)
      modifies store
      ensures store.Valid() && store.state.PhaseOf(p).Idle? && store.Goes()
      ensures store.Did(p) == old(store.Did(p)) +
                              match c
                              case NotMarked => [Crash(p)]
                              case Lost => [MarkReady(p), RemoveLost(p, calls.takenBack)]
                              case _ => [MarkReady(p)]
      ensures store.DidFrom(p, |old(store.Did(p))|, marked)
      ensures c == if !calls.marked then NotMarked
                   else if row.id in marked.rows && marked.rows[row.id].status == PENDING then Completed
                   else Lost
      ensures c.Completed? ==>
                var rows := store.state.rows;
                row.id in rows && rows[row.id].status.READY? && HasObject(store.state, rows[row.id].key, rows[row.id].size)
    {
      hide Apply, Enabled, Reaches, Own, Inv, HasObject, Store.Did, Store.DidFrom, Store.WasAt;
      store.Pause(p);
      marked := store.state;
      if !calls.marked {
        GivesUp(store.state, p);
        store.Act(Crash(p));
        return NotMarked, marked;
      }
      MarkMoves(store.state, p);
      if row.id in store.state.rows && store.state.rows[row.id].status.PENDING? {
        store.Safe();
        CompletedIsThere(store.state, p, row.id);
      }
      store.Act(MarkReady(p));
      if store.state.PhaseOf(p).Idle? { return Completed, marked; }
      store.Pause(p);
      UnfinalMoves(store.state, p, calls.takenBack);
      store.Act(RemoveLost(p, calls.takenBack));
      c := Lost;
    }

    /** Bytes first, at a key of their own, then the row; whatever the transaction did, a failure takes the bytes back. */
    method Ingest(p: nat, size: nat, stores: bool, commit: Commit, gone: bool)
      returns (r: Ingested, ghost put: State, ghost seen: State)
      requires store.Valid() && store.state.PhaseOf(p).Idle?
      modifies store
      ensures store.Valid() && store.state.PhaseOf(p).Idle? && store.Goes()
      ensures store.Did(p) == old(store.Did(p)) + IngestActions(r, gone, p, size)
      ensures store.DidFrom(p, |old(store.Did(p))|, put) && store.DidFrom(p, |old(store.Did(p))| + 1, seen)
      ensures r == if !stores then NotStored
                   else if commit.RollsBack? || (seen.limit.Some? && seen.used + size > seen.limit.value) then Refused
                   else if commit.CommitsUnheard? then Unheard else Kept
      ensures var now, key, id := store.state, put.nextKey, seen.nextId;
              && (r.Kept? ==> id in now.rows && now.rows[id] == Row(key, size, READY) && HasObject(now, key, size))
              && (r.Refused? ==> (forall j :: j in now.rows ==> now.rows[j].key != key) && (gone ==> Final(key) !in now.objects))
    {
      hide Apply, Enabled, Reaches, Own, Inv, HasObject, Store.Did, Store.DidFrom, Store.WasAt;
      store.Pause(p);
      put := store.state;
      PutMoves(store.state, p, size);
      store.Act(Put(p, size));
      store.Pause(p);
      seen := store.state;
      if !stores {
        GivesUp(store.state, p);
        store.Act(Crash(p));
        return NotStored, put, seen;
      }
      r := Enter(p, size, put.nextKey, commit, gone);
    }

    /** The transaction of an ingest whose object is stored, and what a failure of it takes back. */
    method Enter(p: nat, size: nat, ghost key: nat, commit: Commit, gone: bool) returns (r: Ingested)
      requires store.Valid() && store.state.PhaseOf(p) == Stored(key, size)
      modifies store
      ensures store.Valid() && store.state.PhaseOf(p).Idle? && store.Goes()
      ensures store.Did(p) == old(store.Did(p)) +
                              match r
                              case Refused => [CreateFails(p), RemoveFailed(p, gone)]
                              case Unheard => [CreateUnheard(p), RemoveFailed(p, gone)]
                              case _ => [CreateReady(p)]
      ensures store.DidFrom(p, |old(store.Did(p))|, old(store.state))
      ensures var seen := old(store.state);
              r == if commit.RollsBack? || (seen.limit.Some? && seen.used + size > seen.limit.value) then Refused
                   else if commit.CommitsUnheard? then Unheard else Kept
      ensures var now, id := store.state, old(store.state).nextId;
              && (r.Kept? ==> id in now.rows && now.rows[id] == Row(key, size, READY) && HasObject(now, key, size))
              && (r.Refused? ==> (forall j :: j in now.rows ==> now.rows[j].key != key) && (gone ==> Final(key) !in now.objects))
    {
      hide Apply, Enabled, Reaches, Own, Inv, HasObject, Store.Did, Store.DidFrom, Store.WasAt;
      CreateMoves(store.state, p);
      if store.state.Fits(size) && commit.Commits? {
        store.Safe();
        KeptIsThere(store.state, p);
        store.Act(CreateReady(p));
        return Kept;
      }
      r := if store.state.Fits(size) && commit.CommitsUnheard? then Unheard else Refused;
      store.Act(if r.Unheard? then CreateUnheard(p) else CreateFails(p));
      store.Pause(p);
      UnfinalMoves(store.state, p, gone);
      store.Safe();
      if r.Refused? { RefusedLeavesNothing(store.state, p, gone); }
      store.Act(RemoveFailed(p, gone));
    }

    /** Only a READY file; its row and quota go first, then its object, best effort. */
    method Remove(p: nat, id: nat, gone: bool) returns (removed: bool, ghost seen: State, ghost left: State)
      requires store.Valid() && store.state.PhaseOf(p).Idle?
      modifies store
      ensures store.Valid() && store.state.PhaseOf(p).Idle? && store.Goes()
      ensures store.WasAt(p, |old(store.Did(p))|, seen)
      ensures removed <==> id in seen.rows && seen.rows[id].status == READY
      ensures store.Did(p) == old(store.Did(p)) +
                              if removed then [Attachments.Remove(p, id), RemoveObject(p, Final(seen.rows[id].key), gone)] else []
      ensures removed ==>
                && store.DidFrom(p, |old(store.Did(p))|, seen) && store.WasAt(p, |old(store.Did(p))| + 1, left)
                && left.rows == seen.rows - {id} && left.used + seen.rows[id].size == seen.used
      ensures removed && gone ==> Final(seen.rows[id].key) !in store.state.objects
    {
      hide Apply, Enabled, Reaches, Own, Inv, Store.Did, Store.DidFrom, Store.WasAt;
      store.Pause(p);
      seen, left := store.state, store.state;
      removed := id in store.state.rows && store.state.rows[id].status.READY?;
      if removed {
        var key := store.state.rows[id].key;
        RemoveMoves(store.state, p, id);
        store.Safe();
        RemovedIsGivenBack(store.state, p, id);
        store.Act(Attachments.Remove(p, id));
        left := store.state;
        store.Pause(p);
        RemoveObjectMoves(store.state, p, Final(key), gone);
        if gone { ObjectIsGone(store.state, p, Final(key)); }
        store.Act(RemoveObject(p, Final(key), gone));
      }
    }
  }

  // ---- The sweep ----

  /** Rows a sweep's transaction takes at most, and transactions in one sweep. */
  const BATCH: nat := 100
  const MAX_BATCHES: nat := 20

  /** One transaction of the sweep, the state it ran in, and the deletions after it. */
  datatype AnyBatch = Batch(ids: seq<nat>, from: State, gone: seq<bool>)
  {
    function Keys(): seq<nat>
      requires Abandoned(from.rows, ids)
    {
      KeysOf(from.rows, ids)
    }
  }

  type Batch = b: AnyBatch | 1 <= |b.ids| <= BATCH && Abandoned(b.from.rows, b.ids) && |b.gone| == 2 * |b.ids|
    witness AnyBatch.Batch([0], Init(None).(rows := map[0 := Row(0, 0, PENDING)]), [false, false])

  /** An upload the sweep may take: PENDING, presigned before the cutoff, and its row not locked. Ids are given out in order of time. */
  predicate Due(rows: map<nat, Row>, cutoff: nat, locked: set<nat>, id: nat) {
    id in rows && rows[id].status.PENDING? && id < cutoff && id !in locked
  }

  /** The query: due rows from id `k` on, oldest first, at most `limit`. */
  function OldestFrom(rows: map<nat, Row>, cutoff: nat, locked: set<nat>, k: nat, limit: nat): seq<nat>
    decreases cutoff - k
  {
    if k >= cutoff || limit == 0 then []
    else if Due(rows, cutoff, locked, k) then [k] + OldestFrom(rows, cutoff, locked, k + 1, limit - 1)
    else OldestFrom(rows, cutoff, locked, k + 1, limit)
  }

  /** At most `limit` due rows, in order, and all of them unless there are older ones to fill the limit. */
  ghost predicate Oldest(ids: seq<nat>, rows: map<nat, Row>, cutoff: nat, locked: set<nat>, limit: nat) {
    && |ids| <= limit
    && (forall i, j :: 0 <= i < j < |ids| ==> ids[i] < ids[j])
    && (forall id :: id in ids ==> Due(rows, cutoff, locked, id))
    && (forall id :: Due(rows, cutoff, locked, id) && id !in ids ==> |ids| == limit && forall taken :: taken in ids ==> taken < id)
  }

  lemma {:induction false} OldestFromIsOldest(rows: map<nat, Row>, cutoff: nat, locked: set<nat>, k: nat, limit: nat)
    ensures var ids := OldestFrom(rows, cutoff, locked, k, limit);
            && |ids| <= limit && (forall i, j :: 0 <= i < j < |ids| ==> ids[i] < ids[j])
            && (forall id :: id in ids ==> k <= id && Due(rows, cutoff, locked, id))
            && (forall id :: Due(rows, cutoff, locked, id) && k <= id && id !in ids ==> |ids| == limit && forall taken :: taken in ids ==> taken < id)
    decreases cutoff - k
  {
    if k < cutoff && limit > 0 {
      var due := Due(rows, cutoff, locked, k);
      OldestFromIsOldest(rows, cutoff, locked, k + 1, if due then limit - 1 else limit);
      var rest := OldestFrom(rows, cutoff, locked, k + 1, if due then limit - 1 else limit);
      assert forall j :: 0 <= j < |rest| ==> rest[j] in rest;
    }
  }

  lemma QueryTakesTheOldest(rows: map<nat, Row>, cutoff: nat, locked: set<nat>)
    ensures var ids := OldestFrom(rows, cutoff, locked, 0, BATCH); Oldest(ids, rows, cutoff, locked, BATCH) && Abandoned(rows, ids)
  {
    OldestFromIsOldest(rows, cutoff, locked, 0, BATCH);
    var ids := OldestFrom(rows, cutoff, locked, 0, BATCH);
    assert forall j :: 0 <= j < |ids| ==> ids[j] in ids;
  }

  lemma TakesSome(ids: seq<nat>, rows: map<nat, Row>, cutoff: nat, locked: set<nat>)
    requires Oldest(ids, rows, cutoff, locked, BATCH)
    ensures |ids| <= BATCH
  {
  }

  lemma NothingDue(rows: map<nat, Row>, cutoff: nat, locked: set<nat>)
    requires Oldest([], rows, cutoff, locked, BATCH)
    ensures forall id :: !Due(rows, cutoff, locked, id)
  {
  }

  /** A pending upload's bytes are in staging, or, copied just before the sweep took its row, at the final key too. */
  function PlaceAt(keys: seq<nat>, k: nat): Place
    requires k < 2 * |keys|
  {
    if k % 2 == 0 then Staged(keys[k / 2]) else Final(keys[k / 2])
  }

  function Deletions(p: nat, keys: seq<nat>, gone: seq<bool>): seq<Action>
    requires |gone| <= 2 * |keys|
  {
    seq(|gone|, k requires 0 <= k < |gone| => RemoveObject(p, PlaceAt(keys, k), gone[k]))
  }

  ghost function SweepActions(p: nat, batches: seq<Batch>): seq<Action>
  {
    if batches == [] then []
    else
      var b := batches[|batches| - 1];
      SweepActions(p, batches[..|batches| - 1]) + ([Sweep(p, b.ids)] + Deletions(p, b.Keys(), b.gone))
  }

  ghost function Swept(batches: seq<Batch>): nat {
    if batches == [] then 0 else Swept(batches[..|batches| - 1]) + |batches[|batches| - 1].ids|
  }

  lemma NothingYet(p: nat)
    ensures SweepActions(p, []) == [] && Swept([]) == 0
  {
  }

  /** What is left to delete from the `k`-th place on. */
  function LeftFrom(keys: seq<nat>, k: nat): set<Place> {
    set j | k <= j < 2 * |keys| :: PlaceAt(keys, j)
  }

  predicate Distinct(keys: seq<nat>) {
    forall i, j :: 0 <= i < j < |keys| ==> keys[i] != keys[j]
  }

  function KeysOf(rows: map<nat, Row>, ids: seq<nat>): seq<nat>
    requires Abandoned(rows, ids)
  {
    seq(|ids|, k requires 0 <= k < |ids| => rows[ids[k]].key)
  }

  lemma LeftShrinks(keys: seq<nat>, k: nat)
    requires Distinct(keys) && k < 2 * |keys|
    ensures PlaceAt(keys, k) in LeftFrom(keys, k)
    ensures LeftFrom(keys, k) - {PlaceAt(keys, k)} == LeftFrom(keys, k + 1)
    ensures LeftFrom(keys, k + 1) == {} <==> k + 1 == 2 * |keys|
  {
    forall j | k < j < 2 * |keys| ensures PlaceAt(keys, j) != PlaceAt(keys, k) {
      if j / 2 != k / 2 { assert keys[k / 2] != keys[j / 2]; }
    }
    if k + 1 < 2 * |keys| { assert PlaceAt(keys, k + 1) in LeftFrom(keys, k + 1); }
  }

  /** Each upload's keys are its own, so no place is deleted twice. */
  lemma SweptPlaces(rows: map<nat, Row>, ids: seq<nat>, keys: seq<nat>)
    requires Abandoned(rows, ids)
    requires forall i, j :: i in rows && j in rows && i != j ==> rows[i].key != rows[j].key
    requires |keys| == |ids| && forall k :: 0 <= k < |ids| ==> keys[k] == rows[ids[k]].key
    ensures Distinct(keys) && PlacesOf(rows, ids) == LeftFrom(keys, 0)
  {
    forall place | place in PlacesOf(rows, ids) ensures place in LeftFrom(keys, 0) {
      var k :| 0 <= k < |ids| && (place == Staged(rows[ids[k]].key) || place == Final(rows[ids[k]].key));
      assert PlaceAt(keys, 2 * k) == Staged(keys[k]) && PlaceAt(keys, 2 * k + 1) == Final(keys[k]);
    }
  }

  lemma KeysAreDistinct(limit: Option<nat>, acts: seq<Action>, s: State)
    requires Reaches(Init(limit), acts, s)
    ensures forall i, j :: i in s.rows && j in s.rows && i != j ==> s.rows[i].key != s.rows[j].key
  {
    StorageIsConserved(limit, acts);
    assert KeysInv(s);
  }

  lemma PlacesAreDistinct(limit: Option<nat>, acts: seq<Action>, s: State, ids: seq<nat>)
    requires Reaches(Init(limit), acts, s) && Abandoned(s.rows, ids)
    ensures Distinct(KeysOf(s.rows, ids)) && PlacesOf(s.rows, ids) == LeftFrom(KeysOf(s.rows, ids), 0)
  {
    hide Reaches;
    KeysAreDistinct(limit, acts, s);
    SweptPlaces(s.rows, ids, KeysOf(s.rows, ids));
  }

  /** Batch `i` was what the query found, in the state it ran in, and each of its deletions went as it went. */
  ghost predicate TookBatch(limit: Option<nat>, acts: seq<Action>, p: nat, n: nat, batches: seq<Batch>, i: nat,
                            cutoff: nat, locked: nat -> set<nat>, clears: (nat, nat) -> bool)
    requires i < |batches|
  {
    && Took(limit, acts, p, n + |SweepActions(p, batches[..i])|, batches[i].from)
    && Oldest(batches[i].ids, batches[i].from.rows, cutoff, locked(i), BATCH)
    && forall k: nat :: k < |batches[i].gone| ==> batches[i].gone[k] == clears(i, k)
  }

  lemma BatchesStay(limit: Option<nat>, acts: seq<Action>, more: seq<Action>, p: nat, n: nat, batches: seq<Batch>,
                    cutoff: nat, locked: nat -> set<nat>, clears: (nat, nat) -> bool)
    requires acts <= more && forall i :: 0 <= i < |batches| ==> TookBatch(limit, acts, p, n, batches, i, cutoff, locked, clears)
    ensures forall i :: 0 <= i < |batches| ==> TookBatch(limit, more, p, n, batches, i, cutoff, locked, clears)
  {
    hide Oldest, Took, SweepActions;
    TookStays(limit, acts, more);
    forall i | 0 <= i < |batches| ensures TookBatch(limit, more, p, n, batches, i, cutoff, locked, clears) {
      assert TookBatch(limit, acts, p, n, batches, i, cutoff, locked, clears);
    }
  }

  lemma BatchJoins(limit: Option<nat>, acts: seq<Action>, p: nat, n: nat, batches: seq<Batch>, b: Batch,
                   cutoff: nat, locked: nat -> set<nat>, clears: (nat, nat) -> bool)
    requires forall i :: 0 <= i < |batches| ==> TookBatch(limit, acts, p, n, batches, i, cutoff, locked, clears)
    requires Took(limit, acts, p, n + |SweepActions(p, batches)|, b.from) && Oldest(b.ids, b.from.rows, cutoff, locked(|batches|), BATCH)
    requires forall k: nat :: k < |b.gone| ==> b.gone[k] == clears(|batches|, k)
    ensures forall i :: 0 <= i < |batches + [b]| ==> TookBatch(limit, acts, p, n, batches + [b], i, cutoff, locked, clears)
  {
    hide Oldest, SweepActions, Took;
    forall i | 0 <= i < |batches + [b]| ensures TookBatch(limit, acts, p, n, batches + [b], i, cutoff, locked, clears) {
      assert (batches + [b])[..i] == batches[..i];
      if i == |batches| { assert batches[..i] == batches; } else { assert TookBatch(limit, acts, p, n, batches, i, cutoff, locked, clears); }
    }
  }

  lemma OneMore(p: nat, batches: seq<Batch>, b: Batch)
    ensures SweepActions(p, batches + [b]) == SweepActions(p, batches) + ([Sweep(p, b.ids)] + Deletions(p, b.Keys(), b.gone))
    ensures Swept(batches + [b]) == Swept(batches) + |b.ids|
  {
    hide Deletions;
    assert (batches + [b])[..|batches|] == batches;
  }

  class AttachmentSweepService {
    const store: Store

    constructor (store: Store)
      ensures this.store == store
    {
      this.store := store;
    }

    /**
     * Batch by batch: rows and quota in one transaction, then each row's two
     * objects; a short batch is the last. `locked(i)` are the rows others hold
     * locked at batch `i`, and `clears(i, k)` whether its deletion `k` gets through.
     */
    method Sweep(p: nat, cutoff: nat, locked: nat -> set<nat>, clears: (nat, nat) -> bool)
      returns (removed: nat, ghost batches: seq<Batch>, ghost last: State)
      requires store.Valid() && store.state.PhaseOf(p).Idle?
      modifies store
      ensures store.Valid() && store.state.PhaseOf(p).Idle? && store.Goes()
      ensures |batches| <= MAX_BATCHES
      ensures store.Did(p) == old(store.Did(p)) + SweepActions(p, batches)
      ensures removed == Swept(batches)
      ensures forall i :: 0 <= i < |batches| ==> TookBatch(store.limit, store.trace, p, |old(store.Did(p))|, batches, i, cutoff, locked, clears)
      // It ends by a short batch, at the bound, or when nothing was due.
      ensures forall i :: 0 <= i < |batches| - 1 ==> |batches[i].ids| == BATCH
      ensures |batches| == MAX_BATCHES || (batches != [] && |batches[|batches| - 1].ids| < BATCH) ||
              (store.WasAt(p, |store.Did(p)|, last) && forall id :: !Due(last.rows, cutoff, locked(|batches|), id))
    {
      hide Apply, Enabled, Reaches, Own, Abandoned, Deletions, SweepActions, Swept, OldestFrom, Oldest, Took, TookBatch, Due;
      removed, batches, last := 0, [], store.state;
      var batch, full := 0, true;
      NothingYet(p);
      while full && batch < MAX_BATCHES
        invariant batch == |batches|
        invariant store.Valid() && store.state.PhaseOf(p).Idle? && store.Goes()
        invariant |batches| <= MAX_BATCHES
        invariant store.Did(p) == old(store.Did(p)) + SweepActions(p, batches)
        invariant removed == Swept(batches)
        invariant forall i :: 0 <= i < |batches| ==> TookBatch(store.limit, store.trace, p, |old(store.Did(p))|, batches, i, cutoff, locked, clears)
        invariant forall i :: 0 <= i < |batches| && (i < |batches| - 1 || full) ==> |batches[i].ids| == BATCH
        invariant !full ==> batches != [] && |batches[|batches| - 1].ids| < BATCH
        decreases MAX_BATCHES - batch
      {
        ghost var before := store.trace;
        store.Pause(p);
        last := store.state;
        QueryTakesTheOldest(store.state.rows, cutoff, locked(batch));
        var ids := OldestFrom(store.state.rows, cutoff, locked(batch), 0, BATCH);
        if ids == [] {
          NothingDue(store.state.rows, cutoff, locked(batch));
          BatchesStay(store.limit, before, store.trace, p, |old(store.Did(p))|, batches, cutoff, locked, clears);
          break;
        }
        TakesSome(ids, store.state.rows, cutoff, locked(batch));
        ghost var b;
        b := SweepBatch(p, ids, batch, clears);
        BatchesStay(store.limit, before, store.trace, p, |old(store.Did(p))|, batches, cutoff, locked, clears);
        BatchJoins(store.limit, store.trace, p, |old(store.Did(p))|, batches, b, cutoff, locked, clears);
        OneMore(p, batches, b);
        batches := batches + [b];
        batch, removed := batch + 1, removed + |ids|;
        full := |ids| == BATCH;
      }
    }

    /** The rows go with their quota in one transaction, and then, one by one, the two objects of each. */
    method SweepBatch(p: nat, ids: seq<nat>, i: nat, clears: (nat, nat) -> bool) returns (ghost b: Batch)
      requires store.Valid() && store.state.PhaseOf(p).Idle?
      requires 1 <= |ids| <= BATCH && Abandoned(store.state.rows, ids)
      modifies store
      ensures store.Valid() && store.state.PhaseOf(p).Idle? && store.Goes()
      ensures b.ids == ids && b.from == old(store.state) && forall k: nat :: k < |b.gone| ==> b.gone[k] == clears(i, k)
      ensures store.Did(p) == old(store.Did(p)) + ([Attachments.Sweep(p, ids)] + Deletions(p, b.Keys(), b.gone))
      ensures store.DidFrom(p, |old(store.Did(p))|, b.from)
    {
      hide Apply, Enabled, Reaches, Own, PlacesOf, LeftFrom, Distinct, Abandoned, Store.Did, Store.DidFrom, Store.WasAt;
      ghost var from := store.state;
      var keys := KeysOf(store.state.rows, ids);
      PlacesAreDistinct(store.limit, store.trace, store.state, ids);
      SweepMoves(store.state, p, ids);
      store.Act(Attachments.Sweep(p, ids));
      ghost var gone: seq<bool> := [];
      for k := 0 to 2 * |keys|
        invariant store.Valid() && |gone| == k && store.Goes()
        invariant store.state.PhaseOf(p) == if k == 2 * |keys| then Idle else Removing(LeftFrom(keys, k))
        invariant forall j: nat :: j < k ==> gone[j] == clears(i, j)
        invariant store.Did(p) == old(store.Did(p)) + ([Attachments.Sweep(p, ids)] + Deletions(p, keys, gone))
        invariant store.DidFrom(p, |old(store.Did(p))|, from)
      {
        store.Pause(p);
        LeftShrinks(keys, k);
        RemoveObjectMoves(store.state, p, PlaceAt(keys, k), clears(i, k));
        store.Act(RemoveObject(p, PlaceAt(keys, k), clears(i, k)));
        assert Deletions(p, keys, gone + [clears(i, k)]) == Deletions(p, keys, gone) + [RemoveObject(p, PlaceAt(keys, k), clears(i, k))];
        gone := gone + [clears(i, k)];
      }
      b := AnyBatch.Batch(ids, from, gone);
    }
  }
}
