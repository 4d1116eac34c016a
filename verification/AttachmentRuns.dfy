// Whole runs of the attachment protocol: what every run keeps, and when every
// READY row keeps its object.
// Source: apps/api/src/attachments/attachments.service.ts.

module AttachmentRuns {
  import opened LogOrder
  import opened Attachments

  ghost predicate Runs(s: State, acts: seq<Action>)
    decreases |acts|, 0
  {
    acts == [] ||
    (Runs(s, acts[..|acts| - 1]) && Enabled(After(s, acts[..|acts| - 1]), acts[|acts| - 1]))
  }

  ghost function After(s: State, acts: seq<Action>): State
    requires Runs(s, acts)
    decreases |acts|, 1
  {
    if acts == [] then s else Apply(After(s, acts[..|acts| - 1]), acts[|acts| - 1])
  }

  /** No step of the run deletes the object of a READY row. */
  ghost predicate NeverClobbers(s: State, acts: seq<Action>)
    requires Runs(s, acts)
    decreases |acts|
  {
    acts == [] ||
    (NeverClobbers(s, acts[..|acts| - 1]) && !Clobbers(After(s, acts[..|acts| - 1]), acts[|acts| - 1]))
  }

  /** The counter is the sum of the rows' sizes, and within the limit, in every reachable state. */
  lemma {:induction false} StorageIsConserved(limit: Option<nat>, acts: seq<Action>)
    requires Runs(Init(limit), acts)
    ensures Inv(After(Init(limit), acts))
    ensures After(Init(limit), acts).limit == limit
    ensures After(Init(limit), acts).used == Total(After(Init(limit), acts).rows)
    ensures limit.Some? ==> After(Init(limit), acts).used <= limit.value
    decreases |acts|
  {
    hide Apply, Enabled, KeysInv, StagingInv, CopiesInv;
    if acts == [] {
      EmptyIsSound(limit);
    } else {
      var before, last := acts[..|acts| - 1], acts[|acts| - 1];
      StorageIsConserved(limit, before);
      InvStays(After(Init(limit), before), last);
      LimitStays(After(Init(limit), before), last);
    }
  }

  lemma EmptyIsSound(limit: Option<nat>)
    ensures Inv(Init(limit)) && ReadyInv(Init(limit))
  {
  }

  lemma LimitStays(s: State, a: Action)
    requires Enabled(s, a)
    ensures Apply(s, a).limit == s.limit
  {
  }

  /** Over whole runs, a READY row without its object can only come from a clobbering step. */
  lemma {:induction false} ReadyRowsHaveObjects(limit: Option<nat>, acts: seq<Action>)
    requires Runs(Init(limit), acts) && NeverClobbers(Init(limit), acts)
    ensures ReadyInv(After(Init(limit), acts))
    decreases |acts|
  {
    hide Apply, Enabled, Inv, ReadyInv, Clobbers;
    if acts == [] {
      EmptyIsSound(limit);
    } else {
      var before, last := acts[..|acts| - 1], acts[|acts| - 1];
      StorageIsConserved(limit, before);
      ReadyRowsHaveObjects(limit, before);
      ReadyKeptIff(After(Init(limit), before), last);
    }
  }

  // ---- Whose object a deletion takes ----

  /** This completion's `markReady` answers yes. */
  predicate Wins(s: State, p: nat) {
    var c := s.PhaseOf(p);
    c.Cleaned? && c.id in s.rows && s.rows[c.id].status.PENDING?
  }

  /** What one step adds to the makers. */
  ghost function MakersAfter(s: State, a: Action, makers: map<nat, Action>): map<nat, Action> {
    match a
    case MarkReady(p) => if Wins(s, p) then makers[s.PhaseOf(p).id := a] else makers
    case CreateReady(p) => makers[s.nextId := a]
    case CreateUnheard(p) => makers[s.nextId := a]
    case Remove(_, id) => makers - {id}
    case _ => makers
  }

  /** Which step made each READY row there is: a completion that won, or an ingest that committed. */
  ghost function Makers(s: State, acts: seq<Action>): map<nat, Action>
    requires Runs(s, acts)
    decreases |acts|
  {
    if acts == [] then map[]
    else
      MakersAfter(After(s, acts[..|acts| - 1]), acts[|acts| - 1], Makers(s, acts[..|acts| - 1]))
  }

  /** Every READY row has its maker, and a process that still holds its upload is beaten by somebody else's. */
  ghost predicate MakersInv(s: State, makers: map<nat, Action>) {
    && (forall id :: id in makers <==> id in s.rows && s.rows[id].status.READY?)
    && (forall p, id: nat :: p in s.phases && s.phases[p].Completes(id) && id in makers ==>
          makers[id].MarkReady? && makers[id].p != p)
    && (forall p :: p in s.phases && s.phases[p].Failing? && s.phases[p].row.Some? && s.phases[p].row.value in makers ==>
          makers[s.phases[p].row.value] == CreateUnheard(p))
  }

  /** One step's effect on the READY rows. */
  lemma ReadyRowsMove(s: State, a: Action, id: nat)
    requires KeysInv(s) && Enabled(s, a)
    ensures id in Apply(s, a).rows && Apply(s, a).rows[id].status.READY? <==>
            match a
            case MarkReady(p) => (Wins(s, p) && id == s.PhaseOf(p).id) || (id in s.rows && s.rows[id].status.READY?)
            case CreateReady(_) => id == s.nextId || (id in s.rows && s.rows[id].status.READY?)
            case CreateUnheard(_) => id == s.nextId || (id in s.rows && s.rows[id].status.READY?)
            case Remove(_, gone) => id != gone && id in s.rows && s.rows[id].status.READY?
            case _ => id in s.rows && s.rows[id].status.READY?
  {
    assert forall j :: j in s.rows ==> j < s.nextId;
    hide KeysInv, PlacesOf, Bytes;
  }

  /** A completer after a step held its upload before, or finds it PENDING now. */
  lemma CompletersMove(s: State, a: Action, q: nat, id: nat)
    requires KeysInv(s) && Enabled(s, a) && q in Apply(s, a).phases && Apply(s, a).phases[q].Completes(id)
    ensures id < s.nextId
    ensures (q in s.phases && s.phases[q].Completes(id)) || (id in s.rows && s.rows[id].status.PENDING? && a == Find(q, id))
    ensures a == MarkReady(q) ==> !Wins(s, q)
  {
    hide Apply, Enabled, Mentions;
    assert forall j :: j in s.rows ==> j < s.nextId;
    if Processless(a) || q != a.p {
      OthersStay(s, a, q);
    } else {
      WhoCompletes(s, a, id);
      if a.Find? { FindsPending(s, q, a.id); }
      if a.MarkReady? { WinnersAreDone(s, q); }
    }
    if q in s.phases && s.phases[q].Completes(id) { CompletersIdIsOld(s, q, id); }
  }

  lemma FindsPending(s: State, p: nat, id: nat)
    requires Enabled(s, Find(p, id))
    ensures id in s.rows && s.rows[id].status.PENDING?
  {
  }

  lemma WinnersAreDone(s: State, p: nat)
    requires Enabled(s, MarkReady(p))
    ensures Wins(s, p) ==> Apply(s, MarkReady(p)).PhaseOf(p).Idle?
  {
  }

  /** A failed ingest's row is the one it commits in this step, or one it had committed. */
  lemma FailersMove(s: State, a: Action, q: nat)
    requires KeysInv(s) && Enabled(s, a) && q in Apply(s, a).phases
    requires Apply(s, a).phases[q].Failing? && Apply(s, a).phases[q].row.Some?
    ensures var row := Apply(s, a).phases[q].row.value;
            || (a == CreateUnheard(q) && row == s.nextId)
            || (q in s.phases && s.phases[q] == Apply(s, a).phases[q] && row < s.nextId)
  {
    hide Apply, Enabled, Mentions;
    if Processless(a) || q != a.p {
      OthersStay(s, a, q);
      assert PhaseKeys(s, q, s.phases[q]);
    } else {
      OwnFailing(s, a);
    }
  }

  lemma OwnFailing(s: State, a: Action)
    requires Enabled(s, a) && !Processless(a) && Apply(s, a).PhaseOf(a.p).Failing? && Apply(s, a).PhaseOf(a.p).row.Some?
    ensures a == CreateUnheard(a.p) && Apply(s, a).PhaseOf(a.p).row.value == s.nextId
  {
    hide PlacesOf, Bytes;
  }

  lemma {:induction false} MakersAreTheReadyRows(limit: Option<nat>, acts: seq<Action>)
    requires Runs(Init(limit), acts)
    ensures MakersInv(After(Init(limit), acts), Makers(Init(limit), acts))
    decreases |acts|
  {
    hide Apply, Enabled, Inv, KeysInv, Wins;
    if acts != [] {
      var before, a := acts[..|acts| - 1], acts[|acts| - 1];
      var s, t := After(Init(limit), before), After(Init(limit), acts);
      MakersAreTheReadyRows(limit, before);
      StorageIsConserved(limit, before);
      InvKeys(s);
      MakersMove(s, a, Makers(Init(limit), before), Makers(Init(limit), acts));
    }
  }

  lemma MakersMove(s: State, a: Action, makers: map<nat, Action>, after: map<nat, Action>)
    requires KeysInv(s) && Enabled(s, a) && MakersInv(s, makers) && after == MakersAfter(s, a, makers)
    ensures MakersInv(Apply(s, a), after)
  {
    hide Apply, Enabled, KeysInv, MakersAfter, MakersInv;
    var t := Apply(s, a);
    forall id ensures id in after <==> id in t.rows && t.rows[id].status.READY? {
      MadeIsReady(s, a, makers, id);
    }
    forall p, id: nat | p in t.phases && t.phases[p].Completes(id) && id in after ensures after[id].MarkReady? && after[id].p != p {
      BeatenByAnother(s, a, makers, p, id);
    }
    forall p | p in t.phases && t.phases[p].Failing? && t.phases[p].row.Some? && t.phases[p].row.value in after
      ensures after[t.phases[p].row.value] == CreateUnheard(p)
    {
      FailersMadeTheirs(s, a, makers, p);
    }
    MakersAre(t, after);
  }

  lemma MakersAre(t: State, after: map<nat, Action>)
    requires forall id :: id in after <==> id in t.rows && t.rows[id].status.READY?
    requires forall p, id: nat :: p in t.phases && t.phases[p].Completes(id) && id in after ==> after[id].MarkReady? && after[id].p != p
    requires forall p :: p in t.phases && t.phases[p].Failing? && t.phases[p].row.Some? && t.phases[p].row.value in after ==>
               after[t.phases[p].row.value] == CreateUnheard(p)
    ensures MakersInv(t, after)
  {
  }

  lemma MadeIsReady(s: State, a: Action, makers: map<nat, Action>, id: nat)
    requires KeysInv(s) && Enabled(s, a) && MakersInv(s, makers)
    ensures id in MakersAfter(s, a, makers) <==> id in Apply(s, a).rows && Apply(s, a).rows[id].status.READY?
  {
    hide Apply, Enabled, KeysInv;
    ReadyRowsMove(s, a, id);
  }

  lemma BeatenByAnother(s: State, a: Action, makers: map<nat, Action>, p: nat, id: nat)
    requires KeysInv(s) && Enabled(s, a) && MakersInv(s, makers)
    requires p in Apply(s, a).phases && Apply(s, a).phases[p].Completes(id) && id in MakersAfter(s, a, makers)
    ensures MakersAfter(s, a, makers)[id].MarkReady? && MakersAfter(s, a, makers)[id].p != p
  {
    hide Apply, Enabled, KeysInv;
    CompletersMove(s, a, p, id);
  }

  lemma FailersMadeTheirs(s: State, a: Action, makers: map<nat, Action>, p: nat)
    requires KeysInv(s) && Enabled(s, a) && MakersInv(s, makers) && p in Apply(s, a).phases
    requires var c := Apply(s, a).phases[p]; c.Failing? && c.row.Some? && c.row.value in MakersAfter(s, a, makers)
    ensures MakersAfter(s, a, makers)[Apply(s, a).phases[p].row.value] == CreateUnheard(p)
  {
    var row := Apply(s, a).phases[p].row.value;
    FailersMove(s, a, p);
    if a.MarkReady? && Wins(s, a.p) { WinnersRowIsPending(s, a.p, row, makers); }
    hide Apply, Enabled, KeysInv;
  }

  /** A row that is won is PENDING, so nothing made it before. */
  lemma WinnersRowIsPending(s: State, p: nat, row: nat, makers: map<nat, Action>)
    requires KeysInv(s) && MakersInv(s, makers) && Wins(s, p)
    ensures forall q :: q in s.phases && s.phases[q].Failing? && s.phases[q].row == Some(row) ==> row != s.PhaseOf(p).id
  {
    var id := s.PhaseOf(p).id;
    forall q | q in s.phases && s.phases[q].Failing? && s.phases[q].row == Some(row) ensures row != id {
      assert PhaseKeys(s, q, s.phases[q]);
    }
  }

  /** A completion takes back the object of an upload that another completion has made READY since. */
  ghost predicate TakesBackAnothers(s: State, makers: map<nat, Action>, a: Action) {
    a.RemoveLost? && a.gone && s.PhaseOf(a.p).Losing? && s.PhaseOf(a.p).id in makers &&
    var maker := makers[s.PhaseOf(a.p).id];
    maker.MarkReady? && maker.p != a.p
  }

  /** A failed ingest takes back the object of the row it had committed unheard. */
  ghost predicate TakesBackUnheard(s: State, makers: map<nat, Action>, a: Action) {
    a.RemoveFailed? && a.gone && s.PhaseOf(a.p).Failing? && s.PhaseOf(a.p).row.Some? && s.PhaseOf(a.p).row.value in makers &&
    makers[s.PhaseOf(a.p).row.value] == CreateUnheard(a.p)
  }

  /**
   * Over every run, exactly when the next step takes an object from under a READY
   * row: by what made that row, a second completion of the upload that won before
   * this one, or this very ingest's commit, and by nobody having removed it since.
   */
  lemma ReadyLostIff(limit: Option<nat>, acts: seq<Action>, a: Action)
    requires Runs(Init(limit), acts) && Enabled(After(Init(limit), acts), a) && ReadyInv(After(Init(limit), acts))
    ensures var s, makers := After(Init(limit), acts), Makers(Init(limit), acts);
            !ReadyInv(Apply(s, a)) <==> TakesBackAnothers(s, makers, a) || TakesBackUnheard(s, makers, a)
  {
    var s, makers := After(Init(limit), acts), Makers(Init(limit), acts);
    StorageIsConserved(limit, acts);
    MakersAreTheReadyRows(limit, acts);
    ReadyKeptIff(s, a);
    assert KeysInv(s);
    hide ReadyInv, Inv, KeysInv, Makers, Runs, After, Apply;
    ClobbersByMakers(s, makers, a);
  }

  lemma ClobbersByMakers(s: State, makers: map<nat, Action>, a: Action)
    requires KeysInv(s) && Enabled(s, a) && MakersInv(s, makers)
    ensures Clobbers(s, a) <==> TakesBackAnothers(s, makers, a) || TakesBackUnheard(s, makers, a)
  {
    hide Mentions;
    if a.RemoveLost? || a.RemoveFailed? {
      assert PhaseKeys(s, a.p, s.phases[a.p]);
      assert s.phases[a.p].Losing? ==> s.phases[a.p].Completes(s.phases[a.p].id);
    }
  }

  // ---- One completion of an upload at a time ----

  /** Nobody starts completing an upload that is being completed, and no ingest commits unheard. */
  predicate Orderly(s: State, a: Action) {
    && (a.Find? ==> forall q :: q in s.phases ==> !s.phases[q].Completes(a.id))
    && !a.CreateUnheard?
  }

  ghost predicate OrderlyRun(s: State, acts: seq<Action>)
    requires Runs(s, acts)
    decreases |acts|
  {
    acts == [] ||
    (OrderlyRun(s, acts[..|acts| - 1]) && Orderly(After(s, acts[..|acts| - 1]), acts[|acts| - 1]))
  }

  ghost predicate Unlisted(s: State, key: nat) {
    forall id :: id in s.rows ==> s.rows[id].key != key
  }

  /** An upload has one completer; it finds its row PENDING or gone, and what it deletes is nobody's. */
  ghost predicate OrderlyPhase(s: State, p: nat, c: Phase) {
    && (forall q, i: nat :: q in s.phases && q != p && c.Completes(i) ==> !s.phases[q].Completes(i))
    && (forall i: nat :: c.Completes(i) && i in s.rows ==> s.rows[i].status.PENDING? && !c.Losing?)
    && ((c.Losing? || c.Failing?) ==> Unlisted(s, c.key))
  }

  ghost predicate OrderlyInv(s: State) {
    forall p :: p in s.phases ==> OrderlyPhase(s, p, s.phases[p])
  }

  lemma OrderlyNeverClobbers(s: State, a: Action)
    requires KeysInv(s) && OrderlyInv(s) && Enabled(s, a)
    ensures !Clobbers(s, a)
  {
    if a.RemoveLost? || a.RemoveFailed? {
      assert OrderlyPhase(s, a.p, s.phases[a.p]) && PhaseKeys(s, a.p, s.phases[a.p]);
    }
  }

  lemma WhoCompletes(s: State, a: Action, i: nat)
    requires Enabled(s, a) && !Processless(a) && Apply(s, a).PhaseOf(a.p).Completes(i)
    ensures s.PhaseOf(a.p).Completes(i) || (a.Find? && a.id == i)
  {
    hide PlacesOf, Bytes;
  }

  /** A key that was handed out and has no row never gets one, but from the ingest that holds it. */
  lemma UnlistedStays(s: State, a: Action, key: nat)
    requires KeysInv(s) && Enabled(s, a) && Unlisted(s, key) && key < s.nextKey
    requires (a.CreateReady? || a.CreateUnheard?) && a.p in s.phases && s.phases[a.p].Stored? ==> s.phases[a.p].key != key
    ensures Unlisted(Apply(s, a), key)
  {
    hide Apply, Enabled, PhaseKeys;
    var t := Apply(s, a);
    forall id | id in t.rows ensures t.rows[id].key != key {
      if id in s.rows { RowsOnlyMoveOn(s, a, id); } else { NewRowsKey(s, a, id); }
    }
  }

  lemma OthersOrderlyStays(s: State, a: Action, q: nat)
    requires KeysInv(s) && OrderlyInv(s) && Enabled(s, a) && Orderly(s, a)
    requires q in s.phases && (Processless(a) || a.p != q)
    ensures OrderlyPhase(Apply(s, a), q, s.phases[q])
  {
    hide Apply, Enabled, PhaseKeys;
    var t, c := Apply(s, a), s.phases[q];
    assert OrderlyPhase(s, q, c);
    forall r, i: nat | r in t.phases && r != q && c.Completes(i) ensures !t.phases[r].Completes(i) {
      if Processless(a) || r != a.p {
        OthersStay(s, a, r);
      } else if t.phases[r].Completes(i) {
        WhoCompletes(s, a, i);
      }
    }
    forall i: nat | c.Completes(i) && i in t.rows ensures t.rows[i].status.PENDING? && !c.Losing? {
      CompletersIdIsOld(s, q, i);
      if i !in s.rows { NewRowsKey(s, a, i); }
      if t.rows[i].status.READY? { WhoMarks(s, a, i); }
    }
    if c.Losing? || c.Failing? {
      HeldKey(s, q);
      if a.CreateReady? && a.p in s.phases && s.phases[a.p].Stored? { HoldersDiffer(s, a.p, q); }
      UnlistedStays(s, a, c.key);
    }
  }

  lemma CompletersIdIsOld(s: State, q: nat, i: nat)
    requires KeysInv(s) && q in s.phases && s.phases[q].Completes(i)
    ensures i < s.nextId
  {
    assert PhaseKeys(s, q, s.phases[q]);
  }

  lemma HoldersDiffer(s: State, p: nat, q: nat)
    requires KeysInv(s) && p in s.phases && q in s.phases && p != q
    requires s.phases[p].Stored? && (s.phases[q].Losing? || s.phases[q].Failing?)
    ensures s.phases[p].key != s.phases[q].key
  {
    HeldByNobodyElse(s, p, q);
    assert Mentions(s.phases[q], s.phases[q].key);
  }

  lemma OwnOrderlyStays(s: State, a: Action)
    requires KeysInv(s) && OrderlyInv(s) && Enabled(s, a) && Orderly(s, a) && !Processless(a)
    ensures OrderlyPhase(Apply(s, a), a.p, Apply(s, a).PhaseOf(a.p))
  {
    hide Apply, Enabled, PhaseKeys;
    var t := Apply(s, a);
    var c := t.PhaseOf(a.p);
    forall q, i: nat | q in t.phases && q != a.p && c.Completes(i) ensures !t.phases[q].Completes(i) {
      OthersStay(s, a, q);
      WhoCompletes(s, a, i);
      if s.PhaseOf(a.p).Completes(i) { OwnWasAlone(s, a.p, q, i); }
    }
    forall i: nat | c.Completes(i) && i in t.rows ensures t.rows[i].status.PENDING? && !c.Losing? {
      OwnRowIsPending(s, a, i);
    }
    if c.Losing? { LosersRowIsGone(s, a); }
    if c.Failing? { FailersKeyIsFree(s, a); }
  }

  lemma OwnWasAlone(s: State, p: nat, q: nat, i: nat)
    requires OrderlyInv(s) && q in s.phases && q != p && s.PhaseOf(p).Completes(i)
    ensures !s.phases[q].Completes(i)
  {
    assert OrderlyPhase(s, p, s.phases[p]);
  }

  lemma OwnRowIsPending(s: State, a: Action, i: nat)
    requires KeysInv(s) && OrderlyInv(s) && Enabled(s, a) && !Processless(a)
    requires Apply(s, a).PhaseOf(a.p).Completes(i) && i in Apply(s, a).rows
    ensures Apply(s, a).rows[i].status.PENDING? && !Apply(s, a).PhaseOf(a.p).Losing?
  {
    hide PhaseKeys, PlacesOf, Bytes, Without, Unlisted;
    if !a.Find? { assert OrderlyPhase(s, a.p, s.phases[a.p]) && s.phases[a.p].Completes(i); }
  }

  /** A completion that finds its row not PENDING finds it gone, and with it every row of its key. */
  lemma LosersRowIsGone(s: State, a: Action)
    requires KeysInv(s) && OrderlyInv(s) && Enabled(s, a) && !Processless(a) && Apply(s, a).PhaseOf(a.p).Losing?
    ensures Unlisted(Apply(s, a), Apply(s, a).PhaseOf(a.p).key)
  {
    hide Mentions, PlacesOf, Bytes;
    assert a.MarkReady?;
    var c := s.phases[a.p];
    assert PhaseKeys(s, a.p, c) && OrderlyPhase(s, a.p, c) && c.Completes(c.id);
    assert c.id !in s.rows;
  }

  lemma FailersKeyIsFree(s: State, a: Action)
    requires KeysInv(s) && Enabled(s, a) && Orderly(s, a) && !Processless(a) && Apply(s, a).PhaseOf(a.p).Failing?
    ensures Unlisted(Apply(s, a), Apply(s, a).PhaseOf(a.p).key)
  {
    hide Mentions, PlacesOf, Bytes;
    assert a.CreateFails?;
    HeldKey(s, a.p);
  }

  lemma OrderlyStays(s: State, a: Action)
    requires KeysInv(s) && OrderlyInv(s) && Enabled(s, a) && Orderly(s, a)
    ensures OrderlyInv(Apply(s, a))
  {
    hide Apply, Enabled, KeysInv, OrderlyPhase, Orderly;
    var t := Apply(s, a);
    forall q | q in t.phases ensures OrderlyPhase(t, q, t.phases[q]) {
      if Processless(a) || q != a.p {
        OthersStay(s, a, q);
        assert OrderlyPhase(s, q, s.phases[q]);
        OthersOrderlyStays(s, a, q);
      } else {
        OwnOrderlyStays(s, a);
      }
    }
  }

  /** With one completer per upload and no commit unheard of, every READY row has its object. */
  lemma {:induction false} OrderlyRunsKeepEveryObject(limit: Option<nat>, acts: seq<Action>)
    requires Runs(Init(limit), acts) && OrderlyRun(Init(limit), acts)
    ensures NeverClobbers(Init(limit), acts) && OrderlyInv(After(Init(limit), acts))
    ensures ReadyInv(After(Init(limit), acts))
    decreases |acts|
  {
    hide Apply, Enabled, Inv, ReadyInv, Clobbers, Orderly;
    if acts == [] {
    } else {
      var before, last := acts[..|acts| - 1], acts[|acts| - 1];
      StorageIsConserved(limit, before);
      OrderlyRunsKeepEveryObject(limit, before);
      InvKeys(After(Init(limit), before));
      OrderlyNeverClobbers(After(Init(limit), before), last);
      OrderlyStays(After(Init(limit), before), last);
    }
    ReadyRowsHaveObjects(limit, acts);
  }

  lemma InvKeys(s: State)
    requires Inv(s)
    ensures KeysInv(s)
  {
  }

  // ---- Two completions of one upload ----

  ghost predicate Reaches(s: State, acts: seq<Action>, t: State) {
    Runs(s, acts) && After(s, acts) == t
  }

  lemma Stands(s: State)
    ensures Reaches(s, [], s)
  {
  }

  lemma Extend(s: State, acts: seq<Action>, t: State, a: Action)
    requires Reaches(s, acts, t) && Enabled(t, a)
    ensures Reaches(s, acts + [a], Apply(t, a))
  {
    assert (acts + [a])[..|acts|] == acts;
  }

  /** An upload waits with its bytes in staging, `p` has got to `c` with it and `q` to `d`. */
  ghost predicate Scene(s: State, id: nat, row: Row, p: nat, c: Phase, q: nat, d: Phase) {
    && p != q && s.PhaseOf(p) == c && s.PhaseOf(q) == d
    && id in s.rows && s.rows[id] == row
  }

  function Twice(acts: seq<Action>, a: Action, b: Action): seq<Action> {
    acts + [a] + [b]
  }

  lemma BothFind(s0: State, acts: seq<Action>, s: State, id: nat, row: Row, p: nat, q: nat) returns (t: State)
    requires Reaches(s0, acts, s) && Scene(s, id, row, p, Idle, q, Idle) && row.status.PENDING?
    requires Staged(row.key) in s.objects && s.objects[Staged(row.key)] == row.size
    ensures Reaches(s0, Twice(Twice(acts, Find(p, id), Find(q, id)), Sniff(p, true), Sniff(q, true)), t)
    ensures Scene(t, id, row, p, Sniffed(id, row.key, row.size), q, Sniffed(id, row.key, row.size))
    ensures t.objects == s.objects
  {
    hide Reaches;
    Extend(s0, acts, s, Find(p, id));
    var t1 := Apply(s, Find(p, id));
    Extend(s0, acts + [Find(p, id)], t1, Find(q, id));
    var t2 := Apply(t1, Find(q, id));
    Extend(s0, acts + [Find(p, id)] + [Find(q, id)], t2, Sniff(p, true));
    var t3 := Apply(t2, Sniff(p, true));
    Extend(s0, acts + [Find(p, id)] + [Find(q, id)] + [Sniff(p, true)], t3, Sniff(q, true));
    t := Apply(t3, Sniff(q, true));
  }

  lemma BothCopy(s0: State, acts: seq<Action>, s: State, id: nat, row: Row, p: nat, q: nat) returns (t: State)
    requires Reaches(s0, acts, s)
    requires Scene(s, id, row, p, Sniffed(id, row.key, row.size), q, Sniffed(id, row.key, row.size))
    requires Staged(row.key) in s.objects
    ensures Reaches(s0, Twice(Twice(acts, Copy(p), Copy(q)), RemoveStaged(p, true), RemoveStaged(q, true)), t)
    ensures Scene(t, id, row, p, Cleaned(id, row.key, row.size), q, Cleaned(id, row.key, row.size))
  {
    hide Reaches;
    Extend(s0, acts, s, Copy(p));
    var t1 := Apply(s, Copy(p));
    Extend(s0, acts + [Copy(p)], t1, Copy(q));
    var t2 := Apply(t1, Copy(q));
    Extend(s0, acts + [Copy(p)] + [Copy(q)], t2, RemoveStaged(p, true));
    var t3 := Apply(t2, RemoveStaged(p, true));
    Extend(s0, acts + [Copy(p)] + [Copy(q)] + [RemoveStaged(p, true)], t3, RemoveStaged(q, true));
    t := Apply(t3, RemoveStaged(q, true));
  }

  lemma OneWins(s0: State, acts: seq<Action>, s: State, id: nat, row: Row, p: nat, q: nat) returns (t: State)
    requires Reaches(s0, acts, s) && row.status.PENDING?
    requires Scene(s, id, row, p, Cleaned(id, row.key, row.size), q, Cleaned(id, row.key, row.size))
    ensures Reaches(s0, Twice(acts, MarkReady(p), MarkReady(q)) + [RemoveLost(q, true)], t)
    ensures Scene(t, id, row.(status := READY), p, Idle, q, Idle) && Final(row.key) !in t.objects
  {
    hide Reaches;
    Extend(s0, acts, s, MarkReady(p));
    var t1 := Apply(s, MarkReady(p));
    Extend(s0, acts + [MarkReady(p)], t1, MarkReady(q));
    var t2 := Apply(t1, MarkReady(q));
    Extend(s0, acts + [MarkReady(p)] + [MarkReady(q)], t2, RemoveLost(q, true));
    t := Apply(t2, RemoveLost(q, true));
  }

  /** What two overlapping calls of `complete` for the upload `id` can do, in order. */
  function Overlapping(id: nat, p: nat, q: nat): seq<Action> {
    [Find(p, id), Find(q, id), Sniff(p, true), Sniff(q, true), Copy(p), Copy(q),
     RemoveStaged(p, true), RemoveStaged(q, true), MarkReady(p), MarkReady(q), RemoveLost(q, true)]
  }

  /**
   * Two overlapping calls of `complete` for one uploaded file can leave its row
   * READY with no object: the second takes the first's success for the sweep's
   * work, and deletes the copy both made.
   */
  lemma OverlappingCompletionsLoseTheObject(s0: State, acts: seq<Action>, s: State, id: nat, p: nat, q: nat) returns (t: State)
    requires Reaches(s0, acts, s) && p != q && s.PhaseOf(p).Idle? && s.PhaseOf(q).Idle?
    requires id in s.rows && s.rows[id].status.PENDING?
    requires Staged(s.rows[id].key) in s.objects && s.objects[Staged(s.rows[id].key)] == s.rows[id].size
    ensures Reaches(s0, acts + Overlapping(id, p, q), t)
    ensures id in t.rows && t.rows[id] == s.rows[id].(status := READY) && Final(t.rows[id].key) !in t.objects
    ensures !ReadyInv(t)
  {
    hide Reaches, Apply, Enabled;
    var row := s.rows[id];
    var found := Twice(Twice(acts, Find(p, id), Find(q, id)), Sniff(p, true), Sniff(q, true));
    var copied := Twice(Twice(found, Copy(p), Copy(q)), RemoveStaged(p, true), RemoveStaged(q, true));
    t := BothFind(s0, acts, s, id, row, p, q);
    t := BothCopy(s0, found, t, id, row, p, q);
    t := OneWins(s0, copied, t, id, row, p, q);
    assert Twice(copied, MarkReady(p), MarkReady(q)) + [RemoveLost(q, true)] == acts + Overlapping(id, p, q);
  }

  /**
   * An ingest whose transaction commits without its answer coming back deletes the
   * object of the file it has just added.
   */
  lemma UnheardIngestsLoseTheObject(s0: State, acts: seq<Action>, s: State, p: nat, size: nat) returns (t: State)
    requires Reaches(s0, acts, s) && s.PhaseOf(p).Idle? && s.Fits(size)
    ensures Reaches(s0, acts + [Put(p, size)] + [CreateUnheard(p)] + [RemoveFailed(p, true)], t)
    ensures s.nextId in t.rows && t.rows[s.nextId] == Row(s.nextKey, size, READY) && Final(s.nextKey) !in t.objects
    ensures t.used == s.used + size && !ReadyInv(t)
  {
    hide Reaches;
    Extend(s0, acts, s, Put(p, size));
    var t1 := Apply(s, Put(p, size));
    Extend(s0, acts + [Put(p, size)], t1, CreateUnheard(p));
    var t2 := Apply(t1, CreateUnheard(p));
    Extend(s0, acts + [Put(p, size)] + [CreateUnheard(p)], t2, RemoveFailed(p, true));
    t := Apply(t2, RemoveFailed(p, true));
  }
}
