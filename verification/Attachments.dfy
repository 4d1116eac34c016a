// Files on tickets: the storage quota against the rows, and the rows against
// the stored objects, with any number of requests, a sweep and crashes in
// between. One tenant.
// Sources: apps/api/src/attachments/attachments.service.ts,
// apps/api/src/attachments/repositories/attachment.repository.ts,
// apps/api/src/jobs/maintenance/attachment-sweep.ts and
// apps/api/src/quota/repositories/usage-counter.repository.ts.

module Attachments {
  import opened LogOrder

  datatype Status = PENDING | READY

  datatype Row = Row(key: nat, size: nat, status: Status)

  /** Where bytes can lie: in staging, where the presigned URL writes, or at the final key. */
  datatype Place = Staged(key: nat) | Final(key: nat)

  /** Where one request, or one run of the sweep, has got to. */
  datatype Phase =
    | Idle
    // presign: the row is committed, the URL is not signed yet.
    | Presigning(key: nat, size: nat)
    // complete
    | Found(id: nat, key: nat, size: nat)
    | Refusing(key: nat)
    | Sniffed(id: nat, key: nat, size: nat)
    | Copied(id: nat, key: nat, size: nat)
    | Cleaned(id: nat, key: nat, size: nat)
    | Losing(id: nat, key: nat)
    // ingest: the object is stored and the row is not; the transaction failed.
    | Stored(key: nat, size: nat)
    // with the row that it committed after all, which the process never hears of.
    | Failing(key: nat, row: Option<nat>)
    // remove and the sweep: the rows are gone, these objects are not yet.
    | Removing(objects: set<Place>)
  {
    /** Completing the upload `i`, from reading its row to the last step. */
    predicate Completes(i: nat) {
      (Found? || Sniffed? || Copied? || Cleaned? || Losing?) && id == i
    }
  }

  datatype State = State(
    rows: map<nat, Row>,
    // The STORAGE_BYTES counter and the plan's limit on it.
    used: nat,
    limit: Option<nat>,
    objects: map<Place, nat>,
    // Presigned PUTs still alive: each signed for exactly one length.
    urls: map<nat, nat>,
    // Keys and row ids are fresh.
    nextKey: nat,
    nextId: nat,
    phases: map<nat, Phase>
  )
  {
    function PhaseOf(p: nat): Phase {
      if p in phases then phases[p] else Idle
    }

    function At(p: nat, phase: Phase): State {
      this.(phases := phases[p := phase])
    }

    /** `increment ... WHERE value <= limit - amount`. */
    predicate Fits(amount: nat) {
      limit.None? || used + amount <= limit.value
    }

    /** `decrement`, floored at zero. */
    function Release(amount: nat): nat {
      if used >= amount then used - amount else 0
    }
  }

  function Init(limit: Option<nat>): State {
    State(map[], 0, limit, map[], map[], 0, 0, map[])
  }

  datatype Action =
    | Presign(p: nat, size: nat)
    | Sign(p: nat)
    | Upload(key: nat)
    | ExpireUrl(key: nat)
    | Find(p: nat, id: nat)
    | Sniff(p: nat, ok: bool)
    | Copy(p: nat)
    // Best effort: the object goes, or stays.
    | RemoveStaged(p: nat, gone: bool)
    | MarkReady(p: nat)
    | RemoveLost(p: nat, gone: bool)
    | Put(p: nat, size: nat)
    // The ingest's transaction: committed, refused or rolled back, or committed unheard.
    | CreateReady(p: nat)
    | CreateFails(p: nat)
    | CreateUnheard(p: nat)
    | RemoveFailed(p: nat, gone: bool)
    | Remove(p: nat, id: nat)
    | Sweep(p: nat, ids: seq<nat>)
    | RemoveObject(p: nat, place: Place, gone: bool)
    | Crash(p: nat)

  /** The bytes a set of rows accounts for. */
  ghost function Total(rows: map<nat, Row>): nat
    decreases |rows|
  {
    if rows == map[] then 0
    else
      var k :| k in rows;
      rows[k].size + Total(rows - {k})
  }

  /** Rows the sweep may take, each once: all still PENDING. */
  predicate Abandoned(rows: map<nat, Row>, ids: seq<nat>) {
    && (forall k :: 0 <= k < |ids| ==> ids[k] in rows && rows[ids[k]].status.PENDING?)
    && (forall j, k :: 0 <= j < k < |ids| ==> ids[j] != ids[k])
  }

  /** What those rows give back. */
  function Bytes(rows: map<nat, Row>, ids: seq<nat>): nat
    requires forall id :: id in ids ==> id in rows
  {
    if ids == [] then 0 else rows[ids[0]].size + Bytes(rows, ids[1..])
  }

  function IdSet(ids: seq<nat>): set<nat> {
    set id | id in ids
  }

  predicate Enabled(s: State, a: Action) {
    match a
    case Presign(p, size) => s.PhaseOf(p).Idle? && s.Fits(size)
    case Sign(p) => s.PhaseOf(p).Presigning?
    case Upload(key) => key in s.urls
    case ExpireUrl(key) => key in s.urls
    case Find(p, id) => s.PhaseOf(p).Idle? && id in s.rows && s.rows[id].status.PENDING?
    case Sniff(p, ok) =>
      var c := s.PhaseOf(p);
      c.Found? && Staged(c.key) in s.objects && (ok ==> s.objects[Staged(c.key)] == c.size)
    case Copy(p) => s.PhaseOf(p).Sniffed? && Staged(s.PhaseOf(p).key) in s.objects
    case RemoveStaged(p, _) => s.PhaseOf(p).Copied? || s.PhaseOf(p).Refusing?
    case MarkReady(p) => s.PhaseOf(p).Cleaned?
    case RemoveLost(p, _) => s.PhaseOf(p).Losing?
    case Put(p, _) => s.PhaseOf(p).Idle?
    case CreateReady(p) => s.PhaseOf(p).Stored? && s.Fits(s.PhaseOf(p).size)
    case CreateFails(p) => s.PhaseOf(p).Stored?
    case CreateUnheard(p) => s.PhaseOf(p).Stored? && s.Fits(s.PhaseOf(p).size)
    case RemoveFailed(p, _) => s.PhaseOf(p).Failing?
    case Remove(p, id) => s.PhaseOf(p).Idle? && id in s.rows && s.rows[id].status.READY?
    case Sweep(p, ids) => s.PhaseOf(p).Idle? && ids != [] && Abandoned(s.rows, ids)
    case RemoveObject(p, place, _) => s.PhaseOf(p).Removing? && place in s.PhaseOf(p).objects
    case Crash(p) => !s.PhaseOf(p).Idle?
  }

  /** The object's bytes, if the storage call got through. */
  function Without(objects: map<Place, nat>, place: Place, gone: bool): map<Place, nat> {
    if gone then objects - {place} else objects
  }

  /** What the sweep deletes for its rows: each upload's two keys. */
  function PlacesOf(rows: map<nat, Row>, ids: seq<nat>): set<Place>
    requires forall id :: id in ids ==> id in rows
  {
    (set id | id in ids :: Staged(rows[id].key)) + (set id | id in ids :: Final(rows[id].key))
  }

  function Created(s: State, p: nat): State
    requires s.PhaseOf(p).Stored?
  {
    var c := s.PhaseOf(p);
    s.(rows := s.rows[s.nextId := Row(c.key, c.size, READY)], used := s.used + c.size, nextId := s.nextId + 1)
  }

  function Apply(s: State, a: Action): State
    requires Enabled(s, a)
  {
    match a
    case Presign(p, size) =>
      s.(rows := s.rows[s.nextId := Row(s.nextKey, size, PENDING)], used := s.used + size,
         nextId := s.nextId + 1, nextKey := s.nextKey + 1).At(p, Presigning(s.nextKey, size))
    case Sign(p) =>
      var c := s.PhaseOf(p);
      s.(urls := s.urls[c.key := c.size]).At(p, Idle)
    case Upload(key) => s.(objects := s.objects[Staged(key) := s.urls[key]])
    case ExpireUrl(key) => s.(urls := s.urls - {key})
    case Find(p, id) => s.At(p, Found(id, s.rows[id].key, s.rows[id].size))
    case Sniff(p, ok) =>
      var c := s.PhaseOf(p);
      s.At(p, if ok then Sniffed(c.id, c.key, c.size) else Refusing(c.key))
    case Copy(p) =>
      var c := s.PhaseOf(p);
      s.(objects := s.objects[Final(c.key) := s.objects[Staged(c.key)]]).At(p, Copied(c.id, c.key, c.size))
    case RemoveStaged(p, gone) =>
      var c := s.PhaseOf(p);
      s.(objects := Without(s.objects, Staged(c.key), gone))
       .At(p, if c.Copied? then Cleaned(c.id, c.key, c.size) else Idle)
    case MarkReady(p) =>
      var c := s.PhaseOf(p);
      if c.id in s.rows && s.rows[c.id].status.PENDING? then
        s.(rows := s.rows[c.id := s.rows[c.id].(status := READY)]).At(p, Idle)
      else
        s.At(p, Losing(c.id, c.key))
    case RemoveLost(p, gone) => s.(objects := Without(s.objects, Final(s.PhaseOf(p).key), gone)).At(p, Idle)
    case Put(p, size) =>
      s.(objects := s.objects[Final(s.nextKey) := size], nextKey := s.nextKey + 1).At(p, Stored(s.nextKey, size))
    case CreateReady(p) => Created(s, p).At(p, Idle)
    case CreateFails(p) => s.At(p, Failing(s.PhaseOf(p).key, None))
    case CreateUnheard(p) => Created(s, p).At(p, Failing(s.PhaseOf(p).key, Some(s.nextId)))
    case RemoveFailed(p, gone) => s.(objects := Without(s.objects, Final(s.PhaseOf(p).key), gone)).At(p, Idle)
    case Remove(p, id) =>
      s.(rows := s.rows - {id}, used := s.Release(s.rows[id].size)).At(p, Removing({Final(s.rows[id].key)}))
    case Sweep(p, ids) =>
      s.(rows := s.rows - IdSet(ids), used := s.Release(Bytes(s.rows, ids)))
       .At(p, Removing(PlacesOf(s.rows, ids)))
    case RemoveObject(p, place, gone) =>
      var left := s.PhaseOf(p).objects - {place};
      s.(objects := Without(s.objects, place, gone)).At(p, if left == {} then Idle else Removing(left))
    case Crash(p) => s.At(p, Idle)
  }

  // ---- Adding up ----

  lemma {:induction false} TotalWithout(rows: map<nat, Row>, id: nat)
    requires id in rows
    ensures Total(rows) == rows[id].size + Total(rows - {id})
    decreases |rows|
  {
    var k :| k in rows && Total(rows) == rows[k].size + Total(rows - {k});
    if k != id {
      TotalWithout(rows - {k}, id);
      TotalWithout(rows - {id}, k);
      assert rows - {k} - {id} == rows - {id} - {k};
    }
  }

  lemma TotalWith(rows: map<nat, Row>, id: nat, row: Row)
    requires id !in rows
    ensures Total(rows[id := row]) == Total(rows) + row.size
  {
    TotalWithout(rows[id := row], id);
    assert rows[id := row] - {id} == rows;
  }

  lemma TotalSameSize(rows: map<nat, Row>, id: nat, row: Row)
    requires id in rows && row.size == rows[id].size
    ensures Total(rows[id := row]) == Total(rows)
  {
    TotalWithout(rows, id);
    TotalWithout(rows[id := row], id);
    assert rows[id := row] - {id} == rows - {id};
  }

  lemma {:induction false} TotalSplit(rows: map<nat, Row>, ids: seq<nat>)
    requires forall id :: id in ids ==> id in rows
    requires forall j, k :: 0 <= j < k < |ids| ==> ids[j] != ids[k]
    ensures Total(rows) == Bytes(rows, ids) + Total(rows - IdSet(ids))
  {
    if ids == [] {
      assert rows - IdSet(ids) == rows;
    } else {
      var k, rest := ids[0], ids[1..];
      assert forall j :: 0 <= j < |rest| ==> rest[j] == ids[j + 1];
      TotalWithout(rows, k);
      TotalSplit(rows - {k}, rest);
      BytesWithout(rows, rest, k);
      assert rows - {k} - IdSet(rest) == rows - IdSet(ids);
    }
  }

  lemma {:induction false} BytesWithout(rows: map<nat, Row>, ids: seq<nat>, k: nat)
    requires forall id :: id in ids ==> id in rows && id != k
    ensures Bytes(rows, ids) == Bytes(rows - {k}, ids)
  {
    if ids != [] { BytesWithout(rows, ids[1..], k); }
  }

  // ---- What every reachable state satisfies ----

  /** The counter is the bytes of every row, and never over the limit. */
  ghost predicate QuotaInv(s: State) {
    s.used == Total(s.rows) && (s.limit.Some? ==> s.used <= s.limit.value)
  }

  lemma AddingStays(s: State, a: Action)
    requires QuotaInv(s) && KeysInv(s) && Enabled(s, a) && (a.Presign? || a.CreateReady? || a.CreateUnheard?)
    ensures QuotaInv(Apply(s, a))
  {
    hide PhaseKeys, Mentions;
    TotalWith(s.rows, s.nextId, Apply(s, a).rows[s.nextId]);
  }

  lemma MarkingStays(s: State, a: Action)
    requires QuotaInv(s) && Enabled(s, a) && a.MarkReady?
    ensures QuotaInv(Apply(s, a))
  {
    var id := s.PhaseOf(a.p).id;
    if id in s.rows { TotalSameSize(s.rows, id, s.rows[id].(status := READY)); }
  }

  lemma QuotaStays(s: State, a: Action)
    requires QuotaInv(s) && KeysInv(s) && Enabled(s, a)
    ensures QuotaInv(Apply(s, a))
  {
    hide KeysInv, PhaseKeys, Mentions, PlacesOf, Without;
    if a.Presign? || a.CreateReady? || a.CreateUnheard? {
      AddingStays(s, a);
    } else if a.MarkReady? {
      MarkingStays(s, a);
    } else if a.Remove? {
      TotalWithout(s.rows, a.id);
    } else if a.Sweep? {
      TotalSplit(s.rows, a.ids);
    }
  }

  /** Which keys a process can still touch. */
  predicate Mentions(c: Phase, key: nat) {
    match c
    case Idle => false
    case Removing(objects) => exists o :: o in objects && o.key == key
    case _ => c.key == key
  }

  /** What a process may assume of the keys it holds, whatever the others do. */
  ghost predicate PhaseKeys(s: State, p: nat, c: Phase) {
    && (forall key: nat :: Mentions(c, key) ==> key < s.nextKey)
    && match c
       // An ingest's key is its own until its row has it.
       case Stored(key, _) =>
         && key !in s.urls && Staged(key) !in s.objects
         && (forall id :: id in s.rows ==> s.rows[id].key != key)
         && (forall q :: q in s.phases && q != p ==> !Mentions(s.phases[q], key))
       case Removing(objects) => forall id :: id in s.rows ==> !Mentions(c, s.rows[id].key)
       case Failing(key, row) =>
         && (row.Some? ==> row.value < s.nextId && (row.value in s.rows ==> s.rows[row.value].key == key))
         && forall id :: id in s.rows && s.rows[id].key == key ==> s.rows[id].status.READY? && row == Some(id)
       case Losing(i, key) =>
         && i < s.nextId && (i in s.rows ==> s.rows[i].key == key)
         && forall id :: id in s.rows && s.rows[id].key == key ==> s.rows[id].status.READY? && id == i
       case Found(_, _, _) => OwnRow(s, c.id, c.key, c.size)
       case Sniffed(_, _, _) => OwnRow(s, c.id, c.key, c.size)
       case Copied(_, _, _) => OwnRow(s, c.id, c.key, c.size)
       case Cleaned(_, _, _) => OwnRow(s, c.id, c.key, c.size)
       case Presigning(key, size) => forall id :: id in s.rows && s.rows[id].key == key ==> s.rows[id].size == size
       case _ => true
  }

  ghost predicate OwnRow(s: State, id: nat, key: nat, size: nat) {
    && id < s.nextId
    && (forall j :: j in s.rows && s.rows[j].key == key ==> j == id)
    && (id in s.rows ==> s.rows[id].key == key && s.rows[id].size == size)
  }

  /** Row ids and keys are never used twice. */
  ghost predicate KeysInv(s: State) {
    && (forall id :: id in s.rows ==> id < s.nextId && s.rows[id].key < s.nextKey)
    && (forall i, j :: i in s.rows && j in s.rows && i != j ==> s.rows[i].key != s.rows[j].key)
    && (forall place :: place in s.objects ==> place.key < s.nextKey)
    && (forall key :: key in s.urls ==> key < s.nextKey)
    && (forall p :: p in s.phases ==> PhaseKeys(s, p, s.phases[p]))
  }

  // An action changes the rows, or the objects and URLs, or only where its process is.

  predicate Processless(a: Action) {
    a.Upload? || a.ExpireUrl?
  }

  /** The key a process holds was handed out, and an ingest's is no row's. */
  lemma HeldKey(s: State, p: nat)
    requires KeysInv(s) && p in s.phases && !s.phases[p].Idle? && !s.phases[p].Removing?
    ensures s.phases[p].key < s.nextKey
    ensures s.phases[p].Stored? ==> forall id :: id in s.rows ==> s.rows[id].key != s.phases[p].key
  {
    assert PhaseKeys(s, p, s.phases[p]) && Mentions(s.phases[p], s.phases[p].key);
  }

  lemma RowKeysStay(s: State, a: Action)
    requires KeysInv(s) && Enabled(s, a)
    ensures var t := Apply(s, a);
            && (forall id :: id in t.rows ==> id < t.nextId && t.rows[id].key < t.nextKey)
            && (forall i, j :: i in t.rows && j in t.rows && i != j ==> t.rows[i].key != t.rows[j].key)
  {
    hide PhaseKeys, Mentions, Apply, Enabled;
    var t := Apply(s, a);
    if a.CreateReady? || a.CreateUnheard? { StoredIsHeld(s, a); }
    forall id | id in t.rows
      ensures id < t.nextId && t.rows[id].key < t.nextKey
      ensures forall j :: j in t.rows && j != id ==> t.rows[id].key != t.rows[j].key
    {
      NextOnlyGrow(s, a, id);
      forall j | j in t.rows && j != id ensures t.rows[id].key != t.rows[j].key {
        if id in s.rows { RowsOnlyMoveOn(s, a, id); } else { NewRowsKey(s, a, id); }
        if j in s.rows { RowsOnlyMoveOn(s, a, j); } else { NewRowsKey(s, a, j); }
      }
    }
  }

  lemma StoredIsHeld(s: State, a: Action)
    requires KeysInv(s) && Enabled(s, a) && (a.CreateReady? || a.CreateUnheard?)
    ensures a.p in s.phases && s.phases[a.p].Stored? && s.phases[a.p].key < s.nextKey
    ensures forall id :: id in s.rows ==> s.rows[id].key != s.phases[a.p].key
  {
    HeldKey(s, a.p);
  }

  lemma NextOnlyGrow(s: State, a: Action, id: nat)
    requires KeysInv(s) && Enabled(s, a) && id in Apply(s, a).rows
    ensures id < Apply(s, a).nextId && Apply(s, a).rows[id].key < Apply(s, a).nextKey
  {
    hide PhaseKeys, Mentions, PlacesOf, Without, Bytes;
    if a.CreateReady? || a.CreateUnheard? { StoredIsHeld(s, a); }
  }

  lemma ObjectKeysStay(s: State, a: Action)
    requires KeysInv(s) && Enabled(s, a)
    ensures var t := Apply(s, a);
            && (forall place :: place in t.objects ==> place.key < t.nextKey)
            && (forall key :: key in t.urls ==> key < t.nextKey)
  {
    hide PhaseKeys, Mentions;
    if a.Sign? || a.Copy? { HeldKey(s, a.p); }
  }

  /** Rows only appear at fresh keys or an ingest's own, become READY, or go. */
  lemma RowsOnlyMoveOn(s: State, a: Action, id: nat)
    requires Enabled(s, a) && id in Apply(s, a).rows && id in s.rows
    requires KeysInv(s)
    ensures var t := Apply(s, a);
            t.rows[id].key == s.rows[id].key && t.rows[id].size == s.rows[id].size && (s.rows[id].status.READY? ==> t.rows[id].status.READY?)
  {
    assert forall j :: j in s.rows ==> j < s.nextId;
    hide KeysInv;
    if TouchesRows(a) { TouchedRowsMoveOn(s, a, id); } else { RowsStand(s, a); }
  }

  predicate TouchesRows(a: Action) {
    a.Presign? || a.CreateReady? || a.CreateUnheard? || a.MarkReady? || a.Remove? || a.Sweep?
  }

  lemma RowsStand(s: State, a: Action)
    requires Enabled(s, a) && !TouchesRows(a)
    ensures Apply(s, a).rows == s.rows
  {
    hide PlacesOf, Bytes;
  }

  lemma TouchedRowsMoveOn(s: State, a: Action, id: nat)
    requires Enabled(s, a) && TouchesRows(a) && id in Apply(s, a).rows && id in s.rows
    requires forall j :: j in s.rows ==> j < s.nextId
    ensures var t := Apply(s, a);
            t.rows[id].key == s.rows[id].key && t.rows[id].size == s.rows[id].size && (s.rows[id].status.READY? ==> t.rows[id].status.READY?)
  {
    hide PlacesOf, Without, Bytes;
  }

  lemma NewRowsKey(s: State, a: Action, id: nat)
    requires Enabled(s, a) && id in Apply(s, a).rows && id !in s.rows
    ensures id == s.nextId
    ensures (a.Presign? && Apply(s, a).rows[id].key == s.nextKey) ||
            ((a.CreateReady? || a.CreateUnheard?) && a.p in s.phases && s.phases[a.p].Stored? && Apply(s, a).rows[id].key == s.phases[a.p].key)
  {
    hide PlacesOf, Bytes, Without;
  }

  /** A new row's key is nobody else's. */
  lemma NewRowIsNobodyElses(s: State, a: Action, id: nat, q: nat)
    requires KeysInv(s) && Enabled(s, a) && id in Apply(s, a).rows && id !in s.rows
    requires q in s.phases && (Processless(a) || a.p != q)
    ensures id == s.nextId && !Mentions(s.phases[q], Apply(s, a).rows[id].key)
  {
    hide Mentions, PhaseKeys, Apply, Enabled;
    HeldIsOld(s, q);
    NewRowsKey(s, a, id);
    if a.CreateReady? || a.CreateUnheard? { HeldByNobodyElse(s, a.p, q); }
  }

  lemma HeldIsOld(s: State, q: nat)
    requires KeysInv(s) && q in s.phases
    ensures !Mentions(s.phases[q], s.nextKey)
  {
    assert PhaseKeys(s, q, s.phases[q]);
  }

  /** A process's next phase mentions only what it had, a row's key, or a fresh one. */
  lemma MentionsOnly(s: State, a: Action, key: nat)
    requires Enabled(s, a) && !Processless(a) && Mentions(Apply(s, a).PhaseOf(a.p), key)
    ensures Mentions(s.PhaseOf(a.p), key) || key == s.nextKey < Apply(s, a).nextKey || exists id :: id in s.rows && s.rows[id].key == key
  {
    if a.Sweep? {
      var o :| o in PlacesOf(s.rows, a.ids) && o.key == key;
      var id :| id in a.ids && (o == Staged(s.rows[id].key) || o == Final(s.rows[id].key));
      assert id in s.rows && s.rows[id].key == key;
    } else if a.Find? {
      assert a.id in s.rows && s.rows[a.id].key == key;
    } else if a.Remove? {
      assert a.id in s.rows && s.rows[a.id].key == key;
    }
  }

  lemma StoredKeyStaysOwn(s: State, a: Action, q: nat)
    requires KeysInv(s) && Enabled(s, a) && q in s.phases && !Processless(a) && a.p != q && s.phases[q].Stored?
    ensures !Mentions(Apply(s, a).PhaseOf(a.p), s.phases[q].key)
  {
    var key := s.phases[q].key;
    assert PhaseKeys(s, q, s.phases[q]) && Mentions(s.phases[q], key);
    if Mentions(Apply(s, a).PhaseOf(a.p), key) { MentionsOnly(s, a, key); }
  }

  /** No presigned URL is ever signed for an ingest's key, so nothing lies in staging for it. */
  lemma IngestKeyHasNoUrl(s: State, a: Action, q: nat)
    requires KeysInv(s) && Enabled(s, a) && q in s.phases && (Processless(a) || a.p != q) && s.phases[q].Stored?
    ensures s.phases[q].key !in Apply(s, a).urls && Staged(s.phases[q].key) !in Apply(s, a).objects
  {
    NothingStagedFor(s, q);
    if a.Sign? { SignsItsOwn(s, a.p, q); }
    hide Apply, Enabled, KeysInv;
    StagingChanges(s, a, s.phases[q].key);
  }

  lemma NothingStagedFor(s: State, q: nat)
    requires KeysInv(s) && q in s.phases && s.phases[q].Stored?
    ensures s.phases[q].key !in s.urls && Staged(s.phases[q].key) !in s.objects
  {
    assert PhaseKeys(s, q, s.phases[q]);
  }

  lemma SignsItsOwn(s: State, p: nat, q: nat)
    requires KeysInv(s) && Enabled(s, Sign(p)) && q in s.phases && s.phases[q].Stored? && p != q
    ensures s.PhaseOf(p).key != s.phases[q].key
  {
    HeldByNobodyElse(s, q, p);
    assert Mentions(s.phases[p], s.phases[p].key);
  }

  /** What another process may assume is left alone. */
  lemma OthersPhaseKeysStay(s: State, a: Action, q: nat)
    requires KeysInv(s) && Enabled(s, a) && q in s.phases && (Processless(a) || a.p != q)
    ensures PhaseKeys(Apply(s, a), q, s.phases[q])
  {
    hide Mentions, PhaseKeys;
    var t := Apply(s, a);
    var c := s.phases[q];
    forall id | id in t.rows ensures RowMovedOn(s, t, c, id) {
      if id in s.rows { RowsOnlyMoveOn(s, a, id); } else { NewRowIsNobodyElses(s, a, id, q); }
    }
    if c.Stored? {
      IngestKeyStays(s, a, q);
    }
    SamePhaseKeys(s, t, q, c);
  }

  lemma IngestKeyStays(s: State, a: Action, q: nat)
    requires KeysInv(s) && Enabled(s, a) && q in s.phases && (Processless(a) || a.p != q) && s.phases[q].Stored?
    ensures s.phases[q].key !in Apply(s, a).urls && Staged(s.phases[q].key) !in Apply(s, a).objects
    ensures forall r :: r in Apply(s, a).phases && r != q ==> !Mentions(Apply(s, a).phases[r], s.phases[q].key)
  {
    IngestKeyHasNoUrl(s, a, q);
    hide Apply, Enabled, Mentions, PhaseKeys, KeysInv;
    var t := Apply(s, a);
    forall r | r in t.phases && r != q ensures !Mentions(t.phases[r], s.phases[q].key) {
      if Processless(a) || r != a.p {
        OthersStay(s, a, r);
        HeldByNobodyElse(s, q, r);
      } else {
        StoredKeyStaysOwn(s, a, q);
      }
    }
  }

  lemma OthersStay(s: State, a: Action, q: nat)
    requires Enabled(s, a) && (Processless(a) || a.p != q)
    ensures Apply(s, a).PhaseOf(q) == s.PhaseOf(q) && (q in Apply(s, a).phases <==> q in s.phases)
  {
    hide PlacesOf, Bytes;
  }

  ghost predicate RowMovedOn(s: State, t: State, c: Phase, id: nat)
    requires id in t.rows
  {
    if id in s.rows then
      t.rows[id].key == s.rows[id].key && t.rows[id].size == s.rows[id].size && (s.rows[id].status.READY? ==> t.rows[id].status.READY?)
    else id == s.nextId && !Mentions(c, t.rows[id].key)
  }

  lemma SamePhaseKeys(s: State, t: State, q: nat, c: Phase)
    requires PhaseKeys(s, q, c) && s.nextKey <= t.nextKey && s.nextId <= t.nextId
    requires forall id :: id in t.rows ==> RowMovedOn(s, t, c, id)
    requires c.Stored? ==> c.key !in t.urls && Staged(c.key) !in t.objects
    requires c.Stored? ==> forall r :: r in t.phases && r != q ==> !Mentions(t.phases[r], c.key)
    ensures PhaseKeys(t, q, c)
  {
    if !c.Idle? && !c.Removing? { assert Mentions(c, c.key); }
  }

  lemma OwnFindKeysStay(s: State, p: nat, id: nat)
    requires KeysInv(s) && Enabled(s, Find(p, id))
    ensures PhaseKeys(Apply(s, Find(p, id)), p, Found(id, s.rows[id].key, s.rows[id].size))
  {
  }

  lemma OwnCopyKeysStay(s: State, a: Action)
    requires KeysInv(s) && Enabled(s, a) && (a.Sniff? || a.Copy? || a.RemoveStaged?)
    ensures PhaseKeys(Apply(s, a), a.p, Apply(s, a).PhaseOf(a.p))
  {
    HeldKey(s, a.p);
    assert PhaseKeys(s, a.p, s.phases[a.p]);
  }

  lemma OwnMarkKeysStay(s: State, a: Action)
    requires KeysInv(s) && Enabled(s, a) && (a.MarkReady? || a.RemoveLost?)
    ensures PhaseKeys(Apply(s, a), a.p, Apply(s, a).PhaseOf(a.p))
  {
    HeldKey(s, a.p);
    assert PhaseKeys(s, a.p, s.phases[a.p]);
  }

  lemma OwnIngestKeysStay(s: State, a: Action)
    requires KeysInv(s) && Enabled(s, a) && (a.CreateReady? || a.RemoveFailed? || a.Presign? || a.Sign? || a.Crash?)
    ensures PhaseKeys(Apply(s, a), a.p, Apply(s, a).PhaseOf(a.p))
  {
  }

  lemma OwnFailureKeysStay(s: State, a: Action)
    requires KeysInv(s) && Enabled(s, a) && (a.CreateFails? || a.CreateUnheard?)
    ensures PhaseKeys(Apply(s, a), a.p, Apply(s, a).PhaseOf(a.p))
  {
    HeldKey(s, a.p);
    assert PhaseKeys(s, a.p, s.phases[a.p]);
  }

  lemma OwnPutKeysStay(s: State, p: nat, size: nat)
    requires KeysInv(s) && Enabled(s, Put(p, size))
    ensures PhaseKeys(Apply(s, Put(p, size)), p, Stored(s.nextKey, size))
  {
    forall q | q in s.phases && q != p ensures !Mentions(s.phases[q], s.nextKey) {
      assert PhaseKeys(s, q, s.phases[q]);
    }
  }

  lemma OwnObjectKeysStay(s: State, a: Action)
    requires KeysInv(s) && Enabled(s, a) && a.RemoveObject?
    ensures PhaseKeys(Apply(s, a), a.p, Apply(s, a).PhaseOf(a.p))
  {
    var c := Apply(s, a).PhaseOf(a.p);
    assert PhaseKeys(s, a.p, s.phases[a.p]);
    assert forall key: nat :: Mentions(c, key) ==> Mentions(s.phases[a.p], key);
  }

  lemma OwnRemoveKeysStay(s: State, p: nat, id: nat)
    requires KeysInv(s) && Enabled(s, Remove(p, id))
    ensures PhaseKeys(Apply(s, Remove(p, id)), p, Apply(s, Remove(p, id)).PhaseOf(p))
  {
    var c := Removing({Final(s.rows[id].key)});
    assert forall key: nat :: Mentions(c, key) ==> key == s.rows[id].key;
  }

  /** What a sweep deletes is at the keys of the rows it took. */
  lemma SweptKey(rows: map<nat, Row>, ids: seq<nat>, key: nat)
    requires Abandoned(rows, ids) && Mentions(Removing(PlacesOf(rows, ids)), key)
    ensures exists id :: id in ids && rows[id].key == key
  {
    var o :| o in PlacesOf(rows, ids) && o.key == key;
    var id :| id in ids && (o == Staged(rows[id].key) || o == Final(rows[id].key));
    assert rows[id].key == key;
  }

  lemma OwnSweepKeysStay(s: State, p: nat, ids: seq<nat>)
    requires KeysInv(s) && Enabled(s, Sweep(p, ids))
    ensures PhaseKeys(Apply(s, Sweep(p, ids)), p, Apply(s, Sweep(p, ids)).PhaseOf(p))
  {
    hide PlacesOf, Mentions, Bytes;
    var c := Removing(PlacesOf(s.rows, ids));
    forall key: nat | Mentions(c, key) ensures exists id :: id in ids && s.rows[id].key == key {
      SweptKey(s.rows, ids, key);
    }
  }

  lemma OwnKeysStay(s: State, a: Action)
    requires KeysInv(s) && Enabled(s, a) && !Processless(a)
    ensures PhaseKeys(Apply(s, a), a.p, Apply(s, a).PhaseOf(a.p))
  {
    hide KeysInv, PhaseKeys, Mentions;
    match a
    case Put(p, size) => OwnPutKeysStay(s, p, size);
    case Remove(p, id) => OwnRemoveKeysStay(s, p, id);
    case Sweep(p, ids) => OwnSweepKeysStay(s, p, ids);
    case RemoveObject(_, _, _) => OwnObjectKeysStay(s, a);
    case Find(p, id) => OwnFindKeysStay(s, p, id);
    case Sniff(_, _) => OwnCopyKeysStay(s, a);
    case Copy(_) => OwnCopyKeysStay(s, a);
    case RemoveStaged(_, _) => OwnCopyKeysStay(s, a);
    case MarkReady(_) => OwnMarkKeysStay(s, a);
    case RemoveLost(_, _) => OwnMarkKeysStay(s, a);
    case CreateFails(_) => OwnFailureKeysStay(s, a);
    case CreateUnheard(_) => OwnFailureKeysStay(s, a);
    case _ => OwnIngestKeysStay(s, a);
  }

  lemma KeysStay(s: State, a: Action)
    requires KeysInv(s) && Enabled(s, a)
    ensures KeysInv(Apply(s, a))
  {
    hide PhaseKeys, Mentions;
    var t := Apply(s, a);
    RowKeysStay(s, a);
    ObjectKeysStay(s, a);
    forall p | p in t.phases ensures PhaseKeys(t, p, t.phases[p]) {
      if Processless(a) || p != a.p {
        OthersPhaseKeysStay(s, a, p);
      } else {
        OwnKeysStay(s, a);
      }
    }
  }

  // ---- The objects behind the rows ----

  /** Whatever lies in staging for a row, or may still be put there, is of the declared size. */
  ghost predicate StagingInv(s: State) {
    && (forall id :: id in s.rows && Staged(s.rows[id].key) in s.objects ==> s.objects[Staged(s.rows[id].key)] == s.rows[id].size)
    && (forall id :: id in s.rows && s.rows[id].key in s.urls ==> s.urls[s.rows[id].key] == s.rows[id].size)
  }

  ghost predicate HasObject(s: State, key: nat, size: nat) {
    Final(key) in s.objects && s.objects[Final(key)] == size
  }

  /** A copied upload still has its copy while its row waits, and an ingest its object. */
  ghost predicate CopiesInv(s: State) {
    forall p :: p in s.phases ==> PhaseCopy(s, s.phases[p])
  }

  ghost predicate PhaseCopy(s: State, c: Phase) {
    match c
    case Copied(id, key, size) => id in s.rows && s.rows[id].status.PENDING? ==> HasObject(s, key, size)
    case Cleaned(id, key, size) => id in s.rows && s.rows[id].status.PENDING? ==> HasObject(s, key, size)
    case Stored(key, size) => HasObject(s, key, size)
    case _ => true
  }

  /** Every READY row has an object of its size at its final key. */
  ghost predicate ReadyInv(s: State) {
    forall id :: id in s.rows && s.rows[id].status.READY? ==> HasObject(s, s.rows[id].key, s.rows[id].size)
  }

  /**
   * The two steps that delete the object of a READY row: a completion found its row
   * not PENDING, and the row is there, so it was not the sweep that took it; or an
   * ingest's transaction had committed after all, and nobody removed its row since.
   */
  predicate Clobbers(s: State, a: Action) {
    match a
    case RemoveLost(p, gone) => gone && s.PhaseOf(p).Losing? && s.PhaseOf(p).id in s.rows
    case RemoveFailed(p, gone) =>
      gone && s.PhaseOf(p).Failing? && s.PhaseOf(p).row.Some? && s.PhaseOf(p).row.value in s.rows
    case _ => false
  }

  /** Only a signature or an upload brings anything to staging. */
  lemma StagingChanges(s: State, a: Action, key: nat)
    requires Enabled(s, a)
    ensures var t := Apply(s, a);
            && (Staged(key) in t.objects ==>
                  (Staged(key) in s.objects && t.objects[Staged(key)] == s.objects[Staged(key)]) ||
                  (a.Upload? && key in s.urls && t.objects[Staged(key)] == s.urls[key]))
            && (key in t.urls ==>
                  (key in s.urls && t.urls[key] == s.urls[key]) ||
                  (a.Sign? && s.PhaseOf(a.p).key == key && t.urls[key] == s.PhaseOf(a.p).size))
  {
    hide PlacesOf, Bytes;
  }

  lemma SignedSize(s: State, p: nat)
    requires KeysInv(s) && Enabled(s, Sign(p))
    ensures var c := s.PhaseOf(p); forall id :: id in s.rows && s.rows[id].key == c.key ==> s.rows[id].size == c.size
  {
    assert PhaseKeys(s, p, s.phases[p]);
  }

  lemma OldRowsStaging(s: State, a: Action, id: nat)
    requires KeysInv(s) && StagingInv(s) && Enabled(s, a) && id in s.rows && id in Apply(s, a).rows
    ensures var t := Apply(s, a); var key := t.rows[id].key;
            && (Staged(key) in t.objects ==> t.objects[Staged(key)] == t.rows[id].size)
            && (key in t.urls ==> t.urls[key] == t.rows[id].size)
  {
    hide Mentions, Apply, Enabled;
    RowsOnlyMoveOn(s, a, id);
    StagingChanges(s, a, s.rows[id].key);
    if a.Sign? { SignedSize(s, a.p); }
  }

  /** Nothing lies in staging for a row that is new. */
  lemma NewRowsStaging(s: State, a: Action, id: nat)
    requires KeysInv(s) && Enabled(s, a) && id !in s.rows && id in Apply(s, a).rows
    ensures var key := Apply(s, a).rows[id].key; Staged(key) !in Apply(s, a).objects && key !in Apply(s, a).urls
  {
    hide Mentions, PlacesOf, Bytes;
    if a.CreateReady? || a.CreateUnheard? { assert PhaseKeys(s, a.p, s.phases[a.p]); }
  }

  lemma StagingStays(s: State, a: Action)
    requires KeysInv(s) && StagingInv(s) && Enabled(s, a)
    ensures StagingInv(Apply(s, a))
  {
    hide Apply, Enabled, KeysInv;
    var t := Apply(s, a);
    forall id | id in t.rows
      ensures Staged(t.rows[id].key) in t.objects ==> t.objects[Staged(t.rows[id].key)] == t.rows[id].size
      ensures t.rows[id].key in t.urls ==> t.urls[t.rows[id].key] == t.rows[id].size
    {
      if id in s.rows { OldRowsStaging(s, a, id); } else { NewRowsStaging(s, a, id); }
    }
  }

  /** The bytes at `Final(key)` are gone after this action. */
  predicate Deletes(s: State, a: Action, key: nat) {
    match a
    case RemoveLost(p, gone) => s.PhaseOf(p).Losing? && gone && s.PhaseOf(p).key == key
    case RemoveFailed(p, gone) => s.PhaseOf(p).Failing? && gone && s.PhaseOf(p).key == key
    case RemoveObject(p, place, gone) => gone && place == Final(key)
    case _ => false
  }

  predicate Copies(s: State, a: Action, key: nat) {
    a.Copy? && s.PhaseOf(a.p).Sniffed? && s.PhaseOf(a.p).key == key
  }

  lemma ObjectStays(s: State, a: Action, key: nat, size: nat)
    requires Enabled(s, a) && HasObject(s, key, size) && key < s.nextKey && !Deletes(s, a, key)
    requires Copies(s, a, key) ==> s.objects[Staged(key)] == size
    ensures HasObject(Apply(s, a), key, size)
  {
  }

  /** A deletion at a row's key is one of the two that clobber. */
  lemma WhoDeletes(s: State, a: Action, id: nat)
    requires KeysInv(s) && Enabled(s, a) && id in s.rows && Deletes(s, a, s.rows[id].key)
    ensures Clobbers(s, a) && s.rows[id].status.READY?
  {
    assert PhaseKeys(s, a.p, s.phases[a.p]);
    assert a.RemoveObject? ==> Mentions(s.phases[a.p], s.rows[id].key);
  }

  /** A row's object survives whatever does not delete it. */
  lemma RowObjectStays(s: State, a: Action, id: nat)
    requires KeysInv(s) && StagingInv(s) && Enabled(s, a)
    requires id in s.rows && HasObject(s, s.rows[id].key, s.rows[id].size) && !Deletes(s, a, s.rows[id].key)
    ensures HasObject(Apply(s, a), s.rows[id].key, s.rows[id].size)
  {
    hide PhaseKeys, Apply;
    ObjectStays(s, a, s.rows[id].key, s.rows[id].size);
  }

  lemma CopyStays(s: State, a: Action, q: nat)
    requires KeysInv(s) && StagingInv(s) && CopiesInv(s) && Enabled(s, a)
    requires q in s.phases && (Processless(a) || a.p != q)
    ensures PhaseCopy(Apply(s, a), s.phases[q])
  {
    var c := s.phases[q];
    assert PhaseKeys(s, q, c);
    if c.Copied? || c.Cleaned? {
      if c.id in Apply(s, a).rows && Apply(s, a).rows[c.id].status.PENDING? {
        PendingBefore(s, a, c.id, q);
        if Deletes(s, a, c.key) { WhoDeletes(s, a, c.id); }
        RowObjectStays(s, a, c.id);
      }
    } else if c.Stored? {
      StoredObjectStays(s, a, q);
    }
  }

  lemma PendingBefore(s: State, a: Action, id: nat, q: nat)
    requires KeysInv(s) && Enabled(s, a) && q in s.phases && (s.phases[q].Copied? || s.phases[q].Cleaned?) && s.phases[q].id == id
    requires id in Apply(s, a).rows && Apply(s, a).rows[id].status.PENDING?
    ensures id in s.rows && s.rows[id].status.PENDING? && s.rows[id].key == s.phases[q].key && s.rows[id].size == s.phases[q].size
  {
    hide Mentions, Apply, Enabled;
    if id in s.rows { RowsOnlyMoveOn(s, a, id); } else { NewRowsKey(s, a, id); }
    assert PhaseKeys(s, q, s.phases[q]);
  }

  lemma StoredObjectStays(s: State, a: Action, q: nat)
    requires KeysInv(s) && CopiesInv(s) && Enabled(s, a)
    requires q in s.phases && s.phases[q].Stored? && (Processless(a) || a.p != q)
    ensures HasObject(Apply(s, a), s.phases[q].key, s.phases[q].size)
  {
    hide Apply, Enabled, Mentions, PhaseKeys;
    var key := s.phases[q].key;
    assert PhaseCopy(s, s.phases[q]);
    HeldKey(s, q);
    if !Processless(a) && a.p in s.phases { HeldByNobodyElse(s, q, a.p); }
    if Deletes(s, a, key) || Copies(s, a, key) { Touches(s, a, key); }
    ObjectStays(s, a, key, s.phases[q].size);
  }

  /** An ingest's key is no other process's. */
  lemma HeldByNobodyElse(s: State, q: nat, p: nat)
    requires KeysInv(s) && q in s.phases && p in s.phases && p != q && s.phases[q].Stored?
    ensures !Mentions(s.phases[p], s.phases[q].key)
  {
    assert PhaseKeys(s, q, s.phases[q]);
  }

  lemma Touches(s: State, a: Action, key: nat)
    requires Enabled(s, a) && (Deletes(s, a, key) || Copies(s, a, key))
    ensures !Processless(a) && a.p in s.phases && Mentions(s.phases[a.p], key)
  {
  }

  lemma OwnCopyStays(s: State, a: Action)
    requires KeysInv(s) && StagingInv(s) && CopiesInv(s) && Enabled(s, a) && !Processless(a)
    ensures PhaseCopy(Apply(s, a), Apply(s, a).PhaseOf(a.p))
  {
    if a.Copy? || a.RemoveStaged? {
      assert PhaseKeys(s, a.p, s.phases[a.p]) && PhaseCopy(s, s.phases[a.p]);
    }
    hide KeysInv, PhaseKeys, CopiesInv, PlacesOf, Bytes;
  }

  lemma CopiesStay(s: State, a: Action)
    requires KeysInv(s) && StagingInv(s) && CopiesInv(s) && Enabled(s, a)
    ensures CopiesInv(Apply(s, a))
  {
    hide PhaseKeys, PhaseCopy, KeysInv, StagingInv;
    var t := Apply(s, a);
    forall p | p in t.phases ensures PhaseCopy(t, t.phases[p]) {
      if Processless(a) || p != a.p { CopyStays(s, a, p); } else { OwnCopyStays(s, a); }
    }
  }

  lemma ReadyRowStays(s: State, a: Action, id: nat)
    requires KeysInv(s) && StagingInv(s) && CopiesInv(s) && ReadyInv(s) && Enabled(s, a) && !Clobbers(s, a)
    requires id in Apply(s, a).rows && Apply(s, a).rows[id].status.READY?
    ensures HasObject(Apply(s, a), Apply(s, a).rows[id].key, Apply(s, a).rows[id].size)
  {
    hide Apply, Enabled, PhaseKeys, PhaseCopy;
    if id in s.rows {
      RowsOnlyMoveOn(s, a, id);
      if s.rows[id].status.PENDING? {
        CompletedRowHasObject(s, a, id);
      } else {
        if Deletes(s, a, s.rows[id].key) { WhoDeletes(s, a, id); }
        RowObjectStays(s, a, id);
      }
    } else {
      IngestedRowHasObject(s, a, id);
    }
  }

  /** Only a completion's own step marks its row. */
  lemma WhoMarks(s: State, a: Action, i: nat)
    requires Enabled(s, a) && i in s.rows && s.rows[i].status.PENDING?
    requires i in Apply(s, a).rows && Apply(s, a).rows[i].status.READY?
    requires forall j :: j in s.rows ==> j < s.nextId
    ensures a.MarkReady? && a.p in s.phases && s.phases[a.p].Completes(i) && Apply(s, a).PhaseOf(a.p).Idle?
  {
    hide PlacesOf, Bytes;
  }

  lemma CompletedRowHasObject(s: State, a: Action, id: nat)
    requires KeysInv(s) && CopiesInv(s) && Enabled(s, a)
    requires id in s.rows && s.rows[id].status.PENDING?
    requires id in Apply(s, a).rows && Apply(s, a).rows[id].status.READY?
    ensures HasObject(Apply(s, a), Apply(s, a).rows[id].key, Apply(s, a).rows[id].size)
  {
    WhoMarks(s, a, id);
    MarkedRowHasObject(s, a.p, id);
  }

  lemma MarkedRowHasObject(s: State, p: nat, id: nat)
    requires KeysInv(s) && CopiesInv(s) && Enabled(s, MarkReady(p))
    requires id in s.rows && s.rows[id].status.PENDING? && s.phases[p].Completes(id)
    ensures id in Apply(s, MarkReady(p)).rows
    ensures HasObject(Apply(s, MarkReady(p)), Apply(s, MarkReady(p)).rows[id].key, Apply(s, MarkReady(p)).rows[id].size)
  {
    hide Mentions;
    assert PhaseKeys(s, p, s.phases[p]) && PhaseCopy(s, s.phases[p]);
  }

  lemma IngestedRowHasObject(s: State, a: Action, id: nat)
    requires CopiesInv(s) && Enabled(s, a) && id !in s.rows
    requires id in Apply(s, a).rows && Apply(s, a).rows[id].status.READY?
    ensures HasObject(Apply(s, a), Apply(s, a).rows[id].key, Apply(s, a).rows[id].size)
  {
    if a.CreateReady? || a.CreateUnheard? { assert PhaseCopy(s, s.phases[a.p]); }
  }

  lemma ReadyStays(s: State, a: Action)
    requires KeysInv(s) && StagingInv(s) && CopiesInv(s) && ReadyInv(s) && Enabled(s, a) && !Clobbers(s, a)
    ensures ReadyInv(Apply(s, a))
  {
    hide KeysInv, StagingInv, CopiesInv, HasObject, Apply;
    var t := Apply(s, a);
    forall id | id in t.rows && t.rows[id].status.READY? ensures HasObject(t, t.rows[id].key, t.rows[id].size) {
      ReadyRowStays(s, a, id);
    }
  }

  /** The invariant of every run in which no READY row's object is clobbered. */
  ghost predicate Inv(s: State) {
    QuotaInv(s) && KeysInv(s) && StagingInv(s) && CopiesInv(s)
  }

  lemma InvStays(s: State, a: Action)
    requires Inv(s) && Enabled(s, a)
    ensures Inv(Apply(s, a))
  {
    hide QuotaInv, KeysInv, StagingInv, CopiesInv, Apply, Enabled;
    QuotaStays(s, a);
    KeysStay(s, a);
    StagingStays(s, a);
    CopiesStay(s, a);
  }

  /** Exactly when a step keeps an object behind every READY row. */
  lemma ReadyKeptIff(s: State, a: Action)
    requires Inv(s) && ReadyInv(s) && Enabled(s, a)
    ensures ReadyInv(Apply(s, a)) <==> !Clobbers(s, a)
  {
    if Clobbers(s, a) {
      var c := s.PhaseOf(a.p);
      var id := if c.Losing? then c.id else c.row.value;
      assert PhaseKeys(s, a.p, c);
      assert s.rows[id].key == c.key && s.rows[id].status.READY?;
      assert Apply(s, a).rows[id] == s.rows[id] && Final(c.key) !in Apply(s, a).objects;
    } else {
      ReadyStays(s, a);
    }
  }
}
