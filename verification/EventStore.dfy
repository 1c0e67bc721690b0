/**
 The two-tier event store (sandbox/lib/db.ts, with the ingest of sandbox/lib/ingestor.ts).

 Events live in a hot table and are moved to an archive in two transactions, the second of which a
 crash may prevent. A table is a map from row id to row; ids come from one counter that never goes
 back. Timestamps are compared only, so they are numbers here.
*/
module EventStore {
  import opened Wrappers

  type Sid = string
  datatype Row = Row(ts: int, sessionId: Option<Sid>, hash: Option<string>, payload: string)
  type Table = map<nat, Row>

  /** `moving`: a rotation has copied this id range and not yet deleted it from the hot table. */
  datatype State = State(hot: Table, arch: Table, nextId: nat, moving: Option<(nat, nat)>)

  // ---- Queries -------------------------------------------------------------------------------

  predicate HasHash(t: Table, h: string) { exists id :: id in t && t[id].hash == Some(h) }

  predicate Duplicate(s: State, h: Option<string>) {
    h.Some? && (HasHash(s.hot, h.value) || HasHash(s.arch, h.value))
  }

  function Older(t: Table, cutoff: int): set<nat> { set id | id in t && t[id].ts < cutoff }

  /** `MIN(id)` and `MAX(id)` over the rows older than the cutoff. */
  ghost predicate IsRange(t: Table, cutoff: int, lo: nat, hi: nat) {
    && lo in Older(t, cutoff) && hi in Older(t, cutoff)
    && forall id :: id in Older(t, cutoff) ==> lo <= id <= hi
  }

  function Between(t: Table, lo: nat, hi: nat): set<nat> { set id | id in t && lo <= id <= hi }

  // ---- Statements ----------------------------------------------------------------------------

  /** `INSERT OR IGNORE` of the hot rows in a range: an id or a hash already there is skipped. */
  function CopyRange(s: State, lo: nat, hi: nat): Table {
    s.arch + map id | id in s.hot && lo <= id <= hi && id !in s.arch
                      && !(s.hot[id].hash.Some? && HasHash(s.arch, s.hot[id].hash.value)) :: s.hot[id]
  }

  function Without(t: Table, lo: nat, hi: nat): Table { map id | id in t && !(lo <= id <= hi) :: t[id] }

  function Purged(t: Table, sessions: set<Sid>): Table {
    map id | id in t && !(t[id].sessionId.Some? && t[id].sessionId.value in sessions) :: t[id]
  }

  // ---- Steps ---------------------------------------------------------------------------------

  function Ingest(s: State, r: Row): State {
    if Duplicate(s, r.hash) then s else s.(hot := s.hot[s.nextId := r], nextId := s.nextId + 1)
  }

  function Copy(s: State, lo: nat, hi: nat): State { s.(arch := CopyRange(s, lo, hi), moving := Some((lo, hi))) }

  function Delete(s: State): State
    requires s.moving.Some?
  {
    s.(hot := Without(s.hot, s.moving.value.0, s.moving.value.1), moving := None)
  }

  /** The boot sweep: archive rows whose hash is also hot. */
  function Reconcile(s: State): State {
    s.(arch := map id | id in s.arch && !(s.arch[id].hash.Some? && HasHash(s.hot, s.arch[id].hash.value)) :: s.arch[id])
  }

  function Purge(s: State, sessions: set<Sid>): State {
    s.(hot := Purged(s.hot, sessions), arch := Purged(s.arch, sessions))
  }

  datatype Event =
    | Ingested(row: Row)
    | Copied(cutoff: int, lo: nat, hi: nat)
    | Deleted
    | Crashed
    | Booted
    | SessionsDeleted(sessions: set<Sid>)

  /** The two halves of a rotation run back to back: only a crash can come between them. */
  ghost predicate Enabled(s: State, e: Event) {
    match e
    case Ingested(_) => s.moving.None?
    case Copied(cutoff, lo, hi) => s.moving.None? && IsRange(s.hot, cutoff, lo, hi)
    case Deleted => s.moving.Some?
    case Crashed => true
    case Booted => s.moving.None?
    case SessionsDeleted(_) => s.moving.None?
  }

  function Step(s: State, e: Event): State
    requires e.Deleted? ==> s.moving.Some?
  {
    match e
    case Ingested(r) => Ingest(s, r)
    case Copied(_, lo, hi) => Copy(s, lo, hi)
    case Deleted => Delete(s)
    case Crashed => s.(moving := None)
    case Booted => Reconcile(s)
    case SessionsDeleted(sessions) => Purge(s, sessions)
  }

  ghost predicate Possible(s: State, es: seq<Event>)
    decreases |es|
  {
    es == [] || (Enabled(s, es[0]) && Possible(Step(s, es[0]), es[1..]))
  }

  function Run(s: State, es: seq<Event>): State
    requires Possible(s, es)
    decreases |es|
  {
    if es == [] then s else Run(Step(s, es[0]), es[1..])
  }

  // ---- One table, for comparison -------------------------------------------------------------

  /** The simple store: one table, rows only come by ingest and only go with their session. */
  datatype Log = Log(rows: Table, nextId: nat)

  function LogStep(l: Log, e: Event): Log {
    match e
    case Ingested(r) =>
      if r.hash.Some? && HasHash(l.rows, r.hash.value) then l
      else Log(l.rows[l.nextId := r], l.nextId + 1)
    case SessionsDeleted(sessions) => l.(rows := Purged(l.rows, sessions))
    case _ => l
  }

  function LogRun(l: Log, es: seq<Event>): Log
    decreases |es|
  {
    if es == [] then l else LogRun(LogStep(l, es[0]), es[1..])
  }

  /** What both tiers hold together. */
  function Union(s: State): Log { Log(s.arch + s.hot, s.nextId) }

  // ---- What every step keeps -----------------------------------------------------------------

  ghost predicate OneRowPerHash(t: Table) {
    forall i, j :: i in t && j in t && t[i].hash.Some? && t[i].hash == t[j].hash ==> i == j
  }

  ghost predicate Inv(s: State) {
    && (forall id :: id in s.hot || id in s.arch ==> id < s.nextId)
    && OneRowPerHash(s.arch + s.hot)
    && (forall id :: id in s.hot && id in s.arch ==> s.hot[id] == s.arch[id])
    && (s.moving.Some? ==> forall id :: id in s.hot && s.moving.value.0 <= id <= s.moving.value.1 ==> id in s.arch)
  }

  lemma HashInUnion(s: State, h: string)
    requires Inv(s)
    ensures HasHash(Union(s).rows, h) <==> HasHash(s.hot, h) || HasHash(s.arch, h)
  {
    if HasHash(s.hot, h) {
      var id :| id in s.hot && s.hot[id].hash == Some(h);
      assert Union(s).rows[id].hash == Some(h);
    } else if HasHash(s.arch, h) {
      var id :| id in s.arch && s.arch[id].hash == Some(h);
      assert Union(s).rows[id].hash == Some(h);
    }
  }

  lemma ArchivedInUnion(s: State, k: nat)
    requires Inv(s) && k in s.arch
    ensures k in Union(s).rows && Union(s).rows[k] == s.arch[k]
  {
  }

  lemma IngestRefines(s: State, r: Row)
    requires Inv(s) && s.moving.None?
    ensures Inv(Ingest(s, r)) && Union(Ingest(s, r)) == LogStep(Union(s), Ingested(r))
  {
    if r.hash.Some? { HashInUnion(s, r.hash.value); }
    if !Duplicate(s, r.hash) {
      var t := Ingest(s, r);
      assert t.arch + t.hot == (s.arch + s.hot)[s.nextId := r];
      forall i | i in s.arch + s.hot && r.hash.Some? ensures (s.arch + s.hot)[i].hash != r.hash {}
    }
  }

  /** What was in a tier before an ingest still is, and the new row is. */
  lemma IngestGrows(s: State, r: Row)
    requires Inv(s) && s.moving.None?
    ensures var t := Ingest(s, r);
            && (forall id :: id in Union(s).rows ==> id in Union(t).rows && Union(t).rows[id] == Union(s).rows[id])
            && (Duplicate(s, r.hash) ==> t == s)
            && (!Duplicate(s, r.hash) ==>
                  && t == s.(hot := s.hot[s.nextId := r], nextId := s.nextId + 1)
                  && s.nextId in Union(t).rows && Union(t).rows[s.nextId] == r)
  {
  }

  /** A row of the hot range whose hash is in the archive is in the archive under its own id. */
  lemma CopiedRows(s: State, lo: nat, hi: nat, id: nat)
    requires Inv(s) && id in s.hot && lo <= id <= hi
    ensures id in CopyRange(s, lo, hi) && CopyRange(s, lo, hi)[id] == s.hot[id]
  {
    if s.hot[id].hash.Some? && HasHash(s.arch, s.hot[id].hash.value) {
      var k :| k in s.arch && s.arch[k].hash == s.hot[id].hash;
      assert k in s.arch + s.hot && (s.arch + s.hot)[k].hash == (s.arch + s.hot)[id].hash;
      assert k == id;
    }
  }

  lemma CopyRefines(s: State, lo: nat, hi: nat)
    requires Inv(s)
    ensures Inv(Copy(s, lo, hi)) && Union(Copy(s, lo, hi)) == Union(s)
  {
    forall id | id in s.hot && lo <= id <= hi
      ensures id in CopyRange(s, lo, hi) && CopyRange(s, lo, hi)[id] == s.hot[id]
    {
      CopiedRows(s, lo, hi, id);
    }
    assert CopyRange(s, lo, hi) + s.hot == s.arch + s.hot;
  }

  lemma DeleteRefines(s: State)
    requires Inv(s) && s.moving.Some?
    ensures Inv(Delete(s)) && Union(Delete(s)) == Union(s)
  {
    assert s.arch + Delete(s).hot == s.arch + s.hot;
  }

  lemma ReconcileRefines(s: State)
    requires Inv(s) && s.moving.None?
    ensures Inv(Reconcile(s)) && Union(Reconcile(s)) == Union(s)
    ensures forall h :: !(HasHash(Reconcile(s).hot, h) && HasHash(Reconcile(s).arch, h))
  {
    forall id | id in s.arch && id !in Reconcile(s).arch ensures id in s.hot && s.hot[id] == s.arch[id] {
      var k :| k in s.hot && s.hot[k].hash == s.arch[id].hash;
      assert k in s.arch + s.hot && id in s.arch + s.hot;
      if id in s.hot { assert s.hot[id] == s.arch[id]; }
      assert (s.arch + s.hot)[k].hash == (s.arch + s.hot)[id].hash;
    }
    assert Reconcile(s).arch + s.hot == s.arch + s.hot;
  }

  lemma PurgeRefines(s: State, sessions: set<Sid>)
    requires Inv(s) && s.moving.None?
    ensures Inv(Purge(s, sessions)) && Union(Purge(s, sessions)) == LogStep(Union(s), SessionsDeleted(sessions))
  {
    var t := Purge(s, sessions);
    assert t.arch + t.hot == Purged(s.arch + s.hot, sessions);
  }

  lemma StepRefines(s: State, e: Event)
    requires Inv(s) && Enabled(s, e)
    ensures Inv(Step(s, e)) && Union(Step(s, e)) == LogStep(Union(s), e)
  {
    hide Inv, Union;
    match e {
      case Ingested(r) => IngestRefines(s, r);
      case Copied(_, lo, hi) => CopyRefines(s, lo, hi);
      case Deleted => DeleteRefines(s);
      case Crashed => CrashRefines(s);
      case Booted => ReconcileRefines(s);
      case SessionsDeleted(sessions) => PurgeRefines(s, sessions);
    }
  }

  lemma CrashRefines(s: State)
    requires Inv(s)
    ensures Inv(s.(moving := None)) && Union(s.(moving := None)) == Union(s)
  {
  }

  // ---- The theorems --------------------------------------------------------------------------

  /**
   The two tiers together are one table. Over every run of ingests, rotations, crashes between their
   halves, boots and session deletions, what hot and archive hold together is exactly what the simple
   store holds: rotation, crash and repair neither lose nor add nor change a row.
   */
  lemma {:induction false} TiersAreOneTable(s: State, es: seq<Event>)
    requires Inv(s) && Possible(s, es)
    ensures Inv(Run(s, es)) && Union(Run(s, es)) == LogRun(Union(s), es)
    decreases |es|
  {
    if es != [] {
      StepRefines(s, es[0]);
      TiersAreOneTable(Step(s, es[0]), es[1..]);
    }
  }

  /** No content hash and no row id ever goes missing, unless its session is deleted. */
  lemma {:induction false} NothingIsLost(l: Log, es: seq<Event>, id: nat)
    requires id in l.rows && id < l.nextId
    requires forall e :: e in es && e.SessionsDeleted? ==>
               !(l.rows[id].sessionId.Some? && l.rows[id].sessionId.value in e.sessions)
    ensures id in LogRun(l, es).rows && LogRun(l, es).rows[id] == l.rows[id]
    decreases |es|
  {
    if es != [] {
      assert es[0] in es;
      NothingIsLost(LogStep(l, es[0]), es[1..], id);
    }
  }

  /** Over whole runs: a row of either tier stays in one of them, as it was, until its session is deleted. */
  lemma RowsSurvive(s: State, es: seq<Event>, id: nat)
    requires Inv(s) && Possible(s, es) && id in Union(s).rows
    requires forall e :: e in es && e.SessionsDeleted? ==>
               !(Union(s).rows[id].sessionId.Some? && Union(s).rows[id].sessionId.value in e.sessions)
    ensures var t := Run(s, es);
            && (id in t.hot || id in t.arch)
            && (id in t.hot ==> t.hot[id] == Union(s).rows[id])
            && (id in t.arch ==> t.arch[id] == Union(s).rows[id])
  {
    TiersAreOneTable(s, es);
    NothingIsLost(Union(s), es, id);
  }

  /** A boot leaves no content hash in both tiers; a row without a hash may stay in both. */
  lemma BootSeparatesHashes(s: State, es: seq<Event>)
    requires Inv(s) && Possible(s, es) && Run(s, es).moving.None?
    ensures var t := Reconcile(Run(s, es));
            && (forall h :: !(HasHash(t.hot, h) && HasHash(t.arch, h)))
            && (forall id :: id in t.hot && id in t.arch <==>
                  id in Run(s, es).hot && id in Run(s, es).arch && t.hot[id].hash.None?)
  {
    TiersAreOneTable(s, es);
    var u := Run(s, es);
    ReconcileRefines(u);
    forall id | id in u.hot && id in u.arch && u.hot[id].hash.Some? ensures id !in Reconcile(u).arch {
      assert HasHash(u.hot, u.hot[id].hash.value);
    }
  }

  /** A line already stored, in either tier and after any rotation, is never stored again. */
  lemma ReplayIsIgnored(s: State, r: Row, es: seq<Event>)
    requires Inv(s) && s.moving.None? && r.hash.Some? && Possible(Ingest(s, r), es)
    requires forall e :: e in es ==> !e.SessionsDeleted?
    ensures Ingest(Run(Ingest(s, r), es), r) == Run(Ingest(s, r), es)
  {
    var s1 := Ingest(s, r);
    IngestRefines(s, r);
    HashInUnion(s1, r.hash.value);
    assert HasHash(Union(s1).rows, r.hash.value) by {
      if Duplicate(s, r.hash) {} else { assert s1.hot[s.nextId].hash == r.hash; }
    }
    var id :| id in Union(s1).rows && Union(s1).rows[id].hash == r.hash;
    RowsSurvive(s1, es, id);
    TiersAreOneTable(s1, es);
    HashInUnion(Run(s1, es), r.hash.value);
    assert Union(Run(s1, es)).rows[id].hash == r.hash;
  }

  // ---- What a deletion removes ---------------------------------------------------------------

  /** This row belongs to one of the sessions. */
  predicate Of(r: Row, sessions: set<Sid>) { r.sessionId.Some? && r.sessionId.value in sessions }

  /** A deletion takes exactly the rows of the given sessions out of both tiers, and leaves the others alone. */
  lemma DeletionRemovesExactly(s: State, sessions: set<Sid>)
    ensures var t := Step(s, SessionsDeleted(sessions));
            && (forall id :: id in t.hot <==> id in s.hot && !Of(s.hot[id], sessions))
            && (forall id :: id in t.arch <==> id in s.arch && !Of(s.arch[id], sessions))
            && (forall id :: id in t.hot ==> t.hot[id] == s.hot[id])
            && (forall id :: id in t.arch ==> t.arch[id] == s.arch[id])
            && t.nextId == s.nextId && t.moving == s.moving
  {
  }

  /** Every row of the single table was there at the start or was ingested since. */
  lemma {:induction false} RowsComeByIngest(l: Log, es: seq<Event>, id: nat)
    requires id in LogRun(l, es).rows
    ensures (id in l.rows && l.rows[id] == LogRun(l, es).rows[id])
            || (exists i :: 0 <= i < |es| && es[i] == Ingested(LogRun(l, es).rows[id]))
    decreases |es|
  {
    if es != [] {
      var m := LogStep(l, es[0]);
      RowsComeByIngest(m, es[1..], id);
      if i :| 0 <= i < |es| - 1 && es[1..][i] == Ingested(LogRun(l, es).rows[id]) {
        assert es[i + 1] == es[1..][i];
      } else if id !in l.rows || m.rows[id] != l.rows[id] {
        assert es[0] == Ingested(m.rows[id]);
      }
    }
  }

  /**
   Over whole runs: after a deletion no row of those sessions is in either tier until one is ingested
   again, however the tiers are rotated, cut off and repaired meanwhile.
   */
  lemma DeletedSessionsStayGone(s: State, sessions: set<Sid>, es: seq<Event>, id: nat)
    requires Inv(s) && s.moving.None? && Possible(Step(s, SessionsDeleted(sessions)), es)
    ensures var t := Run(Step(s, SessionsDeleted(sessions)), es);
            && (id in t.hot && Of(t.hot[id], sessions) ==>
                  exists i :: 0 <= i < |es| && es[i] == Ingested(t.hot[id]))
            && (id in t.arch && Of(t.arch[id], sessions) ==>
                  exists i :: 0 <= i < |es| && es[i] == Ingested(t.arch[id]))
  {
    var s1 := Step(s, SessionsDeleted(sessions));
    DeletionRemovesExactly(s, sessions);
    PurgeRefines(s, sessions);
    TiersAreOneTable(s1, es);
    var t := Run(s1, es);
    BothTiersAgree(t, id);
    BothTiersAgree(s1, id);
    hide Step, Run, LogRun, Inv, Possible;
    if id in Union(t).rows { RowsComeByIngest(Union(s1), es, id); }
  }

  lemma BothTiersAgree(s: State, id: nat)
    requires Inv(s)
    ensures id in s.hot ==> id in Union(s).rows && Union(s).rows[id] == s.hot[id]
    ensures id in s.arch ==> id in Union(s).rows && Union(s).rows[id] == s.arch[id]
    ensures id in Union(s).rows ==> (id in s.hot && s.hot[id] == Union(s).rows[id])
                                    || (id in s.arch && s.arch[id] == Union(s).rows[id])
  {
  }

  // ---- What a rotation moves -----------------------------------------------------------------

  ghost predicate TimesFollowIds(t: Table) { forall i, j :: i in t && j in t && i <= j ==> t[i].ts <= t[j].ts }

  /** No row inside the range is younger than the cutoff. */
  ghost predicate NoneYounger(t: Table, cutoff: int, lo: nat, hi: nat) {
    forall id :: id in t && lo <= id <= hi ==> t[id].ts < cutoff
  }

  lemma RangeIsOldExactly(t: Table, cutoff: int, lo: nat, hi: nat)
    requires IsRange(t, cutoff, lo, hi)
    ensures Between(t, lo, hi) == Older(t, cutoff) <==> NoneYounger(t, cutoff, lo, hi)
    ensures |Between(t, lo, hi)| == |Older(t, cutoff)| <==> NoneYounger(t, cutoff, lo, hi)
    ensures TimesFollowIds(t) ==> NoneYounger(t, cutoff, lo, hi)
  {
    assert Older(t, cutoff) <= Between(t, lo, hi);
    SameSizeSameSet(Older(t, cutoff), Between(t, lo, hi));
    if NoneYounger(t, cutoff, lo, hi) {
      assert Between(t, lo, hi) == Older(t, cutoff);
    } else {
      var id :| id in t && lo <= id <= hi && t[id].ts >= cutoff;
      assert id in Between(t, lo, hi) && id !in Older(t, cutoff);
    }
  }

  lemma RotationMovesTheRange(s: State, lo: nat, hi: nat)
    requires Inv(s)
    ensures var t := Delete(Copy(s, lo, hi));
            && s.hot.Keys - t.hot.Keys == Between(s.hot, lo, hi) && t.hot.Keys <= s.hot.Keys
            && t.arch.Keys == s.arch.Keys + Between(s.hot, lo, hi)
            && (forall id :: id in t.hot ==> t.hot[id] == s.hot[id])
            && (forall id :: id in s.arch ==> t.arch[id] == s.arch[id])
            && (forall id :: id in s.hot && id !in t.hot ==> id in t.arch && t.arch[id] == s.hot[id])
  {
    forall id | id in s.hot && lo <= id <= hi
      ensures id in CopyRange(s, lo, hi) && CopyRange(s, lo, hi)[id] == s.hot[id]
    {
      CopiedRows(s, lo, hi, id);
    }
  }

  /**
   A rotation moves an id range, every row as it was, and touches no other row of either tier. It
   moves exactly the rows older than the cutoff, and the count it reports is the number it moved,
   exactly when no younger row lies inside the range;
   with timestamps that never fall as ids grow, that is always so.
   */
  lemma RotationMovesExactlyTheOld(s: State, cutoff: int, lo: nat, hi: nat)
    requires Inv(s) && s.moving.None? && IsRange(s.hot, cutoff, lo, hi)
    ensures var t := Delete(Copy(s, lo, hi));
            var moved := s.hot.Keys - t.hot.Keys;
            && (forall id :: id in moved ==> id in t.arch && t.arch[id] == s.hot[id])
            && t.arch.Keys == s.arch.Keys + moved && (forall id :: id in s.arch ==> t.arch[id] == s.arch[id])
            && t.hot.Keys <= s.hot.Keys && (forall id :: id in t.hot ==> t.hot[id] == s.hot[id])
            && var tooOld := set id | id in s.hot && s.hot[id].ts < cutoff;
               && (moved == tooOld <==> NoneYounger(s.hot, cutoff, lo, hi))
               && (|moved| == |tooOld| <==> NoneYounger(s.hot, cutoff, lo, hi))
               && (TimesFollowIds(s.hot) ==> moved == tooOld)
  {
    assert Older(s.hot, cutoff) == set id | id in s.hot && s.hot[id].ts < cutoff;
    hide *;
    RangeIsOldExactly(s.hot, cutoff, lo, hi);
    RotationMovesTheRange(s, lo, hi);
  }

  lemma SameSizeSameSet<T>(a: set<T>, b: set<T>)
    requires a <= b
    ensures |a| == |b| <==> a == b
  {
    assert b == a + (b - a);
    assert |b| == |a| + |b - a|;
  }

  /** Younger rows inside the range move too: the age floor is not kept for every order of timestamps. */
  lemma LateRowMoves()
    ensures var row := (ts: int, h: string) => Row(ts, None, Some(h), "");
            var s := State(map[0 := row(1, "a"), 1 := row(9, "b"), 2 := row(2, "c")], map[], 3, None);
            Inv(s) && IsRange(s.hot, 5, 0, 2) && 1 in Delete(Copy(s, 0, 2)).arch && 1 !in Delete(Copy(s, 0, 2)).hot
  {
  }

  // ---- A wiped hot table ---------------------------------------------------------------------

  /** The hot file is gone and starts again at id 1; the archive stays. */
  function Wipe(s: State): State { s.(hot := map[], nextId := 1, moving := None) }

  ghost predicate Holds(t: Table, r: Row) { exists id :: id in t && t[id] == r }

  /**
   After a wipe ids are given out again, and a rotation then loses rows: of the rows it removes from
   the hot table, exactly those whose id the archive already has for another row are in neither tier.
   */
  lemma RotationLosesExactlyOnIdClash(s: State, lo: nat, hi: nat, id: nat)
    requires OneRowPerHash(s.hot) && id in s.hot && lo <= id <= hi
    requires s.hot[id].hash.Some? && !HasHash(s.arch, s.hot[id].hash.value)
    ensures var t := Delete(Copy(s, lo, hi));
            (!Holds(t.hot, s.hot[id]) && !Holds(t.arch, s.hot[id])) <==> id in s.arch
  {
    var t := Delete(Copy(s, lo, hi));
    var r := s.hot[id];
    if id !in s.arch { assert t.arch[id] == r; }
    if id in s.arch {
      forall k | k in t.arch ensures t.arch[k] != r {
        if k in s.arch && t.arch[k] == r { assert HasHash(s.arch, r.hash.value); }
      }
      forall k | k in t.hot ensures t.hot[k] != r {}
    }
  }

  lemma WipeThenRotateLoses(a: Row, b: Row)
    requires a.hash.Some? && b.hash.Some? && a.hash != b.hash
    ensures var s := Ingest(Wipe(State(map[], map[1 := a], 2, None)), b);
            var t := Delete(Copy(s, 1, 1));
            Holds(s.hot, b) && !Holds(t.hot, b) && !Holds(t.arch, b)
  {
    var s0 := Wipe(State(map[], map[1 := a], 2, None));
    assert !HasHash(s0.arch, b.hash.value);
    var s := Ingest(s0, b);
    assert s.hot[1] == b;
    RotationLosesExactlyOnIdClash(s, 1, 1, 1);
  }

  // ---- The tables, changed in place ----------------------------------------------------------

  function IngestAll(s: State, rows: seq<Row>): State
    decreases |rows|
  {
    if rows == [] then s else IngestAll(Ingest(s, rows[0]), rows[1..])
  }

  class Tiers {
    var hot: Table
    var arch: Table
    var nextId: nat
    var moving: Option<(nat, nat)>

    constructor ()
      ensures Inv(Abs()) && Abs() == State(map[], map[], 1, None)
    {
      hot, arch, nextId, moving := map[], map[], 1, None;
    }

    ghost function Abs(): State
      reads this
    {
      State(hot, arch, nextId, moving)
    }

    method FindByHash(h: Option<string>) returns (id: Option<nat>)
      requires Inv(Abs())
      ensures id.Some? <==> Duplicate(Abs(), h)
      ensures id.Some? ==> id.value in Union(Abs()).rows && Union(Abs()).rows[id.value].hash == h
    {
      if h.Some? && exists k :: k in hot && hot[k].hash == h {
        var k :| k in hot && hot[k].hash == h;
        return Some(k);
      }
      if h.Some? && exists k :: k in arch && arch[k].hash == h {
        var k :| k in arch && arch[k].hash == h;
        ArchivedInUnion(Abs(), k);
        return Some(k);
      }
      return None;
    }

    /** `ingestLines`: one id for every line, new or already stored. */
    method IngestLines(rows: seq<Row>) returns (ids: seq<nat>)
      requires Inv(Abs()) && moving.None?
      modifies `hot, `nextId
      ensures Inv(Abs()) && Abs() == IngestAll(old(Abs()), rows)
      ensures |ids| == |rows|
      ensures forall i :: 0 <= i < |rows| && rows[i].hash.Some? ==>
                ids[i] in Union(Abs()).rows && Union(Abs()).rows[ids[i]].hash == rows[i].hash
    {
      hide Inv, Duplicate, Ingest, Union, LogStep;
      ids := [];
      var n := 0;
      while n < |rows|
        invariant 0 <= n <= |rows| && |ids| == n
        invariant Inv(Abs()) && moving.None?
        invariant IngestAll(Abs(), rows[n..]) == IngestAll(old(Abs()), rows)
        invariant forall i :: 0 <= i < n && rows[i].hash.Some? ==>
                    ids[i] in Union(Abs()).rows && Union(Abs()).rows[ids[i]].hash == rows[i].hash
      {
        ghost var before := Abs();
        IngestRefines(before, rows[n]);
        IngestGrows(before, rows[n]);
        var existing := FindByHash(rows[n].hash);
        if existing.Some? {
          ids := ids + [existing.value];
        } else {
          hot := hot[nextId := rows[n]];
          ids := ids + [nextId];
          nextId := nextId + 1;
        }
        assert Abs() == Ingest(before, rows[n]);
        n := n + 1;
      }
    }

    /** Phase 1 of `rotateIfNeeded`, when some row is old enough; `n` is the count it reports. */
    method CopyToArchive(cutoff: int, lo: nat, hi: nat) returns (n: nat)
      requires moving.None? && IsRange(hot, cutoff, lo, hi)
      modifies `arch, `moving
      ensures Abs() == Copy(old(Abs()), lo, hi) && n == |Older(hot, cutoff)|
    {
      n := |Older(hot, cutoff)|;
      arch := CopyRange(State(hot, arch, nextId, moving), lo, hi);
      moving := Some((lo, hi));
    }

    method DeleteFromHot()
      requires moving.Some?
      modifies `hot, `moving
      ensures Abs() == Delete(old(Abs()))
    {
      hot := Without(hot, moving.value.0, moving.value.1);
      moving := None;
    }

    /** The whole rotation, or its first half when the process dies in between. */
    method RotateIfNeeded(cutoff: int, lo: nat, hi: nat, dies: bool) returns (n: nat)
      requires Inv(Abs()) && moving.None? && IsRange(hot, cutoff, lo, hi)
      modifies this
      ensures Inv(Abs()) && Union(Abs()) == old(Union(Abs())) && moving.None?
      ensures hot == if dies then old(hot) else Without(old(hot), lo, hi)
      ensures n == |Older(old(hot), cutoff)|
    {
      CopyRefines(Abs(), lo, hi);
      n := CopyToArchive(cutoff, lo, hi);
      if dies {
        moving := None;
      } else {
        DeleteRefines(Abs());
        DeleteFromHot();
      }
    }

    method ReconcileArchiveAfterAttach()
      requires Inv(Abs()) && moving.None?
      modifies `arch
      ensures Inv(Abs()) && Abs() == Reconcile(old(Abs())) && Union(Abs()) == old(Union(Abs()))
    {
      ReconcileRefines(Abs());
      arch := Reconcile(State(hot, arch, nextId, moving)).arch;
    }

    /** The count adds up both tiers, so a row that is in both counts twice. */
    method DeleteEventsForSessions(sessionIds: seq<Sid>) returns (deleted: nat)
      requires Inv(Abs()) && moving.None?
      modifies `hot, `arch
      ensures Inv(Abs()) && Abs() == Step(old(Abs()), SessionsDeleted(set x | x in sessionIds && x != ""))
      ensures forall id :: id in hot <==> id in old(hot) && !Names(sessionIds, old(hot)[id])
      ensures forall id :: id in arch <==> id in old(arch) && !Names(sessionIds, old(arch)[id])
      ensures forall id :: id in hot ==> hot[id] == old(hot)[id]
      ensures forall id :: id in arch ==> arch[id] == old(arch)[id]
      ensures deleted == |RowsOf(old(hot), sessionIds)| + |RowsOf(old(arch), sessionIds)|
    {
      hide Inv, Purged, RowsOf, Names;
      ghost var ids := set x | x in sessionIds && x != "";
      PurgeRefines(Abs(), ids);
      TakenOut(hot, sessionIds);
      TakenOut(arch, sessionIds);
      deleted := |RowsOf(hot, sessionIds)| + |RowsOf(arch, sessionIds)|;
      hot, arch := hot - RowsOf(hot, sessionIds), arch - RowsOf(arch, sessionIds);
    }
  }

  /** The row's session is one of the given non-empty ids. */
  predicate Names(sessionIds: seq<Sid>, r: Row) {
    r.sessionId.Some? && r.sessionId.value != "" && r.sessionId.value in sessionIds
  }

  function RowsOf(t: Table, sessionIds: seq<Sid>): set<nat> { set id | id in t && Names(sessionIds, t[id]) }

  lemma TakenOut(t: Table, sessionIds: seq<Sid>)
    ensures var left := t - RowsOf(t, sessionIds);
            && left == Purged(t, set x | x in sessionIds && x != "")
            && (forall id :: id in left <==> id in t && !Names(sessionIds, t[id]))
            && forall id :: id in left ==> left[id] == t[id]
  {
  }
}
