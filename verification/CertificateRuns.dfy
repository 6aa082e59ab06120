/**
 Every interleaving of gets, in-flight refreshes, writers and key migrations over one
 certificate table and its cache. A run is a sequence of atomic steps; a step that is
 not enabled leaves the state as it is, so every sequence of steps is a run.
 */
module CertificateRuns {
  import opened Common
  import opened CertificateCache
  import opened Runs

  // ---------- the table ----------

  /** Stored private key bytes; sealing keeps the key, `NoKey` cannot be opened. */
  datatype KeyBytes = PlainKey(key: int) | SealedKey(key: int) | NoKey

  /** `certKey` names the private key that the certificate chain belongs to. */
  datatype Row = Row(id: nat, chain: string, certKey: int, privateKey: KeyBytes)

  /** A row whose key a migration will seal. */
  type Unsealed = r: Row | r.privateKey.PlainKey? witness Row(0, "", 0, PlainKey(0))

  /** All values a table row has had, oldest first; the last one is the stored row. */
  type History = h: seq<Option<Row>> | |h| > 0 witness [None]

  /** What `LoadCertificate` makes of a row. */
  function Read(row: Option<Row>): Outcome {
    match row
    case None => Missing
    case Some(r) =>
      if !r.privateKey.NoKey? && r.privateKey.key == r.certKey
      then Found(Certificate(r.chain, r.certKey)) else Failed
  }

  /** Some version from `from` on reads as `o`. */
  predicate Seen(h: History, from: nat, o: Outcome) {
    exists v :: from <= v < |h| && Read(h[v]) == o
  }

  /** A load may fail for its own reasons; otherwise it shows a version from `from` on. */
  predicate Explained(h: History, from: nat, o: Outcome) {
    o.Failed? || Seen(h, from, o)
  }

  // ---------- the participants ----------

  type Id = nat

  /** A flight of the singleflight group; `since` is the version that was loaded. */
  datatype Call =
    | Started(name: Name)
    | Reading(name: Name, gen: nat)
    | Loaded(name: Name, gen: nat, since: nat, outcome: Outcome)
    | Stored(name: Name, since: nat, outcome: Outcome)
    | Finished(name: Name, since: nat, outcome: Outcome)

  /** A store or delete, after the version it left in the table. */
  datatype Writer =
    | Committed(name: Name, version: nat)
    | Flushed(name: Name, version: nat)
    | Returned(name: Name, version: nat)

  /** `rows` are those read and not yet updated. */
  datatype Migration = Migrating(rows: map<Name, Unsealed>, updated: bool) | Over

  datatype Phase =
    | Asking
    | Revalidating(outcome: Outcome)
    | Missed
    | Waiting(call: Id)
    | Answered(outcome: Outcome)

  /** `floor` is the newest version of `name` whose writer had returned at the start. */
  datatype Getter = Getter(name: Name, floor: nat, phase: Phase)

  /**
   `flushed` is the version up to which the cache was flushed for a name, `returned` the
   newest version whose writer has returned. `stale` are the names whose meaning a
   migration changed after their last flush.
   */
  datatype State = State(
    history: Table,
    cache: Cache,
    group: map<Name, Id>,
    calls: map<Id, Call>,
    writers: map<Id, Writer>,
    migrations: map<Id, Migration>,
    getters: map<Id, Getter>,
    flushed: map<Name, nat>,
    returned: map<Name, nat>,
    stale: set<Name>)

  type Table = map<Name, History>

  function Hist(t: Table, n: Name): History {
    if n in t then t[n] else [None]
  }

  function Current(t: Table, n: Name): nat {
    |Hist(t, n)| - 1
  }

  function Row?(t: Table, n: Name): Option<Row> {
    Hist(t, n)[Current(t, n)]
  }

  /** The version that a per-name mark stands at. */
  function Mark(marks: map<Name, nat>, n: Name): nat {
    if n in marks then marks[n] else 0
  }

  /** Every name marked at its current version. */
  function AllMarks(t: Table): map<Name, nat> {
    map n | n in t :: Current(t, n)
  }

  function Initial(table: map<Name, Row>): State {
    State(map n | n in table :: [Some(table[n])], EMPTY, map[], map[], map[], map[], map[], map[], map[], {})
  }

  // ---------- the steps ----------

  datatype Step =
    | Commit(w: Id, name: Name, row: Option<Row>, ok: bool)
    | Invalidate(w: Id)
    | Forget(w: Id)
    | MigrateRead(m: Id)
    | MigrateRow(m: Id, name: Name)
    | MigrateDone(m: Id)
    | MigrateAbort(m: Id)
    | GetBegin(g: Id, name: Name)
    | GetLook(g: Id, now: Time)
    | GetRevalidate(g: Id, c: Id)
    | GetJoin(g: Id, c: Id)
    | GetReceive(g: Id)
    | GetGiveUp(g: Id)
    | RefreshBegin(c: Id)
    | RefreshLoad(c: Id, broken: bool)
    | RefreshStore(c: Id, now: Time)
    | RefreshFinish(c: Id)

  function Apply(s: State, step: Step): State {
    match step
    case Commit(w, n, row, ok) => DoCommit(s, w, n, row, ok)
    case Invalidate(w) => DoInvalidate(s, w)
    case Forget(w) => DoForget(s, w)
    case MigrateRead(m) => DoMigrateRead(s, m)
    case MigrateRow(m, n) => DoMigrateRow(s, m, n)
    case MigrateDone(m) => DoMigrateDone(s, m)
    case MigrateAbort(m) => DoMigrateAbort(s, m)
    case GetBegin(g, n) => DoGetBegin(s, g, n)
    case GetLook(g, now) => DoGetLook(s, g, now)
    case GetRevalidate(g, c) => DoGetRevalidate(s, g, c)
    case GetJoin(g, c) => DoGetJoin(s, g, c)
    case GetReceive(g) => DoGetReceive(s, g)
    case GetGiveUp(g) => DoGetGiveUp(s, g)
    case RefreshBegin(c) => DoRefreshBegin(s, c)
    case RefreshLoad(c, broken) => DoRefreshLoad(s, c, broken)
    case RefreshStore(c, now) => DoRefreshStore(s, c, now)
    case RefreshFinish(c) => DoRefreshFinish(s, c)
  }

  ghost predicate Start(s: State) {
    exists table :: s == Initial(table)
  }

  function Written(h: History, row: Option<Row>, ok: bool): History {
    if ok then h + [row] else h
  }

  /** `StorePEM`, `StoreCertificate` or `DeleteCertificate` reaching (or failing) its commit. */
  function DoCommit(s: State, w: Id, n: Name, row: Option<Row>, ok: bool): State {
    if w in s.writers then s
    else
      var t := s.history[n := Written(Hist(s.history, n), row, ok)];
      s.(history := t, writers := s.writers[w := Committed(n, Current(t, n))])
  }

  /** The locked part of `invalidate`. */
  function DoInvalidate(s: State, w: Id): State {
    if w !in s.writers || !s.writers[w].Committed? then s
    else
      var Committed(n, v) := s.writers[w];
      s.(cache := Invalidated(s.cache, n),
         flushed := s.flushed[n := Current(s.history, n)],
         stale := s.stale - {n},
         writers := s.writers[w := Flushed(n, v)])
  }

  /** `Forget` on the singleflight group, after which the writer returns. */
  function DoForget(s: State, w: Id): State {
    if w !in s.writers || !s.writers[w].Flushed? then s
    else
      var Flushed(n, v) := s.writers[w];
      s.(group := s.group - {n},
         returned := s.returned[n := Max(Mark(s.returned, n), v)],
         writers := s.writers[w := Returned(n, v)])
  }

  predicate PlainRow(row: Option<Row>) {
    row.Some? && row.value.privateKey.PlainKey?
  }

  function DoMigrateRead(s: State, m: Id): State {
    if m in s.migrations then s
    else
      var rows: map<Name, Unsealed> := map n | n in s.history && PlainRow(Row?(s.history, n)) :: Row?(s.history, n).value;
      s.(migrations := s.migrations[m := Migrating(rows, false)])
  }

  /** The stored row after the update keyed by the id that was read. */
  function Sealed(current: Option<Row>, read: Unsealed): Option<Row> {
    if current.Some? && current.value.id == read.id
    then Some(current.value.(privateKey := SealedKey(read.privateKey.key))) else current
  }

  function DoMigrateRow(s: State, m: Id, n: Name): State {
    if m !in s.migrations || !s.migrations[m].Migrating? || n !in s.migrations[m].rows then s
    else
      var Migrating(rows, _) := s.migrations[m];
      var before := Row?(s.history, n);
      var after := Sealed(before, rows[n]);
      s.(history := s.history[n := Hist(s.history, n) + [after]],
         stale := if Read(after) == Read(before) then s.stale else s.stale + {n},
         migrations := s.migrations[m := Migrating(rows - {n}, true)])
  }

  /** All rows done: the whole cache is flushed if any row was updated. */
  function DoMigrateDone(s: State, m: Id): State {
    if m !in s.migrations || !s.migrations[m].Migrating? || s.migrations[m].rows != map[] then s
    else if !s.migrations[m].updated then DoMigrateAbort(s, m)
    else
      s.(cache := AllInvalidated(s.cache),
         flushed := AllMarks(s.history),
         stale := {},
         migrations := s.migrations[m := Over])
  }

  /** An error return part way, which flushes nothing. */
  function DoMigrateAbort(s: State, m: Id): State {
    if m !in s.migrations || !s.migrations[m].Migrating? then s
    else s.(migrations := s.migrations[m := Over])
  }

  function DoGetBegin(s: State, g: Id, n: Name): State {
    if g in s.getters then s
    else s.(getters := s.getters[g := Getter(n, Mark(s.returned, n), Asking)])
  }

  predicate InPhase(s: State, g: Id, p: Phase) {
    g in s.getters && s.getters[g].phase == p
  }

  function Moved(s: State, g: Id, p: Phase): State
    requires g in s.getters
  {
    s.(getters := s.getters[g := s.getters[g].(phase := p)])
  }

  function AfterLook(found: Lookup): Phase {
    match found
    case Fresh(cert) => Answered(Found(cert))
    case Stale(cert) => Revalidating(Found(cert))
    case KnownMissing => Answered(Missing)
    case Unknown => Missed
  }

  function DoGetLook(s: State, g: Id, now: Time): State {
    if !InPhase(s, g, Asking) then s
    else Moved(s, g, AfterLook(Look(s.cache, s.getters[g].name, now)))
  }

  /** `DoChan`: join the registered flight for `n`, or register `c`. */
  predicate CanFly(s: State, n: Name, c: Id) {
    n in s.group || c !in s.calls
  }

  function Fly(s: State, n: Name, c: Id): State {
    if n in s.group then s
    else s.(group := s.group[n := c], calls := s.calls[c := Started(n)])
  }

  function DoGetRevalidate(s: State, g: Id, c: Id): State {
    if g !in s.getters || !s.getters[g].phase.Revalidating? || !CanFly(s, s.getters[g].name, c) then s
    else Moved(Fly(s, s.getters[g].name, c), g, Answered(s.getters[g].phase.outcome))
  }

  function DoGetJoin(s: State, g: Id, c: Id): State {
    if !InPhase(s, g, Missed) || !CanFly(s, s.getters[g].name, c) then s
    else
      var n := s.getters[g].name;
      Moved(Fly(s, n, c), g, Waiting(if n in s.group then s.group[n] else c))
  }

  function DoGetReceive(s: State, g: Id): State {
    if g in s.getters && s.getters[g].phase.Waiting? && s.getters[g].phase.call in s.calls
       && s.calls[s.getters[g].phase.call].Finished?
    then Moved(s, g, Answered(s.calls[s.getters[g].phase.call].outcome)) else s
  }

  /** The caller's context ended first. */
  function DoGetGiveUp(s: State, g: Id): State {
    if g in s.getters && s.getters[g].phase.Waiting? then Moved(s, g, Answered(Failed)) else s
  }

  function DoRefreshBegin(s: State, c: Id): State {
    if c !in s.calls || !s.calls[c].Started? then s
    else s.(calls := s.calls[c := Reading(s.calls[c].name, s.cache.gen)])
  }

  function DoRefreshLoad(s: State, c: Id, broken: bool): State {
    if c !in s.calls || !s.calls[c].Reading? then s
    else
      var Reading(n, gen) := s.calls[c];
      var o := if broken then Failed else Read(Row?(s.history, n));
      s.(calls := s.calls[c := Loaded(n, gen, Current(s.history, n), o)])
  }

  function DoRefreshStore(s: State, c: Id, now: Time): State {
    if c !in s.calls || !s.calls[c].Loaded? then s
    else
      var Loaded(n, gen, since, o) := s.calls[c];
      s.(cache := Remember(s.cache, n, gen, o, now), calls := s.calls[c := Stored(n, since, o)])
  }

  /** The group drops the flight if it is still the registered one. */
  function DoRefreshFinish(s: State, c: Id): State {
    if c !in s.calls || !s.calls[c].Stored? then s
    else
      var Stored(n, since, o) := s.calls[c];
      s.(group := if n in s.group && s.group[n] == c then s.group - {n} else s.group,
         calls := s.calls[c := Finished(n, since, o)])
  }

  // ---------- the invariant ----------

  ghost predicate Dated(call: Call) {
    call.Loaded? || call.Stored? || call.Finished?
  }

  ghost predicate CallOk(h: History, flushed: nat, gen: nat, call: Call) {
    && (call.Reading? || call.Loaded? ==> call.gen <= gen)
    && (Dated(call) ==> call.since < |h| && Explained(h, call.since, call.outcome))
    && (call.Loaded? && call.gen == gen ==> flushed <= call.since)
  }

  ghost predicate WriterOk(current: nat, flushed: nat, returned: nat, w: Writer) {
    w.version <= match w case Committed(_, _) => current case Flushed(_, _) => flushed case Returned(_, _) => returned
  }

  ghost predicate GetterOk(h: History, returned: nat, calls: map<Id, Call>, g: Getter) {
    && g.floor <= returned
    && (g.phase.Revalidating? || g.phase.Answered? ==> Explained(h, g.floor, g.phase.outcome))
    && (g.phase.Waiting? ==>
        var c := g.phase.call;
        c in calls && calls[c].name == g.name && (Dated(calls[c]) ==> g.floor <= calls[c].since))
  }

  /** A write to `n` is in the table and its cache entry is not flushed yet. */
  ghost predicate PendingWrite(writers: map<Id, Writer>, n: Name) {
    exists w :: w in writers && writers[w].Committed? && writers[w].name == n
  }

  /** A write or a migration changed what `n` means and its cache entry is not flushed yet. */
  ghost predicate Pending(s: State, n: Name) {
    PendingWrite(s.writers, n) || n in s.stale
  }

  /** The same certificate, whatever private key is stored beside it, or none. */
  predicate SameCertificate(a: Option<Row>, b: Option<Row>) {
    (a.None? && b.None?) || (a.Some? && b.Some? && a.value.chain == b.value.chain && a.value.certKey == b.value.certKey)
  }

  /** Every version that the cache may still show is of the certificate stored now. */
  ghost predicate Alike(h: History, flushed: nat) {
    forall v :: flushed <= v < |h| ==> SameCertificate(h[v], h[|h| - 1])
  }

  /** Every version that the cache may still show means what is stored now. */
  ghost predicate Settled(h: History, flushed: nat) {
    forall v :: flushed <= v < |h| ==> Read(h[v]) == Read(h[|h| - 1])
  }

  ghost predicate Steady(h: History, flushed: nat, stale: bool) {
    Alike(h, flushed) && (!stale ==> Settled(h, flushed))
  }

  ghost predicate FloorsOk(t: Table, flushed: map<Name, nat>, returned: map<Name, nat>) {
    forall n: Name :: Mark(returned, n) <= Mark(flushed, n) <= Current(t, n)
  }

  ghost predicate HitsOk(t: Table, flushed: map<Name, nat>, hits: map<Name, Entry>) {
    forall n :: n in hits ==> Seen(Hist(t, n), Mark(flushed, n), Found(hits[n].cert))
  }

  ghost predicate MissesOk(t: Table, flushed: map<Name, nat>, misses: map<Name, Time>) {
    forall n :: n in misses ==> Seen(Hist(t, n), Mark(flushed, n), Missing)
  }

  ghost predicate CacheOk(t: Table, flushed: map<Name, nat>, c: Cache) {
    HitsOk(t, flushed, c.hits) && MissesOk(t, flushed, c.misses)
  }

  ghost predicate CallsOk(t: Table, flushed: map<Name, nat>, gen: nat, calls: map<Id, Call>) {
    forall c :: c in calls ==>
      CallOk(Hist(t, calls[c].name), Mark(flushed, calls[c].name), gen, calls[c])
  }

  ghost predicate GroupOk(returned: map<Name, nat>, group: map<Name, Id>, calls: map<Id, Call>) {
    forall n :: n in group ==>
      && group[n] in calls
      && calls[group[n]].name == n
      && (Dated(calls[group[n]]) ==> Mark(returned, n) <= calls[group[n]].since)
  }

  ghost predicate WritersOk(t: Table, flushed: map<Name, nat>, returned: map<Name, nat>, writers: map<Id, Writer>) {
    forall w :: w in writers ==>
      WriterOk(Current(t, writers[w].name), Mark(flushed, writers[w].name), Mark(returned, writers[w].name), writers[w])
  }

  ghost predicate GettersOk(t: Table, returned: map<Name, nat>, calls: map<Id, Call>, getters: map<Id, Getter>) {
    forall g :: g in getters ==>
      GetterOk(Hist(t, getters[g].name), Mark(returned, getters[g].name), calls, getters[g])
  }

  ghost predicate SettledOk(t: Table, flushed: map<Name, nat>, writers: map<Id, Writer>, stale: set<Name>) {
    forall n: Name :: Steady(Hist(t, n), Mark(flushed, n), n in stale) || PendingWrite(writers, n)
  }

  ghost predicate Inv(s: State) {
    && FloorsOk(s.history, s.flushed, s.returned)
    && WellFormed(s.cache)
    && CacheOk(s.history, s.flushed, s.cache)
    && CallsOk(s.history, s.flushed, s.cache.gen, s.calls)
    && GroupOk(s.returned, s.group, s.calls)
    && WritersOk(s.history, s.flushed, s.returned, s.writers)
    && GettersOk(s.history, s.returned, s.calls, s.getters)
    && SettledOk(s.history, s.flushed, s.writers, s.stale)
  }

  // ---------- every step keeps the invariant ----------

  lemma InitialHolds(table: map<Name, Row>)
    ensures Inv(Initial(table))
  {
    var s := Initial(table);
    forall n: Name
      ensures |Hist(s.history, n)| == 1 && Mark(s.flushed, n) == 0 && Mark(s.returned, n) == 0
    {
    }
    assert FloorsOk(s.history, s.flushed, s.returned) && SettledOk(s.history, s.flushed, s.writers, s.stale);
  }

  lemma SeenGrows(h: History, h': History, from: nat, o: Outcome)
    requires h <= h'
    ensures Seen(h, from, o) ==> Seen(h', from, o)
    ensures Explained(h, from, o) ==> Explained(h', from, o)
  {
    if Seen(h, from, o) {
      var v :| from <= v < |h| && Read(h[v]) == o;
      assert h'[v] == h[v];
    }
  }

  lemma SeenLower(h: History, from: nat, from': nat, o: Outcome)
    requires from' <= from
    ensures Seen(h, from, o) ==> Seen(h, from', o)
    ensures Explained(h, from, o) ==> Explained(h, from', o)
  {
  }

  /** One more version of one row. */
  ghost predicate Grown(t: Table, t': Table) {
    forall n: Name :: Hist(t, n) <= Hist(t', n)
  }

  lemma GrownAt(t: Table, n: Name, h: History)
    requires Hist(t, n) <= h
    ensures Grown(t, t[n := h])
    ensures forall k: Name :: k != n ==> Hist(t[n := h], k) == Hist(t, k)
  {
  }

  lemma GrownCache(t: Table, t': Table, flushed: map<Name, nat>, c: Cache)
    requires Grown(t, t') && CacheOk(t, flushed, c)
    ensures CacheOk(t', flushed, c)
  {
    forall n | n in c.hits ensures Seen(Hist(t', n), Mark(flushed, n), Found(c.hits[n].cert)) {
      SeenGrows(Hist(t, n), Hist(t', n), Mark(flushed, n), Found(c.hits[n].cert));
    }
    forall n | n in c.misses ensures Seen(Hist(t', n), Mark(flushed, n), Missing) {
      SeenGrows(Hist(t, n), Hist(t', n), Mark(flushed, n), Missing);
    }
  }

  lemma GrownCalls(t: Table, t': Table, flushed: map<Name, nat>, gen: nat, calls: map<Id, Call>)
    requires Grown(t, t') && CallsOk(t, flushed, gen, calls)
    ensures CallsOk(t', flushed, gen, calls)
  {
    forall c | c in calls
      ensures CallOk(Hist(t', calls[c].name), Mark(flushed, calls[c].name), gen, calls[c])
    {
      var n := calls[c].name;
      assert CallOk(Hist(t, n), Mark(flushed, n), gen, calls[c]);
      if Dated(calls[c]) {
        SeenGrows(Hist(t, n), Hist(t', n), calls[c].since, calls[c].outcome);
      }
    }
  }

  lemma GrownGetters(t: Table, t': Table, returned: map<Name, nat>, calls: map<Id, Call>, getters: map<Id, Getter>)
    requires Grown(t, t') && GettersOk(t, returned, calls, getters)
    ensures GettersOk(t', returned, calls, getters)
  {
    forall g | g in getters
      ensures GetterOk(Hist(t', getters[g].name), Mark(returned, getters[g].name), calls, getters[g])
    {
      var n := getters[g].name;
      assert GetterOk(Hist(t, n), Mark(returned, n), calls, getters[g]);
      if getters[g].phase.Revalidating? || getters[g].phase.Answered? {
        SeenGrows(Hist(t, n), Hist(t', n), getters[g].floor, getters[g].phase.outcome);
      }
    }
  }

  lemma GrownFloors(t: Table, t': Table, flushed: map<Name, nat>, returned: map<Name, nat>)
    requires Grown(t, t') && FloorsOk(t, flushed, returned)
    ensures FloorsOk(t', flushed, returned)
  {
    forall n: Name ensures Mark(returned, n) <= Mark(flushed, n) <= Current(t', n) {
      assert Mark(returned, n) <= Mark(flushed, n) <= Current(t, n);
      assert Hist(t, n) <= Hist(t', n);
    }
  }

  lemma GrownWriters(t: Table, t': Table, flushed: map<Name, nat>, returned: map<Name, nat>, writers: map<Id, Writer>)
    requires Grown(t, t') && WritersOk(t, flushed, returned, writers)
    ensures WritersOk(t', flushed, returned, writers)
  {
    forall w | w in writers
      ensures WriterOk(Current(t', writers[w].name), Mark(flushed, writers[w].name), Mark(returned, writers[w].name), writers[w])
    {
      assert Hist(t, writers[w].name) <= Hist(t', writers[w].name);
    }
  }

  lemma GrownKeeps(s: State, t': Table)
    requires Inv(s) && Grown(s.history, t')
    ensures FloorsOk(t', s.flushed, s.returned)
    ensures CacheOk(t', s.flushed, s.cache)
    ensures CallsOk(t', s.flushed, s.cache.gen, s.calls)
    ensures GettersOk(t', s.returned, s.calls, s.getters)
    ensures WritersOk(t', s.flushed, s.returned, s.writers)
  {
    GrownFloors(s.history, t', s.flushed, s.returned);
    GrownCache(s.history, t', s.flushed, s.cache);
    GrownCalls(s.history, t', s.flushed, s.cache.gen, s.calls);
    GrownGetters(s.history, t', s.returned, s.calls, s.getters);
    GrownWriters(s.history, t', s.flushed, s.returned, s.writers);
  }

  /** No pending write of a name went away. */
  lemma StillPending(writers: map<Id, Writer>, writers': map<Id, Writer>, n: Name)
    requires forall w :: w in writers && writers[w].Committed? && writers[w].name == n ==>
      w in writers' && writers'[w] == writers[w]
    ensures PendingWrite(writers, n) ==> PendingWrite(writers', n)
  {
    if PendingWrite(writers, n) {
      var w :| w in writers && writers[w].Committed? && writers[w].name == n;
      assert w in writers' && writers'[w].Committed? && writers'[w].name == n;
    }
  }

  /** While its writer is pending, a name may be in any state. */
  lemma SettledCommit(t: Table, t': Table, flushed: map<Name, nat>, writers: map<Id, Writer>, w: Id, n: Name, v: nat,
                      stale: set<Name>)
    requires SettledOk(t, flushed, writers, stale) && w !in writers
    requires forall k: Name :: k != n ==> Hist(t', k) == Hist(t, k)
    ensures SettledOk(t', flushed, writers[w := Committed(n, v)], stale)
  {
    var writers' := writers[w := Committed(n, v)];
    forall k: Name
      ensures Steady(Hist(t', k), Mark(flushed, k), k in stale) || PendingWrite(writers', k)
    {
      assert Steady(Hist(t, k), Mark(flushed, k), k in stale) || PendingWrite(writers, k);
      if k == n {
        assert w in writers' && writers'[w].Committed? && writers'[w].name == n;
      } else {
        StillPending(writers, writers', k);
      }
    }
  }

  lemma CommitKeeps(s: State, w: Id, n: Name, row: Option<Row>, ok: bool)
    requires Inv(s)
    ensures Inv(Apply(s, Commit(w, n, row, ok)))
  {
    if w !in s.writers {
      var h := Written(Hist(s.history, n), row, ok);
      var t := s.history[n := h];
      GrownAt(s.history, n, h);
      GrownKeeps(s, t);
      WritersMove(t, s.flushed, s.flushed, s.returned, s.returned, s.writers, w, Committed(n, Current(t, n)));
      SettledCommit(s.history, t, s.flushed, s.writers, w, n, Current(t, n), s.stale);
    }
  }

  /** Raising the flush marks is harmless to flights once the generation has moved on. */
  lemma CallsFlush(t: Table, flushed: map<Name, nat>, flushed': map<Name, nat>, gen: nat, calls: map<Id, Call>)
    requires CallsOk(t, flushed, gen, calls)
    ensures CallsOk(t, flushed', gen + 1, calls)
  {
    forall c | c in calls
      ensures CallOk(Hist(t, calls[c].name), Mark(flushed', calls[c].name), gen + 1, calls[c])
    {
      assert CallOk(Hist(t, calls[c].name), Mark(flushed, calls[c].name), gen, calls[c]);
    }
  }

  lemma CacheFlush(t: Table, flushed: map<Name, nat>, c: Cache, n: Name, v: nat)
    requires CacheOk(t, flushed, c)
    ensures CacheOk(t, flushed[n := v], Invalidated(c, n))
  {
    var flushed' := flushed[n := v];
    forall k | k in c.hits && k != n ensures Seen(Hist(t, k), Mark(flushed', k), Found(c.hits[k].cert)) {
      assert Mark(flushed', k) == Mark(flushed, k);
    }
    forall k | k in c.misses && k != n ensures Seen(Hist(t, k), Mark(flushed', k), Missing) {
      assert Mark(flushed', k) == Mark(flushed, k);
    }
  }

  lemma WritersMove(t: Table, flushed: map<Name, nat>, flushed': map<Name, nat>,
                    returned: map<Name, nat>, returned': map<Name, nat>,
                    writers: map<Id, Writer>, w: Id, moved: Writer)
    requires WritersOk(t, flushed, returned, writers)
    requires forall n: Name :: Mark(flushed, n) <= Mark(flushed', n) && Mark(returned, n) <= Mark(returned', n)
    requires WriterOk(Current(t, moved.name), Mark(flushed', moved.name), Mark(returned', moved.name), moved)
    ensures WritersOk(t, flushed', returned', writers[w := moved])
  {
    forall k | k in writers && k != w
      ensures WriterOk(Current(t, writers[k].name), Mark(flushed', writers[k].name), Mark(returned', writers[k].name), writers[k])
    {
      var n := writers[k].name;
      assert WriterOk(Current(t, n), Mark(flushed, n), Mark(returned, n), writers[k]);
      assert Mark(flushed, n) <= Mark(flushed', n) && Mark(returned, n) <= Mark(returned', n);
    }
  }

  /** A flush of `n` settles it: its writer is no longer pending, nor is a migration. */
  lemma SettledFlush(t: Table, flushed: map<Name, nat>, n: Name, writers: map<Id, Writer>, w: Id, moved: Writer,
                     stale: set<Name>)
    requires SettledOk(t, flushed, writers, stale)
    requires w in writers && writers[w].name == n
    ensures SettledOk(t, flushed[n := Current(t, n)], writers[w := moved], stale - {n})
  {
    var flushed', writers' := flushed[n := Current(t, n)], writers[w := moved];
    forall k: Name
      ensures Steady(Hist(t, k), Mark(flushed', k), k in stale - {n}) || PendingWrite(writers', k)
    {
      assert Steady(Hist(t, k), Mark(flushed, k), k in stale) || PendingWrite(writers, k);
      if k != n {
        StillPending(writers, writers', k);
      }
    }
  }

  /** A writer that has flushed already may move on. */
  lemma SettledReturn(t: Table, flushed: map<Name, nat>, writers: map<Id, Writer>, w: Id, moved: Writer, stale: set<Name>)
    requires SettledOk(t, flushed, writers, stale)
    requires w in writers && !writers[w].Committed?
    ensures SettledOk(t, flushed, writers[w := moved], stale)
  {
    forall k: Name
      ensures Steady(Hist(t, k), Mark(flushed, k), k in stale) || PendingWrite(writers[w := moved], k)
    {
      assert Steady(Hist(t, k), Mark(flushed, k), k in stale) || PendingWrite(writers, k);
      StillPending(writers, writers[w := moved], k);
    }
  }

  lemma FloorsFlush(t: Table, flushed: map<Name, nat>, returned: map<Name, nat>, n: Name)
    requires FloorsOk(t, flushed, returned)
    ensures FloorsOk(t, flushed[n := Current(t, n)], returned)
    ensures forall k: Name :: Mark(flushed, k) <= Mark(flushed[n := Current(t, n)], k)
  {
    var flushed' := flushed[n := Current(t, n)];
    forall k: Name
      ensures Mark(returned, k) <= Mark(flushed', k) <= Current(t, k) && Mark(flushed, k) <= Mark(flushed', k)
    {
      assert Mark(returned, k) <= Mark(flushed, k) <= Current(t, k);
    }
  }

  lemma InvalidateKeeps(s: State, w: Id)
    requires Inv(s)
    ensures Inv(Apply(s, Invalidate(w)))
  {
    if w in s.writers && s.writers[w].Committed? {
      var Committed(n, v) := s.writers[w];
      var flushed' := s.flushed[n := Current(s.history, n)];
      assert WriterOk(Current(s.history, n), Mark(s.flushed, n), Mark(s.returned, n), s.writers[w]);
      FloorsFlush(s.history, s.flushed, s.returned, n);
      InvalidatedKeepsWellFormed(s.cache, n);
      CacheFlush(s.history, s.flushed, s.cache, n, Current(s.history, n));
      CallsFlush(s.history, s.flushed, flushed', s.cache.gen, s.calls);
      WritersMove(s.history, s.flushed, flushed', s.returned, s.returned, s.writers, w, Flushed(n, v));
      SettledFlush(s.history, s.flushed, n, s.writers, w, Flushed(n, v), s.stale);
    }
  }

  lemma GroupReturn(returned: map<Name, nat>, group: map<Name, Id>, calls: map<Id, Call>, n: Name, v: nat)
    requires GroupOk(returned, group, calls)
    ensures GroupOk(returned[n := v], group - {n}, calls)
  {
    forall k | k in group && k != n ensures Mark(returned[n := v], k) == Mark(returned, k) {
    }
  }

  lemma GettersReturn(t: Table, returned: map<Name, nat>, returned': map<Name, nat>, calls: map<Id, Call>, getters: map<Id, Getter>)
    requires GettersOk(t, returned, calls, getters)
    requires forall n: Name :: Mark(returned, n) <= Mark(returned', n)
    ensures GettersOk(t, returned', calls, getters)
  {
    forall g | g in getters
      ensures GetterOk(Hist(t, getters[g].name), Mark(returned', getters[g].name), calls, getters[g])
    {
      assert GetterOk(Hist(t, getters[g].name), Mark(returned, getters[g].name), calls, getters[g]);
      assert Mark(returned, getters[g].name) <= Mark(returned', getters[g].name);
    }
  }

  lemma ForgetKeeps(s: State, w: Id)
    requires Inv(s)
    ensures Inv(Apply(s, Forget(w)))
  {
    if w in s.writers && s.writers[w].Flushed? {
      var Flushed(n, v) := s.writers[w];
      var to := Max(Mark(s.returned, n), v);
      var returned' := s.returned[n := to];
      assert WriterOk(Current(s.history, n), Mark(s.flushed, n), Mark(s.returned, n), s.writers[w]);
      assert FloorsOk(s.history, s.flushed, returned');
      assert forall k: Name :: Mark(s.returned, k) <= Mark(returned', k);
      GroupReturn(s.returned, s.group, s.calls, n, to);
      GettersReturn(s.history, s.returned, returned', s.calls, s.getters);
      WritersMove(s.history, s.flushed, s.flushed, s.returned, returned', s.writers, w, Returned(n, v));
      SettledReturn(s.history, s.flushed, s.writers, w, Returned(n, v), s.stale);
    }
  }

  /** An update of a private key alone: the name is stale if that changed what it means. */
  lemma SettledGrows(t: Table, flushed: map<Name, nat>, writers: map<Id, Writer>, stale: set<Name>, n: Name, row: Option<Row>)
    requires SettledOk(t, flushed, writers, stale) && SameCertificate(row, Row?(t, n))
    ensures SettledOk(t[n := Hist(t, n) + [row]], flushed, writers,
                      if Read(row) == Read(Row?(t, n)) then stale else stale + {n})
  {
    var t' := t[n := Hist(t, n) + [row]];
    var stale' := if Read(row) == Read(Row?(t, n)) then stale else stale + {n};
    forall k: Name
      ensures Steady(Hist(t', k), Mark(flushed, k), k in stale') || PendingWrite(writers, k)
    {
      assert Steady(Hist(t, k), Mark(flushed, k), k in stale) || PendingWrite(writers, k);
      if k == n {
        assert Hist(t', n) == Hist(t, n) + [row];
      }
    }
  }

  lemma MigrateRowKeeps(s: State, m: Id, n: Name)
    requires Inv(s)
    ensures Inv(Apply(s, MigrateRow(m, n)))
  {
    if m in s.migrations && s.migrations[m].Migrating? && n in s.migrations[m].rows {
      var after := Sealed(Row?(s.history, n), s.migrations[m].rows[n]);
      GrownAt(s.history, n, Hist(s.history, n) + [after]);
      GrownKeeps(s, DoMigrateRow(s, m, n).history);
      SettledGrows(s.history, s.flushed, s.writers, s.stale, n, after);
    }
  }

  /** Marks that stand at the current version of every name. */
  ghost predicate UpToDate(t: Table, flushed: map<Name, nat>) {
    forall n: Name :: Mark(flushed, n) == Current(t, n)
  }

  lemma AllMarked(t: Table)
    ensures UpToDate(t, AllMarks(t))
  {
  }

  lemma FloorsUpToDate(t: Table, flushed: map<Name, nat>, flushed': map<Name, nat>, returned: map<Name, nat>)
    requires FloorsOk(t, flushed, returned) && UpToDate(t, flushed')
    ensures FloorsOk(t, flushed', returned)
  {
    forall n: Name ensures Mark(returned, n) <= Mark(flushed', n) <= Current(t, n) {
      assert Mark(returned, n) <= Mark(flushed, n) <= Current(t, n);
    }
  }

  lemma WritersUpToDate(t: Table, flushed: map<Name, nat>, flushed': map<Name, nat>, returned: map<Name, nat>, writers: map<Id, Writer>)
    requires FloorsOk(t, flushed, returned) && WritersOk(t, flushed, returned, writers) && UpToDate(t, flushed')
    ensures WritersOk(t, flushed', returned, writers)
  {
    forall w | w in writers
      ensures WriterOk(Current(t, writers[w].name), Mark(flushed', writers[w].name), Mark(returned, writers[w].name), writers[w])
    {
      assert Mark(flushed, writers[w].name) <= Current(t, writers[w].name);
    }
  }

  lemma SettledUpToDate(t: Table, flushed': map<Name, nat>, writers: map<Id, Writer>, stale: set<Name>)
    requires UpToDate(t, flushed')
    ensures SettledOk(t, flushed', writers, stale)
  {
    forall n: Name ensures Steady(Hist(t, n), Mark(flushed', n), n in stale) {
      assert Mark(flushed', n) == Current(t, n);
    }
  }

  lemma FlushAllKeeps(s: State, migrations': map<Id, Migration>)
    requires Inv(s)
    ensures Inv(s.(cache := AllInvalidated(s.cache), flushed := AllMarks(s.history), stale := {}, migrations := migrations'))
  {
    var flushed' := AllMarks(s.history);
    AllMarked(s.history);
    FloorsUpToDate(s.history, s.flushed, flushed', s.returned);
    WritersUpToDate(s.history, s.flushed, flushed', s.returned, s.writers);
    SettledUpToDate(s.history, flushed', s.writers, {});
    CallsFlush(s.history, s.flushed, flushed', s.cache.gen, s.calls);
  }

  lemma MigrateAbortKeeps(s: State, m: Id)
    requires Inv(s)
    ensures Inv(DoMigrateAbort(s, m))
  {
  }

  lemma MigrateDoneKeeps(s: State, m: Id)
    requires Inv(s)
    ensures Inv(DoMigrateDone(s, m))
  {
    FlushAllKeeps(s, s.migrations[m := Over]);
    MigrateAbortKeeps(s, m);
  }

  lemma GetBeginKeeps(s: State, g: Id, n: Name)
    requires Inv(s)
    ensures Inv(Apply(s, GetBegin(g, n)))
  {
    if g !in s.getters {
      var getters' := s.getters[g := Getter(n, Mark(s.returned, n), Asking)];
      assert GettersOk(s.history, s.returned, s.calls, getters');
      assert DoGetBegin(s, g, n) == s.(getters := getters');
    }
  }

  lemma MovedKeeps(s: State, g: Id, p: Phase)
    requires Inv(s) && g in s.getters
    requires GetterOk(Hist(s.history, s.getters[g].name), Mark(s.returned, s.getters[g].name), s.calls,
                      s.getters[g].(phase := p))
    ensures Inv(Moved(s, g, p))
  {
  }

  lemma GetLookKeeps(s: State, g: Id, now: Time)
    requires Inv(s)
    ensures Inv(Apply(s, GetLook(g, now)))
  {
    if InPhase(s, g, Asking) {
      var Getter(n, floor, _) := s.getters[g];
      assert Mark(s.returned, n) <= Mark(s.flushed, n);
      assert GetterOk(Hist(s.history, n), Mark(s.returned, n), s.calls, s.getters[g]);
      var found := Look(s.cache, n, now);
      if found.Fresh? || found.Stale? {
        SeenLower(Hist(s.history, n), Mark(s.flushed, n), floor, Found(found.cert));
      } else if found.KnownMissing? {
        SeenLower(Hist(s.history, n), Mark(s.flushed, n), floor, Missing);
      }
      MovedKeeps(s, g, AfterLook(found));
    }
  }

  lemma StartedCalls(t: Table, flushed: map<Name, nat>, gen: nat, calls: map<Id, Call>, c: Id, n: Name)
    requires CallsOk(t, flushed, gen, calls)
    ensures CallsOk(t, flushed, gen, calls[c := Started(n)])
  {
  }

  lemma StartedGroup(returned: map<Name, nat>, group: map<Name, Id>, calls: map<Id, Call>, c: Id, n: Name)
    requires GroupOk(returned, group, calls) && c !in calls
    ensures GroupOk(returned, group[n := c], calls[c := Started(n)])
  {
  }

  lemma StartedGetters(
    t: Table, returned: map<Name, nat>, calls: map<Id, Call>, getters: map<Id, Getter>, c: Id, n: Name)
    requires GettersOk(t, returned, calls, getters) && c !in calls
    ensures GettersOk(t, returned, calls[c := Started(n)], getters)
  {
    var calls' := calls[c := Started(n)];
    forall g | g in getters
      ensures GetterOk(Hist(t, getters[g].name), Mark(returned, getters[g].name), calls', getters[g])
    {
      assert GetterOk(Hist(t, getters[g].name), Mark(returned, getters[g].name), calls, getters[g]);
    }
  }

  lemma FlyKeeps(s: State, n: Name, c: Id)
    requires Inv(s) && CanFly(s, n, c)
    ensures Inv(Fly(s, n, c))
  {
    if n !in s.group {
      StartedCalls(s.history, s.flushed, s.cache.gen, s.calls, c, n);
      StartedGroup(s.returned, s.group, s.calls, c, n);
      StartedGetters(s.history, s.returned, s.calls, s.getters, c, n);
    }
  }

  lemma GetRevalidateKeeps(s: State, g: Id, c: Id)
    requires Inv(s)
    ensures Inv(Apply(s, GetRevalidate(g, c)))
  {
    if g in s.getters && s.getters[g].phase.Revalidating? && CanFly(s, s.getters[g].name, c) {
      var f := Fly(s, s.getters[g].name, c);
      FlyKeeps(s, s.getters[g].name, c);
      assert GetterOk(Hist(f.history, f.getters[g].name), Mark(f.returned, f.getters[g].name), f.calls, f.getters[g]);
      MovedKeeps(f, g, Answered(s.getters[g].phase.outcome));
    }
  }

  lemma GetJoinKeeps(s: State, g: Id, c: Id)
    requires Inv(s)
    ensures Inv(DoGetJoin(s, g, c))
  {
    if InPhase(s, g, Missed) && CanFly(s, s.getters[g].name, c) {
      var n := s.getters[g].name;
      var f := Fly(s, n, c);
      FlyKeeps(s, n, c);
      assert GetterOk(Hist(f.history, n), Mark(f.returned, n), f.calls, f.getters[g]);
      MovedKeeps(f, g, Waiting(f.group[n]));
    }
  }

  lemma GetReceiveKeeps(s: State, g: Id)
    requires Inv(s)
    ensures Inv(Apply(s, GetReceive(g)))
  {
    if g in s.getters && s.getters[g].phase.Waiting? && s.getters[g].phase.call in s.calls
       && s.calls[s.getters[g].phase.call].Finished?
    {
      var Getter(n, floor, phase) := s.getters[g];
      var call := s.calls[phase.call];
      assert GetterOk(Hist(s.history, n), Mark(s.returned, n), s.calls, s.getters[g]);
      assert CallOk(Hist(s.history, n), Mark(s.flushed, n), s.cache.gen, call);
      SeenLower(Hist(s.history, n), call.since, floor, call.outcome);
      MovedKeeps(s, g, Answered(call.outcome));
    }
  }

  lemma GetGiveUpKeeps(s: State, g: Id)
    requires Inv(s)
    ensures Inv(Apply(s, GetGiveUp(g)))
  {
    if g in s.getters && s.getters[g].phase.Waiting? {
      assert GetterOk(Hist(s.history, s.getters[g].name), Mark(s.returned, s.getters[g].name), s.calls, s.getters[g]);
      MovedKeeps(s, g, Answered(Failed));
    }
  }

  lemma CallMovesCalls(t: Table, flushed: map<Name, nat>, gen: nat, calls: map<Id, Call>, c: Id, call: Call)
    requires CallsOk(t, flushed, gen, calls) && CallOk(Hist(t, call.name), Mark(flushed, call.name), gen, call)
    ensures CallsOk(t, flushed, gen, calls[c := call])
  {
  }

  lemma CallMovesGroup(returned: map<Name, nat>, group: map<Name, Id>, calls: map<Id, Call>, c: Id, call: Call)
    requires GroupOk(returned, group, calls) && c in calls && call.name == calls[c].name
    requires Dated(call) ==> if Dated(calls[c]) then call.since == calls[c].since else Mark(returned, call.name) <= call.since
    ensures GroupOk(returned, group, calls[c := call])
  {
  }

  lemma CallMovesGetters(t: Table, returned: map<Name, nat>, calls: map<Id, Call>, getters: map<Id, Getter>, c: Id, call: Call)
    requires GettersOk(t, returned, calls, getters) && c in calls && call.name == calls[c].name
    requires Dated(call) ==> if Dated(calls[c]) then call.since == calls[c].since else Mark(returned, call.name) <= call.since
    ensures GettersOk(t, returned, calls[c := call], getters)
  {
    forall g | g in getters
      ensures GetterOk(Hist(t, getters[g].name), Mark(returned, getters[g].name), calls[c := call], getters[g])
    {
      assert GetterOk(Hist(t, getters[g].name), Mark(returned, getters[g].name), calls, getters[g]);
    }
  }

  /** One flight moves on; what it dates itself at is no older than anything returned. */
  lemma CallMoves(s: State, c: Id, call: Call)
    requires Inv(s) && c in s.calls && call.name == s.calls[c].name
    requires CallOk(Hist(s.history, call.name), Mark(s.flushed, call.name), s.cache.gen, call)
    requires Dated(call) ==>
      if Dated(s.calls[c]) then call.since == s.calls[c].since else Mark(s.returned, call.name) <= call.since
    ensures Inv(s.(calls := s.calls[c := call]))
  {
    CallMovesCalls(s.history, s.flushed, s.cache.gen, s.calls, c, call);
    CallMovesGroup(s.returned, s.group, s.calls, c, call);
    CallMovesGetters(s.history, s.returned, s.calls, s.getters, c, call);
  }

  lemma RefreshBeginKeeps(s: State, c: Id)
    requires Inv(s)
    ensures Inv(Apply(s, RefreshBegin(c)))
  {
    if c in s.calls && s.calls[c].Started? {
      CallMoves(s, c, Reading(s.calls[c].name, s.cache.gen));
    }
  }

  lemma RefreshLoadKeeps(s: State, c: Id, broken: bool)
    requires Inv(s)
    ensures Inv(DoRefreshLoad(s, c, broken))
  {
    if c in s.calls && s.calls[c].Reading? {
      var n := s.calls[c].name;
      assert CallOk(Hist(s.history, n), Mark(s.flushed, n), s.cache.gen, s.calls[c]);
      assert Mark(s.returned, n) <= Mark(s.flushed, n) <= Current(s.history, n);
      assert Seen(Hist(s.history, n), Current(s.history, n), Read(Row?(s.history, n)));
      CallMoves(s, c, DoRefreshLoad(s, c, broken).calls[c]);
    }
  }

  lemma HitsPut(t: Table, flushed: map<Name, nat>, hits: map<Name, Entry>, n: Name, e: Entry)
    requires HitsOk(t, flushed, hits) && Seen(Hist(t, n), Mark(flushed, n), Found(e.cert))
    ensures HitsOk(t, flushed, hits[n := e])
  {
  }

  lemma MissesPut(t: Table, flushed: map<Name, nat>, misses: map<Name, Time>, n: Name, now: Time)
    requires MissesOk(t, flushed, misses) && Seen(Hist(t, n), Mark(flushed, n), Missing)
    ensures MissesOk(t, flushed, misses[n := now])
  {
  }

  lemma HitsLess(t: Table, flushed: map<Name, nat>, hits: map<Name, Entry>, n: Name)
    requires HitsOk(t, flushed, hits)
    ensures HitsOk(t, flushed, hits - {n})
  {
  }

  lemma MissesLess(t: Table, flushed: map<Name, nat>, misses: map<Name, Time>, n: Name)
    requires MissesOk(t, flushed, misses)
    ensures MissesOk(t, flushed, misses - {n})
  {
  }

  lemma CacheRemember(t: Table, flushed: map<Name, nat>, c: Cache, n: Name, gen: nat, o: Outcome, now: Time)
    requires CacheOk(t, flushed, c)
    requires gen == c.gen ==> Explained(Hist(t, n), Mark(flushed, n), o)
    ensures CacheOk(t, flushed, Remember(c, n, gen, o, now))
  {
    if gen == c.gen {
      match o
      case Found(cert) =>
        HitsPut(t, flushed, c.hits, n, Entry(cert, now));
        MissesLess(t, flushed, c.misses, n);
      case Missing =>
        HitsLess(t, flushed, c.hits, n);
        MissesPut(t, flushed, if |c.misses| >= MAX_MISSES then map[] else c.misses, n, now);
      case Failed =>
        if n in c.hits {
          HitsPut(t, flushed, c.hits, n, c.hits[n].(loadedAt := now));
        }
    }
  }

  /** What a flight remembers is right for the cache, if its generation is still the current one. */
  lemma LoadedIsRemembered(s: State, c: Id, now: Time)
    requires Inv(s) && c in s.calls && s.calls[c].Loaded?
    ensures var Loaded(n, gen, _, o) := s.calls[c];
      var cache := Remember(s.cache, n, gen, o, now);
      CacheOk(s.history, s.flushed, cache) && WellFormed(cache) && cache.gen == s.cache.gen
  {
    var Loaded(n, gen, since, o) := s.calls[c];
    assert CallOk(Hist(s.history, n), Mark(s.flushed, n), s.cache.gen, s.calls[c]);
    RememberKeepsWellFormed(s.cache, n, gen, o, now);
    if gen == s.cache.gen {
      SeenLower(Hist(s.history, n), since, Mark(s.flushed, n), o);
    }
    CacheRemember(s.history, s.flushed, s.cache, n, gen, o, now);
  }

  lemma LoadedMoves(s: State, c: Id)
    requires Inv(s) && c in s.calls && s.calls[c].Loaded?
    ensures Inv(s.(calls := s.calls[c := Stored(s.calls[c].name, s.calls[c].since, s.calls[c].outcome)]))
  {
    var Loaded(n, _, since, o) := s.calls[c];
    assert CallOk(Hist(s.history, n), Mark(s.flushed, n), s.cache.gen, s.calls[c]);
    CallMoves(s, c, Stored(n, since, o));
  }

  lemma RefreshStoreKeeps(s: State, c: Id, now: Time)
    requires Inv(s)
    ensures Inv(Apply(s, RefreshStore(c, now)))
  {
    if c in s.calls && s.calls[c].Loaded? {
      LoadedMoves(s, c);
      LoadedIsRemembered(s, c, now);
    }
  }

  lemma RefreshFinishKeeps(s: State, c: Id)
    requires Inv(s)
    ensures Inv(Apply(s, RefreshFinish(c)))
  {
    if c in s.calls && s.calls[c].Stored? {
      var Stored(n, since, o) := s.calls[c];
      assert CallOk(Hist(s.history, n), Mark(s.flushed, n), s.cache.gen, s.calls[c]);
      CallMoves(s, c, Finished(n, since, o));
    }
  }

  lemma MigrateDoneStep(s: State, m: Id)
    requires Inv(s)
    ensures Inv(Apply(s, MigrateDone(m)))
  {
    MigrateDoneKeeps(s, m);
  }

  lemma MigrateAbortStep(s: State, m: Id)
    requires Inv(s)
    ensures Inv(Apply(s, MigrateAbort(m)))
  {
    MigrateAbortKeeps(s, m);
  }

  lemma GetJoinStep(s: State, g: Id, c: Id)
    requires Inv(s)
    ensures Inv(Apply(s, GetJoin(g, c)))
  {
    GetJoinKeeps(s, g, c);
  }

  lemma RefreshLoadStep(s: State, c: Id, broken: bool)
    requires Inv(s)
    ensures Inv(Apply(s, RefreshLoad(c, broken)))
  {
    RefreshLoadKeeps(s, c, broken);
  }

  lemma WriterStepKeeps(s: State, step: Step)
    requires Inv(s)
    requires step.Commit? || step.Invalidate? || step.Forget?
    ensures Inv(Apply(s, step))
  {
    match step
    case Commit(w, n, row, ok) => CommitKeeps(s, w, n, row, ok);
    case Invalidate(w) => InvalidateKeeps(s, w);
    case Forget(w) => ForgetKeeps(s, w);
  }

  lemma MigrationStepKeeps(s: State, step: Step)
    requires Inv(s)
    requires step.MigrateRead? || step.MigrateRow? || step.MigrateDone? || step.MigrateAbort?
    ensures Inv(Apply(s, step))
  {
    match step
    case MigrateRead(_) =>
    case MigrateRow(m, n) => MigrateRowKeeps(s, m, n);
    case MigrateDone(m) => MigrateDoneStep(s, m);
    case MigrateAbort(m) => MigrateAbortStep(s, m);
  }

  predicate IsGet(step: Step) {
    step.GetBegin? || step.GetLook? || step.GetRevalidate? || step.GetJoin? || step.GetReceive? || step.GetGiveUp?
  }

  lemma GetStepKeeps(s: State, step: Step)
    requires Inv(s) && IsGet(step)
    ensures Inv(Apply(s, step))
  {
    match step
    case GetBegin(g, n) => GetBeginKeeps(s, g, n);
    case GetLook(g, now) => GetLookKeeps(s, g, now);
    case GetRevalidate(g, c) => GetRevalidateKeeps(s, g, c);
    case GetJoin(g, c) => GetJoinStep(s, g, c);
    case GetReceive(g) => GetReceiveKeeps(s, g);
    case GetGiveUp(g) => GetGiveUpKeeps(s, g);
  }

  lemma RefreshStepKeeps(s: State, step: Step)
    requires Inv(s)
    requires step.RefreshBegin? || step.RefreshLoad? || step.RefreshStore? || step.RefreshFinish?
    ensures Inv(Apply(s, step))
  {
    match step
    case RefreshBegin(c) => RefreshBeginKeeps(s, c);
    case RefreshLoad(c, broken) => RefreshLoadStep(s, c, broken);
    case RefreshStore(c, now) => RefreshStoreKeeps(s, c, now);
    case RefreshFinish(c) => RefreshFinishKeeps(s, c);
  }

  lemma ApplyKeeps(s: State, step: Step)
    requires Inv(s)
    ensures Inv(Apply(s, step))
  {
    if IsGet(step) {
      GetStepKeeps(s, step);
    } else if step.Commit? || step.Invalidate? || step.Forget? {
      WriterStepKeeps(s, step);
    } else if step.RefreshBegin? || step.RefreshLoad? || step.RefreshStore? || step.RefreshFinish? {
      RefreshStepKeeps(s, step);
    } else {
      MigrationStepKeeps(s, step);
    }
  }

  /** Every state of every run is good. */
  lemma RunKeeps(states: seq<State>, steps: seq<Step>, i: nat)
    requires IsRun(Start, Apply, states, steps) && i < |states|
    ensures Inv(states[i])
  {
    forall s | Start(s) ensures Inv(s) {
      var table :| s == Initial(table);
      InitialHolds(table);
    }
    forall s, step | Inv(s) ensures Inv(Apply(s, step)) {
      ApplyKeeps(s, step);
    }
    Invariant(Start, Apply, Inv, states, steps, i);
  }

  // ---------- the theorems ----------

  lemma ShownIsStored(h: History, flushed: nat, o: Outcome)
    requires Settled(h, flushed) && Seen(h, flushed, o)
    ensures Read(h[|h| - 1]) == o
  {
  }

  /** What the cache shows of a steady name is its certificate, which loads if its key still fits. */
  lemma ShownIsAlike(h: History, flushed: nat, o: Outcome)
    requires Alike(h, flushed) && Seen(h, flushed, o) && !o.Failed?
    ensures Read(h[|h| - 1]) == o || Read(h[|h| - 1]) == Failed
    ensures o == Missing <==> h[|h| - 1].None?
    ensures o.Found? ==> h[|h| - 1].Some? && o.cert == Certificate(h[|h| - 1].value.chain, h[|h| - 1].value.certKey)
  {
  }

  /** The certificate stored, which loads exactly when the private key beside it belongs to it. */
  predicate HitIsAlike(cert: Certificate, row: Option<Row>) {
    && row.Some? && cert == Certificate(row.value.chain, row.value.certKey)
    && (Read(row) == Found(cert) <==> !row.value.privateKey.NoKey? && row.value.privateKey.key == row.value.certKey)
  }

  lemma GoodStateAgrees(s: State, n: Name)
    requires Inv(s) && !Pending(s, n)
    ensures n in s.cache.hits ==> Read(Row?(s.history, n)) == Found(s.cache.hits[n].cert)
    ensures n in s.cache.misses ==> Row?(s.history, n).None?
  {
    if n in s.cache.hits {
      ShownIsStored(Hist(s.history, n), Mark(s.flushed, n), Found(s.cache.hits[n].cert));
    }
    if n in s.cache.misses {
      ShownIsStored(Hist(s.history, n), Mark(s.flushed, n), Missing);
    }
  }

  /**
   Coherence: in every state of every run, a name whose last write or changed meaning has
   been flushed is cached as it is stored: a hit is the stored certificate and a miss means
   that nothing is stored.
   */
  lemma CacheAgreesWithTable(states: seq<State>, steps: seq<Step>, i: nat, n: Name)
    requires IsRun(Start, Apply, states, steps) && i < |states|
    ensures WellFormed(states[i].cache)
    ensures !Pending(states[i], n) && n in states[i].cache.hits ==>
      Read(Row?(states[i].history, n)) == Found(states[i].cache.hits[n].cert)
    ensures !Pending(states[i], n) && n in states[i].cache.misses ==> Row?(states[i].history, n).None?
  {
    RunKeeps(states, steps, i);
    if !Pending(states[i], n) {
      GoodStateAgrees(states[i], n);
    }
  }

  lemma GoodStateHolds(s: State, n: Name)
    requires Inv(s) && !PendingWrite(s.writers, n)
    ensures n in s.cache.misses ==> Row?(s.history, n).None?
    ensures n in s.cache.hits ==> HitIsAlike(s.cache.hits[n].cert, Row?(s.history, n))
  {
    assert Alike(Hist(s.history, n), Mark(s.flushed, n)) by {
      assert Steady(Hist(s.history, n), Mark(s.flushed, n), n in s.stale);
    }
    if n in s.cache.hits {
      ShownIsAlike(Hist(s.history, n), Mark(s.flushed, n), Found(s.cache.hits[n].cert));
    }
    if n in s.cache.misses {
      ShownIsAlike(Hist(s.history, n), Mark(s.flushed, n), Missing);
    }
  }

  /**
   Only writers can make a name pending for good: whatever migrations did or left undone,
   once no writer to `n` is between its commit and its flush, a miss is right and a hit has
   the stored chain. It is what loading would give exactly when the stored private key
   belongs to that chain.
   */
  lemma HitAgreesIff(states: seq<State>, steps: seq<Step>, i: nat, n: Name)
    requires IsRun(Start, Apply, states, steps) && i < |states| && !PendingWrite(states[i].writers, n)
    ensures n in states[i].cache.misses ==> Row?(states[i].history, n).None?
    ensures n in states[i].cache.hits ==> HitIsAlike(states[i].cache.hits[n].cert, Row?(states[i].history, n))
  {
    RunKeeps(states, steps, i);
    GoodStateHolds(states[i], n);
  }

  lemma OtherStepsLeaveGetters(s: State, step: Step)
    requires !IsGet(step)
    ensures Apply(s, step).getters == s.getters
  {
    match step
    case Commit(_, _, _, _) =>
    case Invalidate(_) =>
    case Forget(_) =>
    case MigrateRead(_) =>
    case MigrateRow(_, _) =>
    case MigrateDone(_) =>
    case MigrateAbort(_) =>
    case RefreshBegin(_) =>
    case RefreshLoad(_, _) =>
    case RefreshStore(_, _) =>
    case RefreshFinish(_) =>
  }

  ghost predicate SameQuestion(g: Id, s: State, s': State) {
    g in s.getters ==>
      && g in s'.getters
      && s'.getters[g].name == s.getters[g].name && s'.getters[g].floor == s.getters[g].floor
  }

  lemma MovedKeepsQuestions(s: State, mover: Id, p: Phase, g: Id)
    requires mover in s.getters
    ensures SameQuestion(g, s, Moved(s, mover, p))
  {
  }

  lemma LookKeepsQuestions(s: State, asker: Id, now: Time, g: Id)
    ensures SameQuestion(g, s, DoGetLook(s, asker, now))
  {
    if InPhase(s, asker, Asking) {
      MovedKeepsQuestions(s, asker, AfterLook(Look(s.cache, s.getters[asker].name, now)), g);
    }
  }

  lemma RevalidateKeepsQuestions(s: State, asker: Id, c: Id, g: Id)
    ensures SameQuestion(g, s, DoGetRevalidate(s, asker, c))
  {
    if asker in s.getters && s.getters[asker].phase.Revalidating? {
      MovedKeepsQuestions(Fly(s, s.getters[asker].name, c), asker, Answered(s.getters[asker].phase.outcome), g);
    }
  }

  lemma JoinKeepsQuestions(s: State, asker: Id, c: Id, g: Id)
    ensures SameQuestion(g, s, DoGetJoin(s, asker, c))
  {
    if asker in s.getters {
      var n := s.getters[asker].name;
      MovedKeepsQuestions(Fly(s, n, c), asker, Waiting(if n in s.group then s.group[n] else c), g);
    }
  }

  lemma ReceiveKeepsQuestions(s: State, asker: Id, g: Id)
    ensures SameQuestion(g, s, DoGetReceive(s, asker))
  {
  }

  lemma GiveUpKeepsQuestions(s: State, asker: Id, g: Id)
    ensures SameQuestion(g, s, DoGetGiveUp(s, asker))
  {
  }

  lemma GetStepKeepsQuestions(s: State, step: Step, g: Id)
    requires IsGet(step)
    ensures SameQuestion(g, s, Apply(s, step))
  {
    match step
    case GetBegin(_, _) =>
    case GetLook(asker, now) => LookKeepsQuestions(s, asker, now, g);
    case GetRevalidate(asker, c) => RevalidateKeepsQuestions(s, asker, c, g);
    case GetJoin(asker, c) => JoinKeepsQuestions(s, asker, c, g);
    case GetReceive(asker) => ReceiveKeepsQuestions(s, asker, g);
    case GetGiveUp(asker) => GiveUpKeepsQuestions(s, asker, g);
  }

  lemma GetterPersists(states: seq<State>, steps: seq<Step>, i: nat, j: nat, g: Id)
    requires IsRun(Start, Apply, states, steps) && i <= j < |states| && g in states[i].getters
    ensures SameQuestion(g, states[i], states[j])
  {
    var asked := states[i];
    forall s, step | SameQuestion(g, asked, s) ensures SameQuestion(g, asked, Apply(s, step)) {
      if IsGet(step) {
        GetStepKeepsQuestions(s, step, g);
      } else {
        OtherStepsLeaveGetters(s, step);
      }
    }
    Onward(Start, Apply, s => true, (s, s') => SameQuestion(g, s, s'), states, steps, i, j);
  }

  /**
   No stale read: in every run, a get that starts (step `i`) once writer `w` has returned
   answers, if it answers without an error, with what the table held at `w`'s own version
   or a later one, even by joining a flight that was already under way.
   */
  lemma NoStaleRead(states: seq<State>, steps: seq<Step>, i: nat, j: nat, w: Id, g: Id)
    requires IsRun(Start, Apply, states, steps) && i < j < |states|
    requires w in states[i].writers && states[i].writers[w].Returned?
    requires steps[i] == GetBegin(g, states[i].writers[w].name) && g !in states[i].getters
    ensures g in states[j].getters
    ensures var Returned(n, v) := states[i].writers[w];
      states[j].getters[g].phase.Answered? ==>
        Explained(Hist(states[j].history, n), v, states[j].getters[g].phase.outcome)
  {
    var Returned(n, v) := states[i].writers[w];
    assert Took(Apply, states, steps, i);
    var asked := Getter(n, Mark(states[i].returned, n), Asking);
    assert g in states[i + 1].getters && states[i + 1].getters[g] == asked by {
      BeginAsks(states[i], g, n);
    }
    assert v <= asked.floor by {
      RunKeeps(states, steps, i);
      ReturnedAreMarked(states[i], w);
    }
    GetterPersists(states, steps, i + 1, j, g);
    if states[j].getters[g].phase.Answered? {
      assert Explained(Hist(states[j].history, n), v, states[j].getters[g].phase.outcome) by {
        RunKeeps(states, steps, j);
        AnswerExplained(states[j], g, v);
      }
    }
  }

  lemma BeginAsks(s: State, g: Id, n: Name)
    requires g !in s.getters
    ensures var s' := Apply(s, GetBegin(g, n));
      g in s'.getters && s'.getters[g] == Getter(n, Mark(s.returned, n), Asking)
  {
  }

  lemma ReturnedAreMarked(s: State, w: Id)
    requires Inv(s) && w in s.writers && s.writers[w].Returned?
    ensures s.writers[w].version <= Mark(s.returned, s.writers[w].name)
  {
    var n := s.writers[w].name;
    assert WriterOk(Current(s.history, n), Mark(s.flushed, n), Mark(s.returned, n), s.writers[w]);
  }

  lemma AnswerExplained(s: State, g: Id, v: nat)
    requires Inv(s) && g in s.getters && v <= s.getters[g].floor && s.getters[g].phase.Answered?
    ensures Explained(Hist(s.history, s.getters[g].name), v, s.getters[g].phase.outcome)
  {
    var Getter(n, floor, phase) := s.getters[g];
    assert GetterOk(Hist(s.history, n), Mark(s.returned, n), s.calls, s.getters[g]);
    SeenLower(Hist(s.history, n), floor, v, phase.outcome);
  }
}
