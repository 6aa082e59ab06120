/** A key migration that stops part way, in the machine of `CertificateRuns`. */
module CertificateMigration {
  import opened CertificateCache
  import opened CertificateRuns
  import opened Common
  import opened Runs

  /**
   A migration reads a row, someone may replace the certificate under the same row id, and
   then the migration updates the row and may return with an error, which flushes nothing.
   In every run the cached certificate is still the one that the table yields exactly when
   the key that was read belongs to the chain stored at the update.
   */
  lemma MigratedRowAgreesIff(states: seq<State>, steps: seq<Step>, i: nat, m: Id, n: Name)
    requires IsRun(Start, Apply, states, steps) && i < |steps| && steps[i] == MigrateRow(m, n)
    requires m in states[i].migrations && states[i].migrations[m].Migrating? && n in states[i].migrations[m].rows
    requires !PendingWrite(states[i].writers, n) && Row?(states[i].history, n).Some?
    requires Row?(states[i].history, n).value.id == states[i].migrations[m].rows[n].id
    ensures var s, s' := states[i], DoMigrateAbort(states[i + 1], m);
      && s'.cache == s.cache && m in s'.migrations && s'.migrations[m].Over?
      && (n in s.cache.hits ==>
        (Read(Row?(s'.history, n)) == Found(s.cache.hits[n].cert) <==>
         s.migrations[m].rows[n].privateKey.key == Row?(s.history, n).value.certKey))
  {
    assert Took(Apply, states, steps, i);
    HitAgreesIff(states, steps, i, n);
    UpdatedRow(states[i], m, n);
  }

  lemma UpdatedRow(s: State, m: Id, n: Name)
    requires m in s.migrations && s.migrations[m].Migrating? && n in s.migrations[m].rows
    ensures var s' := Apply(s, MigrateRow(m, n));
      && s'.cache == s.cache && m in s'.migrations && s'.migrations[m].Migrating?
      && Row?(s'.history, n) == Sealed(Row?(s.history, n), s.migrations[m].rows[n])
  {
  }

  // ---------- the disagreement is reached ----------

  ghost predicate Reached(s: State) {
    Reachable(Start, Apply, s)
  }

  lemma Reach(s: State, step: Step, s': State)
    requires Reached(s) && Apply(s, step) == s'
    ensures Reached(s')
  {
    ReachStep(Start, Apply, s, step);
  }

  lemma Overwrite<V>(k: Id, a: V, b: V)
    ensures map[k := a][k := b] == map[k := b]
  {
  }

  /** One row, `was`, which a migration has read. */
  function Migrated(n: Name, was: Unsealed): State {
    Initial(map[n := was]).(history := map[n := [Some(was)]], migrations := map[0 := Migrating(map[n := was], false)])
  }

  lemma MigratedIsReached(n: Name, was: Unsealed)
    ensures Reached(Migrated(n, was))
  {
    var s := Initial(map[n := was]);
    ReachStart<State, Step>(Start, Apply, s);
    assert s.history == map[n := [Some(was)]];
    var rows := map k | k in s.history && PlainRow(Row?(s.history, k)) :: Row?(s.history, k).value;
    assert rows == map[n := was];
    assert Apply(s, MigrateRead(0)) == DoMigrateRead(s, 0) == Migrated(n, was);
    Reach(s, MigrateRead(0), Migrated(n, was));
  }

  /** Then `now` was stored under the name, and its writer has returned. */
  function Replaced(n: Name, was: Unsealed, now: Row): State {
    Migrated(n, was).(
      history := map[n := [Some(was), Some(now)]], cache := Cache(map[], map[], 1), writers := map[0 := Returned(n, 1)],
      flushed := map[n := 1], returned := map[n := 1])
  }

  lemma ReplacedIsReached(n: Name, was: Unsealed, now: Row)
    ensures Reached(Replaced(n, was, now))
  {
    MigratedIsReached(n, was);
    var s0 := Migrated(n, was);
    var s1 := s0.(history := map[n := [Some(was), Some(now)]], writers := map[0 := Committed(n, 1)]);
    assert DoCommit(s0, 0, n, Some(now), true) == s1 by {
      assert [Some(was)] + [Some(now)] == [Some(was), Some(now)];
      assert s0.history[n := [Some(was), Some(now)]] == s1.history;
    }
    Reach(s0, Commit(0, n, Some(now), true), s1);
    var s2 := s1.(cache := Cache(map[], map[], 1), flushed := map[n := 1], writers := map[0 := Flushed(n, 1)]);
    assert DoInvalidate(s1, 0) == s2 by {
      Overwrite(0, Committed(n, 1), Flushed(n, 1));
      assert Invalidated(EMPTY, n) == Cache(map[], map[], 1);
    }
    Reach(s1, Invalidate(0), s2);
    assert DoForget(s2, 0) == Replaced(n, was, now) by {
      Overwrite(0, Flushed(n, 1), Returned(n, 1));
    }
    Reach(s2, Forget(0), Replaced(n, was, now));
  }

  /** Then a get found nothing cached and joined a flight. */
  function Flying(n: Name, was: Unsealed, now: Row, call: Call): State {
    Replaced(n, was, now).(
      group := map[n := 0], calls := map[0 := call], getters := map[0 := Getter(n, 1, Waiting(0))])
  }

  lemma AskingIsReached(n: Name, was: Unsealed, now: Row)
    ensures Reached(Replaced(n, was, now).(getters := map[0 := Getter(n, 1, Asking)]))
  {
    ReplacedIsReached(n, was, now);
    var s0 := Replaced(n, was, now);
    var s1 := s0.(getters := map[0 := Getter(n, 1, Asking)]);
    assert DoGetBegin(s0, 0, n) == s1;
    Reach(s0, GetBegin(0, n), s1);
  }

  lemma MissedIsReached(n: Name, was: Unsealed, now: Row)
    ensures Reached(Replaced(n, was, now).(getters := map[0 := Getter(n, 1, Missed)]))
  {
    AskingIsReached(n, was, now);
    var s1 := Replaced(n, was, now).(getters := map[0 := Getter(n, 1, Asking)]);
    var s2 := s1.(getters := map[0 := Getter(n, 1, Missed)]);
    assert DoGetLook(s1, 0, 0) == s2 by {
      Overwrite(0, Getter(n, 1, Asking), Getter(n, 1, Missed));
    }
    Reach(s1, GetLook(0, 0), s2);
  }

  lemma FlyingIsReached(n: Name, was: Unsealed, now: Row)
    ensures Reached(Flying(n, was, now, Started(n)))
  {
    MissedIsReached(n, was, now);
    var s := Replaced(n, was, now).(getters := map[0 := Getter(n, 1, Missed)]);
    assert DoGetJoin(s, 0, 0) == Flying(n, was, now, Started(n)) by {
      Overwrite(0, Getter(n, 1, Missed), Getter(n, 1, Waiting(0)));
    }
    Reach(s, GetJoin(0, 0), Flying(n, was, now, Started(n)));
  }

  lemma ReadingIsReached(n: Name, was: Unsealed, now: Row)
    ensures Reached(Flying(n, was, now, Reading(n, 1)))
  {
    FlyingIsReached(n, was, now);
    var s := Flying(n, was, now, Started(n));
    assert DoRefreshBegin(s, 0) == Flying(n, was, now, Reading(n, 1)) by {
      Overwrite<Call>(0, Started(n), Reading(n, 1));
    }
    Reach(s, RefreshBegin(0), Flying(n, was, now, Reading(n, 1)));
  }

  lemma LoadedIsReached(n: Name, was: Unsealed, now: Row)
    ensures Reached(Flying(n, was, now, Loaded(n, 1, 1, Read(Some(now)))))
  {
    ReadingIsReached(n, was, now);
    var s := Flying(n, was, now, Reading(n, 1));
    var call := Loaded(n, 1, 1, Read(Some(now)));
    assert DoRefreshLoad(s, 0, false) == Flying(n, was, now, call) by {
      Overwrite<Call>(0, Reading(n, 1), call);
    }
    Reach(s, RefreshLoad(0, false), Flying(n, was, now, call));
  }

  /** Nobody is left to flush: every writer and every migration has returned. */
  ghost predicate AllReturned(s: State) {
    (forall w :: w in s.writers ==> s.writers[w].Returned?) && (forall m :: m in s.migrations ==> s.migrations[m].Over?)
  }

  /** A hit whose stored key no longer fits it. */
  predicate ServesUnloadable(s: State, n: Name) {
    n in s.cache.hits && Read(Row?(s.history, n)) == Failed
  }

  function Aborted(s: State, n: Name): State {
    DoMigrateAbort(DoMigrateRow(s, 0, n), 0)
  }

  /** A key that belongs to another chain makes the row unloadable, and the abort flushes nothing. */
  lemma AbortedIsUnloadable(s: State, n: Name, was: Unsealed, now: Row)
    requires s.migrations == map[0 := Migrating(map[n := was], false)] && Row?(s.history, n) == Some(now)
    requires now.id == was.id && was.privateKey.key != now.certKey
    requires forall w :: w in s.writers ==> s.writers[w].Returned?
    ensures AllReturned(Aborted(s, n)) && Read(Row?(Aborted(s, n).history, n)) == Failed
    ensures Aborted(s, n).cache == s.cache && Aborted(s, n).calls == s.calls
  {
    var s1 := DoMigrateRow(s, 0, n);
    assert s1.migrations == map[0 := Migrating(map[], true)] && Row?(s1.history, n) == Sealed(Some(now), was);
  }

  lemma AbortedIsReached(s: State, n: Name)
    requires Reached(s)
    ensures Reached(Aborted(s, n))
  {
    var s1 := DoMigrateRow(s, 0, n);
    assert Reached(s1) by {
      Reach(s, MigrateRow(0, n), s1);
    }
    Reach(s1, MigrateAbort(0), Aborted(s, n));
  }

  /** For every two keys: the certificate was cached before the update of the row. */
  lemma UnloadableIsServed(n: Name, was: Unsealed, now: Row)
    requires now.id == was.id && was.privateKey.key != now.certKey && Read(Some(now)).Found?
    ensures exists s :: Reached(s) && AllReturned(s) && ServesUnloadable(s, n)
  {
    LoadedIsReached(n, was, now);
    var s := Flying(n, was, now, Loaded(n, 1, 1, Read(Some(now))));
    var stored := DoRefreshStore(s, 0, 0);
    Reach(s, RefreshStore(0, 0), stored);
    AbortedIsUnloadable(stored, n, was, now);
    AbortedIsReached(stored, n);
    assert ServesUnloadable(Aborted(stored, n), n);
  }

  /** For every two keys: nothing was cached when all had returned, but a flight had loaded before. */
  lemma UnloadableComesInFlight(n: Name, was: Unsealed, now: Row)
    requires now.id == was.id && was.privateKey.key != now.certKey && Read(Some(now)).Found?
    ensures exists s, c :: Reached(s) && AllReturned(s) && n !in s.cache.hits && ServesUnloadable(DoRefreshStore(s, c, 0), n)
  {
    LoadedIsReached(n, was, now);
    var s := Flying(n, was, now, Loaded(n, 1, 1, Read(Some(now))));
    AbortedIsUnloadable(s, n, was, now);
    AbortedIsReached(s, n);
    assert ServesUnloadable(DoRefreshStore(Aborted(s, n), 0, 0), n);
  }
}
