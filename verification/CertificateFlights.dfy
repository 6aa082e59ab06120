/** What the steps of `CertificateRuns` do to the cache: which certificates get in, stay and go. */
module CertificateFlights {
  import opened CertificateCache
  import opened CertificateRuns
  import opened Common
  import opened Runs

  /** A writer of `n` flushes it, or a migration that updated a row flushes everything. */
  predicate Flushes(s: State, step: Step, n: Name) {
    || (step.Invalidate? && step.w in s.writers && s.writers[step.w].Committed? && s.writers[step.w].name == n)
    || FlushesAll(s, step)
  }

  predicate FlushesAll(s: State, step: Step) {
    && step.MigrateDone? && step.m in s.migrations && s.migrations[step.m].Migrating?
    && s.migrations[step.m].rows == map[] && s.migrations[step.m].updated
  }

  /** Some name is flushed. */
  predicate FlushesAny(s: State, step: Step) {
    || (step.Invalidate? && step.w in s.writers && s.writers[step.w].Committed?)
    || FlushesAll(s, step)
  }

  /** A flight for `n` ends that loaded `o` and whose generation is still current. */
  predicate Concludes(s: State, step: Step, n: Name, o: Outcome) {
    && step.RefreshStore? && step.c in s.calls && s.calls[step.c].Loaded?
    && s.calls[step.c].name == n && s.calls[step.c].outcome == o && s.calls[step.c].gen == s.cache.gen
  }

  predicate IsWrite(step: Step) {
    step.Commit? || step.Invalidate? || step.Forget?
  }

  predicate IsMigration(step: Step) {
    step.MigrateRead? || step.MigrateRow? || step.MigrateDone? || step.MigrateAbort?
  }

  predicate IsFlight(step: Step) {
    step.RefreshBegin? || step.RefreshLoad? || step.RefreshStore? || step.RefreshFinish?
  }

  lemma WriteLeaves(s: State, step: Step)
    requires IsWrite(step)
    ensures var s' := Apply(s, step);
      && s'.calls == s.calls
      && (forall n :: n in s'.group ==> n in s.group && s'.group[n] == s.group[n])
      && (!step.Commit? ==> s'.history == s.history)
      && (!FlushesAny(s, step) ==> s'.cache == s.cache)
  {
    match step
    case Commit(_, _, _, _) =>
    case Invalidate(_) =>
    case Forget(_) =>
  }

  lemma MigrateRowLeaves(s: State, m: Id, n: Name)
    ensures var s' := DoMigrateRow(s, m, n); s'.calls == s.calls && s'.group == s.group && s'.cache == s.cache
  {
  }

  lemma MigrateDoneLeaves(s: State, m: Id)
    ensures DoMigrateDone(s, m).calls == s.calls && DoMigrateDone(s, m).group == s.group
    ensures DoMigrateDone(s, m).history == s.history
    ensures !FlushesAll(s, MigrateDone(m)) ==> DoMigrateDone(s, m).cache == s.cache
  {
    if !FlushesAll(s, MigrateDone(m)) {
      assert DoMigrateDone(s, m) == s || DoMigrateDone(s, m) == DoMigrateAbort(s, m);
    }
  }

  lemma MigrationLeaves(s: State, step: Step)
    requires IsMigration(step)
    ensures Apply(s, step).calls == s.calls && Apply(s, step).group == s.group
    ensures !step.MigrateRow? ==> Apply(s, step).history == s.history
    ensures !FlushesAny(s, step) ==> Apply(s, step).cache == s.cache
  {
    match step
    case MigrateRead(_) =>
    case MigrateRow(m, n) => MigrateRowLeaves(s, m, n);
    case MigrateDone(m) => MigrateDoneLeaves(s, m);
    case MigrateAbort(_) =>
  }

  lemma GetLeaves(s: State, step: Step)
    requires IsGet(step)
    ensures Apply(s, step).history == s.history && Apply(s, step).cache == s.cache
  {
    match step
    case GetBegin(_, _) =>
    case GetLook(_, _) =>
    case GetRevalidate(_, _) =>
    case GetJoin(_, _) =>
    case GetReceive(_) =>
    case GetGiveUp(_) =>
  }

  lemma GetLeavesFlights(s: State, step: Step, c: Id)
    requires IsGet(step) && c in s.calls
    ensures c in Apply(s, step).calls && Apply(s, step).calls[c] == s.calls[c]
  {
    match step
    case GetBegin(_, _) =>
    case GetLook(_, _) =>
    case GetRevalidate(_, _) =>
    case GetJoin(_, _) =>
    case GetReceive(_) =>
    case GetGiveUp(_) =>
  }

  lemma FlightLeaves(s: State, step: Step)
    requires IsFlight(step)
    ensures Apply(s, step).history == s.history
    ensures !step.RefreshStore? ==> Apply(s, step).cache == s.cache
  {
    match step
    case RefreshBegin(_) =>
    case RefreshLoad(_, _) =>
    case RefreshStore(_, _) =>
    case RefreshFinish(_) =>
  }

  lemma LoadLeavesOthers(s: State, d: Id, broken: bool, c: Id)
    requires c in s.calls && (c != d || !s.calls[c].Reading?)
    ensures c in DoRefreshLoad(s, d, broken).calls && DoRefreshLoad(s, d, broken).calls[c] == s.calls[c]
  {
  }

  lemma StoreLeavesOthers(s: State, d: Id, now: Time, c: Id)
    requires c in s.calls && (c != d || !s.calls[c].Loaded?)
    ensures c in DoRefreshStore(s, d, now).calls && DoRefreshStore(s, d, now).calls[c] == s.calls[c]
  {
  }

  lemma FlightLeavesOthers(s: State, step: Step, c: Id)
    requires IsFlight(step) && c in s.calls && (c != step.c || FlightStays(s.calls[c], step))
    ensures c in Apply(s, step).calls && Apply(s, step).calls[c] == s.calls[c]
  {
    match step
    case RefreshBegin(_) =>
    case RefreshLoad(d, broken) => LoadLeavesOthers(s, d, broken, c);
    case RefreshStore(d, now) => StoreLeavesOthers(s, d, now, c);
    case RefreshFinish(_) =>
  }

  /** The step is not the next one of this flight. */
  predicate FlightStays(call: Call, step: Step) {
    && (step.RefreshBegin? ==> !call.Started?) && (step.RefreshLoad? ==> !call.Reading?)
    && (step.RefreshStore? ==> !call.Loaded?) && (step.RefreshFinish? ==> !call.Stored?)
  }

  lemma OtherStepsLeaveCache(s: State, step: Step)
    requires !FlushesAny(s, step) && !step.RefreshStore?
    ensures Apply(s, step).cache == s.cache
  {
    if IsWrite(step) {
      WriteLeaves(s, step);
    } else if IsMigration(step) {
      MigrationLeaves(s, step);
    } else if IsGet(step) {
      GetLeaves(s, step);
    } else {
      FlightLeaves(s, step);
    }
  }

  lemma StoreSettles(s: State, step: Step)
    requires step.RefreshStore? && step.c in s.calls && s.calls[step.c].Loaded?
    ensures var Loaded(n, gen, _, o) := s.calls[step.c]; Settles(s.cache, Apply(s, step).cache, n, gen, o, step.now)
  {
    var Loaded(n, gen, _, o) := s.calls[step.c];
    RememberSettles(s.cache, n, gen, o, step.now);
  }

  lemma IdleStoreLeavesCache(s: State, step: Step)
    requires step.RefreshStore? && !(step.c in s.calls && s.calls[step.c].Loaded?)
    ensures Apply(s, step).cache == s.cache
  {
  }

  lemma FlushDrops(s: State, step: Step, n: Name)
    requires FlushesAny(s, step)
    ensures Apply(s, step).cache.gen > s.cache.gen
    ensures n in Apply(s, step).cache.hits <==> n in s.cache.hits && !Flushes(s, step, n)
    ensures n in Apply(s, step).cache.hits ==> Apply(s, step).cache.hits[n] == s.cache.hits[n]
  {
  }

  /** Cached from the step on exactly if it was and is neither flushed nor found missing, or is found now. */
  lemma CachedAfter(s: State, step: Step, n: Name)
    ensures n in Apply(s, step).cache.hits <==>
      || (n in s.cache.hits && !Flushes(s, step, n) && !Concludes(s, step, n, Missing))
      || exists cert :: Concludes(s, step, n, Found(cert))
    ensures forall cert :: Concludes(s, step, n, Found(cert)) ==>
      n in Apply(s, step).cache.hits && Apply(s, step).cache.hits[n] == Entry(cert, step.now)
    ensures n in s.cache.hits && n in Apply(s, step).cache.hits && Apply(s, step).cache.hits[n].cert != s.cache.hits[n].cert ==>
      exists cert :: Concludes(s, step, n, Found(cert))
  {
    if FlushesAny(s, step) {
      FlushDrops(s, step, n);
    } else if !step.RefreshStore? {
      OtherStepsLeaveCache(s, step);
    } else if step.c in s.calls && s.calls[step.c].Loaded? {
      StoreSettles(s, step);
      var Loaded(name, gen, _, o) := s.calls[step.c];
      if name == n && gen == s.cache.gen && o.Found? {
        assert Concludes(s, step, n, Found(o.cert));
      }
    } else {
      IdleStoreLeavesCache(s, step);
    }
  }

  /**
   In every run, a cached certificate leaves the cache at a step exactly if that step flushes
   its name or ends a current flight that found it missing; a failed load never costs it.
   */
  lemma HitLeavesIff(states: seq<State>, steps: seq<Step>, i: nat, n: Name)
    requires IsRun(Start, Apply, states, steps) && i < |steps| && n in states[i].cache.hits
    ensures n !in states[i + 1].cache.hits <==> Flushes(states[i], steps[i], n) || Concludes(states[i], steps[i], n, Missing)
  {
    assert Took(Apply, states, steps, i);
    CachedAfter(states[i], steps[i], n);
  }

  /** In every run, a name gets cached at a step exactly if that step ends a current flight that found it. */
  lemma HitEntersIff(states: seq<State>, steps: seq<Step>, i: nat, n: Name)
    requires IsRun(Start, Apply, states, steps) && i < |steps| && n !in states[i].cache.hits
    ensures n in states[i + 1].cache.hits <==> exists cert :: Concludes(states[i], steps[i], n, Found(cert))
  {
    assert Took(Apply, states, steps, i);
    CachedAfter(states[i], steps[i], n);
  }

  /** Steps `k` to `i` flush nothing. */
  ghost predicate Undisturbed(states: seq<State>, steps: seq<Step>, k: nat, i: nat)
    requires i <= |steps| < |states|
  {
    forall j: nat :: k <= j < i ==> !FlushesAny(states[j], steps[j])
  }

  lemma GenerationAfter(s: State, step: Step)
    ensures Apply(s, step).cache.gen == s.cache.gen + if FlushesAny(s, step) then 1 else 0
  {
    if FlushesAny(s, step) {
      FlushDrops(s, step, "");
    } else if !step.RefreshStore? {
      OtherStepsLeaveCache(s, step);
    } else if step.c in s.calls && s.calls[step.c].Loaded? {
      StoreSettles(s, step);
    } else {
      IdleStoreLeavesCache(s, step);
    }
  }

  lemma {:induction false} GenerationStands(states: seq<State>, steps: seq<Step>, k: nat, i: nat)
    requires IsRun(Start, Apply, states, steps) && k <= i <= |steps|
    ensures states[k].cache.gen <= states[i].cache.gen
    ensures states[k].cache.gen == states[i].cache.gen <==> Undisturbed(states, steps, k, i)
    decreases i
  {
    if k < i {
      GenerationStands(states, steps, k, i - 1);
      assert Took(Apply, states, steps, i - 1);
      GenerationAfter(states[i - 1], steps[i - 1]);
      if Undisturbed(states, steps, k, i) {
        assert !FlushesAny(states[i - 1], steps[i - 1]);
      }
    }
  }

  /** A flight that has read the generation keeps it until it stores. */
  lemma StepKeepsGeneration(s: State, step: Step, c: Id, n: Name, gen: nat)
    requires c in s.calls && (s.calls[c].Reading? || s.calls[c].Loaded?) && s.calls[c].name == n && s.calls[c].gen == gen
    requires !(step.RefreshStore? && step.c == c && s.calls[c].Loaded?)
    ensures var calls := Apply(s, step).calls;
      c in calls && (calls[c].Reading? || calls[c].Loaded?) && calls[c].name == n && calls[c].gen == gen
  {
    if IsWrite(step) {
      WriteLeaves(s, step);
    } else if IsMigration(step) {
      MigrationLeaves(s, step);
    } else if IsGet(step) {
      GetLeavesFlights(s, step, c);
    } else {
      if step.RefreshLoad? && step.c == c && s.calls[c].Reading? {
        FlightLoads(s, c, step.broken);
      } else {
        FlightLeavesOthers(s, step, c);
      }
    }
  }

  lemma {:induction false} FlightKeepsGeneration(states: seq<State>, steps: seq<Step>, k: nat, i: nat, c: Id)
    requires IsRun(Start, Apply, states, steps) && k < i <= |steps|
    requires steps[k] == RefreshBegin(c) && c in states[k].calls && states[k].calls[c].Started?
    requires forall j: nat :: k < j < i ==> !(steps[j].RefreshStore? && steps[j].c == c && c in states[j].calls && states[j].calls[c].Loaded?)
    ensures var n, calls := states[k].calls[c].name, states[i].calls;
      c in calls && (calls[c].Reading? || calls[c].Loaded?) && calls[c].name == n && calls[c].gen == states[k].cache.gen
    decreases i
  {
    assert Took(Apply, states, steps, i - 1);
    if k < i - 1 {
      FlightKeepsGeneration(states, steps, k, i - 1, c);
      StepKeepsGeneration(states[i - 1], steps[i - 1], c, states[k].calls[c].name, states[k].cache.gen);
    }
  }

  /**
   In every run, what a flight loaded between its begin at step `k` and its end at step `i` is
   taken over by the cache exactly if nothing was flushed in between.
   */
  lemma FlightCountsIff(states: seq<State>, steps: seq<Step>, k: nat, i: nat, c: Id)
    requires IsRun(Start, Apply, states, steps) && k < i < |steps|
    requires steps[k] == RefreshBegin(c) && c in states[k].calls && states[k].calls[c].Started?
    requires steps[i].RefreshStore? && steps[i].c == c && c in states[i].calls && states[i].calls[c].Loaded?
    requires forall j: nat :: k < j < i ==> !(steps[j].RefreshStore? && steps[j].c == c && c in states[j].calls && states[j].calls[c].Loaded?)
    ensures var o := states[i].calls[c].outcome;
      Concludes(states[i], steps[i], states[k].calls[c].name, o) <==> Undisturbed(states, steps, k, i)
  {
    FlightKeepsGeneration(states, steps, k, i, c);
    GenerationStands(states, steps, k, i);
  }

  // ---------- flights that can be joined ----------

  /** The flight that a get of `n` would join is for `n` and still under way. */
  ghost predicate UnderWay(group: map<Name, Id>, calls: map<Id, Call>) {
    forall n :: n in group ==> group[n] in calls && calls[group[n]].name == n && !calls[group[n]].Finished?
  }

  lemma FlyUnderWay(s: State, n: Name, c: Id)
    requires UnderWay(s.group, s.calls) && CanFly(s, n, c)
    ensures UnderWay(Fly(s, n, c).group, Fly(s, n, c).calls)
    ensures n in Fly(s, n, c).group
  {
  }

  lemma MoveUnderWay(group: map<Name, Id>, calls: map<Id, Call>, c: Id, call: Call)
    requires UnderWay(group, calls) && c in calls && call.name == calls[c].name
    ensures !call.Finished? ==> UnderWay(group, calls[c := call])
    ensures UnderWay(if call.name in group && group[call.name] == c then group - {call.name} else group, calls[c := call])
  {
  }

  lemma GetUnderWay(s: State, step: Step)
    requires UnderWay(s.group, s.calls) && IsGet(step)
    ensures UnderWay(Apply(s, step).group, Apply(s, step).calls)
  {
    if step.GetRevalidate? && step.g in s.getters && CanFly(s, s.getters[step.g].name, step.c) {
      FlyUnderWay(s, s.getters[step.g].name, step.c);
    }
    if step.GetJoin? && step.g in s.getters && CanFly(s, s.getters[step.g].name, step.c) {
      FlyUnderWay(s, s.getters[step.g].name, step.c);
    }
  }

  lemma BeginUnderWay(s: State, c: Id)
    requires UnderWay(s.group, s.calls)
    ensures UnderWay(Apply(s, RefreshBegin(c)).group, Apply(s, RefreshBegin(c)).calls)
  {
    if c in s.calls && s.calls[c].Started? {
      MoveUnderWay(s.group, s.calls, c, Apply(s, RefreshBegin(c)).calls[c]);
    }
  }

  lemma LoadUnderWay(s: State, c: Id, broken: bool)
    requires UnderWay(s.group, s.calls)
    ensures UnderWay(Apply(s, RefreshLoad(c, broken)).group, Apply(s, RefreshLoad(c, broken)).calls)
  {
    if c in s.calls && s.calls[c].Reading? {
      MoveUnderWay(s.group, s.calls, c, Apply(s, RefreshLoad(c, broken)).calls[c]);
    }
  }

  lemma StoreUnderWay(s: State, c: Id, now: Time)
    requires UnderWay(s.group, s.calls)
    ensures UnderWay(Apply(s, RefreshStore(c, now)).group, Apply(s, RefreshStore(c, now)).calls)
  {
    if c in s.calls && s.calls[c].Loaded? {
      MoveUnderWay(s.group, s.calls, c, Apply(s, RefreshStore(c, now)).calls[c]);
    }
  }

  lemma FinishUnderWay(s: State, c: Id)
    requires UnderWay(s.group, s.calls)
    ensures UnderWay(Apply(s, RefreshFinish(c)).group, Apply(s, RefreshFinish(c)).calls)
  {
    if c in s.calls && s.calls[c].Stored? {
      MoveUnderWay(s.group, s.calls, c, Apply(s, RefreshFinish(c)).calls[c]);
    }
  }

  lemma RefreshUnderWay(s: State, step: Step)
    requires UnderWay(s.group, s.calls)
    requires IsFlight(step)
    ensures UnderWay(Apply(s, step).group, Apply(s, step).calls)
  {
    match step
    case RefreshBegin(c) => BeginUnderWay(s, c);
    case RefreshLoad(c, broken) => LoadUnderWay(s, c, broken);
    case RefreshStore(c, now) => StoreUnderWay(s, c, now);
    case RefreshFinish(c) => FinishUnderWay(s, c);
  }

  lemma OtherUnderWay(s: State, step: Step)
    requires UnderWay(s.group, s.calls)
    requires !IsGet(step) && !IsFlight(step)
    ensures UnderWay(Apply(s, step).group, Apply(s, step).calls)
  {
    if IsWrite(step) {
      WriteLeaves(s, step);
    } else {
      MigrationLeaves(s, step);
    }
  }

  /** In every run, a get that has to wait joins a flight that has not finished, or starts one. */
  lemma JoinedIsUnderWay(states: seq<State>, steps: seq<Step>, i: nat)
    requires IsRun(Start, Apply, states, steps) && i < |states|
    ensures UnderWay(states[i].group, states[i].calls)
  {
    forall s: State, step: Step | UnderWay(s.group, s.calls)
      ensures UnderWay(Apply(s, step).group, Apply(s, step).calls)
    {
      if IsGet(step) {
        GetUnderWay(s, step);
      } else if IsFlight(step) {
        RefreshUnderWay(s, step);
      } else {
        OtherUnderWay(s, step);
      }
    }
    Invariant(Start, Apply, (s: State) => UnderWay(s.group, s.calls), states, steps, i);
  }

  // ---------- what a get and a flight do ----------

  /** A get answers a cached certificate, refreshing it if it is old, answers a recent miss, and else waits. */
  lemma LookDecides(s: State, g: Id, now: Time)
    requires g in s.getters && s.getters[g].phase.Asking?
    ensures var n, phase := s.getters[g].name, Apply(s, GetLook(g, now)).getters[g].phase;
      if n in s.cache.hits
      then phase == if now < s.cache.hits[n].loadedAt + 60 then Answered(Found(s.cache.hits[n].cert)) else Revalidating(Found(s.cache.hits[n].cert))
      else phase == if n in s.cache.misses && now < s.cache.misses[n] + 30 then Answered(Missing) else Missed
  {
  }

  /** An old hit is answered at once, with a flight for its name under way. */
  lemma RevalidateAnswers(s: State, g: Id, c: Id)
    requires g in s.getters && s.getters[g].phase.Revalidating? && CanFly(s, s.getters[g].name, c)
    ensures var s' := Apply(s, GetRevalidate(g, c));
      && s'.getters[g].phase == Answered(s.getters[g].phase.outcome) && s.getters[g].name in s'.group
      && (s.getters[g].name !in s.group ==> c in s'.calls && s'.calls[c] == Started(s.getters[g].name))
  {
  }

  lemma JoinWaits(s: State, g: Id, c: Id)
    requires g in s.getters && s.getters[g].phase.Missed? && CanFly(s, s.getters[g].name, c)
    ensures var s', n := Apply(s, GetJoin(g, c)), s.getters[g].name;
      && n in s'.group && s'.getters[g].phase == Waiting(s'.group[n])
      && (n in s.group ==> s'.group[n] == s.group[n] && s'.calls == s.calls)
      && (n !in s.group ==> s'.group[n] == c && s'.calls[c] == Started(n))
  {
  }

  /** A waiting get answers what its flight loaded, or an error if its caller gives up. */
  lemma ReceiveAnswers(s: State, g: Id)
    requires g in s.getters && s.getters[g].phase.Waiting?
    ensures var c, phase := s.getters[g].phase.call, Apply(s, GetReceive(g)).getters[g].phase;
      phase == if c in s.calls && s.calls[c].Finished? then Answered(s.calls[c].outcome) else s.getters[g].phase
    ensures Apply(s, GetGiveUp(g)).getters[g].phase == Answered(Failed)
  {
  }

  /** A flight loads the stored row, unless the load itself breaks, and ends with what it loaded. */
  lemma FlightLoads(s: State, c: Id, broken: bool)
    requires c in s.calls && s.calls[c].Reading?
    ensures var n, call := s.calls[c].name, Apply(s, RefreshLoad(c, broken)).calls[c];
      call == Loaded(n, s.calls[c].gen, Current(s.history, n), if broken then Failed else Read(Row?(s.history, n)))
  {
  }

  lemma FlightEnds(s: State, c: Id)
    requires c in s.calls && s.calls[c].Stored?
    ensures var s' := Apply(s, RefreshFinish(c));
      && s'.calls[c].Finished? && s'.calls[c].outcome == s.calls[c].outcome
      && (s.calls[c].name in s'.group ==> s'.group[s.calls[c].name] != c)
  {
  }

  lemma OtherStepsLeaveRows(s: State, step: Step)
    requires !step.Commit? && !step.MigrateRow?
    ensures Apply(s, step).history == s.history
  {
    if IsWrite(step) {
      WriteLeaves(s, step);
    } else if IsMigration(step) {
      MigrationLeaves(s, step);
    } else if IsGet(step) {
      GetLeaves(s, step);
    } else {
      FlightLeaves(s, step);
    }
  }

  lemma CommitWrites(s: State, w: Id, name: Name, row: Option<Row>, ok: bool, n: Name)
    requires w !in s.writers
    ensures Row?(DoCommit(s, w, name, row, ok).history, n) == if n == name && ok then row else Row?(s.history, n)
  {
  }

  lemma MigrationWrites(s: State, m: Id, name: Name, n: Name)
    requires m in s.migrations && s.migrations[m].Migrating? && name in s.migrations[m].rows
    ensures Row?(DoMigrateRow(s, m, name).history, n) ==
      if n == name then Sealed(Row?(s.history, n), s.migrations[m].rows[n]) else Row?(s.history, n)
  {
  }

  /** The stored row changes only by a write that commits and by a migration's update, and as they say. */
  lemma RowAfter(s: State, step: Step, n: Name)
    ensures Row?(Apply(s, step).history, n) ==
      if step.Commit? && step.w !in s.writers && step.name == n && step.ok then step.row
      else if step.MigrateRow? && step.m in s.migrations && s.migrations[step.m].Migrating? && step.name == n && n in s.migrations[step.m].rows
      then Sealed(Row?(s.history, n), s.migrations[step.m].rows[n])
      else Row?(s.history, n)
  {
    if step.Commit? {
      if step.w !in s.writers {
        CommitWrites(s, step.w, step.name, step.row, step.ok, n);
      }
    } else if step.MigrateRow? {
      if step.m in s.migrations && s.migrations[step.m].Migrating? && step.name in s.migrations[step.m].rows {
        MigrationWrites(s, step.m, step.name, n);
      }
    } else {
      OtherStepsLeaveRows(s, step);
    }
  }

  /** A migration seals the keys of the rows that are stored with a plain one, as they were when it read them. */
  lemma MigrationReads(s: State, m: Id, n: Name)
    requires m !in s.migrations
    ensures var migration := Apply(s, MigrateRead(m)).migrations[m];
      && migration.Migrating? && !migration.updated
      && (n in migration.rows <==> Row?(s.history, n).Some? && Row?(s.history, n).value.privateKey.PlainKey?)
      && (n in migration.rows ==> Some(migration.rows[n]) == Row?(s.history, n))
  {
  }

  lemma SealedKeepsRest(current: Option<Row>, read: Unsealed)
    ensures Sealed(current, read).Some? <==> current.Some?
    ensures current.Some? ==>
      var row, row' := current.value, Sealed(current, read).value;
      && row'.id == row.id && row'.chain == row.chain && row'.certKey == row.certKey
      && row'.privateKey == if row.id == read.id then SealedKey(read.privateKey.key) else row.privateKey
  {
  }

  /** A row loads exactly if it has a private key that opens and belongs to its chain. */
  lemma RowLoadsIff(row: Option<Row>, cert: Certificate)
    ensures Read(row) == Missing <==> row == None
    ensures Read(row) == Found(cert) <==>
      && row.Some? && row.value.chain == cert.chain && row.value.certKey == cert.key
      && (row.value.privateKey == PlainKey(cert.key) || row.value.privateKey == SealedKey(cert.key))
  {
  }

  /** A writer that has flushed forgets the flight before it returns, so a later get starts a new one. */
  lemma WriterReturns(s: State, w: Id)
    requires w in s.writers && s.writers[w].Flushed?
    ensures var s', n := Apply(s, Forget(w)), s.writers[w].name;
      s'.writers[w].Returned? && n !in s'.group && forall k :: k in s.group && k != n ==> k in s'.group && s'.group[k] == s.group[k]
  {
  }

  /** A migration is over once all rows it read are updated, or by an error. */
  lemma MigrationEnds(s: State, m: Id)
    requires m in s.migrations && s.migrations[m].Migrating?
    ensures Apply(s, MigrateDone(m)).migrations[m].Over? <==> s.migrations[m].rows == map[]
    ensures Apply(s, MigrateAbort(m)).migrations[m].Over? && Apply(s, MigrateAbort(m)).cache == s.cache
    ensures forall n :: n in s.migrations[m].rows ==>
      var migration := Apply(s, MigrateRow(m, n)).migrations[m];
      migration.Migrating? && migration.updated && migration.rows == s.migrations[m].rows - {n}
  {
  }
}
