/**
 Requests that fill the authentication cache while users change. A change of a user commits
 first and is followed by `InvalidateUser`; a request that misses the cache reads the user,
 and stores what it read in a later step. Nothing ties the two together.
 */
module AuthCacheRuns {
  import opened AuthCache
  import opened Common
  import opened Runs

  type Id = nat

  /** A request that has read version `version` of the user. */
  datatype Request = Request(t: TokenKey, user: UserId, version: nat)

  /** Where a cached result comes from: the version read, and whether the user was invalidated beyond it before the store. */
  datatype Origin = Origin(version: nat, overtaken: bool)

  /**
   `versions` counts the changes of each user, `invalidated` is the version that the last
   `InvalidateUser` of the user came after.
   */
  datatype State = State(
    entries: Entries, index: Index, origins: map<TokenKey, Origin>,
    versions: map<UserId, nat>, invalidated: map<UserId, nat>, requests: map<Id, Request>)

  ghost predicate Start(s: State) {
    s == State(map[], map[], map[], s.versions, map[], map[])
  }

  datatype Step =
    | Change(user: UserId)
    | Invalidate(user: UserId)
    | InvalidateEverybody
    | Read(r: Id, t: TokenKey, user: UserId)
    | Keep(r: Id, groups: seq<nat>, expires: Time)
    | DropExpiredLookup(t: TokenKey)
    | DropInSweep(t: TokenKey)

  function Mark(marks: map<UserId, nat>, user: UserId): nat {
    if user in marks then marks[user] else 0
  }

  function Apply(s: State, step: Step): State {
    match step
    case Change(user) => s.(versions := s.versions[user := Mark(s.versions, user) + 1])
    case Invalidate(user) => DoInvalidate(s, user)
    case InvalidateEverybody => s.(entries := map[], index := map[], origins := map[], invalidated := s.versions)
    case Read(r, t, user) =>
      if r in s.requests then s else s.(requests := s.requests[r := Request(t, user, Mark(s.versions, user))])
    case Keep(r, groups, expires) => DoKeep(s, r, groups, expires)
    case DropExpiredLookup(t) => s.(entries := s.entries - {t}, origins := s.origins - {t})
    case DropInSweep(t) =>
      if t !in s.entries then s
      else s.(entries := s.entries - {t}, origins := s.origins - {t}, index := Unlisted(s.index, s.entries[t].user, t))
  }

  function ListedTokens(index: Index, user: UserId): set<TokenKey> {
    if user in index then index[user] else {}
  }

  function DoInvalidate(s: State, user: UserId): State {
    var listed := ListedTokens(s.index, user);
    s.(entries := s.entries - listed, origins := s.origins - listed, index := s.index - {user},
       invalidated := s.invalidated[user := Mark(s.versions, user)])
  }

  function DoKeep(s: State, r: Id, groups: seq<nat>, expires: Time): State {
    if r !in s.requests then s
    else
      var Request(t, user, version) := s.requests[r];
      s.(entries := s.entries[t := Entry(user, groups, expires)],
         index := Relisted(s.index, user, t),
         origins := s.origins[t := Origin(version, version < Mark(s.invalidated, user))],
         requests := s.requests - {r})
  }

  // ---------- the invariant ----------

  ghost predicate OriginsOk(entries: Entries, origins: map<TokenKey, Origin>, invalidated: map<UserId, nat>) {
    forall t :: t in entries ==>
      t in origins && (origins[t].overtaken <==> origins[t].version < Mark(invalidated, entries[t].user))
  }

  ghost predicate VersionsOk(versions: map<UserId, nat>, invalidated: map<UserId, nat>, requests: map<Id, Request>) {
    && (forall user: UserId :: Mark(invalidated, user) <= Mark(versions, user))
    && (forall r :: r in requests ==> requests[r].version <= Mark(versions, requests[r].user))
  }

  ghost predicate Inv(s: State) {
    && Indexed(s.entries, s.index)
    && OriginsOk(s.entries, s.origins, s.invalidated)
    && VersionsOk(s.versions, s.invalidated, s.requests)
  }

  /** Every entry of the user is listed, so none is left to be outdated by the new mark. */
  lemma InvalidateKeeps(s: State, user: UserId)
    requires Inv(s)
    ensures Inv(DoInvalidate(s, user))
  {
    var s' := DoInvalidate(s, user);
    forall t | t in s'.entries
      ensures s.entries[t].user != user && Listed(s.index, s.entries[t].user, t)
    {
      assert Listed(s.index, s.entries[t].user, t);
    }
  }

  lemma KeepKeeps(s: State, r: Id, groups: seq<nat>, expires: Time)
    requires Inv(s)
    ensures Inv(DoKeep(s, r, groups, expires))
  {
  }

  lemma StepKeeps(s: State, step: Step)
    requires Inv(s)
    ensures Inv(Apply(s, step))
  {
    match step
    case Change(_) =>
    case Invalidate(user) => InvalidateKeeps(s, user);
    case InvalidateEverybody =>
    case Read(_, _, _) =>
    case Keep(r, groups, expires) => KeepKeeps(s, r, groups, expires);
    case DropExpiredLookup(_) =>
    case DropInSweep(t) =>
      if t in s.entries {
        UnlistedKeepsIndex(s.entries, s.index, t);
      }
  }

  lemma RunKeeps(states: seq<State>, steps: seq<Step>, i: nat)
    requires IsRun(Start, Apply, states, steps) && i < |states|
    ensures Inv(states[i])
  {
    forall s, step | Inv(s)
      ensures Inv(Apply(s, step))
    {
      StepKeeps(s, step);
    }
    Invariant(Start, Apply, Inv, states, steps, i);
  }

  // ---------- the theorems ----------

  /**
   In every run, what the cache answers for a user reflects every change whose
   `InvalidateUser` has run exactly if no such invalidation overtook the request that stored
   it, between its read of the user and its store.
   */
  lemma HitIsCurrentIff(states: seq<State>, steps: seq<Step>, i: nat, t: TokenKey)
    requires IsRun(Start, Apply, states, steps) && i < |states| && t in states[i].entries
    ensures t in states[i].origins
    ensures Mark(states[i].invalidated, states[i].entries[t].user) <= states[i].origins[t].version <==> !states[i].origins[t].overtaken
  {
    RunKeeps(states, steps, i);
  }

  predicate Invalidates(step: Step, user: UserId) {
    step == Invalidate(user) || step == InvalidateEverybody
  }

  /** Between steps `k` and `i` the user was changed. */
  ghost predicate Changed(steps: seq<Step>, k: nat, i: nat, user: UserId) {
    exists a: nat :: k < a < i <= |steps| && steps[a] == Change(user)
  }

  /** Between steps `k` and `i` the user was changed and then invalidated. */
  ghost predicate Overtook(steps: seq<Step>, k: nat, i: nat, user: UserId) {
    exists b: nat :: k < b < i <= |steps| && Invalidates(steps[b], user) && Changed(steps, k, b, user)
  }

  lemma StepMarks(s: State, step: Step, user: UserId)
    ensures Mark(Apply(s, step).versions, user) == Mark(s.versions, user) + if step == Change(user) then 1 else 0
    ensures Mark(Apply(s, step).invalidated, user) == if Invalidates(step, user) then Mark(s.versions, user) else Mark(s.invalidated, user)
  {
  }

  /** One step longer, one candidate more. */
  lemma OneMore(steps: seq<Step>, k: nat, i: nat, user: UserId)
    requires k < i < |steps|
    ensures Changed(steps, k, i + 1, user) <==> Changed(steps, k, i, user) || steps[i] == Change(user)
    ensures Overtook(steps, k, i + 1, user) <==> Overtook(steps, k, i, user) || (Invalidates(steps[i], user) && Changed(steps, k, i, user))
  {
    if a: nat :| k < a < i && steps[a] == Change(user) {
      assert Changed(steps, k, i + 1, user);
    }
    if b: nat :| k < b < i && Invalidates(steps[b], user) && Changed(steps, k, b, user) {
      assert Overtook(steps, k, i + 1, user);
    }
    if Overtook(steps, k, i + 1, user) {
      var b: nat :| k < b < i + 1 && Invalidates(steps[b], user) && Changed(steps, k, b, user);
      assert b == i || Overtook(steps, k, i, user);
    }
  }

  /** Since a read at step `k`, the version has grown exactly by changes, and the mark only after one. */
  lemma {:induction false} MarksSince(states: seq<State>, steps: seq<Step>, k: nat, i: nat, user: UserId)
    requires IsRun(Start, Apply, states, steps) && k < i <= |steps| && steps[k].Read?
    ensures var version := Mark(states[k].versions, user);
      && version <= Mark(states[i].versions, user)
      && (version < Mark(states[i].versions, user) <==> Changed(steps, k, i, user))
      && (version < Mark(states[i].invalidated, user) <==> Overtook(steps, k, i, user))
    decreases i
  {
    assert Took(Apply, states, steps, i - 1);
    StepMarks(states[i - 1], steps[i - 1], user);
    if k < i - 1 {
      MarksSince(states, steps, k, i - 1, user);
      OneMore(steps, k, i - 1, user);
      if Overtook(steps, k, i - 1, user) {
        var b: nat :| k < b < i - 1 && Invalidates(steps[b], user) && Changed(steps, k, b, user);
        assert Changed(steps, k, i - 1, user);
      }
    } else {
      RunKeeps(states, steps, k);
    }
  }

  /** A request keeps what it read until it stores it. */
  lemma {:induction false} RequestStays(states: seq<State>, steps: seq<Step>, k: nat, i: nat, r: Id)
    requires IsRun(Start, Apply, states, steps) && k < i <= |steps| && steps[k].Read? && steps[k].r == r && r !in states[k].requests
    requires forall m: nat :: k < m < i ==> !(steps[m].Keep? && steps[m].r == r)
    ensures r in states[i].requests && states[i].requests[r] == Request(steps[k].t, steps[k].user, Mark(states[k].versions, steps[k].user))
    decreases i
  {
    assert Took(Apply, states, steps, i - 1);
    if k < i - 1 {
      RequestStays(states, steps, k, i - 1, r);
    }
  }

  /**
   In every run, a request that reads at step `k` and stores at step `i` stores an outdated
   result exactly if its user was changed and then invalidated in between.
   */
  lemma OvertakenIff(states: seq<State>, steps: seq<Step>, k: nat, i: nat, r: Id)
    requires IsRun(Start, Apply, states, steps) && k < i < |steps|
    requires steps[k].Read? && steps[k].r == r && r !in states[k].requests && steps[i].Keep? && steps[i].r == r
    requires forall m: nat :: k < m < i ==> !(steps[m].Keep? && steps[m].r == r)
    ensures var t := steps[k].t;
      && t in states[i + 1].entries && states[i + 1].entries[t] == Entry(steps[k].user, steps[i].groups, steps[i].expires)
      && t in states[i + 1].origins && (states[i + 1].origins[t].overtaken <==> Overtook(steps, k, i, steps[k].user))
  {
    assert Took(Apply, states, steps, i);
    RequestStays(states, steps, k, i, r);
    MarksSince(states, steps, k, i, steps[k].user);
  }

  /** What was cached before an invalidation of its user is never answered after it. */
  lemma InvalidatedIsGone(states: seq<State>, steps: seq<Step>, i: nat, t: TokenKey)
    requires IsRun(Start, Apply, states, steps) && i < |steps| && steps[i].Invalidate?
    ensures t in states[i + 1].entries ==> states[i + 1].entries[t].user != steps[i].user
  {
    RunKeeps(states, steps, i);
    assert Took(Apply, states, steps, i);
    var s := states[i];
    if t in states[i + 1].entries {
      assert Listed(s.index, s.entries[t].user, t);
    }
  }

  /** The step takes `t` out of the cache. */
  predicate Evicts(s: State, step: Step, t: TokenKey) {
    match step
    case Invalidate(user) => Listed(s.index, user, t)
    case InvalidateEverybody => true
    case DropExpiredLookup(u) => u == t
    case DropInSweep(u) => u == t
    case _ => false
  }

  /** The step stores a result for `t`. */
  predicate Stores(s: State, step: Step, t: TokenKey) {
    step.Keep? && step.r in s.requests && s.requests[step.r].t == t
  }

  /** In every run, a result is cached from a step on exactly if it was and is not taken out, or is stored now. */
  lemma CachedAfterIff(states: seq<State>, steps: seq<Step>, i: nat, t: TokenKey)
    requires IsRun(Start, Apply, states, steps) && i < |steps|
    ensures var s, s', step := states[i], states[i + 1], steps[i];
      && (t in s'.entries <==> Stores(s, step, t) || (t in s.entries && !Evicts(s, step, t)))
      && (Stores(s, step, t) ==> s'.entries[t] == Entry(s.requests[step.r].user, step.groups, step.expires) && Listed(s'.index, s'.entries[t].user, t))
      && (t in s'.entries && !Stores(s, step, t) ==> s'.entries[t] == s.entries[t])
  {
    assert Took(Apply, states, steps, i);
    EntryAfter(states[i], steps[i], t);
  }

  lemma EntryAfter(s: State, step: Step, t: TokenKey)
    ensures var s' := Apply(s, step);
      && (t in s'.entries <==> Stores(s, step, t) || (t in s.entries && !Evicts(s, step, t)))
      && (Stores(s, step, t) ==> s'.entries[t] == Entry(s.requests[step.r].user, step.groups, step.expires) && Listed(s'.index, s'.entries[t].user, t))
      && (t in s'.entries && !Stores(s, step, t) ==> s'.entries[t] == s.entries[t])
  {
    match step
    case Change(_) =>
    case Invalidate(_) =>
    case InvalidateEverybody =>
    case Read(_, _, _) =>
    case Keep(_, _, _) =>
    case DropExpiredLookup(_) =>
    case DropInSweep(_) =>
  }

  /** For every user and token: a change and its invalidation between the read and the store leave a cached result from before. */
  lemma OutdatedIsServed(t: TokenKey, user: UserId, groups: seq<nat>, expires: Time)
    ensures exists s :: Reachable(Start, Apply, s) && s.requests == map[] && t in s.entries && s.entries[t] == Entry(user, groups, expires) && t in s.origins && s.origins[t].version < Mark(s.invalidated, user) == Mark(s.versions, user)
  {
    var s0 := State(map[], map[], map[], map[], map[], map[]);
    ReachStart<State, Step>(Start, Apply, s0);
    var s1 := s0.(requests := map[0 := Request(t, user, 0)]);
    assert Apply(s0, Read(0, t, user)) == s1;
    ReachStep(Start, Apply, s0, Read(0, t, user));
    var s2 := s1.(versions := map[user := 1]);
    assert Apply(s1, Change(user)) == s2;
    ReachStep(Start, Apply, s1, Change(user));
    var s3 := s2.(invalidated := map[user := 1]);
    assert DoInvalidate(s2, user) == s3;
    ReachStep(Start, Apply, s2, Invalidate(user));
    var s4 := DoKeep(s3, 0, groups, expires);
    ReachStep(Start, Apply, s3, Keep(0, groups, expires));
    assert s4.requests == map[] && s4.entries[t] == Entry(user, groups, expires) && s4.origins[t] == Origin(0, true);
  }
}
