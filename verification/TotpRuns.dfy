/**
 Every interleaving of the second-factor operations on one user row. Each reads the row,
 checks the code against what it read, and writes under a guard; setup and reset write
 without one. Secrets are drawn fresh.
 */
module TotpRuns {
  import opened Totp
  import opened Common
  import opened Runs

  type Id = nat

  datatype Kind = Enable | Complete | Regenerate(codes: seq<Hash>) | Disable

  /** An operation that has checked its code against the row it read. */
  datatype Request = Request(kind: Kind, read: User, code: Code, now: Time, factor: Factor)

  /** A write that went through: for `Enable` the secret is the one it activates. */
  datatype Success = Success(kind: Kind, secret: Secret, code: Code, now: Time, factor: Factor)

  /**
   `issued` is the code list last given to the user and `spent` the codes of it accepted
   since; `unraced` tells whether each such write found the list as its check had read it.
   */
  datatype State = State(
    user: User, drawn: set<Secret>, activated: set<Secret>, requests: map<Id, Request>, log: seq<Success>,
    issued: seq<Hash>, spent: multiset<Hash>, unraced: bool)

  ghost predicate Start(s: State) {
    s == State(User(false, "", "", s.user.last, [], []), {""}, {}, map[], [], [], multiset{}, true)
  }

  datatype Step =
    | BeginSetup(secret: Secret, codes: seq<Hash>)
    | Reset
    | Check(r: Id, kind: Kind, code: Code, now: Time)
    | Write(r: Id)

  function Apply(env: Env, s: State, step: Step): State {
    match step
    case BeginSetup(secret, codes) =>
      if secret in s.drawn then s
      else s.(user := s.user.(pending := secret, pendingCodes := codes), drawn := s.drawn + {secret})
    case Reset => s.(user := User(false, "", "", s.user.last, [], []))
    case Check(r, kind, code, now) =>
      if r in s.requests then s
      else
        var factor := Checked(env, s.user, kind, code, now);
        if factor.Rejected? then s else s.(requests := s.requests[r := Request(kind, s.user, code, now, factor)])
    case Write(r) =>
      if r !in s.requests then s
      else if !Guard(s.user, s.requests[r]) then s.(requests := s.requests - {r})
      else
        var q := s.requests[r];
        s.(user := Written(s.user, q), requests := s.requests - {r},
           activated := s.activated + (if q.kind.Enable? then {q.read.pending} else {}),
           log := s.log + [Success(q.kind, Used(q), q.code, q.now, q.factor)],
           issued := if Issues(q.kind) then CodesAfter(q) else s.issued,
           spent := if Issues(q.kind) then multiset{} else s.spent + Spent(q.factor),
           unraced := Issues(q.kind) || (s.unraced && SameCodes(s.user, q.read)))
  }

  /** Enabling and regenerating replace the code list, the others keep it but for the code spent. */
  predicate Issues(kind: Kind) {
    kind.Enable? || kind.Regenerate?
  }

  function Spent(factor: Factor): multiset<Hash> {
    if factor.Recovery? then multiset{factor.hash} else multiset{}
  }

  predicate SameCodes(user: User, read: User) {
    multiset(user.codes) == multiset(read.codes)
  }

  /** The check each operation makes on the row it read. */
  function Checked(env: Env, user: User, kind: Kind, code: Code, now: Time): Factor {
    match kind
    case Enable =>
      if !Usable(env, user.pending) || Validate(env, user.pending, code, now).None? then Rejected
      else OneTime(Validate(env, user.pending, code, now).value)
    case Disable => if user.enabled then Verify(env, user, code, now) else Rejected
    case _ => Verify(env, user, code, now)
  }

  /** The condition under which the guarded write goes through. */
  predicate Guard(user: User, q: Request) {
    match q.kind
    case Enable => user.pending == q.read.pending
    case Disable => user.enabled && user.secret == q.read.secret
    case _ => user.enabled && user.secret == q.read.secret && user.last == q.read.last
  }

  function Used(q: Request): Secret {
    if q.kind.Enable? then q.read.pending else q.read.secret
  }

  function LastAfter(q: Request): nat {
    if q.factor.OneTime? then q.factor.counter else q.read.last
  }

  function CodesAfter(q: Request): seq<Hash> {
    match q.kind
    case Enable => q.read.pendingCodes
    case Regenerate(codes) => codes
    case _ => if q.factor.Recovery? then q.factor.remaining else q.read.codes
  }

  /** Enabling and disabling write all columns from the row read, the others only two. */
  function Written(user: User, q: Request): User {
    match q.kind
    case Enable => User(true, q.read.pending, "", LastAfter(q), CodesAfter(q), [])
    case Disable => User(false, "", "", LastAfter(q), CodesAfter(q), [])
    case _ => user.(codes := CodesAfter(q), last := LastAfter(q))
  }

  // ---------- replay freedom ----------

  /** A success that spent a one-time code under a guard on the counter. */
  predicate Counted(e: Success) {
    e.factor.OneTime? && !e.kind.Disable?
  }

  /** For each secret the counters spent so far strictly increase. */
  ghost predicate Increasing(log: seq<Success>) {
    forall i, j :: 0 <= i < j < |log| && Counted(log[i]) && Counted(log[j]) && log[i].secret == log[j].secret ==>
      log[i].factor.counter < log[j].factor.counter
  }

  predicate SpentOn(e: Success, secret: Secret) {
    Counted(e) && e.secret == secret
  }

  /** The stored counter is the newest one spent on the active secret. */
  ghost predicate Recorded(log: seq<Success>, user: User) {
    user.enabled ==>
      && (forall i :: 0 <= i < |log| && SpentOn(log[i], user.secret) ==> log[i].factor.counter <= user.last)
      && (exists i :: 0 <= i < |log| && SpentOn(log[i], user.secret) && log[i].factor.counter == user.last)
  }

  ghost predicate SecretsOk(user: User, drawn: set<Secret>, activated: set<Secret>, log: seq<Success>) {
    && "" in drawn && "" !in activated && activated <= drawn
    && user.pending in drawn && user.pending !in activated
    && (user.enabled <==> user.secret in activated)
    && (user.enabled || user.secret == "")
    && forall i :: 0 <= i < |log| ==> log[i].secret in activated
  }

  /** What a passed check remembers about its code. */
  ghost predicate RequestsOk(requests: map<Id, Request>) {
    forall r :: r in requests ==>
      if requests[r].kind.Enable? then requests[r].factor.OneTime? && requests[r].read.pending != ""
      else requests[r].factor.OneTime? ==> requests[r].read.last < requests[r].factor.counter
  }

  /** A recovery code that passed its check was listed, and its entry is taken off that list. */
  ghost predicate RecoveriesOk(requests: map<Id, Request>) {
    forall r :: r in requests && requests[r].factor.Recovery? ==>
      requests[r].factor.hash in requests[r].read.codes
      && requests[r].factor.remaining == Without(requests[r].read.codes, requests[r].factor.hash)
  }

  /** While no write was raced, the codes issued are those still listed and those spent. */
  ghost predicate CodesOk(user: User, issued: seq<Hash>, spent: multiset<Hash>, unraced: bool) {
    user.enabled && unraced ==> multiset(user.codes) + spent == multiset(issued)
  }

  ghost predicate Inv(s: State) {
    && SecretsOk(s.user, s.drawn, s.activated, s.log)
    && RequestsOk(s.requests)
    && Increasing(s.log)
    && Recorded(s.log, s.user)
    && RecoveriesOk(s.requests)
    && CodesOk(s.user, s.issued, s.spent, s.unraced)
  }

  /** What an accepted login or disable should do to the list: take the code it spent off, once. */
  predicate TakesOff(before: seq<Hash>, after: seq<Hash>, factor: Factor) {
    multiset(before) == multiset(after) + Spent(factor)
  }

  lemma TakesOffIff(q: Request, user: User)
    requires !Issues(q.kind)
    requires q.factor.Recovery? ==> q.factor.hash in q.read.codes && q.factor.remaining == Without(q.read.codes, q.factor.hash)
    ensures TakesOff(user.codes, CodesAfter(q), q.factor) <==> SameCodes(user, q.read)
  {
    if q.factor.Recovery? {
      WithoutRemovesOne(q.read.codes, q.factor.hash);
      assert multiset(q.read.codes) == multiset(q.factor.remaining) + multiset{q.factor.hash};
    }
  }

  lemma WriteKeepsCodes(env: Env, s: State, r: Id)
    requires RecoveriesOk(s.requests) && CodesOk(s.user, s.issued, s.spent, s.unraced)
    ensures var s' := Apply(env, s, Write(r)); CodesOk(s'.user, s'.issued, s'.spent, s'.unraced)
  {
    if r in s.requests && Guard(s.user, s.requests[r]) && !Issues(s.requests[r].kind) {
      TakesOffIff(s.requests[r], s.user);
    }
  }

  lemma WriteKeeps(env: Env, s: State, r: Id)
    requires Inv(s)
    ensures Inv(Apply(env, s, Write(r)))
  {
    var s' := Apply(env, s, Write(r));
    WriteKeepsCodes(env, s, r);
    if r in s.requests && Guard(s.user, s.requests[r]) && s'.user.enabled {
      if s.requests[r].factor.OneTime? {
        assert SpentOn(s'.log[|s.log|], s'.user.secret);
      } else {
        var i :| 0 <= i < |s.log| && SpentOn(s.log[i], s.user.secret) && s.log[i].factor.counter == s.user.last;
        assert s'.log[i] == s.log[i];
      }
    }
  }

  lemma StepKeeps(env: Env, s: State, step: Step)
    requires Inv(s)
    ensures Inv(Apply(env, s, step))
  {
    if step.Write? {
      WriteKeeps(env, s, step.r);
    }
  }

  /**
   Replay freedom (section 5.2 of RFC 6238): in every run the counters that enabling,
   logging in and regenerating accept for one secret strictly increase, so no time step is
   accepted twice.
   */
  lemma NoReplay(env: Env, states: seq<State>, steps: seq<Step>, k: nat, i: nat, j: nat)
    requires IsRun(Start, (s, step) => Apply(env, s, step), states, steps) && k < |states|
    requires i < j < |states[k].log| && Counted(states[k].log[i]) && Counted(states[k].log[j])
    requires states[k].log[i].secret == states[k].log[j].secret
    ensures states[k].log[i].factor.counter < states[k].log[j].factor.counter
  {
    RunKeeps(env, states, steps, k);
  }

  lemma RunKeeps(env: Env, states: seq<State>, steps: seq<Step>, k: nat)
    requires IsRun(Start, (s, step) => Apply(env, s, step), states, steps) && k < |states|
    ensures Inv(states[k])
  {
    forall s, step | Inv(s) ensures Inv(Apply(env, s, step)) {
      StepKeeps(env, s, step);
    }
    Invariant(Start, (s, step) => Apply(env, s, step), Inv, states, steps, k);
  }

  // ---------- where the guards stop ----------

  /**
   Disabling is not guarded on the counter. In every run, the counter that a disable is
   about to spend is newer than every counter spent on that secret exactly when it is
   still above the stored one.
   */
  lemma DisableIsFreshIff(env: Env, states: seq<State>, steps: seq<Step>, k: nat, r: Id)
    requires IsRun(Start, (s, step) => Apply(env, s, step), states, steps) && k < |states|
    requires r in states[k].requests && states[k].requests[r].kind.Disable? && states[k].requests[r].factor.OneTime?
    requires Guard(states[k].user, states[k].requests[r])
    ensures var s, q := states[k], states[k].requests[r];
      s.user.last < q.factor.counter <==>
      forall i :: 0 <= i < |s.log| && SpentOn(s.log[i], q.read.secret) ==> s.log[i].factor.counter < q.factor.counter
  {
    RunKeeps(env, states, steps, k);
  }

  /** Two operations that check a code each against the same row and then write, in turn. */
  function Raced(env: Env, s: State, first: Kind, code: Code, second: Kind, code': Code, now: Time, q: Id, r: Id): State {
    var s1 := Apply(env, s, Check(q, first, code, now));
    var s2 := Apply(env, s1, Check(r, second, code', now));
    Apply(env, Apply(env, s2, Write(q)), Write(r))
  }

  lemma CheckedRequest(env: Env, s: State, r: Id, kind: Kind, code: Code, now: Time)
    requires s.user.enabled && !Issues(kind) && r !in s.requests && !Verify(env, s.user, code, now).Rejected?
    ensures Apply(env, s, Check(r, kind, code, now)) ==
      s.(requests := s.requests[r := Request(kind, s.user, code, now, Verify(env, s.user, code, now))])
  {
  }

  lemma WrittenRequest(env: Env, s: State, r: Id)
    requires r in s.requests && Guard(s.user, s.requests[r])
    ensures var s', q := Apply(env, s, Write(r)), s.requests[r];
      s'.user == Written(s.user, q) && s'.requests == s.requests - {r} && s'.log == s.log + [Success(q.kind, Used(q), q.code, q.now, q.factor)]
  {
  }

  /** A login and then a login or disable, both checked first: a second login needs the counter as it was. */
  lemma RacedSucceed(env: Env, s: State, code: Code, second: Kind, code': Code, now: Time, q: Id, r: Id)
    requires s.user.enabled && q != r && q !in s.requests && r !in s.requests
    requires !Verify(env, s.user, code, now).Rejected? && !Verify(env, s.user, code', now).Rejected?
    requires second.Disable? || (second.Complete? && Verify(env, s.user, code, now).Recovery?)
    ensures var s', f, f' := Raced(env, s, Complete, code, second, code', now, q, r), Verify(env, s.user, code, now), Verify(env, s.user, code', now);
      && s'.log == s.log + [Success(Complete, s.user.secret, code, now, f), Success(second, s.user.secret, code', now, f')]
      && s'.user.codes == if f'.Recovery? then f'.remaining else s.user.codes
  {
    var f, f' := Verify(env, s.user, code, now), Verify(env, s.user, code', now);
    var one, two := Request(Complete, s.user, code, now, f), Request(second, s.user, code', now, f');
    var s1 := s.(requests := s.requests[q := one]);
    CheckedRequest(env, s, q, Complete, code, now);
    var s2 := s1.(requests := s1.requests[r := two]);
    CheckedRequest(env, s1, r, second, code', now);
    var s3 := Apply(env, s2, Write(q));
    assert s3.user == Written(s.user, one) && r in s3.requests && s3.requests[r] == two && s3.log == s.log + [Success(Complete, s.user.secret, code, now, f)] by {
      WrittenRequest(env, s2, q);
    }
    WrittenRequest(env, s3, r);
  }

  /** So a login and a disable that race on one code both succeed with the same counter. */
  lemma DisableReplaysLogin(env: Env, s: State, code: Code, now: Time, q: Id, r: Id)
    requires s.user.enabled && Verify(env, s.user, code, now).OneTime?
    requires q != r && q !in s.requests && r !in s.requests
    ensures var factor := Verify(env, s.user, code, now);
      Raced(env, s, Complete, code, Disable, code, now, q, r).log ==
      s.log + [Success(Complete, s.user.secret, code, now, factor), Success(Disable, s.user.secret, code, now, factor)]
  {
    RacedSucceed(env, s, code, Disable, code, now, q, r);
  }

  /**
   The code list is in no guard. In every run, a login or disable that goes through takes
   exactly the code it spent off the list, and a one-time code none, if and only if the
   list is still the one that its check read.
   */
  lemma CodeTakenOffIff(env: Env, states: seq<State>, steps: seq<Step>, k: nat, r: Id)
    requires IsRun(Start, (s, step) => Apply(env, s, step), states, steps) && k < |states|
    requires r in states[k].requests && !Issues(states[k].requests[r].kind)
    requires Guard(states[k].user, states[k].requests[r])
    ensures var s, q := states[k], states[k].requests[r];
      TakesOff(s.user.codes, Apply(env, s, Write(r)).user.codes, q.factor) <==> SameCodes(s.user, q.read)
  {
    RunKeeps(env, states, steps, k);
    TakesOffIff(states[k].requests[r], states[k].user);
  }

  /** So while no write is raced, every code is accepted at most as often as it was issued. */
  lemma CodesAreConserved(env: Env, states: seq<State>, steps: seq<Step>, k: nat)
    requires IsRun(Start, (s, step) => Apply(env, s, step), states, steps) && k < |states|
    requires states[k].user.enabled && states[k].unraced
    ensures multiset(states[k].user.codes) + states[k].spent == multiset(states[k].issued)
    ensures forall h :: states[k].spent[h] <= multiset(states[k].issued)[h]
  {
    RunKeeps(env, states, steps, k);
    forall h
      ensures states[k].spent[h] <= multiset(states[k].issued)[h]
    {
      assert (multiset(states[k].user.codes) + states[k].spent)[h] == multiset(states[k].issued)[h];
    }
  }

  /** Two logins that race on one recovery code both succeed. */
  lemma RecoveryCodeSpentTwice(env: Env, s: State, code: Code, now: Time, q: Id, r: Id)
    requires s.user.enabled && Verify(env, s.user, code, now).Recovery?
    requires q != r && q !in s.requests && r !in s.requests
    ensures var factor := Verify(env, s.user, code, now);
      Raced(env, s, Complete, code, Complete, code, now, q, r).log ==
      s.log + [Success(Complete, s.user.secret, code, now, factor), Success(Complete, s.user.secret, code, now, factor)]
  {
    RacedSucceed(env, s, code, Complete, code, now, q, r);
  }

  /** When a login on any other code races with it, the recovery code spent first is listed again. */
  lemma RecoveryCodeRevived(env: Env, s: State, code: Code, code': Code, now: Time, q: Id, r: Id)
    requires s.user.enabled && Verify(env, s.user, code, now).Recovery? && !Verify(env, s.user, code', now).Rejected?
    requires env.hash(code) != env.hash(code') && q != r && q !in s.requests && r !in s.requests
    ensures var s' := Raced(env, s, Complete, code, Complete, code', now, q, r);
      |s'.log| == |s.log| + 2 && multiset(s'.user.codes)[env.hash(code)] == multiset(s.user.codes)[env.hash(code)]
  {
    var s', f' := Raced(env, s, Complete, code, Complete, code', now, q, r), Verify(env, s.user, code', now);
    assert |s'.log| == |s.log| + 2 && s'.user.codes == (if f'.Recovery? then f'.remaining else s.user.codes) by {
      RacedSucceed(env, s, code, Complete, code', now, q, r);
    }
    OthersStay(s.user.codes, env.hash(code'), env.hash(code));
  }

  lemma OthersStay(codes: seq<Hash>, h: Hash, other: Hash)
    requires h != other
    ensures multiset(Without(codes, h))[other] == multiset(codes)[other]
  {
    WithoutRemovesOne(codes, h);
  }

  // ---------- the races are reached ----------

  ghost predicate Reached(env: Env, s: State) {
    Reachable(Start, (s, step) => Apply(env, s, step), s)
  }

  /** Every usable secret and code list can be those of an enabled user, with nothing in flight. */
  lemma EnabledIsReached(env: Env, secret: Secret, codes: seq<Hash>, now: Time)
    requires Usable(env, secret)
    ensures exists s :: Reached(env, s) && s.user == User(true, secret, "", Counter(now), codes, []) && s.requests == map[]
  {
    var next := (s, step) => Apply(env, s, step);
    var code := env.totp(secret, Counter(now));
    var s0 := State(User(false, "", "", 0, [], []), {""}, {}, map[], [], [], multiset{}, true);
    ReachStart<State, Step>(Start, next, s0);
    var s1 := Apply(env, s0, BeginSetup(secret, codes));
    ReachStep(Start, next, s0, BeginSetup(secret, codes));
    var s2 := Apply(env, s1, Check(0, Enable, code, now));
    ReachStep(Start, next, s1, Check(0, Enable, code, now));
    var s3 := Apply(env, s2, Write(0));
    ReachStep(Start, next, s2, Write(0));
    assert s3.user == User(true, secret, "", Counter(now), codes, []) && s3.requests == map[];
  }

  lemma RacedIsReached(env: Env, s: State, code: Code, second: Kind, code': Code, now: Time)
    requires Reached(env, s)
    ensures Reached(env, Raced(env, s, Complete, code, second, code', now, 0, 1))
  {
    var next := (s, step) => Apply(env, s, step);
    var s1 := Apply(env, s, Check(0, Complete, code, now));
    ReachStep(Start, next, s, Check(0, Complete, code, now));
    var s2 := Apply(env, s1, Check(1, second, code', now));
    ReachStep(Start, next, s1, Check(1, second, code', now));
    ReachStep(Start, next, s2, Write(0));
    ReachStep(Start, next, Apply(env, s2, Write(0)), Write(1));
  }

  /** The last two successes of a log. */
  predicate EndsIn(log: seq<Success>, first: Success, second: Success) {
    |log| >= 2 && log[|log| - 2] == first && log[|log| - 1] == second
  }

  /** A code that is listed and is no one-time code of the secret at the time. */
  predicate IsRecoveryCode(env: Env, secret: Secret, codes: seq<Hash>, code: Code, now: Time) {
    code != "" && Validate(env, secret, code, now).None? && env.hash(code) in codes
  }

  /** For every secret, list and listed recovery code a run accepts the code twice. */
  lemma SpentTwiceIsReached(env: Env, secret: Secret, codes: seq<Hash>, code: Code, at: Time, now: Time)
    requires Usable(env, secret) && IsRecoveryCode(env, secret, codes, code, now)
    ensures exists s, e :: Reached(env, s) && EndsIn(s.log, e, e) && e.kind == Complete && e.factor.Recovery? && e.factor.hash == env.hash(code)
  {
    EnabledIsReached(env, secret, codes, at);
    var s :| Reached(env, s) && s.user == User(true, secret, "", Counter(at), codes, []) && s.requests == map[];
    var e := Success(Complete, secret, code, now, Verify(env, s.user, code, now));
    RecoveryCodeSpentTwice(env, s, code, now, 0, 1);
    RacedIsReached(env, s, code, Complete, code, now);
    var s' := Raced(env, s, Complete, code, Complete, code, now, 0, 1);
    assert EndsIn(s'.log, e, e);
  }

  /** For every two such codes a run accepts both and still lists the first. */
  lemma RevivedIsReached(env: Env, secret: Secret, codes: seq<Hash>, code: Code, code': Code, at: Time, now: Time)
    requires Usable(env, secret) && env.hash(code) != env.hash(code')
    requires IsRecoveryCode(env, secret, codes, code, now) && IsRecoveryCode(env, secret, codes, code', now)
    ensures exists s, e, e' :: Reached(env, s) && EndsIn(s.log, e, e') && e.factor.Recovery? && e.factor.hash == env.hash(code) && env.hash(code) in s.user.codes
  {
    EnabledIsReached(env, secret, codes, at);
    var s :| Reached(env, s) && s.user == User(true, secret, "", Counter(at), codes, []) && s.requests == map[];
    var e, e' := Success(Complete, secret, code, now, Verify(env, s.user, code, now)), Success(Complete, secret, code', now, Verify(env, s.user, code', now));
    var s' := Raced(env, s, Complete, code, Complete, code', now, 0, 1);
    RacedIsReached(env, s, code, Complete, code', now);
    assert EndsIn(s'.log, e, e') by {
      RacedSucceed(env, s, code, Complete, code', now, 0, 1);
    }
    assert env.hash(code) in s'.user.codes by {
      RecoveryCodeRevived(env, s, code, code', now, 0, 1);
      assert env.hash(code) in multiset(s'.user.codes);
    }
  }

  /** For every one-time code newer than the one that enabled the factor, a login and a disable both accept it. */
  lemma ReplayedDisableIsReached(env: Env, secret: Secret, codes: seq<Hash>, code: Code, at: Time, now: Time)
    requires Usable(env, secret) && code != ""
    requires Validate(env, secret, code, now).Some? && Validate(env, secret, code, now).value > Counter(at)
    ensures exists s, e, e' :: Reached(env, s) && EndsIn(s.log, e, e') && e.kind == Complete && e'.kind == Disable && e.factor == e'.factor == OneTime(Validate(env, secret, code, now).value)
  {
    EnabledIsReached(env, secret, codes, at);
    var s :| Reached(env, s) && s.user == User(true, secret, "", Counter(at), codes, []) && s.requests == map[];
    var factor := Verify(env, s.user, code, now);
    DisableReplaysLogin(env, s, code, now, 0, 1);
    RacedIsReached(env, s, code, Disable, code, now);
    var s' := Raced(env, s, Complete, code, Disable, code, now, 0, 1);
    assert EndsIn(s'.log, Success(Complete, secret, code, now, factor), Success(Disable, secret, code, now, factor));
  }

  /** One after the other, a recovery code works again exactly when the list held it twice. */
  lemma RecoveryCodeSpentInTurn(env: Env, s: State, code: Code, now: Time, r: Id)
    requires s.user.enabled && Verify(env, s.user, code, now).Recovery? && r !in s.requests
    ensures var user := Apply(env, Apply(env, s, Check(r, Complete, code, now)), Write(r)).user;
      env.hash(code) in user.codes <==> multiset(s.user.codes)[env.hash(code)] >= 2
  {
    var h := env.hash(code);
    var left := Without(s.user.codes, h);
    assert Apply(env, Apply(env, s, Check(r, Complete, code, now)), Write(r)).user.codes == left by {
      CheckedRequest(env, s, r, Complete, code, now);
      WrittenRequest(env, Apply(env, s, Check(r, Complete, code, now)), r);
    }
    assert h in left <==> multiset(left)[h] > 0;
    WithoutRemovesOne(s.user.codes, h);
  }
}
