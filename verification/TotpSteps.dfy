/** What the steps of `TotpRuns` do: which codes get through, and what they leave in the row. */
module TotpSteps {
  import opened Common
  import opened Runs
  import opened Totp
  import opened TotpRuns

  // ---------- every success had its code ----------

  /**
   What an accepted code proves: the secret generates it at its counter, which is that of the
   time of the check or of 30 seconds before; or its hash was listed as a recovery code.
   */
  ghost predicate Proven(env: Env, secret: Secret, code: Code, now: Time, factor: Factor) {
    match factor
    case Rejected => false
    case OneTime(c) => Matches(env, secret, code, c) && (c == Counter(now) || c == Counter(now - 30))
    case Recovery(h, _) => code != "" && h == env.hash(code) && !Matches(env, secret, code, Counter(now)) && !Matches(env, secret, code, Counter(now - 30))
  }

  /** An enabled code is checked against the pending secret, any other against the active one. */
  ghost predicate RequestProven(env: Env, q: Request) {
    && Proven(env, if q.kind.Enable? then q.read.pending else q.read.secret, q.code, q.now, q.factor)
    && (q.kind.Enable? ==> q.factor.OneTime?)
    && (q.factor.Recovery? ==> env.hash(q.code) in q.read.codes)
  }

  ghost predicate AllProven(env: Env, requests: map<Id, Request>, log: seq<Success>) {
    && (forall r :: r in requests ==> RequestProven(env, requests[r]))
    && (forall i :: 0 <= i < |log| ==> Proven(env, log[i].secret, log[i].code, log[i].now, log[i].factor))
  }

  lemma CheckProves(env: Env, user: User, kind: Kind, code: Code, now: Time)
    requires !Checked(env, user, kind, code, now).Rejected?
    ensures RequestProven(env, Request(kind, user, code, now, Checked(env, user, kind, code, now)))
  {
    VerifyDecides(env, user, code, now);
  }

  lemma StepKeepsProven(env: Env, s: State, step: Step)
    requires AllProven(env, s.requests, s.log)
    ensures AllProven(env, Apply(env, s, step).requests, Apply(env, s, step).log)
  {
    match step
    case BeginSetup(_, _) =>
    case Reset =>
    case Check(_, kind, code, now) =>
      if !Checked(env, s.user, kind, code, now).Rejected? {
        CheckProves(env, s.user, kind, code, now);
      }
    case Write(r) =>
      if r in s.requests {
        assert RequestProven(env, s.requests[r]);
      }
  }

  /** In every run, every logged success has a code that its secret generates at its counter, or a recovery code. */
  lemma SuccessHasCode(env: Env, states: seq<State>, steps: seq<Step>, k: nat, i: nat)
    requires IsRun(Start, (s, step) => Apply(env, s, step), states, steps) && k < |states| && i < |states[k].log|
    ensures var e := states[k].log[i]; Proven(env, e.secret, e.code, e.now, e.factor)
  {
    forall s: State, step: Step | AllProven(env, s.requests, s.log)
      ensures AllProven(env, Apply(env, s, step).requests, Apply(env, s, step).log)
    {
      StepKeepsProven(env, s, step);
    }
    Invariant(Start, (s, step) => Apply(env, s, step), (s: State) => AllProven(env, s.requests, s.log), states, steps, k);
  }

  /**
   So in every run, two one-time codes that enabling, logging in or regenerating accepted for
   one secret are that secret's codes at two different counters, the later one at the higher.
   */
  lemma NoCodeTwice(env: Env, states: seq<State>, steps: seq<Step>, k: nat, i: nat, j: nat)
    requires IsRun(Start, (s, step) => Apply(env, s, step), states, steps) && k < |states|
    requires i < j < |states[k].log| && Counted(states[k].log[i]) && Counted(states[k].log[j])
    requires states[k].log[i].secret == states[k].log[j].secret
    ensures var e, e' := states[k].log[i], states[k].log[j];
      && e.factor.counter < e'.factor.counter
      && e.code == env.totp(e.secret, e.factor.counter) && e'.code == env.totp(e.secret, e'.factor.counter)
  {
    NoReplay(env, states, steps, k, i, j);
    SuccessHasCode(env, states, steps, k, i);
    SuccessHasCode(env, states, steps, k, j);
  }

  // ---------- which requests get through ----------

  /** A check passes exactly if enabling has a code of the pending secret, or the operation a valid factor. */
  lemma CheckDecides(env: Env, s: State, r: Id, kind: Kind, code: Code, now: Time)
    requires r !in s.requests
    ensures r in Apply(env, s, Check(r, kind, code, now)).requests <==>
      if kind.Enable?
      then Matches(env, s.user.pending, code, Counter(now)) || Matches(env, s.user.pending, code, Counter(now - 30))
      else (kind.Disable? ==> s.user.enabled) && !Verify(env, s.user, code, now).Rejected?
    ensures var s' := Apply(env, s, Check(r, kind, code, now));
      && s'.user == s.user && s'.log == s.log
      && (r in s'.requests ==> s'.requests[r].kind == kind && s'.requests[r].read == s.user && s'.requests[r].code == code && s'.requests[r].now == now)
  {
  }

  /**
   A write goes through exactly if the row still has the secret that was read, pending for
   enabling and active otherwise, and but for disabling still the counter that was read.
   */
  lemma WriteDecides(env: Env, s: State, r: Id)
    requires r in s.requests
    ensures var q, s' := s.requests[r], Apply(env, s, Write(r));
      if (if q.kind.Enable? then s.user.pending == q.read.pending
          else s.user.enabled && s.user.secret == q.read.secret && (q.kind.Disable? || s.user.last == q.read.last))
      then |s'.log| == |s.log| + 1 && s'.log[|s.log|].kind == q.kind && s'.log[|s.log|].code == q.code && s'.log[|s.log|].factor == q.factor
      else s'.log == s.log && s'.user == s.user
    ensures r !in Apply(env, s, Write(r)).requests
  {
  }

  /** The row after a write that goes through, and the codes the user then has. */
  lemma WriteSets(env: Env, s: State, r: Id)
    requires RequestsOk(s.requests) && RecoveriesOk(s.requests) && r in s.requests && Guard(s.user, s.requests[r])
    ensures var q, user := s.requests[r], Apply(env, s, Write(r)).user;
      && user.last == (if q.factor.OneTime? then q.factor.counter else q.read.last)
      && match q.kind
         case Enable =>
           user.enabled && user.secret == s.user.pending && user.pending == "" && user.codes == q.read.pendingCodes && user.pendingCodes == []
         case Disable =>
           !user.enabled && user.secret == "" && user.pending == "" && user.pendingCodes == []
         case Regenerate(codes) =>
           user == s.user.(codes := codes, last := user.last)
         case Complete =>
           user == s.user.(codes := user.codes, last := user.last)
           && multiset(user.codes) == multiset(q.read.codes) - Spent(q.factor)
  {
    var q := s.requests[r];
    if q.factor.Recovery? {
      WithoutRemovesOne(q.read.codes, q.factor.hash);
    }
  }

  /** Setup draws the pending secret and codes and leaves the active ones; a reset takes all of them. */
  lemma SetupAndReset(env: Env, s: State, secret: Secret, codes: seq<Hash>)
    requires secret !in s.drawn
    ensures var user := Apply(env, s, BeginSetup(secret, codes)).user;
      user.pending == secret && user.pendingCodes == codes && user == s.user.(pending := secret, pendingCodes := codes)
    ensures var user := Apply(env, s, Reset).user;
      !user.enabled && user.secret == "" && user.pending == "" && user.codes == [] && user.pendingCodes == [] && user.last == s.user.last
  {
  }

  /** With nothing in between, a login succeeds exactly with a code that is valid and not used up. */
  lemma LoginInTurnIff(env: Env, s: State, r: Id, code: Code, now: Time)
    requires s.user.enabled && r !in s.requests
    ensures var s' := Apply(env, Apply(env, s, Check(r, Complete, code, now)), Write(r));
      var isNewer, isOlder := Matches(env, s.user.secret, code, Counter(now)), Matches(env, s.user.secret, code, Counter(now - 30));
      && (|s'.log| == |s.log| + 1 <==>
           && code != ""
           && if isNewer then s.user.last < Counter(now)
              else if isOlder then s.user.last < Counter(now - 30)
              else env.hash(code) in s.user.codes)
      && (|s'.log| == |s.log| + 1 && isNewer ==> s'.user.last == Counter(now) && s'.user.codes == s.user.codes)
      && (|s'.log| == |s.log| + 1 || s'.user == s.user)
  {
    VerifyDecides(env, s.user, code, now);
    var s1 := Apply(env, s, Check(r, Complete, code, now));
    if !Verify(env, s.user, code, now).Rejected? {
      CheckedRequest(env, s, r, Complete, code, now);
      WrittenRequest(env, s1, r);
    }
  }
}
