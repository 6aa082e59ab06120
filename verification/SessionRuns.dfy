/**
 Every interleaving of logins, authentications, refreshes and revocations over one session
 table. A cache lookup may hit or miss at will, so the results hold whatever the caches
 hold; tokens are random and drawn fresh.
 */
module SessionRuns {
  import opened SessionStore
  import opened Common
  import opened Runs

  type Id = nat

  /** What is presented: signed claims name the session, a refresh token only itself. */
  datatype Credential =
    | AccessToken(tokenID: Token)
    | HostToken(sid: Sid, user: UserId)
    | RefreshToken(refresh: Token)

  datatype Phase = Begun | Cached | Uncached | Checked(id: Sid) | Accepted | Rejected

  datatype Request = Request(credential: Credential, phase: Phase)

  /** `minted` and `refreshes` record every token ever given to a session. */
  datatype State = State(
    rows: Rows,
    minted: map<Token, Sid>,
    refreshes: map<Token, Sid>,
    requests: map<Id, Request>)

  ghost predicate Start(s: State) {
    s == State(map[], map[], map[], map[])
  }

  datatype Step =
    | Login(sid: Sid, session: Session)
    | Begin(r: Id, credential: Credential)
    | LookInCache(r: Id, hit: bool)
    | ReadSession(r: Id, found: Option<Sid>, now: Time)
    | Touch(r: Id, storeFails: bool)
    | Rotate(r: Id, tokenID: Token, refresh: Token, expires: Time)
    | Fail(r: Id)
    | Revoke(sid: Sid, user: UserId)
    | RevokeOthers(user: UserId, keep: Sid)

  function Apply(s: State, step: Step): State {
    match step
    case Login(sid, session) => DoLogin(s, sid, session)
    case Begin(r, c) => if r in s.requests || !Genuine(s, c) then s else Moved(s, r, Request(c, Begun))
    case LookInCache(r, hit) =>
      if r in s.requests && s.requests[r].phase.Begun? && s.requests[r].credential.AccessToken?
      then Moved(s, r, s.requests[r].(phase := if hit then Cached else Uncached)) else s
    case ReadSession(r, found, now) => DoRead(s, r, found, now)
    case Touch(r, storeFails) => DoTouch(s, r, storeFails)
    case Rotate(r, tokenID, refresh, expires) => DoRotate(s, r, tokenID, refresh, expires)
    case Fail(r) =>
      if r in s.requests && !s.requests[r].phase.Accepted?
      then Moved(s, r, s.requests[r].(phase := Rejected)) else s
    case Revoke(sid, user) =>
      if sid in s.rows && s.rows[sid].user == user then s.(rows := RevokedOne(s.rows, sid)) else s
    case RevokeOthers(user, keep) => s.(rows := RevokedExcept(s.rows, user, keep))
  }

  function Moved(s: State, r: Id, q: Request): State {
    s.(requests := s.requests[r := q])
  }

  /** Signatures let only issued access and host tokens through; a refresh token may be anything. */
  predicate Genuine(s: State, c: Credential) {
    match c
    case AccessToken(t) => t in s.minted
    case HostToken(sid, user) => sid in s.rows && s.rows[sid].user == user
    case RefreshToken(_) => true
  }

  function DoLogin(s: State, sid: Sid, session: Session): State {
    if sid in s.rows || session.tokenID in s.minted || session.refresh in s.refreshes || session.revoked then s
    else
      State(s.rows[sid := session], s.minted[session.tokenID := sid],
            s.refreshes[session.refresh := sid], s.requests)
  }

  /** The row that the store's lookup for a credential selects. */
  predicate Selects(c: Credential, id: Sid, row: Session) {
    match c
    case AccessToken(t) => row.tokenID == t
    case HostToken(sid, _) => id == sid
    case RefreshToken(t) => row.refresh == t
  }

  predicate MayFind(s: State, c: Credential, found: Option<Sid>) {
    match found
    case Some(id) => id in s.rows && Selects(c, id, s.rows[id])
    case None => forall id :: id in s.rows ==> !Selects(c, id, s.rows[id])
  }

  predicate Passes(c: Credential, row: Session, now: Time) {
    (c.HostToken? ==> row.user == c.user) && !row.revoked && now <= row.expires
  }

  /** Where each request reads the session: an access token only after the cache was asked. */
  predicate MayRead(q: Request) {
    if q.credential.AccessToken? then q.phase.Cached? || q.phase.Uncached? else q.phase.Begun?
  }

  function DoRead(s: State, r: Id, found: Option<Sid>, now: Time): State {
    if r !in s.requests || !MayRead(s.requests[r]) || !MayFind(s, s.requests[r].credential, found) then s
    else
      var q := s.requests[r];
      Moved(s, r, q.(phase :=
        if found.None? || !Passes(q.credential, s.rows[found.value], now) then Rejected
        else if q.phase.Cached? then Accepted
        else Checked(found.value)))
  }

  /**
   The end of an uncached authentication. For an access token the row is touched first;
   an inactive row rejects, any other store error is ignored.
   */
  function DoTouch(s: State, r: Id, storeFails: bool): State {
    if r !in s.requests || !s.requests[r].phase.Checked? || s.requests[r].credential.RefreshToken? then s
    else
      var q := s.requests[r];
      var ok := q.credential.HostToken? || storeFails || Active(s.rows, q.phase.id);
      Moved(s, r, q.(phase := if ok then Accepted else Rejected))
  }

  function DoRotate(s: State, r: Id, tokenID: Token, refresh: Token, expires: Time): State {
    if r !in s.requests || !s.requests[r].phase.Checked? || !s.requests[r].credential.RefreshToken?
       || tokenID in s.minted || refresh in s.refreshes
    then s
    else
      var q := s.requests[r];
      var id, previous := q.phase.id, q.credential.refresh;
      if CanRotate(s.rows, id, previous)
      then
        Moved(s, r, q.(phase := Accepted)).(
          rows := Rotated(s.rows, id, previous, tokenID, refresh, expires),
          minted := s.minted[tokenID := id],
          refreshes := s.refreshes[refresh := id])
      else Moved(s, r, q.(phase := Rejected))
  }

  // ---------- tokens stay with their session ----------

  ghost predicate TokensOk(s: State) {
    && (forall id :: id in s.rows ==>
        && s.rows[id].tokenID in s.minted && s.minted[s.rows[id].tokenID] == id
        && s.rows[id].refresh in s.refreshes && s.refreshes[s.rows[id].refresh] == id)
    && (forall t :: t in s.minted ==> s.minted[t] in s.rows)
    && (forall t :: t in s.refreshes ==> s.refreshes[t] in s.rows)
  }

  /** The session a credential was issued for. */
  predicate Bound(minted: map<Token, Sid>, refreshes: map<Token, Sid>, c: Credential, sid: Sid) {
    match c
    case AccessToken(t) => t in minted && minted[t] == sid
    case HostToken(id, _) => id == sid
    case RefreshToken(t) => t in refreshes && refreshes[t] == sid
  }

  predicate DeadAt(rows: Rows, minted: map<Token, Sid>, refreshes: map<Token, Sid>, c: Credential, sid: Sid) {
    && sid in rows && Bound(minted, refreshes, c, sid)
    && (rows[sid].revoked || !Selects(c, sid, rows[sid]))
  }

  /** A credential whose session is revoked, or that a refresh has replaced. */
  ghost predicate Dead(s: State, c: Credential) {
    exists sid :: DeadAt(s.rows, s.minted, s.refreshes, c, sid)
  }

  /** Not past the check that a dead credential fails. A refresh is checked again as it rotates. */
  predicate Unchecked(q: Request) {
    !q.phase.Accepted? && (q.phase.Checked? ==> q.credential.RefreshToken?)
  }

  ghost predicate Doomed(s: State, r: Id) {
    r in s.requests && Unchecked(s.requests[r]) && Dead(s, s.requests[r].credential)
  }

  predicate Refreshed(s: State, r: Id) {
    r in s.requests && s.requests[r].credential.RefreshToken? && s.requests[r].phase.Accepted?
  }

  ghost predicate RefreshedOnce(s: State) {
    && (forall r :: Refreshed(s, r) ==> Dead(s, s.requests[r].credential))
    && (forall q, r :: Refreshed(s, q) && Refreshed(s, r) && s.requests[q] == s.requests[r] ==> q == r)
  }

  ghost predicate Inv(s: State) {
    TokensOk(s) && RefreshedOnce(s)
  }

  lemma StepKeepsTokens(s: State, step: Step)
    requires TokensOk(s)
    ensures TokensOk(Apply(s, step))
  {
  }

  /** Tables only change so that dead credentials stay dead. */
  lemma DeadStays(s: State, step: Step, c: Credential)
    requires TokensOk(s) && Dead(s, c)
    ensures Dead(Apply(s, step), c)
  {
    var sid :| DeadAt(s.rows, s.minted, s.refreshes, c, sid);
    var s' := Apply(s, step);
    assert DeadAt(s'.rows, s'.minted, s'.refreshes, c, sid);
  }

  lemma DoomedStays(s: State, step: Step, r: Id)
    requires TokensOk(s) && Doomed(s, r)
    ensures Doomed(Apply(s, step), r)
  {
    DeadStays(s, step, s.requests[r].credential);
    match step
    case Login(_, _) =>
    case Begin(_, _) =>
    case LookInCache(_, _) =>
    case ReadSession(_, _, _) =>
    case Touch(_, _) =>
    case Rotate(_, _, _, _) => assert s.requests[r].phase.Checked? ==> s.requests[r].credential.RefreshToken?;
    case Fail(_) =>
    case Revoke(_, _) =>
    case RevokeOthers(_, _) =>
  }

  /** Only a rotation accepts a refresh, and it leaves the presented token dead. */
  lemma NewlyRefreshed(s: State, step: Step, r: Id)
    requires TokensOk(s) && Refreshed(Apply(s, step), r) && !Refreshed(s, r)
    ensures !Dead(s, Apply(s, step).requests[r].credential)
    ensures Dead(Apply(s, step), Apply(s, step).requests[r].credential)
    ensures step.Rotate? && step.r == r
  {
    var s' := Apply(s, step);
    var c := s'.requests[r].credential;
    var sid := s.requests[r].phase.id;
    assert DeadAt(s'.rows, s'.minted, s'.refreshes, c, sid);
  }

  lemma StepKeepsOnce(s: State, step: Step)
    requires Inv(s)
    ensures RefreshedOnce(Apply(s, step))
  {
    var s' := Apply(s, step);
    forall r | Refreshed(s', r) ensures Dead(s', s'.requests[r].credential) {
      if Refreshed(s, r) {
        RefreshedStays(s, step, r);
        DeadStays(s, step, s.requests[r].credential);
      } else {
        NewlyRefreshed(s, step, r);
      }
    }
    forall q, r | Refreshed(s', q) && Refreshed(s', r) && s'.requests[q] == s'.requests[r] ensures q == r {
      if !Refreshed(s, q) { NewlyRefreshed(s, step, q); } else { RefreshedStays(s, step, q); }
      if !Refreshed(s, r) { NewlyRefreshed(s, step, r); } else { RefreshedStays(s, step, r); }
    }
  }

  lemma RefreshedStays(s: State, step: Step, r: Id)
    requires Refreshed(s, r)
    ensures Refreshed(Apply(s, step), r) && Apply(s, step).requests[r] == s.requests[r]
  {
  }

  lemma RunKeeps(states: seq<State>, steps: seq<Step>, i: nat)
    requires IsRun(Start, Apply, states, steps) && i < |states|
    ensures Inv(states[i])
  {
    forall s, step | Inv(s) ensures Inv(Apply(s, step)) {
      StepKeepsTokens(s, step);
      StepKeepsOnce(s, step);
    }
    Invariant(Start, Apply, Inv, states, steps, i);
  }

  // ---------- the theorems ----------

  lemma DoomedForGood(states: seq<State>, steps: seq<Step>, i: nat, j: nat, r: Id)
    requires IsRun(Start, Apply, states, steps) && i <= j < |states| && Doomed(states[i], r)
    ensures Doomed(states[j], r)
  {
    forall s, step | TokensOk(s) ensures TokensOk(Apply(s, step)) {
      StepKeepsTokens(s, step);
    }
    forall s, step | TokensOk(s) && Doomed(s, r) ensures Doomed(Apply(s, step), r) {
      DoomedStays(s, step, r);
    }
    Onward(Start, Apply, TokensOk, (_, s) => Doomed(s, r), states, steps, i, j);
  }

  /**
   Finality: a request that begins (step `i`) with a credential of a revoked session is
   never accepted, in any run, whatever the caches hold.
   */
  lemma RevokedIsFinal(states: seq<State>, steps: seq<Step>, i: nat, j: nat, r: Id, c: Credential, sid: Sid)
    requires IsRun(Start, Apply, states, steps) && i < j < |states|
    requires steps[i] == Begin(r, c) && r !in states[i].requests && Genuine(states[i], c)
    requires Bound(states[i].minted, states[i].refreshes, c, sid) && sid in states[i].rows && states[i].rows[sid].revoked
    ensures r in states[j].requests && !states[j].requests[r].phase.Accepted?
  {
    assert DeadAt(states[i].rows, states[i].minted, states[i].refreshes, c, sid);
    DeadIsFinal(states, steps, i, j, r, c);
  }

  /** The same for any dead credential, so also for one that a refresh has replaced. */
  lemma DeadIsFinal(states: seq<State>, steps: seq<Step>, i: nat, j: nat, r: Id, c: Credential)
    requires IsRun(Start, Apply, states, steps) && i < j < |states|
    requires steps[i] == Begin(r, c) && r !in states[i].requests && Genuine(states[i], c) && Dead(states[i], c)
    ensures r in states[j].requests && !states[j].requests[r].phase.Accepted?
  {
    RunKeeps(states, steps, i);
    assert Took(Apply, states, steps, i);
    DeadStays(states[i], steps[i], c);
    assert Doomed(states[i + 1], r);
    DoomedForGood(states, steps, i + 1, j, r);
  }

  /** A revocation or a rotation also stops a refresh that is already under way. */
  lemma RefreshStopsInFlight(states: seq<State>, steps: seq<Step>, i: nat, j: nat, r: Id)
    requires IsRun(Start, Apply, states, steps) && i <= j < |states|
    requires r in states[i].requests && states[i].requests[r].credential.RefreshToken?
    requires Dead(states[i], states[i].requests[r].credential) && !states[i].requests[r].phase.Accepted?
    ensures r in states[j].requests && !states[j].requests[r].phase.Accepted?
  {
    DoomedForGood(states, steps, i, j, r);
  }

  /** Of all refreshes that present one refresh token, at most one succeeds. */
  lemma RefreshSucceedsOnce(states: seq<State>, steps: seq<Step>, k: nat, q: Id, r: Id)
    requires IsRun(Start, Apply, states, steps) && k < |states|
    requires Refreshed(states[k], q) && Refreshed(states[k], r)
    requires states[k].requests[q].credential == states[k].requests[r].credential
    ensures q == r
  {
    RunKeeps(states, steps, k);
  }

  /** A successful refresh kills every earlier access token of its session. */
  lemma RefreshReplacesAccess(states: seq<State>, steps: seq<Step>, k: nat, r: Id, sid: Sid, t: Token)
    requires IsRun(Start, Apply, states, steps) && k < |steps|
    requires Refreshed(states[k + 1], r) && !Refreshed(states[k], r)
    requires Bound(states[k].minted, states[k].refreshes, states[k + 1].requests[r].credential, sid)
    requires t in states[k].minted && states[k].minted[t] == sid
    ensures Dead(states[k + 1], AccessToken(t))
  {
    RunKeeps(states, steps, k);
    assert Took(Apply, states, steps, k);
    NewlyRefreshed(states[k], steps[k], r);
    RotationReplaces(states[k], steps[k], sid, t);
  }

  lemma RotationReplaces(s: State, step: Step, sid: Sid, t: Token)
    requires TokensOk(s) && step.Rotate? && Refreshed(Apply(s, step), step.r) && !Refreshed(s, step.r)
    requires Bound(s.minted, s.refreshes, Apply(s, step).requests[step.r].credential, sid)
    requires t in s.minted && s.minted[t] == sid
    ensures Dead(Apply(s, step), AccessToken(t))
  {
    var s' := Apply(s, step);
    assert s.requests[step.r].phase.id == sid;
    assert DeadAt(s'.rows, s'.minted, s'.refreshes, AccessToken(t), sid);
  }
}
