/** What the steps of `SessionRuns` do: which sessions end, and which requests get in. */
module SessionSteps {
  import opened Common
  import opened Runs
  import opened SessionRuns
  import opened SessionStore

  /** The step revokes session `sid`: its user's own revocation, or that of all but one. */
  predicate Revokes(s: State, step: Step, sid: Sid) {
    && sid in s.rows
    && ((step.Revoke? && step.sid == sid && step.user == s.rows[sid].user)
        || (step.RevokeOthers? && step.user == s.rows[sid].user && (step.keep == 0 || sid != step.keep)))
  }

  /** The refresh of `r` replaces the tokens of `sid`. */
  predicate Replaces(s: State, step: Step, sid: Sid) {
    && step.Rotate? && step.r in s.requests && step.tokenID !in s.minted && step.refresh !in s.refreshes
    && var q := s.requests[step.r];
      && q.phase.Checked? && q.phase.id == sid && q.credential.RefreshToken?
      && sid in s.rows && !s.rows[sid].revoked && s.rows[sid].refresh == q.credential.refresh
  }

  /** Session `sid` after the step: revoked, or given the new tokens, or as it was. */
  lemma SessionAfter(s: State, step: Step, sid: Sid)
    requires sid in s.rows
    ensures sid in Apply(s, step).rows && Apply(s, step).rows[sid] ==
      if Revokes(s, step, sid) then s.rows[sid].(revoked := true)
      else if Replaces(s, step, sid) then Session(s.rows[sid].user, step.tokenID, step.refresh, false, step.expires)
      else s.rows[sid]
  {
    match step
    case Login(_, _) =>
    case Begin(_, _) =>
    case LookInCache(_, _) =>
    case ReadSession(_, _, _) =>
    case Touch(_, _) =>
    case Rotate(_, _, _, _) =>
    case Fail(_) =>
    case Revoke(_, _) =>
    case RevokeOthers(_, _) =>
  }

  /** In every run, a session gets revoked at a step exactly if that step revokes it. */
  lemma RevokedIff(states: seq<State>, steps: seq<Step>, i: nat, sid: Sid)
    requires IsRun(Start, Apply, states, steps) && i < |steps| && sid in states[i].rows
    ensures sid in states[i + 1].rows
    ensures states[i + 1].rows[sid].revoked <==> states[i].rows[sid].revoked || Revokes(states[i], steps[i], sid)
  {
    assert Took(Apply, states, steps, i);
    SessionAfter(states[i], steps[i], sid);
  }

  /**
   In every run, once `RevokeOthers(user, keep)` was taken, every credential bound to a session
   of `user` other than `keep` is dead for good; the sessions of other users, and `keep`, are as before.
   */
  lemma RevokeOthersKills(states: seq<State>, steps: seq<Step>, i: nat, j: nat, user: UserId, keep: Sid, sid: Sid, c: Credential)
    requires IsRun(Start, Apply, states, steps) && i < j < |states| && steps[i] == RevokeOthers(user, keep)
    requires sid in states[i].rows && Bound(states[i].minted, states[i].refreshes, c, sid)
    ensures states[i].rows[sid].user == user && (keep == 0 || sid != keep) ==> Dead(states[j], c)
    ensures states[i].rows[sid].user != user || (keep != 0 && sid == keep) ==>
      sid in states[i + 1].rows && states[i + 1].rows[sid] == states[i].rows[sid]
  {
    assert Took(Apply, states, steps, i);
    SessionAfter(states[i], steps[i], sid);
    if states[i].rows[sid].user == user && (keep == 0 || sid != keep) {
      RevocationKills(states, steps, i, j, sid, c);
    }
  }

  /** In every run, a revocation of a session kills every credential bound to it for good. */
  lemma RevocationKills(states: seq<State>, steps: seq<Step>, i: nat, j: nat, sid: Sid, c: Credential)
    requires IsRun(Start, Apply, states, steps) && i < j < |states|
    requires Revokes(states[i], steps[i], sid) && Bound(states[i].minted, states[i].refreshes, c, sid)
    ensures Dead(states[j], c)
  {
    assert Took(Apply, states, steps, i);
    SessionAfter(states[i], steps[i], sid);
    var s' := states[i + 1];
    assert DeadAt(s'.rows, s'.minted, s'.refreshes, c, sid);
    DeadForGood(states, steps, i + 1, j, c);
  }

  lemma DeadForGood(states: seq<State>, steps: seq<Step>, i: nat, j: nat, c: Credential)
    requires IsRun(Start, Apply, states, steps) && i <= j < |states| && Dead(states[i], c)
    ensures Dead(states[j], c)
  {
    forall s, step | TokensOk(s) ensures TokensOk(Apply(s, step)) {
      StepKeepsTokens(s, step);
    }
    forall s, step | TokensOk(s) && Dead(s, c) ensures Dead(Apply(s, step), c) {
      DeadStays(s, step, c);
    }
    Onward(Start, Apply, TokensOk, (_, s) => Dead(s, c), states, steps, i, j);
  }

  /** A login adds the session and binds its two tokens to it. */
  lemma LoginAdds(s: State, sid: Sid, session: Session)
    requires sid !in s.rows && session.tokenID !in s.minted && session.refresh !in s.refreshes && !session.revoked
    ensures var s' := Apply(s, Login(sid, session));
      && s'.rows == s.rows[sid := session] && s'.requests == s.requests
      && Bound(s'.minted, s'.refreshes, AccessToken(session.tokenID), sid)
      && Bound(s'.minted, s'.refreshes, RefreshToken(session.refresh), sid)
  {
  }

  // ---------- who gets in ----------

  /** The credential is the current one of an active, unexpired session of its user. */
  predicate Valid(rows: Rows, c: Credential, sid: Sid, now: Time) {
    && sid in rows && !rows[sid].revoked && now <= rows[sid].expires
    && match c
       case AccessToken(t) => rows[sid].tokenID == t
       case HostToken(id, user) => id == sid && rows[sid].user == user
       case RefreshToken(t) => rows[sid].refresh == t
  }

  /** The session that reading finds is the one and only that the credential can be valid for. */
  lemma ReadDecides(s: State, r: Id, found: Option<Sid>, now: Time, sid: Sid)
    requires TokensOk(s) && r in s.requests && MayRead(s.requests[r]) && MayFind(s, s.requests[r].credential, found)
    ensures var q, phase := s.requests[r], Apply(s, ReadSession(r, found, now)).requests[r].phase;
      if Valid(s.rows, q.credential, sid, now)
      then phase == if q.phase.Cached? then Accepted else Checked(sid)
      else phase.Accepted? || phase.Checked? ==> found.Some? && found.value != sid
  {
    var c := s.requests[r].credential;
    if Valid(s.rows, c, sid, now) {
      assert Selects(c, sid, s.rows[sid]);
    }
  }

  /** In every run, reading rejects exactly the requests whose credential is valid for no session. */
  lemma ReadRejectsIff(states: seq<State>, steps: seq<Step>, i: nat, r: Id, found: Option<Sid>, now: Time)
    requires IsRun(Start, Apply, states, steps) && i < |steps| && steps[i] == ReadSession(r, found, now)
    requires r in states[i].requests && MayRead(states[i].requests[r]) && MayFind(states[i], states[i].requests[r].credential, found)
    ensures r in states[i + 1].requests
    ensures states[i + 1].requests[r].phase.Rejected? <==>
      forall sid :: !Valid(states[i].rows, states[i].requests[r].credential, sid, now)
  {
    RunKeeps(states, steps, i);
    assert Took(Apply, states, steps, i);
    var c := states[i].requests[r].credential;
    if sid :| Valid(states[i].rows, c, sid, now) {
      ReadDecides(states[i], r, found, now, sid);
    } else if found.Some? {
      assert !Valid(states[i].rows, c, found.value, now);
    }
  }

  /** The touch of an access token rejects exactly if the store answers that the row is inactive. */
  lemma TouchDecides(s: State, r: Id, storeFails: bool)
    requires r in s.requests && s.requests[r].phase.Checked? && !s.requests[r].credential.RefreshToken?
    ensures var q, phase := s.requests[r], Apply(s, Touch(r, storeFails)).requests[r].phase;
      phase == if q.credential.AccessToken? && !storeFails && (q.phase.id !in s.rows || s.rows[q.phase.id].revoked) then Rejected else Accepted
  {
  }

  /** A refresh with fresh tokens succeeds exactly if its session is active and still has the token it presents. */
  lemma RotateDecides(s: State, step: Step)
    requires step.Rotate? && step.r in s.requests && s.requests[step.r].phase.Checked? && s.requests[step.r].credential.RefreshToken?
    requires step.tokenID !in s.minted && step.refresh !in s.refreshes
    ensures var sid, s' := s.requests[step.r].phase.id, Apply(s, step);
      if sid in s.rows && !s.rows[sid].revoked && s.rows[sid].refresh == s.requests[step.r].credential.refresh
      then
        && s'.requests[step.r].phase.Accepted?
        && Bound(s'.minted, s'.refreshes, AccessToken(step.tokenID), sid)
        && Bound(s'.minted, s'.refreshes, RefreshToken(step.refresh), sid)
      else s'.requests[step.r].phase.Rejected? && s'.rows == s.rows
  {
  }

  /** An error rejects a request that is under way; one that was accepted stays so at every step. */
  lemma FailRejects(s: State, r: Id, step: Step)
    requires r in s.requests
    ensures !s.requests[r].phase.Accepted? ==> Apply(s, Fail(r)).requests[r].phase.Rejected?
    ensures s.requests[r].phase.Accepted? ==> r in Apply(s, step).requests && Apply(s, step).requests[r] == s.requests[r]
  {
  }

  /** The step after which `r` is accepted. */
  predicate Accepts(s: State, step: Step, r: Id) {
    && r in s.requests
    && var q := s.requests[r];
      || (step.ReadSession? && step.r == r && q.credential.AccessToken? && q.phase.Cached? && step.found.Some?
          && Valid(s.rows, q.credential, step.found.value, step.now))
      || (step.Touch? && step.r == r && q.phase.Checked?
          && (q.credential.HostToken? || (q.credential.AccessToken?
              && (step.storeFails || (q.phase.id in s.rows && !s.rows[q.phase.id].revoked)))))
      || (step.Rotate? && step.r == r && q.phase.Checked? && Replaces(s, step, q.phase.id))
  }

  lemma StepAccepts(s: State, step: Step, r: Id)
    requires !(r in s.requests && s.requests[r].phase.Accepted?)
    ensures r in Apply(s, step).requests && Apply(s, step).requests[r].phase.Accepted? <==> Accepts(s, step, r)
  {
    match step
    case Login(_, _) =>
    case Begin(_, _) =>
    case LookInCache(_, _) =>
    case ReadSession(_, _, _) =>
    case Touch(_, _) =>
    case Rotate(_, _, _, _) =>
    case Fail(_) =>
    case Revoke(_, _) =>
    case RevokeOthers(_, _) =>
  }

  /** In every run, a request gets accepted at a step exactly if that step accepts it. */
  lemma AcceptedIff(states: seq<State>, steps: seq<Step>, i: nat, r: Id)
    requires IsRun(Start, Apply, states, steps) && i < |steps|
    requires !(r in states[i].requests && states[i].requests[r].phase.Accepted?)
    ensures r in states[i + 1].requests && states[i + 1].requests[r].phase.Accepted? <==> Accepts(states[i], steps[i], r)
  {
    assert Took(Apply, states, steps, i);
    StepAccepts(states[i], steps[i], r);
  }

  /** From every reachable state, a valid access token is accepted, whatever the cache answers. */
  lemma ValidAccessIsAccepted(s: State, r: Id, t: Token, sid: Sid, hit: bool, now: Time, storeFails: bool)
    requires TokensOk(s) && r !in s.requests && Valid(s.rows, AccessToken(t), sid, now)
    ensures var s1 := Apply(Apply(s, Begin(r, AccessToken(t))), LookInCache(r, hit));
      var s2 := Apply(s1, ReadSession(r, Some(sid), now));
      var s3 := if hit then s2 else Apply(s2, Touch(r, storeFails));
      r in s3.requests && s3.requests[r].phase.Accepted?
  {
    var s1 := Apply(Apply(s, Begin(r, AccessToken(t))), LookInCache(r, hit));
    assert s1 == Moved(Moved(s, r, Request(AccessToken(t), Begun)), r, Request(AccessToken(t), if hit then Cached else Uncached));
    assert MayFind(s1, AccessToken(t), Some(sid));
    ReadDecides(s1, r, Some(sid), now, sid);
  }

  /** And a valid refresh token gets a new pair of tokens, which are then the valid ones. */
  lemma ValidRefreshSucceeds(s: State, r: Id, t: Token, sid: Sid, now: Time, tokenID: Token, refresh: Token, expires: Time)
    requires TokensOk(s) && r !in s.requests && Valid(s.rows, RefreshToken(t), sid, now)
    requires tokenID !in s.minted && refresh !in s.refreshes
    ensures var s2 := Apply(Apply(s, Begin(r, RefreshToken(t))), ReadSession(r, Some(sid), now));
      var s3 := Apply(s2, Rotate(r, tokenID, refresh, expires));
      && r in s3.requests && s3.requests[r].phase.Accepted?
      && (forall later: Time :: later <= expires ==> Valid(s3.rows, AccessToken(tokenID), sid, later) && Valid(s3.rows, RefreshToken(refresh), sid, later))
  {
    var s1 := Apply(s, Begin(r, RefreshToken(t)));
    assert MayFind(s1, RefreshToken(t), Some(sid));
    ReadDecides(s1, r, Some(sid), now, sid);
  }
}
