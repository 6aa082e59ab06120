/** The provisioner's retry loop, each of whose actions is a step of the provisioning machine. */
module Provision {
  import opened Common
  import opened ProvisionRuns
  import opened Runs

  datatype Reply<T> = Granted(value: T) | Failed(error: Error)

  /** What the outside answers during one pass: token file, hub, key generator and state file. */
  datatype Answers = Answers(
    token: Option<string>, enroll: Reply<(nat, string)>, keys: Option<(string, string)>, bootstrap: Reply<Tunnel>,
    enrollmentSaved: bool, keysSaved: bool, tunnelSaved: bool, clearingSaved: bool)

  predicate WellBehaved(a: Answers) {
    && a.enrollmentSaved && a.keysSaved && a.tunnelSaved
    && (a.enroll.Granted? ==> a.enroll.value.0 > 0 && a.enroll.value.1 != "")
    && (a.keys.Some? ==> a.keys.value.0 != "" && a.keys.value.1 != "")
  }

  datatype Failure = Failure(atBootstrap: bool, error: Error)

  /** The hub no longer knows the node. */
  predicate Forgotten(f: Failure) {
    f.atBootstrap && (f.error == Status(401) || f.error == Status(404))
  }

  const RETRY_START := 5
  const RETRY_MAX := 300

  function Doubled(delay: int): int {
    if delay * 2 < RETRY_MAX then delay * 2 else RETRY_MAX
  }

  /** Waits double up to the maximum. */
  ghost predicate Backoff(waits: seq<int>, start: int) {
    (waits != [] ==> waits[0] == start) && forall i :: 0 < i < |waits| ==> waits[i] == if waits[i - 1] * 2 < 300 then waits[i - 1] * 2 else 300
  }

  lemma BackoffGrows(waits: seq<int>, delay: int, start: int)
    requires Backoff(waits + [delay], start)
    ensures Backoff(waits, start) && Backoff(waits + [delay] + [Doubled(delay)], start)
  {
    var longer := waits + [delay];
    assert forall i :: 0 <= i < |waits| ==> waits[i] == longer[i];
  }

  /** Where a pass leaves the machine. */
  predicate Landed(failure: Option<Failure>, point: Point) {
    match failure
    case None => point == Running
    case Some(Failure(_, Other)) => point == Begin
    case Some(Failure(atBootstrap, Status(code))) =>
      point == if code == 409 || code == 412 || code == 429 || code >= 500 then Begin
               else if atBootstrap && (code == 401 || code == 404) then Clearing else Ended
  }

  /** A state of some careful run, for which all that `ProvisionRuns` proves holds. */
  ghost predicate OnTrack(m: State) {
    Reachable(Start, Next, m)
  }

  lemma OnTrackAgrees(failure: Option<Failure>, m: State)
    requires Landed(failure, m.point) && OnTrack(m)
    ensures m.memory == m.disk
  {
    var states: seq<State>, steps: seq<Step> :| IsRun(Start, Next, states, steps) && states[|steps|] == m;
    FileIsMemory(states, steps, |steps|);
  }

  /** What no action but sending, enrolling and clearing changes. */
  predicate SameRecord(m: State, m': State) {
    m'.epoch == m.epoch && m'.enrolls == m.enrolls && m'.sends == m.sends
  }

  function SavedPoint(point: Point, saved: bool): Point {
    if !saved then Begin
    else if point == SavingEnrollment then Keys
    else if point == SavingKeys then Sending
    else Running
  }

  /** The tunnel a node takes over: as the hub granted it, kept alive every 25 seconds if it does not say. */
  predicate TakenOver(tunnel: Tunnel, granted: Tunnel) {
    && tunnel == granted.(keepalive := tunnel.keepalive)
    && tunnel.keepalive == if granted.keepalive > 0 then granted.keepalive else 25
  }

  /** The node after the bootstrap call, its failure, and what the file then holds. */
  predicate Bootstrapped(a: Answers, before: Agent, after: Agent, file: Option<Agent>, file': Option<Agent>, failure: Option<Failure>) {
    && after == before.(tunnel := after.tunnel)
    && if a.bootstrap.Failed?
       then after.tunnel == before.tunnel && file' == file && failure == Some(Failure(true, a.bootstrap.error))
       else
         && TakenOver(after.tunnel, a.bootstrap.value)
         && if a.tunnelSaved then file' == Some(after) && failure == None else file' == file && failure == Some(Failure(false, Other))
  }

  /** The node once it has looked for a key pair: its own if it has both halves, else the one generated now. */
  predicate Keyed(a: Answers, before: Agent, after: Agent) {
    && after == before.(privateKey := after.privateKey, publicKey := after.publicKey)
    && if (before.privateKey != "" && before.publicKey != "") || a.keys.None?
       then after.privateKey == before.privateKey && after.publicKey == before.publicKey
       else after.privateKey == a.keys.value.0 && after.publicKey == a.keys.value.1
  }

  /** There is a key pair to send: the node's own, or a generated one that was saved. */
  predicate Sendable(a: Answers, before: Agent) {
    (before.privateKey != "" && before.publicKey != "") || (a.keys.Some? && a.keysSaved)
  }

  /** What came of an enrolled node: `keyed` is the node whose public key was sent, if one was. */
  ghost predicate Connected(a: Answers, before: Agent, after: Agent, file: Option<Agent>, file': Option<Agent>,
                            sends: seq<Sent>, sends': seq<Sent>, failure: Option<Failure>) {
    var keyed := before.(privateKey := after.privateKey, publicKey := after.publicKey);
    var filed := if before.privateKey != "" && before.publicKey != "" then file else Some(keyed);
    && Keyed(a, before, keyed)
    && if Sendable(a, before)
       then
         && |sends'| == |sends| + 1 && sends <= sends'
         && sends'[|sends|].privateKey == keyed.privateKey && sends'[|sends|].publicKey == keyed.publicKey && sends'[|sends|].file == filed
         && Bootstrapped(a, keyed, after, filed, file', failure)
       else after == keyed && file' == file && sends' == sends && failure == Some(Failure(false, Other))
  }

  /** What came of a node without an enrollment: none without a token or a grant, else the granted one, saved first. */
  ghost predicate Joined(a: Answers, before: Option<Agent>, after: Option<Agent>, file: Option<Agent>, file': Option<Agent>,
                         m: State, m': State, failure: Option<Failure>) {
    if a.token.None? || a.token.value == "" || a.enroll.Failed? then
      && after == before && file' == file && SameRecord(m, m')
      && failure == Some(Failure(false, if a.token.None? || a.token.value == "" then Other else a.enroll.error))
    else
      var granted := Agent(a.enroll.value.0, a.enroll.value.1, "", "", NO_TUNNEL);
      && after.Some? && m'.enrolls == m.enrolls + [m.epoch]
      && if a.enrollmentSaved
         then Connected(a, granted, after.value, Some(granted), file', m.sends, m'.sends, failure)
         else after.value == granted && file' == file && m'.sends == m.sends && failure == Some(Failure(false, Other))
  }

  datatype Outcome = Success | GaveUp(failure: Failure) | Cancelled

  class Provisioner {
    var state: Option<Agent>
    var file: Option<Agent>
    /** The machine, which every action of the code moves by one step. */
    ghost var m: State

    ghost predicate Valid()
      reads this
    {
      m.disk == file && (m.point != Down ==> m.memory == state)
    }

    /** A process launched over a file that does not yet provision it. */
    constructor (file: Option<Agent>)
      requires !Provisioned(file)
      ensures Valid() && OnTrack(m) && m == Apply(Fresh(file), Launch) && m.point == Begin
    {
      this.file, state := file, file;
      m := Fresh(file).(point := Begin, memory := file);
      ReachStart<State, Step>(Start, Next, Fresh(file));
      ReachStep(Start, Next, Fresh(file), Launch);
    }

    ghost method Take(step: Step)
      modifies this`m
      ensures m == Apply(old(m), step)
      ensures OnTrack(old(m)) && Careful(old(m), step) ==> OnTrack(m)
    {
      if OnTrack(m) {
        ReachStep(Start, Next, m, step);
      }
      m := Apply(m, step);
    }

    method Save(saved: bool)
      requires Valid() && m.point in {SavingEnrollment, SavingKeys, SavingTunnel}
      modifies this
      ensures Valid() && state == old(state) && file == (if saved then state else old(file))
      ensures m.point == SavedPoint(old(m.point), saved) && SameRecord(old(m), m)
      ensures OnTrack(old(m)) && saved ==> OnTrack(m)
    {
      if saved {
        file := state;
      }
      Take(if saved then ProvisionRuns.Save else SaveFails);
    }

    method KeepEnrollment(nodeId: nat, token: string)
      requires Valid() && m.point == Begin && !Enrolled(state)
      modifies this`state, this`m
      ensures Valid() && state.Some? && m.point == SavingEnrollment
      ensures state.value.nodeId == nodeId && state.value.token == token
      ensures state.value.privateKey == "" && state.value.publicKey == "" && state.value.tunnel == NO_TUNNEL
      ensures m.epoch == old(m.epoch) && m.enrolls == old(m.enrolls) + [m.epoch] && m.sends == old(m.sends)
      ensures OnTrack(old(m)) && nodeId > 0 && token != "" ==> OnTrack(m)
    {
      state := Some(EMPTY.(nodeId := nodeId, token := token));
      Take(Enroll(nodeId, token));
    }

    ghost method FailEnrollment(error: Error)
      requires Valid() && m.point == Begin && !Enrolled(state)
      modifies this`m
      ensures Valid() && m.point == (if Retryable(error) then Begin else Ended) && SameRecord(old(m), m)
      ensures OnTrack(old(m)) ==> OnTrack(m)
    {
      Take(EnrollFails(error));
    }

    ghost method Continue()
      requires Valid() && m.point == Begin && Enrolled(state)
      modifies this`m
      ensures Valid() && m.point == Keys && SameRecord(old(m), m) && (OnTrack(old(m)) ==> OnTrack(m))
    {
      Take(Resume);
    }

    method KeepKeys(privateKey: string, publicKey: string)
      requires Valid() && m.point == Keys && state.Some? && !HasKeys(state.value)
      modifies this`state, this`m
      ensures Valid() && state.Some? && m.point == SavingKeys && SameRecord(old(m), m)
      ensures state.value.privateKey == privateKey && state.value.publicKey == publicKey
      ensures state.value == old(state).value.(privateKey := privateKey, publicKey := publicKey)
      ensures OnTrack(old(m)) && privateKey != "" && publicKey != "" ==> OnTrack(m)
    {
      state := Some(state.value.(privateKey := privateKey, publicKey := publicKey));
      Take(Generate(privateKey, publicKey));
    }

    ghost method FailKeys()
      requires Valid() && m.point == Keys && state.Some? && !HasKeys(state.value)
      modifies this`m
      ensures Valid() && m.point == Begin && SameRecord(old(m), m) && (OnTrack(old(m)) ==> OnTrack(m))
    {
      Take(GenerateFails);
    }

    /** The bootstrap call leaves with the key in memory; `sends` notes what was on file then. */
    ghost method SendKeys()
      requires Valid() && state.Some? && (m.point == Sending || (m.point == Keys && HasKeys(state.value)))
      modifies this`m
      ensures Valid() && m.point == Awaiting && m.epoch == old(m.epoch) && m.enrolls == old(m.enrolls)
      ensures |m.sends| == |old(m.sends)| + 1 && old(m.sends) <= m.sends
      ensures var sent := m.sends[|old(m.sends)|];
        sent.privateKey == state.value.privateKey && sent.publicKey == state.value.publicKey && sent.file == file
      ensures OnTrack(old(m)) ==> OnTrack(m)
    {
      Take(Send);
    }

    method KeepTunnel(tunnel: Tunnel)
      requires Valid() && m.point == Awaiting && state.Some?
      modifies this`state, this`m
      ensures Valid() && state.Some? && m.point == SavingTunnel && SameRecord(old(m), m) && (OnTrack(old(m)) ==> OnTrack(m))
      ensures state.value == old(state).value.(tunnel := tunnel)
    {
      state := Some(state.value.(tunnel := tunnel));
      Take(Accepted(tunnel));
    }

    ghost method FailBootstrap(error: Error)
      requires Valid() && m.point == Awaiting
      modifies this`m
      ensures Valid() && Landed(Some(Failure(true, error)), m.point) && SameRecord(old(m), m) && (OnTrack(old(m)) ==> OnTrack(m))
    {
      Take(Refused(error));
    }

    method Bootstrap(a: Answers) returns (failure: Option<Failure>)
      requires Valid() && m.point == Awaiting && state.Some?
      modifies this
      ensures Valid() && Landed(failure, m.point) && SameRecord(old(m), m)
      ensures state.Some? && Bootstrapped(a, old(state).value, state.value, old(file), file, failure)
      ensures OnTrack(old(m)) && WellBehaved(a) ==> OnTrack(m) && state == file
    {
      if a.bootstrap.Failed? {
        FailBootstrap(a.bootstrap.error);
        failure := Some(Failure(true, a.bootstrap.error));
      } else {
        var tunnel := a.bootstrap.value;
        if tunnel.keepalive <= 0 {
          tunnel := tunnel.(keepalive := 25);
        }
        KeepTunnel(tunnel);
        Save(a.tunnelSaved);
        failure := if a.tunnelSaved then None else Some(Failure(false, Other));
      }
      if OnTrack(m) {
        OnTrackAgrees(failure, m);
      }
    }

    /** From an enrolled node on: a key pair if there is none yet, then the bootstrap call. */
    method Connect(a: Answers) returns (failure: Option<Failure>)
      requires Valid() && m.point == Keys && state.Some?
      modifies this
      ensures Valid() && Landed(failure, m.point)
      ensures OnTrack(old(m)) && WellBehaved(a) ==> OnTrack(m) && state == file
      ensures m.enrolls == old(m.enrolls) && old(m.sends) <= m.sends && m.epoch == old(m.epoch)
      ensures state.Some? && Connected(a, old(state).value, state.value, old(file), file, old(m.sends), m.sends, failure)
    {
      if state.value.privateKey == "" || state.value.publicKey == "" {
        if a.keys.Some? {
          KeepKeys(a.keys.value.0, a.keys.value.1);
          Save(a.keysSaved);
        } else {
          FailKeys();
        }
        if a.keys.None? || !a.keysSaved {
          failure := Some(Failure(false, Other));
          if OnTrack(m) {
            OnTrackAgrees(failure, m);
          }
          return;
        }
      }
      SendKeys();
      failure := Bootstrap(a);
    }

    /** A pass of a node that has no enrollment. */
    method Join(a: Answers) returns (failure: Option<Failure>)
      requires Valid() && m.point == Begin && !Enrolled(state)
      modifies this
      ensures Valid() && Landed(failure, m.point)
      ensures OnTrack(old(m)) && WellBehaved(a) ==> OnTrack(m) && state == file
      ensures old(m.enrolls) <= m.enrolls && old(m.sends) <= m.sends && m.epoch == old(m.epoch)
      ensures Joined(a, old(state), state, old(file), file, old(m), m, failure)
    {
      failure := Some(Failure(false, Other));
      if a.token.Some? && a.token.value != "" {
        if a.enroll.Failed? {
          FailEnrollment(a.enroll.error);
          failure := Some(Failure(false, a.enroll.error));
        } else {
          KeepEnrollment(a.enroll.value.0, a.enroll.value.1);
          Save(a.enrollmentSaved);
          if a.enrollmentSaved {
            failure := Connect(a);
          }
        }
      }
      if OnTrack(m) {
        OnTrackAgrees(failure, m);
      }
    }

    /** One pass. With well-behaved answers its actions are careful, so it stays in a careful run. */
    method Pass(a: Answers) returns (failure: Option<Failure>)
      requires Valid() && m.point == Begin
      modifies this
      ensures Valid() && Landed(failure, m.point)
      ensures OnTrack(old(m)) && WellBehaved(a) ==> OnTrack(m) && state == file
      ensures old(m.enrolls) <= m.enrolls && old(m.sends) <= m.sends && m.epoch == old(m.epoch)
      ensures Enrolled(old(state)) ==> m.enrolls == old(m.enrolls)
      ensures if Enrolled(old(state))
        then state.Some? && Connected(a, old(state).value, state.value, old(file), file, old(m.sends), m.sends, failure)
        else Joined(a, old(state), state, old(file), file, old(m), m, failure)
    {
      if Enrolled(state) {
        Continue();
        failure := Connect(a);
      } else {
        failure := Join(a);
      }
    }

    /** Clears the saved enrollment so that a new token can be used. */
    method Clear(saved: bool)
      requires Valid() && m.point == Clearing
      modifies this
      ensures Valid() && m.point == Down && (OnTrack(old(m)) ==> OnTrack(m))
      ensures file == if saved then Some(EMPTY) else old(file)
      ensures m.epoch == old(m.epoch) + if saved then 1 else 0
    {
      if saved {
        file := Some(EMPTY);
      }
      Take(if saved then ProvisionRuns.Save else SaveFails);
    }

    /** Passes until one succeeds, one fails for good, or the context ends with the answers. */
    method Run(answers: seq<Answers>, retryStart: int) returns (outcome: Outcome, waits: seq<int>)
      requires Valid() && m.point == Begin
      modifies this
      ensures Valid() && Backoff(waits, if retryStart <= 0 then 5 else retryStart)
      ensures OnTrack(old(m)) && (forall a :: a in answers ==> WellBehaved(a)) ==> OnTrack(m)
      ensures outcome == Success ==> m.point == Running
      ensures outcome.GaveUp? ==> m.point in {Ended, Down} && !Retryable(outcome.failure.error)
      ensures outcome == Cancelled ==> m.point == Begin && |waits| == |answers|
      ensures m.epoch != old(m.epoch) ==> outcome.GaveUp? && Forgotten(outcome.failure) && file == Some(EMPTY)
      ensures outcome != Cancelled ==> |waits| < |answers|
      ensures outcome == Success ==>
        && var a := answers[|waits|];
        a.bootstrap.Granted? && a.tunnelSaved && state.Some? && file == state && TakenOver(state.value.tunnel, a.bootstrap.value)
      ensures outcome.GaveUp? ==>
        && var a := answers[|waits|];
        && outcome.failure in {Failure(true, if a.bootstrap.Failed? then a.bootstrap.error else Other),
                               Failure(false, if a.enroll.Failed? then a.enroll.error else Other)}
        && (Forgotten(outcome.failure) && a.clearingSaved ==> m.epoch == old(m.epoch) + 1 && file == Some(EMPTY))
    {
      var start := if retryStart <= 0 then RETRY_START else retryStart;
      var delay := start;
      waits := [];
      for i := 0 to |answers|
        invariant Valid() && m.point == Begin && m.epoch == old(m.epoch)
        invariant OnTrack(old(m)) && (forall a :: a in answers ==> WellBehaved(a)) ==> OnTrack(m)
        invariant |waits| == i && Backoff(waits, start) && Backoff(waits + [delay], start)
      {
        var failure := Pass(answers[i]);
        if failure.None? {
          return Success, waits;
        }
        if !Retryable(failure.value.error) {
          if Forgotten(failure.value) {
            Clear(answers[i].clearingSaved);
          }
          return GaveUp(failure.value), waits;
        }
        BackoffGrows(waits, delay, start);
        waits := waits + [delay];
        delay := if delay * 2 < RETRY_MAX then delay * 2 else RETRY_MAX;
      }
      outcome := Cancelled;
    }
  }
}
