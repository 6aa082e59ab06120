/**
 Several instances, each with its own lease time, that lock names in one table. Every
 statement reads the clock, or looks up its owner, in one step and commits in a later one;
 the commit of a row and the start of its renewal loop are separate steps too. Owner tokens
 are fresh.
 */
module LeaseRuns {
  import opened Common
  import opened LockTable
  import opened Runs

  type Instance = nat
  type Id = nat

  /** Where a token was acquired; `at` is the clock reading of the acquisition. */
  datatype Grant = Grant(inst: Instance, name: Name, at: Time)

  /**
   A renewal loop, which outlives its cancellation by at most the tick it is handling.
   `sending` is the clock reading of its statement on the way to the table.
   */
  datatype Loop = Loop(inst: Instance, name: Name, due: Time, cancelled: bool, sending: Option<Time>)

  /** Any other statement on its way to the table; a renewal reads the clock after it looked up its owner. */
  datatype Op =
    | Acquire(inst: Instance, name: Name, owner: Token, at: Time)
    | Release(inst: Instance, name: Name, owner: Token)
    | Renew(inst: Instance, name: Name, owner: Token, lease: Time, read: Option<Time>)

  /** `owners` and `cancels` are the maps of all instances; a loop is named by its token. */
  datatype State = State(
    ttls: map<Instance, nat>,
    clock: Time,
    rows: Rows,
    grants: map<Token, Grant>,
    pending: set<Token>,
    owners: map<(Instance, Name), Token>,
    cancels: map<(Instance, Name), Token>,
    loops: map<Token, Loop>,
    ops: map<Id, Op>,
    released: set<Token>)

  const DEFAULT_TTL := 30

  ghost predicate Start(s: State) {
    s == State(s.ttls, s.clock, map[], map[], {}, map[], map[], map[], map[], {})
  }

  datatype Step =
    | Tick(d: nat)
    | AcquireBegin(op: Id, inst: Instance, name: Name, owner: Token)
    | StartLease(owner: Token)
    | LoopBegin(owner: Token)
    | LoopCommit(owner: Token)
    | UnlockBegin(op: Id, inst: Instance, name: Name)
    | RenewBegin(op: Id, inst: Instance, name: Name, lease: Time)
    | RenewRead(op: Id)
    | OpCommit(op: Id)

  /** The lease time an instance was configured with, or the default. */
  function Ttl(ttls: map<Instance, nat>, i: Instance): nat {
    if i in ttls && ttls[i] > 0 then ttls[i] else DEFAULT_TTL
  }

  function RenewEvery(ttls: map<Instance, nat>, i: Instance): nat {
    Ttl(ttls, i) / 3
  }

  function Apply(s: State, step: Step): State {
    match step
    case Tick(d) => s.(clock := s.clock + d)
    case AcquireBegin(op, i, n, t) => if op in s.ops then s else s.(ops := s.ops[op := Acquire(i, n, t, s.clock)])
    case StartLease(t) => DoStartLease(s, t)
    case LoopBegin(t) => DoLoopBegin(s, t)
    case LoopCommit(t) => DoLoopCommit(s, t)
    case UnlockBegin(op, i, n) => DoUnlockBegin(s, op, i, n)
    case RenewBegin(op, i, n, lease) => DoRenewBegin(s, op, i, n, lease)
    case RenewRead(op) => DoRenewRead(s, op)
    case OpCommit(op) => DoOpCommit(s, op)
  }

  /** The transaction of an acquisition that read the clock at `at`. */
  function DoAcquire(s: State, i: Instance, n: Name, t: Token, at: Time): State {
    if t in s.grants then s
    else
      var s' := s.(rows := Acquired(s.rows, n, t, at, Ttl(s.ttls, i)));
      if Free(s.rows, n, at)
      then s'.(grants := s.grants[t := Grant(i, n, at)], pending := s.pending + {t})
      else s'
  }

  function Stopped(loops: map<Token, Loop>, t: Token): map<Token, Loop> {
    if t in loops then loops[t := loops[t].(cancelled := true)] else loops
  }

  function DoStartLease(s: State, t: Token): State {
    if t !in s.pending || t !in s.grants then s
    else
      var Grant(i, n, _) := s.grants[t];
      var loops := if (i, n) in s.cancels then Stopped(s.loops, s.cancels[(i, n)]) else s.loops;
      s.(pending := s.pending - {t},
         owners := s.owners[(i, n) := t],
         cancels := s.cancels[(i, n) := t],
         loops := loops[t := Loop(i, n, s.clock + RenewEvery(s.ttls, i), false, None)])
  }

  /** A tick of the loop, which handles one at a time. */
  function DoLoopBegin(s: State, t: Token): State {
    if t !in s.loops || s.loops[t].sending.Some? || s.clock < s.loops[t].due then s
    else
      var l := s.loops[t];
      s.(loops := s.loops[t := l.(due := l.due + RenewEvery(s.ttls, l.inst), sending := Some(s.clock))])
  }

  function DoLoopCommit(s: State, t: Token): State {
    if t !in s.loops || s.loops[t].sending.None? then s
    else
      var l := s.loops[t];
      s.(rows := Extended(s.rows, l.name, t, l.sending.value + Ttl(s.ttls, l.inst)),
         loops := s.loops[t := l.(sending := None)])
  }

  function DoUnlockBegin(s: State, op: Id, i: Instance, n: Name): State {
    if op in s.ops || (i, n) !in s.owners then s
    else
      var t := s.owners[(i, n)];
      s.(owners := s.owners - {(i, n)},
         cancels := s.cancels - {(i, n)},
         loops := if (i, n) in s.cancels then Stopped(s.loops, s.cancels[(i, n)]) else s.loops,
         ops := s.ops[op := Release(i, n, t)],
         released := s.released + {t})
  }

  function DoRenewBegin(s: State, op: Id, i: Instance, n: Name, lease: Time): State {
    if op in s.ops || (i, n) !in s.owners then s
    else s.(ops := s.ops[op := Renew(i, n, s.owners[(i, n)], if lease <= 0 then Ttl(s.ttls, i) else lease, None)])
  }

  function DoRenewRead(s: State, op: Id): State {
    if op in s.ops && s.ops[op].Renew? && s.ops[op].read.None?
    then s.(ops := s.ops[op := s.ops[op].(read := Some(s.clock))]) else s
  }

  function DoOpCommit(s: State, op: Id): State {
    if op !in s.ops then s
    else match s.ops[op]
      case Acquire(i, n, t, at) => DoAcquire(s, i, n, t, at).(ops := s.ops - {op})
      case Release(_, n, t) => s.(rows := Released(s.rows, n, t), ops := s.ops - {op})
      case Renew(_, n, t, lease, read) =>
        if read.None? then s else s.(rows := Extended(s.rows, n, t, read.value + lease), ops := s.ops - {op})
  }

  // ---------- fencing ----------

  ghost predicate GrantedAt(grants: map<Token, Grant>, t: Token, i: Instance, n: Name) {
    t in grants && grants[t].inst == i && grants[t].name == n
  }

  ghost predicate RowsOk(rows: Rows, grants: map<Token, Grant>) {
    forall n :: n in rows ==> rows[n].owner in grants && grants[rows[n].owner].name == n
  }

  ghost predicate OwnersOk(owners: map<(Instance, Name), Token>, grants: map<Token, Grant>, loops: map<Token, Loop>) {
    forall k :: k in owners ==> GrantedAt(grants, owners[k], k.0, k.1) && owners[k] in loops
  }

  ghost predicate LoopsOk(loops: map<Token, Loop>, grants: map<Token, Grant>, owners: map<(Instance, Name), Token>) {
    forall t :: t in loops ==>
      var i, n := loops[t].inst, loops[t].name;
      GrantedAt(grants, t, i, n) && (!loops[t].cancelled ==> (i, n) in owners && owners[(i, n)] == t)
  }

  /** A release or renewal in flight is for a token that its own instance was granted. */
  ghost predicate OpsOk(ops: map<Id, Op>, grants: map<Token, Grant>, loops: map<Token, Loop>) {
    forall op :: op in ops && !ops[op].Acquire? ==>
      && GrantedAt(grants, ops[op].owner, ops[op].inst, ops[op].name)
      && ops[op].owner in loops
      && (ops[op].Release? ==> loops[ops[op].owner].cancelled)
  }

  ghost predicate PendingOk(pending: set<Token>, grants: map<Token, Grant>, loops: map<Token, Loop>) {
    forall t :: t in pending ==> t in grants && t !in loops
  }

  ghost predicate Fenced(s: State) {
    && s.cancels == s.owners
    && RowsOk(s.rows, s.grants)
    && OwnersOk(s.owners, s.grants, s.loops)
    && LoopsOk(s.loops, s.grants, s.owners)
    && OpsOk(s.ops, s.grants, s.loops)
    && PendingOk(s.pending, s.grants, s.loops)
  }

  /** A fresh grant disturbs nobody. */
  lemma GrantKeepsFence(s: State, t: Token, g: Grant, rows: Rows)
    requires Fenced(s) && t !in s.grants && RowsOk(rows, s.grants[t := g])
    ensures Fenced(s.(rows := rows, grants := s.grants[t := g], pending := s.pending + {t}))
  {
  }

  lemma AcquireKeepsRows(rows: Rows, grants: map<Token, Grant>, grants': map<Token, Grant>, n: Name, t: Token, at: Time, ttl: nat)
    requires RowsOk(rows, grants) && forall u :: u in grants ==> u in grants' && grants'[u] == grants[u]
    requires Free(rows, n, at) ==> t in grants' && grants'[t].name == n
    ensures RowsOk(Acquired(rows, n, t, at, ttl), grants')
  {
    forall k | k in Acquired(rows, n, t, at, ttl)
      ensures var owner := Acquired(rows, n, t, at, ttl)[k].owner; owner in grants' && grants'[owner].name == k
    {
      AcquiredAdds(rows, n, t, at, ttl, k);
    }
  }

  lemma AcquireKeepsFence(s: State, i: Instance, n: Name, t: Token, at: Time)
    requires Fenced(s)
    ensures Fenced(DoAcquire(s, i, n, t, at))
  {
    if t !in s.grants {
      var rows := Acquired(s.rows, n, t, at, Ttl(s.ttls, i));
      if Free(s.rows, n, at) {
        AcquireKeepsRows(s.rows, s.grants, s.grants[t := Grant(i, n, at)], n, t, at, Ttl(s.ttls, i));
        GrantKeepsFence(s, t, Grant(i, n, at), rows);
      } else {
        AcquireKeepsRows(s.rows, s.grants, s.grants, n, t, at, Ttl(s.ttls, i));
      }
    }
  }

  lemma CommitKeepsFence(s: State, op: Id)
    requires Fenced(s)
    ensures Fenced(DoOpCommit(s, op))
  {
    if op in s.ops && s.ops[op].Acquire? {
      AcquireKeepsFence(s, s.ops[op].inst, s.ops[op].name, s.ops[op].owner, s.ops[op].at);
    }
  }

  lemma StartKeepsFence(s: State, t: Token)
    requires Fenced(s)
    ensures Fenced(DoStartLease(s, t))
  {
  }

  lemma UnlockKeepsFence(s: State, op: Id, i: Instance, n: Name)
    requires Fenced(s)
    ensures Fenced(DoUnlockBegin(s, op, i, n))
  {
  }

  lemma StepKeepsFence(s: State, step: Step)
    requires Fenced(s)
    ensures Fenced(Apply(s, step))
  {
    match step
    case Tick(_) =>
    case AcquireBegin(_, _, _, _) =>
    case StartLease(t) => StartKeepsFence(s, t);
    case LoopBegin(_) =>
    case LoopCommit(_) =>
    case UnlockBegin(op, i, n) => UnlockKeepsFence(s, op, i, n);
    case RenewBegin(_, _, _, _) =>
    case RenewRead(_) =>
    case OpCommit(op) => CommitKeepsFence(s, op);
  }

  lemma RunKeepsFence(states: seq<State>, steps: seq<Step>, i: nat)
    requires IsRun(Start, Apply, states, steps) && i < |states|
    ensures Fenced(states[i])
  {
    forall s, step | Fenced(s) ensures Fenced(Apply(s, step)) {
      StepKeepsFence(s, step);
    }
    Invariant(Start, Apply, Fenced, states, steps, i);
  }

  /** Each instance has at most one uncancelled renewal loop per name, the one it owns. */
  lemma OneLoopPerName(states: seq<State>, steps: seq<Step>, k: nat, t: Token, u: Token)
    requires IsRun(Start, Apply, states, steps) && k < |states|
    requires t in states[k].loops && !states[k].loops[t].cancelled
    requires u in states[k].loops && !states[k].loops[u].cancelled
    requires states[k].loops[t].inst == states[k].loops[u].inst && states[k].loops[t].name == states[k].loops[u].name
    ensures t == u
    ensures var l := states[k].loops[t];
      (l.inst, l.name) in states[k].owners && states[k].owners[(l.inst, l.name)] == t
  {
    RunKeepsFence(states, steps, k);
  }

  /** The instance on whose behalf a step releases or renews a row, if it does. */
  predicate ActsFor(s: State, step: Step, i: Instance) {
    || (step.LoopCommit? && step.owner in s.loops && s.loops[step.owner].inst == i)
    || (step.OpCommit? && step.op in s.ops && !s.ops[step.op].Acquire? && s.ops[step.op].inst == i)
  }

  /** A release or renewal never touches a row that another instance acquired. */
  lemma ForeignRowsStay(states: seq<State>, steps: seq<Step>, k: nat, i: Instance, n: Name)
    requires IsRun(Start, Apply, states, steps) && k < |steps|
    requires ActsFor(states[k], steps[k], i)
    requires n in states[k].rows && !GrantedAt(states[k].grants, states[k].rows[n].owner, i, n)
    ensures n in states[k + 1].rows && states[k + 1].rows[n] == states[k].rows[n]
  {
    RunKeepsFence(states, steps, k);
    assert Took(Apply, states, steps, k);
    ActsOnOwnRow(states[k], steps[k], i, n);
  }

  lemma ActsOnOwnRow(s: State, step: Step, i: Instance, n: Name)
    requires Fenced(s) && ActsFor(s, step, i)
    requires n in s.rows && !GrantedAt(s.grants, s.rows[n].owner, i, n)
    ensures n in Apply(s, step).rows && Apply(s, step).rows[n] == s.rows[n]
  {
  }

  ghost predicate Lost(s: State, t: Token) {
    t in s.grants && forall n :: n in s.rows ==> s.rows[n].owner != t
  }

  /** An owner that lost its row never regains it. */
  lemma LostForGood(states: seq<State>, steps: seq<Step>, i: nat, j: nat, t: Token)
    requires IsRun(Start, Apply, states, steps) && i <= j < |states| && Lost(states[i], t)
    ensures Lost(states[j], t)
  {
    forall s, step | Lost(s, t) ensures Lost(Apply(s, step), t) {
      LostStays(s, step, t);
    }
    Onward(Start, Apply, s => true, (_, s) => Lost(s, t), states, steps, i, j);
  }

  lemma LostStays(s: State, step: Step, t: Token)
    requires Lost(s, t)
    ensures Lost(Apply(s, step), t)
  {
    if step.OpCommit? {
      LostStaysAtCommit(s, step.op, t);
    } else if step.LoopCommit? {
      assert DoLoopCommit(s, step.owner).grants == s.grants;
    } else {
      assert Apply(s, step).rows == s.rows && Apply(s, step).grants == s.grants;
    }
  }

  lemma LostStaysAtCommit(s: State, op: Id, t: Token)
    requires Lost(s, t)
    ensures Lost(DoOpCommit(s, op), t)
  {
    if op in s.ops && s.ops[op].Acquire? {
      var Acquire(i, name, u, at) := s.ops[op];
      forall n | n in DoAcquire(s, i, name, u, at).rows
        ensures DoAcquire(s, i, name, u, at).rows[n].owner != t
      {
        if u !in s.grants {
          AcquiredAdds(s.rows, name, u, at, Ttl(s.ttls, i), n);
        }
      }
    }
  }

  // ---------- exclusion while the lease is kept alive ----------

  /** `step` does not take the row of `n` from `t`: not a release of it, and no purge of it. */
  ghost predicate Spares(s: State, step: Step, n: Name, t: Token) {
    step.OpCommit? && step.op in s.ops ==>
      match s.ops[step.op]
      case Release(_, name, owner) => !(name == n && owner == t)
      case Acquire(_, _, _, at) => n in s.rows ==> at < s.rows[n].expires
      case Renew(_, _, _, _, _) => true
  }

  /** No token was granted for `n` on the way from `s` to `s'`. */
  ghost predicate NoneGranted(s: State, s': State, n: Name) {
    forall u :: u in s'.grants && s'.grants[u].name == n ==> u in s.grants && s.grants[u].name == n
  }

  /**
   Timed exclusion: as long as the row of `t` is neither released nor expired at the time
   of an attempt, `t` keeps it and every attempt to acquire the name fails.
   */
  lemma {:induction false} ExcludedWhileAlive(states: seq<State>, steps: seq<Step>, i: nat, j: nat, n: Name, t: Token)
    requires IsRun(Start, Apply, states, steps) && i <= j < |states|
    requires Owned(states[i].rows, n, t)
    requires forall k :: i <= k < j ==> Spares(states[k], steps[k], n, t)
    ensures Owned(states[j].rows, n, t)
    ensures NoneGranted(states[i], states[j], n)
    decreases j
  {
    if i < j {
      ExcludedWhileAlive(states, steps, i, j - 1, n, t);
      assert Took(Apply, states, steps, j - 1);
      SparedStep(states[j - 1], steps[j - 1], n, t);
    }
  }

  lemma SparedAcquire(s: State, i: Instance, name: Name, u: Token, at: Time, n: Name, t: Token)
    requires Owned(s.rows, n, t) && at < s.rows[n].expires
    ensures Owned(DoAcquire(s, i, name, u, at).rows, n, t) && NoneGranted(s, DoAcquire(s, i, name, u, at), n)
  {
    AcquiredSpares(s.rows, name, u, at, Ttl(s.ttls, i), n);
  }

  lemma SparedCommit(s: State, op: Id, n: Name, t: Token)
    requires Owned(s.rows, n, t) && Spares(s, OpCommit(op), n, t)
    ensures Owned(DoOpCommit(s, op).rows, n, t)
    ensures NoneGranted(s, DoOpCommit(s, op), n)
  {
    if op in s.ops && s.ops[op].Acquire? {
      SparedAcquire(s, s.ops[op].inst, s.ops[op].name, s.ops[op].owner, s.ops[op].at, n, t);
    }
  }

  lemma SparedStep(s: State, step: Step, n: Name, t: Token)
    requires Owned(s.rows, n, t) && Spares(s, step, n, t)
    ensures Owned(Apply(s, step).rows, n, t)
    ensures NoneGranted(s, Apply(s, step), n)
  {
    if step.OpCommit? {
      SparedCommit(s, step.op, n, t);
    } else if step.LoopCommit? {
      assert DoLoopCommit(s, step.owner).grants == s.grants;
    } else {
      assert Apply(s, step).rows == s.rows && Apply(s, step).grants == s.grants;
    }
  }

  // ---------- punctual loops keep every lease alive ----------

  /** How late things happen at most: a statement commits `transit` after its clock reading. */
  datatype Slack = Slack(late: nat, transit: nat)

  /**
   Before the clock is past these bounds, a statement that has read the clock commits, an
   acquisition that has committed starts its loop, and an idle loop handles a tick that is
   due. An explicit renewal asks for the default lease or one that outlasts the loop's next
   renewal.
   */
  ghost predicate Punctual(slack: Slack, s: State, step: Step) {
    && (step.Tick? ==> InTime(slack, s, s.clock + step.d))
    && (step.RenewBegin? ==> step.lease <= 0 || RenewEvery(s.ttls, step.inst) + slack.late + 2 * slack.transit < step.lease)
  }

  ghost predicate InTime(slack: Slack, s: State, clock: Time) {
    && (forall t :: t in s.pending && t in s.grants ==> clock <= s.grants[t].at + slack.transit + slack.late)
    && (forall t :: t in s.loops && !s.loops[t].cancelled ==> LoopInTime(slack, s.loops[t], clock))
    && (forall op :: op in s.ops ==> OpInTime(slack, s.ops[op], clock))
  }

  predicate LoopInTime(slack: Slack, l: Loop, clock: Time) {
    clock <= if l.sending.Some? then l.sending.value + slack.transit else l.due + slack.late
  }

  predicate OpInTime(slack: Slack, op: Op, clock: Time) {
    match op
    case Acquire(_, _, _, at) => clock <= at + slack.transit
    case Release(_, _, _) => true
    case Renew(_, _, _, _, read) => read.Some? ==> clock <= read.value + slack.transit
  }

  ghost function PunctualApply(slack: Slack, s: State, step: Step): State {
    if Punctual(slack, s, step) then Apply(s, step) else s
  }

  /** Acquired, and `Unlock` has not been called for it. */
  predicate Held(s: State, t: Token) {
    t in s.grants && t !in s.released
  }

  predicate PendingAlive(slack: Slack, ttl: nat, rows: Rows, clock: Time, g: Grant, t: Token) {
    Owned(rows, g.name, t) && g.at + ttl <= rows[g.name].expires && g.at <= clock <= g.at + slack.transit + slack.late
  }

  /** The row lasts until the statement in flight has committed, or the one of the next tick. */
  predicate LoopAlive(slack: Slack, every: nat, rows: Rows, clock: Time, l: Loop, t: Token) {
    && !l.cancelled && Owned(rows, l.name, t)
    && l.due - every <= clock && LoopInTime(slack, l, clock)
    && match l.sending
       case None => l.due + slack.late + slack.transit < rows[l.name].expires
       case Some(at) => l.due - every <= at <= l.due - every + slack.late && at <= clock && at + slack.transit < rows[l.name].expires
  }

  ghost predicate LeasesFit(slack: Slack, ttls: map<Instance, nat>) {
    forall i: Instance :: RenewEvery(ttls, i) + 2 * (slack.late + slack.transit) < Ttl(ttls, i)
  }

  /** A statement in flight is in time, and a renewal is long enough. */
  predicate OpAlive(slack: Slack, ttls: map<Instance, nat>, clock: Time, op: Op) {
    && OpInTime(slack, op, clock)
    && (op.Acquire? ==> op.at <= clock)
    && (op.Renew? ==> RenewEvery(ttls, op.inst) + slack.late + 2 * slack.transit < op.lease && (op.read.Some? ==> op.read.value <= clock))
  }

  ghost predicate PendingsAlive(slack: Slack, ttls: map<Instance, nat>, rows: Rows, clock: Time, grants: map<Token, Grant>, pending: set<Token>) {
    forall t :: t in pending ==> t in grants && PendingAlive(slack, Ttl(ttls, grants[t].inst), rows, clock, grants[t], t)
  }

  ghost predicate LoopsAlive(
    slack: Slack, ttls: map<Instance, nat>, rows: Rows, clock: Time, grants: map<Token, Grant>, released: set<Token>, loops: map<Token, Loop>) {
    forall t :: t in grants && t !in released && t in loops ==>
      LoopAlive(slack, RenewEvery(ttls, loops[t].inst), rows, clock, loops[t], t)
  }

  ghost predicate OpsAlive(slack: Slack, ttls: map<Instance, nat>, clock: Time, ops: map<Id, Op>, released: set<Token>) {
    && (forall op :: op in ops ==> OpAlive(slack, ttls, clock, ops[op]))
    && (forall op :: op in ops && ops[op].Release? ==> ops[op].owner in released)
  }

  /** A held token waits for its loop or has one. */
  ghost predicate Placed(grants: map<Token, Grant>, released: set<Token>, pending: set<Token>, looping: set<Token>) {
    forall t :: t in grants && t !in released ==> t in pending || t in looping
  }

  ghost predicate Alive(slack: Slack, s: State) {
    && LeasesFit(slack, s.ttls)
    && Placed(s.grants, s.released, s.pending, s.loops.Keys)
    && PendingsAlive(slack, s.ttls, s.rows, s.clock, s.grants, s.pending)
    && LoopsAlive(slack, s.ttls, s.rows, s.clock, s.grants, s.released, s.loops)
    && OpsAlive(slack, s.ttls, s.clock, s.ops, s.released)
    && s.pending !! s.released && s.released <= s.grants.Keys
  }

  ghost predicate Good(slack: Slack, s: State) {
    Fenced(s) && Alive(slack, s)
  }

  /** The row of a held token is there and unexpired. */
  lemma HeldIsAlive(slack: Slack, s: State, t: Token)
    requires Good(slack, s) && Held(s, t)
    ensures Owned(s.rows, s.grants[t].name, t) && s.clock < s.rows[s.grants[t].name].expires
  {
    if t in s.pending {
      var i := s.grants[t].inst;
      assert RenewEvery(s.ttls, i) + 2 * (slack.late + slack.transit) < Ttl(s.ttls, i);
    } else {
      assert LoopAlive(slack, RenewEvery(s.ttls, s.loops[t].inst), s.rows, s.clock, s.loops[t], t);
    }
  }

  /** The acquisition spares the rows of all that hold one, and gives the new one its lease. */
  lemma AcquireKeepsPending(slack: Slack, s: State, i: Instance, n: Name, t: Token, at: Time, u: Token)
    requires Good(slack, s) && at <= s.clock && u in s.pending && t !in s.grants
    ensures Owned(Acquired(s.rows, n, t, at, Ttl(s.ttls, i)), s.grants[u].name, u)
    ensures Acquired(s.rows, n, t, at, Ttl(s.ttls, i))[s.grants[u].name] == s.rows[s.grants[u].name]
  {
    HeldIsAlive(slack, s, u);
    AcquiredSpares(s.rows, n, t, at, Ttl(s.ttls, i), s.grants[u].name);
  }

  lemma AcquireKeepsLoop(slack: Slack, s: State, i: Instance, n: Name, t: Token, at: Time, u: Token)
    requires Good(slack, s) && at <= s.clock && Held(s, u) && u in s.loops
    ensures LoopAlive(slack, RenewEvery(s.ttls, s.loops[u].inst), Acquired(s.rows, n, t, at, Ttl(s.ttls, i)), s.clock, s.loops[u], u)
  {
    HeldIsAlive(slack, s, u);
    assert LoopAlive(slack, RenewEvery(s.ttls, s.loops[u].inst), s.rows, s.clock, s.loops[u], u);
    AcquiredSpares(s.rows, n, t, at, Ttl(s.ttls, i), s.loops[u].name);
  }

  lemma AcquireKeepsLoops(slack: Slack, s: State, i: Instance, n: Name, t: Token, at: Time, grants: map<Token, Grant>)
    requires Good(slack, s) && at <= s.clock && t !in s.grants && forall u :: u in grants ==> u in s.grants || u == t
    ensures LoopsAlive(slack, s.ttls, Acquired(s.rows, n, t, at, Ttl(s.ttls, i)), s.clock, grants, s.released, s.loops)
  {
    forall u | u in grants && u !in s.released && u in s.loops
      ensures LoopAlive(slack, RenewEvery(s.ttls, s.loops[u].inst), Acquired(s.rows, n, t, at, Ttl(s.ttls, i)), s.clock, s.loops[u], u)
    {
      assert GrantedAt(s.grants, u, s.loops[u].inst, s.loops[u].name);
      AcquireKeepsLoop(slack, s, i, n, t, at, u);
    }
  }

  lemma AcquireKeepsPendings(slack: Slack, s: State, i: Instance, n: Name, t: Token, at: Time)
    requires Good(slack, s) && at <= s.clock && t !in s.grants
    ensures PendingsAlive(slack, s.ttls, Acquired(s.rows, n, t, at, Ttl(s.ttls, i)), s.clock, s.grants, s.pending)
  {
    forall u | u in s.pending
      ensures PendingAlive(slack, Ttl(s.ttls, s.grants[u].inst), Acquired(s.rows, n, t, at, Ttl(s.ttls, i)), s.clock, s.grants[u], u)
    {
      AcquireKeepsPending(slack, s, i, n, t, at, u);
    }
  }

  /** One more acquisition that waits for its loop. */
  lemma PendingAdded(slack: Slack, ttls: map<Instance, nat>, rows: Rows, clock: Time, grants: map<Token, Grant>, pending: set<Token>, t: Token, g: Grant)
    requires PendingsAlive(slack, ttls, rows, clock, grants, pending) && t !in pending
    requires PendingAlive(slack, Ttl(ttls, g.inst), rows, clock, g, t)
    ensures PendingsAlive(slack, ttls, rows, clock, grants[t := g], pending + {t})
  {
  }

  lemma GrantKeepsAlive(slack: Slack, s: State, i: Instance, n: Name, t: Token, at: Time)
    requires Good(slack, s) && at <= s.clock <= at + slack.transit && t !in s.grants && Free(s.rows, n, at)
    ensures Alive(slack, DoAcquire(s, i, n, t, at))
  {
    var rows, g := Acquired(s.rows, n, t, at, Ttl(s.ttls, i)), Grant(i, n, at);
    AcquireKeepsLoops(slack, s, i, n, t, at, s.grants[t := g]);
    AcquireKeepsPendings(slack, s, i, n, t, at);
    AcquiredTakesFree(s.rows, n, t, at, Ttl(s.ttls, i));
    PendingAdded(slack, s.ttls, rows, s.clock, s.grants, s.pending, t, g);
  }

  lemma AcquireKeepsAlive(slack: Slack, s: State, i: Instance, n: Name, t: Token, at: Time)
    requires Good(slack, s) && at <= s.clock <= at + slack.transit
    ensures Alive(slack, DoAcquire(s, i, n, t, at))
  {
    if t !in s.grants {
      if Free(s.rows, n, at) {
        GrantKeepsAlive(slack, s, i, n, t, at);
      } else {
        AcquireKeepsLoops(slack, s, i, n, t, at, s.grants);
        AcquireKeepsPendings(slack, s, i, n, t, at);
      }
    }
  }

  lemma StartKeepsAlive(slack: Slack, s: State, t: Token)
    requires Good(slack, s)
    ensures Alive(slack, Apply(s, StartLease(t)))
  {
    if t in s.pending && t in s.grants {
      var i := s.grants[t].inst;
      assert RenewEvery(s.ttls, i) + 2 * (slack.late + slack.transit) < Ttl(s.ttls, i);
    }
  }

  /** A tick handled in time, and its statement, keep the loop's own row alive. */
  lemma LoopSends(slack: Slack, every: nat, rows: Rows, clock: Time, l: Loop, t: Token)
    requires LoopAlive(slack, every, rows, clock, l, t) && l.sending.None? && l.due <= clock
    ensures LoopAlive(slack, every, rows, clock, l.(due := l.due + every, sending := Some(clock)), t)
  {
  }

  lemma LoopExtends(slack: Slack, every: nat, ttl: nat, rows: Rows, clock: Time, l: Loop, t: Token)
    requires LoopAlive(slack, every, rows, clock, l, t) && l.sending.Some?
    requires every == ttl / 3 && every + 2 * (slack.late + slack.transit) < ttl
    ensures LoopAlive(slack, every, Extended(rows, l.name, t, l.sending.value + ttl), clock, l.(sending := None), t)
  {
  }

  /** An explicit renewal may shorten the lease, but not below the next renewal of the loop. */
  lemma RenewalLasts(slack: Slack, every: nat, rows: Rows, clock: Time, l: Loop, t: Token, lease: Time, read: Time)
    requires LoopAlive(slack, every, rows, clock, l, t)
    requires read <= clock <= read + slack.transit && every + slack.late + 2 * slack.transit < lease
    ensures LoopAlive(slack, every, Extended(rows, l.name, t, read + lease), clock, l, t)
  {
  }

  lemma LoopBeginKeepsAlive(slack: Slack, s: State, t: Token)
    requires Good(slack, s)
    ensures Alive(slack, Apply(s, LoopBegin(t)))
  {
    if t in s.loops && s.loops[t].sending.None? && s.loops[t].due <= s.clock && Held(s, t) {
      LoopSends(slack, RenewEvery(s.ttls, s.loops[t].inst), s.rows, s.clock, s.loops[t], t);
    }
  }

  /** Extending the row of a token that has a loop leaves every other row alone. */
  lemma ExtendKeepsPendings(slack: Slack, ttls: map<Instance, nat>, rows: Rows, clock: Time, grants: map<Token, Grant>,
                            pending: set<Token>, n: Name, t: Token, expires: Time)
    requires PendingsAlive(slack, ttls, rows, clock, grants, pending) && t !in pending
    ensures PendingsAlive(slack, ttls, Extended(rows, n, t, expires), clock, grants, pending)
  {
  }

  lemma ExtendKeepsLoops(slack: Slack, ttls: map<Instance, nat>, rows: Rows, clock: Time, grants: map<Token, Grant>,
                         released: set<Token>, loops: map<Token, Loop>, t: Token, l: Loop, expires: Time)
    requires LoopsAlive(slack, ttls, rows, clock, grants, released, loops)
    requires t !in released ==> LoopAlive(slack, RenewEvery(ttls, l.inst), Extended(rows, l.name, t, expires), clock, l, t)
    ensures LoopsAlive(slack, ttls, Extended(rows, l.name, t, expires), clock, grants, released, loops[t := l])
  {
  }

  lemma ExtendKeepsAlive(slack: Slack, s: State, t: Token, l: Loop, expires: Time)
    requires Alive(slack, s) && t in s.loops && t !in s.pending
    requires t !in s.released ==> LoopAlive(slack, RenewEvery(s.ttls, l.inst), Extended(s.rows, l.name, t, expires), s.clock, l, t)
    ensures Alive(slack, s.(rows := Extended(s.rows, l.name, t, expires), loops := s.loops[t := l]))
  {
    ExtendKeepsPendings(slack, s.ttls, s.rows, s.clock, s.grants, s.pending, l.name, t, expires);
    ExtendKeepsLoops(slack, s.ttls, s.rows, s.clock, s.grants, s.released, s.loops, t, l, expires);
    assert s.loops[t := l].Keys == s.loops.Keys;
  }

  lemma OwnCommitKeepsLoop(slack: Slack, s: State, t: Token)
    requires Good(slack, s) && t in s.loops && s.loops[t].sending.Some?
    ensures t !in s.pending
    ensures var l := s.loops[t]; var expires := l.sending.value + Ttl(s.ttls, l.inst);
      t !in s.released ==> LoopAlive(slack, RenewEvery(s.ttls, l.inst), Extended(s.rows, l.name, t, expires), s.clock, l.(sending := None), t)
  {
    var l := s.loops[t];
    if t !in s.released {
      assert GrantedAt(s.grants, t, l.inst, l.name);
      assert RenewEvery(s.ttls, l.inst) + 2 * (slack.late + slack.transit) < Ttl(s.ttls, l.inst);
      LoopExtends(slack, RenewEvery(s.ttls, l.inst), Ttl(s.ttls, l.inst), s.rows, s.clock, l, t);
    }
  }

  lemma LoopCommitKeepsAlive(slack: Slack, s: State, t: Token)
    requires Good(slack, s)
    ensures Alive(slack, DoLoopCommit(s, t))
  {
    if t in s.loops && s.loops[t].sending.Some? {
      var l := s.loops[t];
      var expires := l.sending.value + Ttl(s.ttls, l.inst);
      var s' := s.(rows := Extended(s.rows, l.name, t, expires), loops := s.loops[t := l.(sending := None)]);
      assert Alive(slack, s') by {
        OwnCommitKeepsLoop(slack, s, t);
        ExtendKeepsAlive(slack, s, t, l.(sending := None), expires);
      }
      assert DoLoopCommit(s, t) == s';
    }
  }

  lemma UnlockKeepsAlive(slack: Slack, s: State, op: Id, i: Instance, n: Name)
    requires Good(slack, s)
    ensures Alive(slack, Apply(s, UnlockBegin(op, i, n)))
  {
  }

  lemma RenewBeginKeepsAlive(slack: Slack, s: State, op: Id, i: Instance, n: Name, lease: Time)
    requires Good(slack, s) && (lease <= 0 || RenewEvery(s.ttls, i) + slack.late + 2 * slack.transit < lease)
    ensures Alive(slack, Apply(s, RenewBegin(op, i, n, lease)))
  {
    assert RenewEvery(s.ttls, i) + 2 * (slack.late + slack.transit) < Ttl(s.ttls, i);
  }

  lemma OwnRenewKeepsLoop(slack: Slack, s: State, op: Id)
    requires Good(slack, s) && op in s.ops && s.ops[op].Renew? && s.ops[op].read.Some?
    ensures var Renew(i, n, t, lease, read) := s.ops[op];
      t !in s.pending && t in s.loops && s.loops[t].inst == i && s.loops[t].name == n
      && (t !in s.released ==> LoopAlive(slack, RenewEvery(s.ttls, i), Extended(s.rows, n, t, read.value + lease), s.clock, s.loops[t], t))
  {
    var Renew(i, n, t, lease, read) := s.ops[op];
    assert OpAlive(slack, s.ttls, s.clock, s.ops[op]);
    assert GrantedAt(s.grants, t, i, n) && t in s.loops && GrantedAt(s.grants, t, s.loops[t].inst, s.loops[t].name);
    if t !in s.released {
      RenewalLasts(slack, RenewEvery(s.ttls, i), s.rows, s.clock, s.loops[t], t, lease, read.value);
    }
  }

  lemma OpDone(slack: Slack, ttls: map<Instance, nat>, clock: Time, ops: map<Id, Op>, released: set<Token>, id: Id)
    requires OpsAlive(slack, ttls, clock, ops, released)
    ensures OpsAlive(slack, ttls, clock, ops - {id}, released)
  {
  }

  lemma RenewedIsAlive(slack: Slack, s: State, op: Id)
    requires Good(slack, s) && op in s.ops && s.ops[op].Renew? && s.ops[op].read.Some?
    ensures Alive(slack, s.(rows := Extended(s.rows, s.ops[op].name, s.ops[op].owner, s.ops[op].read.value + s.ops[op].lease)))
  {
    var Renew(_, n, t, lease, read) := s.ops[op];
    OwnRenewKeepsLoop(slack, s, op);
    ExtendKeepsAlive(slack, s, t, s.loops[t], read.value + lease);
    assert s.loops[t := s.loops[t]] == s.loops;
  }

  lemma DoneKeepsAlive(slack: Slack, s: State, op: Id)
    requires Alive(slack, s)
    ensures Alive(slack, s.(ops := s.ops - {op}))
  {
    OpDone(slack, s.ttls, s.clock, s.ops, s.released, op);
  }

  lemma RenewCommitKeepsAlive(slack: Slack, s: State, op: Id)
    requires Good(slack, s) && op in s.ops && s.ops[op].Renew? && s.ops[op].read.Some?
    ensures Alive(slack, DoOpCommit(s, op))
  {
    RenewedIsAlive(slack, s, op);
    DoneKeepsAlive(slack, s.(rows := Extended(s.rows, s.ops[op].name, s.ops[op].owner, s.ops[op].read.value + s.ops[op].lease)), op);
  }

  lemma ReleaseCommitKeepsAlive(slack: Slack, s: State, op: Id)
    requires Good(slack, s) && op in s.ops && s.ops[op].Release?
    ensures Alive(slack, DoOpCommit(s, op))
  {
  }

  lemma CommitKeepsAlive(slack: Slack, s: State, op: Id)
    requires Good(slack, s)
    ensures Alive(slack, DoOpCommit(s, op))
  {
    if op in s.ops {
      match s.ops[op]
      case Acquire(i, n, t, at) =>
        assert OpAlive(slack, s.ttls, s.clock, s.ops[op]);
        AcquireKeepsAlive(slack, s, i, n, t, at);
      case Release(_, _, _) => ReleaseCommitKeepsAlive(slack, s, op);
      case Renew(_, _, _, _, read) =>
        if read.Some? {
          RenewCommitKeepsAlive(slack, s, op);
        }
    }
  }

  lemma TickKeepsAlive(slack: Slack, s: State, d: nat)
    requires Good(slack, s) && InTime(slack, s, s.clock + d)
    ensures Alive(slack, Apply(s, Tick(d)))
  {
  }

  lemma OpAdded(slack: Slack, ttls: map<Instance, nat>, clock: Time, ops: map<Id, Op>, released: set<Token>, id: Id, op: Op)
    requires OpsAlive(slack, ttls, clock, ops, released) && OpAlive(slack, ttls, clock, op) && !op.Release?
    ensures OpsAlive(slack, ttls, clock, ops[id := op], released)
  {
  }

  lemma AcquireBeginKeepsAlive(slack: Slack, s: State, op: Id, i: Instance, n: Name, t: Token)
    requires Good(slack, s)
    ensures Alive(slack, Apply(s, AcquireBegin(op, i, n, t)))
  {
    OpAdded(slack, s.ttls, s.clock, s.ops, s.released, op, Acquire(i, n, t, s.clock));
  }

  lemma RenewReadKeepsAlive(slack: Slack, s: State, op: Id)
    requires Good(slack, s)
    ensures Alive(slack, Apply(s, RenewRead(op)))
  {
    if op in s.ops && s.ops[op].Renew? && s.ops[op].read.None? {
      assert OpAlive(slack, s.ttls, s.clock, s.ops[op]);
      OpAdded(slack, s.ttls, s.clock, s.ops, s.released, op, s.ops[op].(read := Some(s.clock)));
    }
  }

  lemma LoopCommitStep(slack: Slack, s: State, t: Token)
    requires Good(slack, s)
    ensures Alive(slack, Apply(s, LoopCommit(t)))
  {
    LoopCommitKeepsAlive(slack, s, t);
  }

  lemma OpCommitStep(slack: Slack, s: State, op: Id)
    requires Good(slack, s)
    ensures Alive(slack, Apply(s, OpCommit(op)))
  {
    CommitKeepsAlive(slack, s, op);
  }

  lemma StepKeepsAlive(slack: Slack, s: State, step: Step)
    requires Good(slack, s) && Punctual(slack, s, step)
    ensures Alive(slack, Apply(s, step))
  {
    match step
    case Tick(d) => TickKeepsAlive(slack, s, d);
    case AcquireBegin(op, i, n, t) => AcquireBeginKeepsAlive(slack, s, op, i, n, t);
    case StartLease(t) => StartKeepsAlive(slack, s, t);
    case LoopBegin(t) => LoopBeginKeepsAlive(slack, s, t);
    case LoopCommit(t) => LoopCommitStep(slack, s, t);
    case UnlockBegin(op, i, n) => UnlockKeepsAlive(slack, s, op, i, n);
    case RenewBegin(op, i, n, lease) => RenewBeginKeepsAlive(slack, s, op, i, n, lease);
    case RenewRead(op) => RenewReadKeepsAlive(slack, s, op);
    case OpCommit(op) => OpCommitStep(slack, s, op);
  }

  lemma StepKeepsGood(slack: Slack, s: State, step: Step)
    requires Good(slack, s)
    ensures Good(slack, PunctualApply(slack, s, step))
  {
    StepKeepsFence(s, step);
    if Punctual(slack, s, step) {
      StepKeepsAlive(slack, s, step);
    }
  }

  /**
   Mutual exclusion: with loops that start and tick at most `late`, and statements that take
   at most `transit`, and a third of every lease plus twice their sum below the lease, no two
   unreleased tokens ever hold one name, and the one that does has an unexpired row.
   */
  lemma MutualExclusion(slack: Slack, states: seq<State>, steps: seq<Step>, k: nat, t: Token, u: Token)
    requires IsRun(s => Start(s) && LeasesFit(slack, s.ttls), (s, step) => PunctualApply(slack, s, step), states, steps)
    requires k < |states| && Held(states[k], t) && Held(states[k], u)
    requires states[k].grants[t].name == states[k].grants[u].name
    ensures t == u
    ensures var n := states[k].grants[t].name;
      Owned(states[k].rows, n, t) && states[k].clock < states[k].rows[n].expires
  {
    var start := s => Start(s) && LeasesFit(slack, s.ttls);
    var next := (s, step) => PunctualApply(slack, s, step);
    forall s, step | Good(slack, s) ensures Good(slack, PunctualApply(slack, s, step)) {
      StepKeepsGood(slack, s, step);
    }
    Invariant(start, next, s => Good(slack, s), states, steps, k);
    HeldIsAlive(slack, states[k], t);
    HeldIsAlive(slack, states[k], u);
  }
}
