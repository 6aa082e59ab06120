/** What the steps of `LeaseRuns` do to the rows, the grants and the renewal loops. */
module LeaseSteps {
  import opened Common
  import opened LeaseRuns
  import opened LockTable
  import opened Runs

  /** The step commits an acquisition of a token that was not granted before. */
  predicate Acquires(s: State, step: Step, t: Token) {
    step.OpCommit? && step.op in s.ops && s.ops[step.op].Acquire? && s.ops[step.op].owner == t && t !in s.grants
  }

  predicate Releases(s: State, step: Step, t: Token) {
    step.OpCommit? && step.op in s.ops && s.ops[step.op].Release? && s.ops[step.op].owner == t
  }

  /** The step commits a renewal of `t`: the loop's, or an explicit one that has read the clock. */
  predicate Renews(s: State, step: Step, t: Token) {
    || (step.LoopCommit? && step.owner == t && t in s.loops && s.loops[t].sending.Some?)
    || (step.OpCommit? && step.op in s.ops && s.ops[step.op].Renew? && s.ops[step.op].owner == t && s.ops[step.op].read.Some?)
  }

  /** The expiry that a renewal asks for: its clock reading plus its lease time. */
  function AskedExpiry(s: State, step: Step, t: Token): Time
    requires Renews(s, step, t)
  {
    if step.LoopCommit? then
      var l := s.loops[t];
      l.sending.value + if l.inst in s.ttls && s.ttls[l.inst] > 0 then s.ttls[l.inst] else 30
    else s.ops[step.op].read.value + s.ops[step.op].lease
  }

  /** The step deletes rows that had expired at its clock reading, `n`'s among them. */
  predicate Purges(s: State, step: Step, n: Name) {
    && step.OpCommit? && step.op in s.ops && s.ops[step.op].Acquire? && s.ops[step.op].owner !in s.grants
    && n in s.rows && s.rows[n].expires <= s.ops[step.op].at
  }

  // ---------- the table ----------

  /** In every run, once a release of `t` has committed no row is owned by `t` again, and no other row was touched. */
  lemma ReleaseFrees(states: seq<State>, steps: seq<Step>, i: nat, j: nat, t: Token, n: Name)
    requires IsRun(Start, Apply, states, steps) && i < j < |states| && Releases(states[i], steps[i], t)
    ensures n in states[j].rows ==> states[j].rows[n].owner != t
    ensures n in states[i].rows && states[i].rows[n].owner != t ==>
      n in states[i + 1].rows && states[i + 1].rows[n] == states[i].rows[n]
  {
    RunKeepsFence(states, steps, i);
    assert Took(Apply, states, steps, i);
    ReleaseLoses(states[i], steps[i], t);
    LostForGood(states, steps, i + 1, j, t);
  }

  lemma ReleaseLoses(s: State, step: Step, t: Token)
    requires Fenced(s) && Releases(s, step, t)
    ensures Lost(Apply(s, step), t)
    ensures forall n :: n in s.rows && s.rows[n].owner != t ==> n in Apply(s, step).rows && Apply(s, step).rows[n] == s.rows[n]
  {
    var Release(_, name, _) := s.ops[step.op];
    assert GrantedAt(s.grants, t, s.ops[step.op].inst, name);
    forall n | n in Apply(s, step).rows
      ensures Apply(s, step).rows[n].owner != t
    {
      assert s.rows[n].owner in s.grants && s.grants[s.rows[n].owner].name == n;
    }
  }

  /** An acquisition is granted exactly if no row of its name was unexpired at its reading, and lasts from there. */
  lemma AcquireDecides(s: State, step: Step, t: Token)
    requires Acquires(s, step, t)
    ensures var Acquire(inst, name, _, at) := s.ops[step.op];
      var ttl := if inst in s.ttls && s.ttls[inst] > 0 then s.ttls[inst] else 30;
      var s' := Apply(s, step);
      if name !in s.rows || s.rows[name].expires <= at
      then s'.grants == s.grants[t := Grant(inst, name, at)] && t in s'.pending && name in s'.rows && s'.rows[name] == Lease(t, at + ttl)
      else s'.grants == s.grants && s'.pending == s.pending && name in s'.rows && s'.rows[name] == s.rows[name]
  {
    var Acquire(inst, name, _, at) := s.ops[step.op];
    if Free(s.rows, name, at) {
      AcquiredTakesFree(s.rows, name, t, at, Ttl(s.ttls, inst));
    } else {
      AcquiredSpares(s.rows, name, t, at, Ttl(s.ttls, inst), name);
    }
  }

  /** It deletes the other rows that had expired at its reading, and no more. */
  lemma AcquirePurges(s: State, step: Step, t: Token, n: Name)
    requires Acquires(s, step, t) && n != s.ops[step.op].name
    ensures n in Apply(s, step).rows <==> n in s.rows && s.ops[step.op].at < s.rows[n].expires
    ensures n in Apply(s, step).rows ==> Apply(s, step).rows[n] == s.rows[n]
  {
    var Acquire(inst, name, _, at) := s.ops[step.op];
    AcquiredPurges(s.rows, name, t, at, Ttl(s.ttls, inst), n);
  }

  /** A renewal moves the expiry of the row its token has, if it still has one, and nothing else. */
  lemma RenewMoves(s: State, step: Step, t: Token)
    requires Fenced(s) && Renews(s, step, t)
    ensures var s' := Apply(s, step);
      && s'.grants == s.grants && s'.rows.Keys == s.rows.Keys
      && forall n :: n in s.rows ==>
           s'.rows[n] == if s.rows[n].owner == t then Lease(t, AskedExpiry(s, step, t)) else s.rows[n]
  {
    if step.LoopCommit? {
      LoopRenewMoves(s, t);
    } else {
      OpRenewMoves(s, step.op);
    }
  }

  lemma ExtendMoves(rows: Rows, grants: map<Token, Grant>, name: Name, t: Token, expires: Time)
    requires RowsOk(rows, grants) && t in grants && grants[t].name == name
    ensures var rows' := Extended(rows, name, t, expires);
      && rows'.Keys == rows.Keys
      && forall n :: n in rows ==> rows'[n] == if rows[n].owner == t then Lease(t, expires) else rows[n]
  {
  }

  lemma LoopRenewMoves(s: State, t: Token)
    requires Fenced(s) && t in s.loops && s.loops[t].sending.Some?
    ensures DoLoopCommit(s, t).grants == s.grants
    ensures DoLoopCommit(s, t).rows.Keys == s.rows.Keys
    ensures forall n :: n in s.rows ==>
      DoLoopCommit(s, t).rows[n] == if s.rows[n].owner == t then Lease(t, AskedExpiry(s, LoopCommit(t), t)) else s.rows[n]
  {
    var l := s.loops[t];
    assert GrantedAt(s.grants, t, l.inst, l.name);
    ExtendMoves(s.rows, s.grants, l.name, t, l.sending.value + Ttl(s.ttls, l.inst));
  }

  lemma OpRenewMoves(s: State, op: Id)
    requires Fenced(s) && op in s.ops && s.ops[op].Renew? && s.ops[op].read.Some?
    ensures DoOpCommit(s, op).grants == s.grants
    ensures DoOpCommit(s, op).rows.Keys == s.rows.Keys
    ensures var t := s.ops[op].owner; forall n :: n in s.rows ==>
      DoOpCommit(s, op).rows[n] == if s.rows[n].owner == t then Lease(t, s.ops[op].read.value + s.ops[op].lease) else s.rows[n]
  {
    var Renew(i, n, t, lease, read) := s.ops[op];
    assert GrantedAt(s.grants, t, i, n);
    ExtendMoves(s.rows, s.grants, n, t, read.value + lease);
  }

  lemma OtherStepsLeaveTable(s: State, step: Step)
    requires !step.OpCommit? && !step.LoopCommit?
    ensures Apply(s, step).rows == s.rows && Apply(s, step).grants == s.grants
  {
  }

  lemma IdleCommitLeavesTable(s: State, step: Step)
    requires step.OpCommit? || step.LoopCommit?
    requires forall t :: !Acquires(s, step, t) && !Releases(s, step, t) && !Renews(s, step, t)
    ensures Apply(s, step).rows == s.rows && Apply(s, step).grants == s.grants
  {
    if step.OpCommit? {
      if step.op in s.ops {
        var t := s.ops[step.op].owner;
        assert !Acquires(s, step, t) && !Releases(s, step, t) && !Renews(s, step, t);
      }
    } else {
      assert !Renews(s, step, step.owner);
    }
  }

  /** In every run, `t` loses its row at a step exactly if that step releases it or purges it as expired. */
  lemma RowLeavesIff(states: seq<State>, steps: seq<Step>, i: nat, n: Name)
    requires IsRun(Start, Apply, states, steps) && i < |steps| && n in states[i].rows
    ensures Owned(states[i + 1].rows, n, states[i].rows[n].owner) <==>
      !Releases(states[i], steps[i], states[i].rows[n].owner) && !Purges(states[i], steps[i], n)
  {
    RunKeepsFence(states, steps, i);
    assert Took(Apply, states, steps, i);
    RowStays(states[i], steps[i], n);
  }

  lemma RowStays(s: State, step: Step, n: Name)
    requires Fenced(s) && n in s.rows
    ensures Owned(Apply(s, step).rows, n, s.rows[n].owner) <==> !Releases(s, step, s.rows[n].owner) && !Purges(s, step, n)
  {
    assert s.rows[n].owner in s.grants;
    if t :| Acquires(s, step, t) {
      if n == s.ops[step.op].name {
        AcquireDecides(s, step, t);
      } else {
        AcquirePurges(s, step, t, n);
      }
    } else if t :| Releases(s, step, t) {
      ReleaseLoses(s, step, t);
    } else if t :| Renews(s, step, t) {
      RenewMoves(s, step, t);
    } else if step.OpCommit? || step.LoopCommit? {
      IdleCommitLeavesTable(s, step);
    } else {
      OtherStepsLeaveTable(s, step);
    }
  }

  /** In every run, a token is granted at a step exactly if that step acquires it and its name is free at the reading. */
  lemma GrantedIff(states: seq<State>, steps: seq<Step>, i: nat, t: Token)
    requires IsRun(Start, Apply, states, steps) && i < |steps| && t !in states[i].grants
    ensures var s, step := states[i], steps[i];
      t in states[i + 1].grants <==>
        Acquires(s, step, t) && (s.ops[step.op].name !in s.rows || s.rows[s.ops[step.op].name].expires <= s.ops[step.op].at)
  {
    RunKeepsFence(states, steps, i);
    assert Took(Apply, states, steps, i);
    GrantNeedsFree(states[i], steps[i], t);
  }

  lemma GrantNeedsFree(s: State, step: Step, t: Token)
    requires Fenced(s) && t !in s.grants
    ensures t in Apply(s, step).grants <==>
      Acquires(s, step, t) && (s.ops[step.op].name !in s.rows || s.rows[s.ops[step.op].name].expires <= s.ops[step.op].at)
  {
    if u :| Acquires(s, step, u) {
      AcquireDecides(s, step, u);
    } else if u :| Releases(s, step, u) {
    } else if u :| Renews(s, step, u) {
      RenewMoves(s, step, u);
    } else if step.OpCommit? || step.LoopCommit? {
      IdleCommitLeavesTable(s, step);
    } else {
      OtherStepsLeaveTable(s, step);
    }
  }

  // ---------- the instances ----------

  /** Once acquired, the instance owns the name and renews it every third of its lease; its previous loop is cancelled. */
  lemma StartRecords(s: State, t: Token, u: Token)
    requires Fenced(s) && t in s.pending
    ensures var Grant(i, n, _) := s.grants[t];
      var every := (if i in s.ttls && s.ttls[i] > 0 then s.ttls[i] else 30) / 3;
      var s' := Apply(s, StartLease(t));
      && (i, n) in s'.owners && s'.owners[(i, n)] == t && t !in s'.pending
      && t in s'.loops && s'.loops[t] == Loop(i, n, s.clock + every, false, None)
      && (u != t ==> (u in s'.loops <==> u in s.loops))
      && (u in s.loops && u != t ==>
            s'.loops[u] == if s.loops[u].inst == i && s.loops[u].name == n then s.loops[u].(cancelled := true) else s.loops[u])
  {
    if u in s.loops && u != t && s.loops[u].inst == s.grants[t].inst && s.loops[u].name == s.grants[t].name && !s.loops[u].cancelled {
      assert s.owners[(s.loops[u].inst, s.loops[u].name)] == u;
    }
    if (s.grants[t].inst, s.grants[t].name) in s.owners {
      var v := s.owners[(s.grants[t].inst, s.grants[t].name)];
      assert GrantedAt(s.grants, v, s.grants[t].inst, s.grants[t].name);
      assert v in s.loops && GrantedAt(s.grants, v, s.loops[v].inst, s.loops[v].name);
    }
  }

  /** A loop that is due and idle sends the clock's reading and is due again a third of the lease later. */
  lemma LoopTicks(s: State, t: Token)
    requires t in s.loops
    ensures var l, l' := s.loops[t], Apply(s, LoopBegin(t)).loops[t];
      var every := (if l.inst in s.ttls && s.ttls[l.inst] > 0 then s.ttls[l.inst] else 30) / 3;
      if l.sending.None? && l.due <= s.clock then l' == l.(due := l.due + every, sending := Some(s.clock)) else l' == l
  {
  }

  lemma LoopSent(s: State, t: Token)
    requires t in s.loops && s.loops[t].sending.Some?
    ensures Apply(s, LoopCommit(t)).loops[t] == s.loops[t].(sending := None)
  {
  }

  /** An unlock forgets the owner, cancels its loop and sends the release of exactly that token. */
  lemma UnlockSends(s: State, op: Id, i: Instance, n: Name)
    requires Fenced(s) && op !in s.ops && (i, n) in s.owners
    ensures var t, s' := s.owners[(i, n)], Apply(s, UnlockBegin(op, i, n));
      && (i, n) !in s'.owners && t in s'.loops && s'.loops[t] == s.loops[t].(cancelled := true)
      && op in s'.ops && s'.ops[op] == Release(i, n, t) && t in s'.released && s'.rows == s.rows
  {
    assert s.owners[(i, n)] in s.loops;
  }

  /** An explicit renewal is for the owner at the lookup; no positive lease time means the instance's own. */
  lemma RenewSends(s: State, op: Id, i: Instance, n: Name, lease: Time)
    requires op !in s.ops && (i, n) in s.owners
    ensures var s' := Apply(s, RenewBegin(op, i, n, lease));
      op in s'.ops && s'.ops[op] ==
        Renew(i, n, s.owners[(i, n)], if lease > 0 then lease else if i in s.ttls && s.ttls[i] > 0 then s.ttls[i] else 30, None)
  {
  }

  /** An instance that does not own the name sends nothing. */
  lemma StrangerSendsNothing(s: State, op: Id, i: Instance, n: Name, lease: Time)
    requires (i, n) !in s.owners
    ensures Apply(s, UnlockBegin(op, i, n)) == s && Apply(s, RenewBegin(op, i, n, lease)) == s
  {
  }

  /** A statement's reading is the clock at its reading, and stays it. */
  lemma ReadingIsClock(s: State, op: Id, i: Instance, n: Name, t: Token)
    ensures op !in s.ops ==>
      var s' := Apply(s, AcquireBegin(op, i, n, t)); op in s'.ops && s'.ops[op] == Acquire(i, n, t, s.clock)
    ensures op in s.ops && s.ops[op].Renew? && s.ops[op].read.None? ==>
      var s' := Apply(s, RenewRead(op)); op in s'.ops && s'.ops[op] == s.ops[op].(read := Some(s.clock))
  {
  }

  // ---------- how long a grant lasts ----------

  /** Readings are of the past. */
  ghost predicate ReadingsPast(ops: map<Id, Op>, clock: Time) {
    forall op :: op in ops && ops[op].Acquire? ==> ops[op].at <= clock
  }

  /** A statement that commits is done; a renewal waits for its reading. */
  lemma CommitEnds(s: State, op: Id)
    ensures DoOpCommit(s, op).clock == s.clock && DoOpCommit(s, op).ttls == s.ttls
    ensures DoOpCommit(s, op).ops ==
      if op in s.ops && s.ops[op].Renew? && s.ops[op].read.None? then s.ops else s.ops - {op}
  {
    if op in s.ops {
      match s.ops[op]
      case Acquire(i, n, t, at) => AcquireLeavesClock(s, i, n, t, at);
      case Release(_, _, _) =>
      case Renew(_, _, _, _, _) =>
    } else {
      assert s.ops - {op} == s.ops;
    }
  }

  lemma AcquireLeavesClock(s: State, i: Instance, n: Name, t: Token, at: Time)
    ensures DoAcquire(s, i, n, t, at).clock == s.clock && DoAcquire(s, i, n, t, at).ttls == s.ttls
  {
    if t in s.grants {
      assert DoAcquire(s, i, n, t, at) == s;
    } else if Free(s.rows, n, at) {
      RowsLeaveClock(s, Acquired(s.rows, n, t, at, Ttl(s.ttls, i)), s.grants[t := Grant(i, n, at)], s.pending + {t});
    } else {
      RowsLeaveClock(s, Acquired(s.rows, n, t, at, Ttl(s.ttls, i)), s.grants, s.pending);
    }
  }

  lemma RowsLeaveClock(s: State, rows: Rows, grants: map<Token, Grant>, pending: set<Token>)
    ensures var s' := s.(rows := rows, grants := grants, pending := pending); s'.clock == s.clock && s'.ttls == s.ttls
  {
  }

  lemma StepKeepsReadings(s: State, step: Step)
    requires ReadingsPast(s.ops, s.clock)
    ensures ReadingsPast(Apply(s, step).ops, Apply(s, step).clock)
  {
    if step.OpCommit? {
      CommitEnds(s, step.op);
    }
  }

  lemma RunKeepsReadings(states: seq<State>, steps: seq<Step>, i: nat)
    requires IsRun(Start, Apply, states, steps) && i < |states|
    ensures ReadingsPast(states[i].ops, states[i].clock)
  {
    forall s: State, step: Step | ReadingsPast(s.ops, s.clock)
      ensures ReadingsPast(Apply(s, step).ops, Apply(s, step).clock)
    {
      StepKeepsReadings(s, step);
    }
    Invariant(Start, Apply, (s: State) => ReadingsPast(s.ops, s.clock), states, steps, i);
  }

  /** `t` has its row at least until `until`, and its loop sends no reading before that of its grant. */
  ghost predicate Lasts(s: State, t: Token, g: Grant, until: Time) {
    && t in s.grants && s.grants[t] == g && g.at <= s.clock
    && until == g.at + Ttl(s.ttls, g.inst)
    && Owned(s.rows, g.name, t) && until <= s.rows[g.name].expires
    && (t in s.loops && s.loops[t].sending.Some? ==> g.at <= s.loops[t].sending.value)
  }

  lemma {:induction false} ClockAdvances(states: seq<State>, steps: seq<Step>, i: nat, j: nat)
    requires IsRun(Start, Apply, states, steps) && i <= j < |states|
    ensures states[i].clock <= states[j].clock && states[i].ttls == states[j].ttls
    decreases j
  {
    if i < j {
      ClockAdvances(states, steps, i, j - 1);
      assert Took(Apply, states, steps, j - 1);
      ClockStep(states[j - 1], steps[j - 1]);
    }
  }

  lemma ClockStep(s: State, step: Step)
    ensures Apply(s, step).clock == s.clock + if step.Tick? then step.d else 0
    ensures Apply(s, step).ttls == s.ttls
  {
    if step.OpCommit? {
      CommitEnds(s, step.op);
    }
  }

  lemma LoopReadingStep(s: State, step: Step, t: Token, at: Time)
    requires t in s.grants && at <= s.clock
    requires t in s.loops && s.loops[t].sending.Some? ==> at <= s.loops[t].sending.value
    ensures var l := Apply(s, step).loops; t in l && l[t].sending.Some? ==> at <= l[t].sending.value
  {
  }

  lemma LastingStep(s: State, step: Step, t: Token, g: Grant, until: Time)
    requires Fenced(s) && ReadingsPast(s.ops, s.clock) && Lasts(s, t, g, until) && s.clock < until
    requires !Releases(s, step, t) && (Renews(s, step, t) ==> step.LoopCommit?)
    ensures Lasts(Apply(s, step), t, g, until)
  {
    ClockStep(s, step);
    LoopReadingStep(s, step, t, g.at);
    if u :| Acquires(s, step, u) {
      AcquireDecides(s, step, u);
      if g.name != s.ops[step.op].name {
        AcquirePurges(s, step, u, g.name);
      }
    } else if u :| Releases(s, step, u) {
      ReleaseLoses(s, step, u);
    } else if u :| Renews(s, step, u) {
      RenewMoves(s, step, u);
      assert t in s.loops ==> GrantedAt(s.grants, t, s.loops[t].inst, s.loops[t].name);
    } else if step.OpCommit? || step.LoopCommit? {
      IdleCommitLeavesTable(s, step);
    } else {
      OtherStepsLeaveTable(s, step);
    }
  }

  /**
   In every run, a fresh token whose name is free at its reading is granted when it commits,
   and owns the row as long as the clock is below that reading plus the lease time: with no
   release and no explicit renewal of it, nobody else is granted the name until then.
   */
  lemma {:induction false} GrantLasts(states: seq<State>, steps: seq<Step>, i: nat, j: nat, t: Token)
    requires IsRun(Start, Apply, states, steps) && i < j < |states| && Acquires(states[i], steps[i], t)
    requires var op := states[i].ops[steps[i].op]; op.name !in states[i].rows || states[i].rows[op.name].expires <= op.at
    requires forall k: nat :: i < k < j ==>
      !Releases(states[k], steps[k], t) && (Renews(states[k], steps[k], t) ==> steps[k].LoopCommit?)
    ensures var Acquire(inst, n, _, at) := states[i].ops[steps[i].op];
      var until := at + if inst in states[i].ttls && states[i].ttls[inst] > 0 then states[i].ttls[inst] else 30;
      (i + 1 == j || states[j - 1].clock < until) ==> Lasts(states[j], t, Grant(inst, n, at), until)
    decreases j
  {
    var Acquire(inst, n, _, at) := states[i].ops[steps[i].op];
    RunKeepsFence(states, steps, j - 1);
    RunKeepsReadings(states, steps, j - 1);
    assert Took(Apply, states, steps, j - 1);
    if i + 1 == j {
      AcquireDecides(states[i], steps[i], t);
      ClockStep(states[i], steps[i]);
      GrantHasNoLoop(states[i], steps[i], t);
    } else if states[j - 1].clock < at + Ttl(states[i].ttls, inst) {
      GrantLasts(states, steps, i, j - 1, t);
      ClockAdvances(states, steps, j - 2, j - 1);
      LastingStep(states[j - 1], steps[j - 1], t, Grant(inst, n, at), at + Ttl(states[i].ttls, inst));
    }
  }

  lemma GrantHasNoLoop(s: State, step: Step, t: Token)
    requires Fenced(s) && Acquires(s, step, t)
    ensures t !in Apply(s, step).loops
  {
    assert t !in s.loops;
  }
}
