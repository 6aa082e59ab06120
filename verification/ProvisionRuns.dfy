/**
 A node agent joining the hub: every run of enrollment, key generation, bootstrap and
 saving, over retries, crashes at any point and restarts from the saved state.
 */
module ProvisionRuns {
  import opened Common
  import opened Runs

  datatype Tunnel = Tunnel(ip: string, serverKey: string, endpoint: string, keepalive: int, other: string)

  datatype Agent = Agent(nodeId: nat, token: string, privateKey: string, publicKey: string, tunnel: Tunnel)

  const NO_TUNNEL := Tunnel("", "", "", 0, "")
  const EMPTY := Agent(0, "", "", "", NO_TUNNEL)

  datatype Error = Status(code: int) | Other

  predicate Retryable(e: Error) {
    match e
    case Status(code) => code == 409 || code == 412 || code == 429 || code >= 500
    case Other => true
  }

  predicate Enrolled(a: Option<Agent>) {
    a.Some? && a.value.nodeId > 0 && a.value.token != ""
  }

  predicate HasKeys(a: Agent) {
    a.privateKey != "" && a.publicKey != ""
  }

  predicate Provisioned(a: Option<Agent>) {
    && Enrolled(a) && a.value.privateKey != ""
    && a.value.tunnel.ip != "" && a.value.tunnel.serverKey != "" && a.value.tunnel.endpoint != ""
  }

  /** Where the process is. Ended is one that gave up on an error, Down one that is gone. */
  datatype Point =
    Down | Begin | SavingEnrollment | Keys | SavingKeys | Sending | Awaiting | SavingTunnel | Clearing | Running | Ended

  /** A public key on its way to the hub, its private half, and the state file at that moment. */
  datatype Sent = Sent(epoch: nat, privateKey: string, publicKey: string, file: Option<Agent>, unsaved: bool)

  /**
   The epoch counts how often the saved enrollment was cleared. `enrollmentUnsaved` and
   `keysUnsaved`: there is an enrollment that no save has covered yet; a save of the keys
   failed and none has succeeded since. `enrollmentLost`: in this epoch a process was gone
   before its enrollment was saved.
   */
  datatype State = State(
    point: Point, memory: Option<Agent>, disk: Option<Agent>, epoch: nat, enrolls: seq<nat>, sends: seq<Sent>,
    enrollmentUnsaved: bool, keysUnsaved: bool, enrollmentLost: bool)

  function Fresh(disk: Option<Agent>): State {
    State(Down, None, disk, 0, [], [], false, false, false)
  }

  /** A process about to start over any file whatsoever. */
  ghost predicate Start(s: State) {
    s == Fresh(s.disk)
  }

  datatype Step =
    | Launch
    | Enroll(nodeId: nat, token: string)
    | EnrollFails(error: Error)
    | Resume
    | Generate(privateKey: string, publicKey: string)
    | GenerateFails
    | Send
    | Accepted(tunnel: Tunnel)
    | Refused(error: Error)
    | Save
    | SaveFails
    | Crash

  /** The process is gone, and with it what it had in memory. */
  function Stopped(s: State): State {
    s.(point := Down, memory := None, enrollmentUnsaved := false, keysUnsaved := false,
       enrollmentLost := s.enrollmentLost || s.enrollmentUnsaved)
  }

  function Saved(s: State): State {
    s.(disk := s.memory, enrollmentUnsaved := false, keysUnsaved := false)
  }

  function Apply(s: State, step: Step): State {
    match step
    case Launch =>
      if s.point != Down && s.point != Ended then s
      else Stopped(s).(point := if Provisioned(s.disk) then Running else Begin, memory := s.disk)
    case Enroll(nodeId, token) =>
      if s.point != Begin || Enrolled(s.memory) then s
      else s.(point := SavingEnrollment, memory := Some(EMPTY.(nodeId := nodeId, token := token)), enrolls := s.enrolls + [s.epoch],
              enrollmentUnsaved := true)
    case EnrollFails(error) =>
      if s.point != Begin || Enrolled(s.memory) || Retryable(error) then s else s.(point := Ended)
    case Resume =>
      if s.point != Begin || !Enrolled(s.memory) then s else s.(point := Keys)
    case Generate(privateKey, publicKey) =>
      if s.point != Keys || s.memory.None? || HasKeys(s.memory.value) then s
      else s.(point := SavingKeys, memory := Some(s.memory.value.(privateKey := privateKey, publicKey := publicKey)))
    case GenerateFails =>
      if s.point != Keys || s.memory.None? || HasKeys(s.memory.value) then s else s.(point := Begin)
    case Send =>
      if s.memory.None? || !(s.point == Sending || (s.point == Keys && HasKeys(s.memory.value))) then s
      else s.(point := Awaiting, sends := s.sends + [Sent(s.epoch, s.memory.value.privateKey, s.memory.value.publicKey, s.disk, s.keysUnsaved)])
    case Accepted(tunnel) =>
      if s.point != Awaiting || s.memory.None? then s
      else s.(point := SavingTunnel, memory := Some(s.memory.value.(tunnel := tunnel)))
    case Refused(error) =>
      if s.point != Awaiting then s
      else if Retryable(error) then s.(point := Begin)
      else if error == Status(401) || error == Status(404) then s.(point := Clearing)
      else s.(point := Ended)
    case Save =>
      (match s.point
       case SavingEnrollment => Saved(s).(point := Keys)
       case SavingKeys => Saved(s).(point := Sending)
       case SavingTunnel => Saved(s).(point := Running)
       case Clearing => Stopped(s).(disk := Some(EMPTY), epoch := s.epoch + 1, enrollmentLost := false)
       case _ => s)
    case SaveFails =>
      (match s.point
       case SavingEnrollment => s.(point := Begin)
       case SavingKeys => s.(point := Begin, keysUnsaved := true)
       case SavingTunnel => s.(point := Begin)
       case Clearing => Stopped(s)
       case _ => s)
    case Crash => Stopped(s)
  }

  /** Replies name a node and a token, and key pairs are there. */
  predicate WellFormed(step: Step) {
    match step
    case Enroll(nodeId, token) => nodeId > 0 && token != ""
    case Generate(privateKey, publicKey) => privateKey != "" && publicKey != ""
    case _ => true
  }

  /**
   Moreover every save succeeds, unless it was to clear the file, and no crash comes
   between an enroll reply and its save.
   */
  predicate Careful(s: State, step: Step) {
    && WellFormed(step)
    && (step.SaveFails? ==> s.point == Clearing)
    && (step.Crash? ==> s.point != SavingEnrollment)
  }

  function Next(s: State, step: Step): State {
    if Careful(s, step) then Apply(s, step) else s
  }

  function WellFormedNext(s: State, step: Step): State {
    if WellFormed(step) then Apply(s, step) else s
  }

  ghost predicate Increasing(ns: seq<nat>) {
    forall i, j :: 0 <= i < j < |ns| ==> ns[i] < ns[j]
  }

  predicate SameKeys(a: Agent, sent: Sent) {
    a.privateKey == sent.privateKey && a.publicKey == sent.publicKey
  }

  /** The file holds an enrolled node with the key pair that was sent. */
  predicate Filed(file: Option<Agent>, sent: Sent) {
    Enrolled(file) && HasKeys(file.value) && SameKeys(file.value, sent)
  }

  /** What memory and file have in common at each point. */
  ghost predicate InStep(point: Point, memory: Option<Agent>, disk: Option<Agent>) {
    match point
    case Down => memory == None
    case Begin => memory == disk
    case SavingEnrollment => Enrolled(memory) && !Enrolled(disk)
    case Keys => memory == disk && Enrolled(disk)
    case SavingKeys => Enrolled(memory) && HasKeys(memory.value) && Enrolled(disk) && !HasKeys(disk.value)
    case Sending => memory == disk && Enrolled(disk) && HasKeys(disk.value)
    case Awaiting => memory == disk && Enrolled(disk) && HasKeys(disk.value)
    case SavingTunnel =>
      && Enrolled(memory) && Enrolled(disk) && HasKeys(disk.value)
      && memory.value == disk.value.(tunnel := memory.value.tunnel)
    case Clearing => memory == disk
    case Running => memory == disk && Enrolled(disk)
    case Ended => memory == disk
  }

  /** An epoch that has its enrollment keeps it: on file, or about to be. */
  ghost predicate EnrollsFit(point: Point, disk: Option<Agent>, epoch: nat, enrolls: seq<nat>) {
    && Increasing(enrolls) && (forall e :: e in enrolls ==> e <= epoch)
    && (epoch in enrolls ==> point == SavingEnrollment || Enrolled(disk))
  }

  /** Every key pair was on file when sent, and those of this epoch still are. */
  ghost predicate SendsFit(disk: Option<Agent>, epoch: nat, sends: seq<Sent>) {
    && (forall sent :: sent in sends ==> sent.epoch <= epoch && Filed(sent.file, sent))
    && (forall sent :: sent in sends && sent.epoch == epoch ==> Filed(disk, sent))
    && (forall a, b :: a in sends && b in sends && a.epoch == b.epoch ==> a.publicKey == b.publicKey && a.privateKey == b.privateKey)
  }

  ghost predicate Inv(s: State) {
    && InStep(s.point, s.memory, s.disk)
    && EnrollsFit(s.point, s.disk, s.epoch, s.enrolls)
    && SendsFit(s.disk, s.epoch, s.sends)
  }

  lemma NextKeepsStep(s: State, step: Step)
    requires Inv(s)
    ensures InStep(Next(s, step).point, Next(s, step).memory, Next(s, step).disk)
  {
  }

  lemma EnrollKeepsEnrolls(s: State, step: Step)
    requires Inv(s) && step.Enroll?
    ensures EnrollsFit(Next(s, step).point, Next(s, step).disk, Next(s, step).epoch, Next(s, step).enrolls)
  {
    assert forall k :: 0 <= k < |s.enrolls| ==> s.enrolls[k] in s.enrolls;
  }

  lemma NextKeepsEnrolls(s: State, step: Step)
    requires Inv(s)
    ensures EnrollsFit(Next(s, step).point, Next(s, step).disk, Next(s, step).epoch, Next(s, step).enrolls)
  {
    if step.Enroll? {
      EnrollKeepsEnrolls(s, step);
    } else {
      assert Next(s, step).enrolls == s.enrolls;
    }
  }

  lemma SendKeepsSends(s: State, step: Step)
    requires Inv(s) && step.Send?
    ensures SendsFit(Next(s, step).disk, Next(s, step).epoch, Next(s, step).sends)
  {
  }

  /** A careful step that clears nothing keeps an enrolled node's keys on file. */
  lemma NextKeepsFiled(s: State, step: Step, sent: Sent)
    requires Inv(s) && Filed(s.disk, sent)
    ensures Next(s, step).epoch == s.epoch ==> Filed(Next(s, step).disk, sent)
  {
  }

  lemma NextKeepsSends(s: State, step: Step)
    requires Inv(s)
    ensures SendsFit(Next(s, step).disk, Next(s, step).epoch, Next(s, step).sends)
  {
    if step.Send? {
      SendKeepsSends(s, step);
    } else {
      var s' := Next(s, step);
      assert s'.sends == s.sends && s'.epoch >= s.epoch;
      forall sent | sent in s.sends && sent.epoch == s'.epoch
        ensures Filed(s'.disk, sent)
      {
        NextKeepsFiled(s, step, sent);
      }
    }
  }

  lemma NextKeeps(s: State, step: Step)
    requires Inv(s)
    ensures Inv(Next(s, step))
  {
    NextKeepsStep(s, step);
    NextKeepsEnrolls(s, step);
    NextKeepsSends(s, step);
  }

  lemma RunKeeps(states: seq<State>, steps: seq<Step>, i: nat)
    requires IsRun(Start, Next, states, steps) && i < |states|
    ensures Inv(states[i])
  {
    forall s, step | Inv(s)
      ensures Inv(Next(s, step))
    {
      NextKeeps(s, step);
    }
    Invariant(Start, Next, Inv, states, steps, i);
  }

  /** Between two clearings of the saved enrollment the hub enrolls this node at most once. */
  lemma EnrollsOncePerEpoch(states: seq<State>, steps: seq<Step>, i: nat)
    requires IsRun(Start, Next, states, steps) && i < |states|
    ensures Increasing(states[i].enrolls)
  {
    RunKeeps(states, steps, i);
  }

  /** A key pair is on file before it is sent and is the only one sent until the enrollment is cleared. */
  lemma KeysOnFileAndFixed(states: seq<State>, steps: seq<Step>, i: nat, a: Sent, b: Sent)
    requires IsRun(Start, Next, states, steps) && i < |states|
    requires a in states[i].sends && b in states[i].sends
    ensures Filed(a.file, a)
    ensures a.epoch == b.epoch ==> a.publicKey == b.publicKey && a.privateKey == b.privateKey
    ensures a.epoch == states[i].epoch ==> Filed(states[i].disk, a)
  {
    RunKeeps(states, steps, i);
  }

  /** Whenever a pass has returned, to be retried, for good or with success, the file is what is in memory. */
  lemma FileIsMemory(states: seq<State>, steps: seq<Step>, i: nat)
    requires IsRun(Start, Next, states, steps) && i < |states|
    requires states[i].point in {Begin, Clearing, Running, Ended}
    ensures states[i].disk == states[i].memory
  {
    RunKeeps(states, steps, i);
  }

  // ---------- saves that fail and crashes at any point ----------

  predicate SameKeysOnFile(memory: Option<Agent>, disk: Option<Agent>) {
    memory.Some? ==> disk.Some? && disk.value.privateKey == memory.value.privateKey && disk.value.publicKey == memory.value.publicKey
  }

  predicate KeylessFile(disk: Option<Agent>) {
    Enrolled(disk) ==> !HasKeys(disk.value)
  }

  /** What a live process knows, and what of it is on file. */
  ghost predicate Tracked(point: Point, memory: Option<Agent>, disk: Option<Agent>, enrollmentUnsaved: bool, keysUnsaved: bool) {
    && (if enrollmentUnsaved then Enrolled(memory) && !Enrolled(disk) else Enrolled(memory) <==> Enrolled(disk))
    && (keysUnsaved || point == SavingKeys ==> Enrolled(memory) && HasKeys(memory.value) && KeylessFile(disk))
    && (!keysUnsaved && point != SavingKeys ==>
        if enrollmentUnsaved then !HasKeys(memory.value) else SameKeysOnFile(memory, disk))
    && (point !in {Begin, Running, Ended} ==> Enrolled(memory))
    && (point in {Sending, Awaiting, SavingTunnel, Clearing} ==> HasKeys(memory.value))
    && (point == SavingEnrollment ==> enrollmentUnsaved && !keysUnsaved)
    && (point == Sending ==> !enrollmentUnsaved && !keysUnsaved)
  }

  ghost predicate EnrollsTracked(s: State) {
    && (forall e :: e in s.enrolls ==> e <= s.epoch)
    && (s.enrollmentLost || s.enrollmentUnsaved ==> s.epoch in s.enrolls)
    && (s.epoch in s.enrolls ==> s.enrollmentLost || s.enrollmentUnsaved || Enrolled(s.disk))
  }

  ghost predicate SendsTracked(sends: seq<Sent>) {
    forall sent :: sent in sends ==> (Filed(sent.file, sent) <==> !sent.unsaved)
  }

  ghost predicate PointTracked(s: State) {
    if s.point == Down then !s.enrollmentUnsaved && !s.keysUnsaved
    else Tracked(s.point, s.memory, s.disk, s.enrollmentUnsaved, s.keysUnsaved)
  }

  ghost predicate Tracks(s: State) {
    PointTracked(s) && EnrollsTracked(s) && SendsTracked(s.sends)
  }

  lemma SaveTracksPoint(s: State, step: Step)
    requires PointTracked(s) && (step.Save? || step.SaveFails?)
    ensures PointTracked(WellFormedNext(s, step))
  {
  }

  lemma StepTracksPoint(s: State, step: Step)
    requires PointTracked(s)
    ensures PointTracked(WellFormedNext(s, step))
  {
    if step.Save? || step.SaveFails? {
      SaveTracksPoint(s, step);
    }
  }

  lemma StepTracksEnrolls(s: State, step: Step)
    requires PointTracked(s) && EnrollsTracked(s)
    ensures EnrollsTracked(WellFormedNext(s, step))
  {
  }

  lemma StepTracksSends(s: State, step: Step)
    requires PointTracked(s) && SendsTracked(s.sends)
    ensures SendsTracked(WellFormedNext(s, step).sends)
  {
  }

  lemma StepTracks(s: State, step: Step)
    requires Tracks(s)
    ensures Tracks(WellFormedNext(s, step))
  {
    StepTracksPoint(s, step);
    StepTracksEnrolls(s, step);
    StepTracksSends(s, step);
  }

  lemma RunTracks(states: seq<State>, steps: seq<Step>, i: nat)
    requires IsRun(Start, WellFormedNext, states, steps) && i < |states|
    ensures Tracks(states[i])
  {
    forall s, step | Tracks(s)
      ensures Tracks(WellFormedNext(s, step))
    {
      StepTracks(s, step);
    }
    Invariant(Start, WellFormedNext, Tracks, states, steps, i);
  }

  /** With saves that may fail and crashes anywhere: a key pair was on file when sent exactly if it was not unsaved. */
  lemma SentIsFiledIff(states: seq<State>, steps: seq<Step>, i: nat, sent: Sent)
    requires IsRun(Start, WellFormedNext, states, steps) && i < |states| && sent in states[i].sends
    ensures Filed(sent.file, sent) <==> !sent.unsaved
  {
    RunTracks(states, steps, i);
  }

  /** And an enroll reply is the second in its epoch exactly if an enrollment was lost in it. */
  lemma EnrollsAgainIff(states: seq<State>, steps: seq<Step>, i: nat)
    requires IsRun(Start, WellFormedNext, states, steps) && i < |steps|
    requires steps[i].Enroll? && states[i].point == Begin && !Enrolled(states[i].memory)
    ensures states[i].epoch in states[i].enrolls <==> states[i].enrollmentLost
  {
    RunTracks(states, steps, i);
  }

  lemma Reach(s: State, step: Step, s': State)
    requires Reachable(Start, WellFormedNext, s) && WellFormed(step) && Apply(s, step) == s'
    ensures Reachable(Start, WellFormedNext, s')
  {
    ReachStep(Start, WellFormedNext, s, step);
  }

  /** From an empty file: the reply to the first enroll call is in memory. */
  lemma EnrollingIsReached(nodeId: nat, token: string)
    requires nodeId > 0 && token != ""
    ensures Reachable(Start, WellFormedNext,
      State(SavingEnrollment, Some(EMPTY.(nodeId := nodeId, token := token)), None, 0, [0], [], true, false, false))
  {
    ReachStart<State, Step>(Start, WellFormedNext, Fresh(None));
    var s := Fresh(None).(point := Begin);
    Reach(Fresh(None), Launch, s);
    Reach(s, Enroll(nodeId, token), State(SavingEnrollment, Some(EMPTY.(nodeId := nodeId, token := token)), None, 0, [0], [], true, false, false));
  }

  /** A key pair that could not be saved is sent by the retry all the same. */
  lemma UnsavedKeysAreSent(nodeId: nat, token: string, k: string)
    requires nodeId > 0 && token != "" && k != ""
    ensures exists s :: Reachable(Start, WellFormedNext, s) && |s.sends| == 1 && s.sends[0].publicKey == k && !Filed(s.sends[0].file, s.sends[0])
  {
    EnrollingIsReached(nodeId, token);
    var a := EMPTY.(nodeId := nodeId, token := token);
    var b := a.(privateKey := k, publicKey := k);
    var s0 := State(SavingEnrollment, Some(a), None, 0, [0], [], true, false, false);
    var s1 := State(Keys, Some(a), Some(a), 0, [0], [], false, false, false);
    Reach(s0, Save, s1);
    Reach(s1, Generate(k, k), s1.(point := SavingKeys, memory := Some(b)));
    var s2 := s1.(point := Begin, memory := Some(b), keysUnsaved := true);
    Reach(s1.(point := SavingKeys, memory := Some(b)), SaveFails, s2);
    Reach(s2, Resume, s2.(point := Keys));
    var s3 := s2.(point := Awaiting, sends := [Sent(0, k, k, Some(a), true)]);
    Reach(s2.(point := Keys), Send, s3);
    assert !Filed(s3.sends[0].file, s3.sends[0]);
  }

  /** A crash before the first save makes the node enroll again in the same epoch. */
  lemma CrashEnrollsTwice(nodeId: nat, token: string)
    requires nodeId > 0 && token != ""
    ensures exists s :: Reachable(Start, WellFormedNext, s) && s.enrolls == [0, 0]
  {
    EnrollingIsReached(nodeId, token);
    var a := EMPTY.(nodeId := nodeId, token := token);
    var s0 := State(SavingEnrollment, Some(a), None, 0, [0], [], true, false, false);
    var s1 := State(Down, None, None, 0, [0], [], false, false, true);
    Reach(s0, Crash, s1);
    Reach(s1, Launch, s1.(point := Begin));
    var s2 := s0.(enrolls := [0, 0], enrollmentLost := true);
    Reach(s1.(point := Begin), Enroll(nodeId, token), s2);
    assert s2.enrolls == [0, 0];
  }

  // ---------- restarts ----------

  /** A process gone at any point starts again from the file alone: running if it provisions the node, else from the beginning. */
  lemma RestartReadsFile(s: State)
    ensures var s' := Apply(Apply(s, Crash), Launch);
      && s'.memory == s.disk && s'.disk == s.disk && s'.epoch == s.epoch && s'.sends == s.sends && s'.enrolls == s.enrolls
      && (s'.point == Running <==>
            && s.disk.Some? && s.disk.value.nodeId > 0 && s.disk.value.token != "" && s.disk.value.privateKey != ""
            && s.disk.value.tunnel.ip != "" && s.disk.value.tunnel.serverKey != "" && s.disk.value.tunnel.endpoint != "")
      && (s'.point != Running ==> s'.point == Begin)
  {
  }
}
