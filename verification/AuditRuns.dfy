/** Every interleaving of producers, the consumer's loop and the drain after close. */
module AuditRuns {
  import opened AuditQueue
  import opened Runs

  type Event = string

  datatype Consumer = Running | Draining | Stopped(drained: nat)

  /**
   `sent` lists the events that entered the channel, `evicted` the positions in it that a
   drop-oldest producer took out again. A drop-oldest producer that found the channel full
   is first in `evicting`, then in `retrying`.
   */
  datatype State = State(
    policy: Policy, queue: Queue<Event>, consumer: Consumer, closed: bool,
    sent: seq<Event>, evicted: set<nat>,
    evicting: multiset<Event>, retrying: multiset<Event>,
    offered: multiset<Event>, dropped: multiset<Event>, written: multiset<Event>)

  ghost predicate Start(s: State) {
    && s.queue.capacity > 0 && s.queue.batchSize > 0
    && s == State(s.policy, Queue(s.queue.capacity, s.queue.batchSize, [], [], []), Running, false,
                  [], {}, multiset{}, multiset{}, multiset{}, multiset{}, multiset{})
  }

  datatype Step =
    | Offer(ev: Event)
    | Evict(ev: Event)
    | Retry(ev: Event)
    | Receive
    | TickFlush
    | Close
    | DrainBegin
    | DrainOne
    | DrainEnd

  function Apply(s: State, step: Step): State {
    match step
    case Offer(ev) => DoOffer(s, ev)
    case Evict(ev) => DoEvict(s, ev)
    case Retry(ev) => DoRetry(s, ev)
    case Receive => if s.consumer.Running? then s.(queue := Received(s.queue)) else s
    case TickFlush => if s.consumer.Running? then s.(queue := Flushed(s.queue)) else s
    case Close => s.(closed := true)
    case DrainBegin => if s.closed && s.consumer.Running? then s.(consumer := Draining) else s
    case DrainOne => if s.consumer.Draining? then s.(queue := Buffered(s.queue)) else s
    case DrainEnd =>
      if s.consumer.Draining? && s.queue.channel == []
      then s.(queue := Flushed(s.queue), consumer := Stopped(|s.sent|)) else s
  }

  /** The first select of `WriteEvent`; a blocking producer waits instead while there is no room. */
  function DoOffer(s: State, ev: Event): State {
    var s' := s.(offered := s.offered + multiset{ev});
    if HasRoom(s.queue) then s'.(queue := Sent(s.queue, ev), sent := s.sent + [ev])
    else match s.policy
      case BlockProducer => s
      case DropNewest => s'.(dropped := s.dropped + multiset{ev})
      case DropOldest => s'.(evicting := s.evicting + multiset{ev})
      case SyncFallback => s'.(written := s.written + multiset{ev})
  }

  function DoEvict(s: State, ev: Event): State {
    if ev !in s.evicting then s
    else
      var s' := s.(evicting := s.evicting - multiset{ev}, retrying := s.retrying + multiset{ev});
      if s.queue.channel == [] then s'
      else s'.(queue := Popped(s.queue), evicted := s.evicted + {Taken(s.queue, s.sent)})
  }

  function DoRetry(s: State, ev: Event): State {
    if ev !in s.retrying then s
    else
      var s' := s.(retrying := s.retrying - multiset{ev});
      if HasRoom(s.queue) then s'.(queue := Sent(s.queue, ev), sent := s.sent + [ev])
      else s'.(dropped := s.dropped + multiset{ev})
  }

  /** How many sent events have left the channel. */
  function Taken(q: Queue<Event>, sent: seq<Event>): nat {
    if |q.channel| <= |sent| then |sent| - |q.channel| else 0
  }

  /** The sent events that were not evicted, in order. */
  function Kept(sent: seq<Event>, evicted: set<nat>): seq<Event> {
    if sent == [] then []
    else
      var last := |sent| - 1;
      Kept(sent[..last], evicted) + (if last in evicted then [] else [sent[last]])
  }

  // ---------- the invariant ----------

  ghost predicate ChannelOk(q: Queue<Event>, sent: seq<Event>, evicted: set<nat>) {
    && |q.channel| <= q.capacity && |q.channel| <= |sent|
    && q.channel == sent[Taken(q, sent)..]
    && forall i :: i in evicted ==> i < Taken(q, sent)
  }

  ghost predicate HandedOk(handed: seq<Event>, taken: nat, sent: seq<Event>, evicted: set<nat>) {
    taken <= |sent| && Kept(sent[..taken], evicted) == handed
  }

  ghost predicate Small(batches: seq<seq<Event>>, batchSize: nat) {
    forall b :: b in batches ==> 0 < |b| <= batchSize
  }

  ghost predicate BatchesOk(q: Queue<Event>, consumer: Consumer) {
    && q.batchSize > 0
    && (consumer.Running? ==> |q.buffer| < q.batchSize)
    && (!consumer.Stopped? ==> Small(q.batches, q.batchSize))
    && (consumer.Stopped? && q.batches != [] ==> Small(q.batches[..|q.batches| - 1], q.batchSize))
  }

  ghost predicate DrainedOk(q: Queue<Event>, consumer: Consumer, sent: seq<Event>, evicted: set<nat>) {
    consumer.Stopped? ==>
      && q.buffer == [] && consumer.drained <= Taken(q, sent) <= |sent|
      && Flat(q.batches) == Kept(sent[..consumer.drained], evicted)
  }

  ghost predicate QueueOk(q: Queue<Event>, consumer: Consumer, sent: seq<Event>, evicted: set<nat>) {
    && ChannelOk(q, sent, evicted) && HandedOk(Handed(q), Taken(q, sent), sent, evicted)
    && BatchesOk(q, consumer) && DrainedOk(q, consumer, sent, evicted)
  }

  /** Each event offered has one fate, or is with its producer. */
  ghost predicate Accounted(offered: multiset<Event>, sent: multiset<Event>, dropped: multiset<Event>,
                            written: multiset<Event>, evicting: multiset<Event>, retrying: multiset<Event>) {
    offered == sent + dropped + written + evicting + retrying
  }

  ghost predicate ProducersOk(s: State) {
    Accounted(s.offered, multiset(s.sent), s.dropped, s.written, s.evicting, s.retrying)
  }

  ghost predicate Inv(s: State) {
    QueueOk(s.queue, s.consumer, s.sent, s.evicted) && ProducersOk(s)
  }

  lemma {:induction false} KeptIgnoresLater(sent: seq<Event>, evicted: set<nat>, i: nat)
    requires |sent| <= i
    ensures Kept(sent, evicted + {i}) == Kept(sent, evicted)
  {
    if sent != [] {
      KeptIgnoresLater(sent[..|sent| - 1], evicted, i);
    }
  }

  lemma KeptSnoc(sent: seq<Event>, evicted: set<nat>, n: nat)
    requires n < |sent|
    ensures Kept(sent[..n + 1], evicted) == Kept(sent[..n], evicted) + (if n in evicted then [] else [sent[n]])
  {
    assert sent[..n + 1][..n] == sent[..n];
  }

  lemma SendKeeps(q: Queue<Event>, consumer: Consumer, sent: seq<Event>, evicted: set<nat>, ev: Event)
    requires QueueOk(q, consumer, sent, evicted) && HasRoom(q)
    ensures QueueOk(Sent(q, ev), consumer, sent + [ev], evicted)
  {
    assert (sent + [ev])[..Taken(q, sent)] == sent[..Taken(q, sent)];
    if consumer.Stopped? {
      assert (sent + [ev])[..consumer.drained] == sent[..consumer.drained];
    }
  }

  lemma OfferAccounted(s: State, ev: Event)
    requires ProducersOk(s)
    ensures ProducersOk(DoOffer(s, ev))
  {
    var more := multiset{ev};
    if HasRoom(s.queue) {
      assert multiset(s.sent + [ev]) == multiset(s.sent) + more;
    } else {
      match s.policy
      case BlockProducer =>
      case DropNewest =>
      case DropOldest =>
      case SyncFallback =>
    }
  }

  lemma OfferKeepsQueue(s: State, ev: Event)
    requires QueueOk(s.queue, s.consumer, s.sent, s.evicted)
    ensures var s' := DoOffer(s, ev); QueueOk(s'.queue, s'.consumer, s'.sent, s'.evicted)
  {
    if HasRoom(s.queue) {
      SendKeeps(s.queue, s.consumer, s.sent, s.evicted, ev);
    }
  }

  lemma OfferKeeps(s: State, ev: Event)
    requires Inv(s)
    ensures Inv(Apply(s, Offer(ev)))
  {
    OfferAccounted(s, ev);
    OfferKeepsQueue(s, ev);
  }

  lemma RetryAccounted(s: State, ev: Event)
    requires ProducersOk(s)
    ensures ProducersOk(DoRetry(s, ev))
  {
    if ev in s.retrying {
      var more := multiset{ev};
      assert s.retrying == (s.retrying - more) + more;
      assert multiset(s.sent + [ev]) == multiset(s.sent) + more;
    }
  }

  lemma RetryKeeps(s: State, ev: Event)
    requires Inv(s)
    ensures Inv(Apply(s, Retry(ev)))
  {
    RetryAccounted(s, ev);
    if HasRoom(s.queue) {
      SendKeeps(s.queue, s.consumer, s.sent, s.evicted, ev);
    }
  }

  lemma EvictAccounted(s: State, ev: Event)
    requires ProducersOk(s)
    ensures ProducersOk(DoEvict(s, ev))
  {
    if ev in s.evicting {
      assert s.evicting == (s.evicting - multiset{ev}) + multiset{ev};
    }
  }

  lemma PopKeeps(q: Queue<Event>, consumer: Consumer, sent: seq<Event>, evicted: set<nat>)
    requires QueueOk(q, consumer, sent, evicted) && q.channel != []
    ensures QueueOk(Popped(q), consumer, sent, evicted + {Taken(q, sent)})
  {
    var n := Taken(q, sent);
    KeptSnoc(sent, evicted + {n}, n);
    KeptIgnoresLater(sent[..n], evicted, n);
    if consumer.Stopped? {
      KeptIgnoresLater(sent[..consumer.drained], evicted, n);
    }
  }

  lemma EvictKeeps(s: State, ev: Event)
    requires Inv(s)
    ensures Inv(Apply(s, Evict(ev)))
  {
    EvictAccounted(s, ev);
    if s.queue.channel != [] {
      PopKeeps(s.queue, s.consumer, s.sent, s.evicted);
    }
  }

  lemma ReceiveKeeps(q: Queue<Event>, sent: seq<Event>, evicted: set<nat>)
    requires QueueOk(q, Running, sent, evicted)
    ensures QueueOk(Received(q), Running, sent, evicted)
  {
    if q.channel != [] {
      ReceiveMovesHead(q);
      KeptSnoc(sent, evicted, Taken(q, sent));
    }
  }

  lemma DrainOneKeeps(q: Queue<Event>, sent: seq<Event>, evicted: set<nat>)
    requires QueueOk(q, Draining, sent, evicted)
    ensures QueueOk(Buffered(q), Draining, sent, evicted)
  {
    if q.channel != [] {
      BufferMovesHead(q);
      KeptSnoc(sent, evicted, Taken(q, sent));
    }
  }

  lemma FlushKeepsSmall(q: Queue<Event>)
    requires Small(q.batches, q.batchSize) && |q.buffer| <= q.batchSize
    ensures Small(Flushed(q).batches, q.batchSize)
  {
  }

  lemma FlushKeeps(q: Queue<Event>, sent: seq<Event>, evicted: set<nat>)
    requires QueueOk(q, Running, sent, evicted)
    ensures QueueOk(Flushed(q), Running, sent, evicted)
  {
    FlushKeepsHanded(q);
    FlushKeepsSmall(q);
  }

  lemma DrainEndKeeps(q: Queue<Event>, sent: seq<Event>, evicted: set<nat>)
    requires QueueOk(q, Draining, sent, evicted) && q.channel == []
    ensures QueueOk(Flushed(q), Stopped(|sent|), sent, evicted)
  {
    FlushKeepsHanded(q);
    assert sent[..|sent|] == sent;
    assert Flushed(q).batches == q.batches || Flushed(q).batches[..|q.batches|] == q.batches;
  }

  lemma ConsumerKeepsQueue(s: State, step: Step)
    requires QueueOk(s.queue, s.consumer, s.sent, s.evicted) && !(step.Offer? || step.Evict? || step.Retry?)
    ensures var s' := Apply(s, step); QueueOk(s'.queue, s'.consumer, s'.sent, s'.evicted)
  {
    match step
    case Receive => if s.consumer.Running? { ReceiveKeeps(s.queue, s.sent, s.evicted); }
    case TickFlush => if s.consumer.Running? { FlushKeeps(s.queue, s.sent, s.evicted); }
    case Close =>
    case DrainBegin =>
    case DrainOne => if s.consumer.Draining? { DrainOneKeeps(s.queue, s.sent, s.evicted); }
    case DrainEnd => if s.consumer.Draining? && s.queue.channel == [] { DrainEndKeeps(s.queue, s.sent, s.evicted); }
  }

  lemma StepKeeps(s: State, step: Step)
    requires Inv(s)
    ensures Inv(Apply(s, step))
  {
    match step
    case Offer(ev) => OfferKeeps(s, ev);
    case Evict(ev) => EvictKeeps(s, ev);
    case Retry(ev) => RetryKeeps(s, ev);
    case _ => ConsumerKeepsQueue(s, step);
  }

  lemma RunKeeps(states: seq<State>, steps: seq<Step>, i: nat)
    requires IsRun(Start, Apply, states, steps) && i < |states|
    ensures Inv(states[i])
  {
    forall s, step | Inv(s) ensures Inv(Apply(s, step)) {
      StepKeeps(s, step);
    }
    Invariant(Start, Apply, Inv, states, steps, i);
  }

  // ---------- the theorems ----------

  lemma {:induction false} KeptTail(sent: seq<Event>, evicted: set<nat>, n: nat)
    requires n <= |sent| && forall i :: i in evicted ==> i < n
    ensures Kept(sent, evicted) == Kept(sent[..n], evicted) + sent[n..]
    decreases |sent|
  {
    if n < |sent| {
      var last := |sent| - 1;
      assert sent[..last][..n] == sent[..n];
      assert sent[n..] == sent[..last][n..] + [sent[last]];
      KeptTail(sent[..last], evicted, n);
    } else {
      assert sent[..n] == sent;
    }
  }

  /**
   Conservation and order: in every run, the events that entered the channel, less exactly
   those evicted, are what was handed over, then buffered, then queued, in that order. And
   every event offered was sent, dropped, written directly or is still with its producer.
   */
  lemma NothingLostOrReordered(states: seq<State>, steps: seq<Step>, i: nat)
    requires IsRun(Start, Apply, states, steps) && i < |states|
    ensures Kept(states[i].sent, states[i].evicted) == Contents(states[i].queue)
    ensures states[i].offered == multiset(states[i].sent) + states[i].dropped + states[i].written
      + states[i].evicting + states[i].retrying
    ensures |states[i].queue.channel| <= states[i].queue.capacity
  {
    RunKeeps(states, steps, i);
    KeptTail(states[i].sent, states[i].evicted, Taken(states[i].queue, states[i].sent));
  }

  /** Every batch is non-empty and, but for the one that ends the drain, within the batch size. */
  lemma BatchesBounded(states: seq<State>, steps: seq<Step>, i: nat, k: nat)
    requires IsRun(Start, Apply, states, steps) && i < |states|
    requires k < |states[i].queue.batches|
    requires states[i].consumer.Stopped? ==> k + 1 < |states[i].queue.batches|
    ensures 0 < |states[i].queue.batches[k]| <= states[i].queue.batchSize
  {
    RunKeeps(states, steps, i);
    var batches := states[i].queue.batches;
    if states[i].consumer.Stopped? {
      assert batches[k] == batches[..|batches| - 1][k];
    }
  }

  /**
   Once the consumer has stopped, exactly the events sent before its last look at the
   channel were handed over, once each and in order; later ones never are.
   */
  lemma DrainedExactlyOnce(states: seq<State>, steps: seq<Step>, i: nat)
    requires IsRun(Start, Apply, states, steps) && i < |states| && states[i].consumer.Stopped?
    ensures states[i].consumer.drained <= |states[i].sent|
    ensures Flat(states[i].queue.batches) == Kept(states[i].sent[..states[i].consumer.drained], states[i].evicted)
    ensures states[i].queue.buffer == []
  {
    RunKeeps(states, steps, i);
  }

  /** So after the consumer has stopped everything kept was handed over exactly when the channel is empty. */
  lemma AllHandedOverIff(states: seq<State>, steps: seq<Step>, i: nat)
    requires IsRun(Start, Apply, states, steps) && i < |states| && states[i].consumer.Stopped?
    ensures Flat(states[i].queue.batches) == Kept(states[i].sent, states[i].evicted) <==> states[i].queue.channel == []
  {
    NothingLostOrReordered(states, steps, i);
    DrainedExactlyOnce(states, steps, i);
    var flat := Flat(states[i].queue.batches);
    assert flat + [] == flat;
    if flat == Kept(states[i].sent, states[i].evicted) {
      assert |flat| == |flat + states[i].queue.channel|;
    }
  }

  /** And it need not be: under every policy an event sent after the last look stays in the channel. */
  lemma LateEventIsStranded(policy: Policy, capacity: nat, batchSize: nat, ev: Event)
    requires capacity > 0 && batchSize > 0
    ensures exists s :: Reachable(Start, Apply, s) && s.policy == policy && s.consumer.Stopped? && Stranded(s, ev)
  {
    var s0 := State(policy, Queue(capacity, batchSize, [], [], []), Running, false,
                    [], {}, multiset{}, multiset{}, multiset{}, multiset{}, multiset{});
    ReachStart<State, Step>(Start, Apply, s0);
    var s1 := s0.(closed := true);
    ReachStep(Start, Apply, s0, Close);
    var s2 := s1.(consumer := Draining);
    assert Apply(s1, DrainBegin) == s2;
    ReachStep(Start, Apply, s1, DrainBegin);
    var s3 := s2.(consumer := Stopped(0));
    assert Apply(s2, DrainEnd) == s3;
    ReachStep(Start, Apply, s2, DrainEnd);
    var s4 := s3.(queue := s3.queue.(channel := [ev]), sent := [ev], offered := multiset{ev});
    assert DoOffer(s3, ev) == s4 by {
      assert [] + [ev] == [ev] && multiset{} + multiset{ev} == multiset{ev};
    }
    ReachStep(Start, Apply, s3, Offer(ev));
    assert Stranded(s4, ev);
  }

  /** The only event sent was accepted, not evicted, and no batch has it. */
  predicate Stranded(s: State, ev: Event) {
    s.sent == [ev] && s.evicted == {} && s.queue.channel == [ev] && Flat(s.queue.batches) == []
  }

  // ---------- what happens to an event ----------

  /** In every run, only the two drop policies drop, only drop-oldest evicts, and only the synchronous fallback writes directly. */
  lemma FatesFollowPolicy(states: seq<State>, steps: seq<Step>, i: nat)
    requires IsRun(Start, Apply, states, steps) && i < |states|
    ensures states[i].dropped != multiset{} ==> states[i].policy.DropNewest? || states[i].policy.DropOldest?
    ensures states[i].evicted != {} || states[i].evicting + states[i].retrying != multiset{} ==> states[i].policy.DropOldest?
    ensures states[i].written != multiset{} ==> states[i].policy.SyncFallback?
    ensures states[i].policy.BlockProducer? ==> states[i].offered == multiset(states[i].sent)
  {
    forall s, step | Lawful(s) ensures Lawful(Apply(s, step)) {
      StepIsLawful(s, step);
    }
    Invariant(Start, Apply, Lawful, states, steps, i);
    RunKeeps(states, steps, i);
  }

  ghost predicate Lawful(s: State) {
    && (!s.policy.DropNewest? && !s.policy.DropOldest? ==> s.dropped == multiset{})
    && (!s.policy.DropOldest? ==> s.evicted == {} && s.evicting == multiset{} && s.retrying == multiset{})
    && (!s.policy.SyncFallback? ==> s.written == multiset{})
  }

  lemma OfferIsLawful(s: State, ev: Event)
    requires Lawful(s)
    ensures Lawful(DoOffer(s, ev))
  {
  }

  lemma ProducerIsLawful(s: State, ev: Event)
    requires Lawful(s)
    ensures Lawful(DoEvict(s, ev)) && Lawful(DoRetry(s, ev))
  {
    if !s.policy.DropOldest? {
      assert DoEvict(s, ev) == s && DoRetry(s, ev) == s;
    }
  }

  lemma StepIsLawful(s: State, step: Step)
    requires Lawful(s)
    ensures Lawful(Apply(s, step))
  {
    if step.Offer? {
      OfferIsLawful(s, step.ev);
    } else if step.Evict? || step.Retry? {
      ProducerIsLawful(s, step.ev);
    } else {
      ConsumerLeavesFates(s, step);
    }
  }

  lemma ConsumerLeavesFates(s: State, step: Step)
    requires !(step.Offer? || step.Evict? || step.Retry?)
    ensures var s' := Apply(s, step); s' == s.(queue := s'.queue, consumer := s'.consumer, closed := s'.closed)
  {
  }

  /** An offer enters a channel that has room; else the policy decides, and a blocked producer goes on offering. */
  lemma OfferDecides(s: State, ev: Event)
    ensures var s' := Apply(s, Offer(ev));
      if |s.queue.channel| < s.queue.capacity
      then s'.sent == s.sent + [ev] && s'.queue == s.queue.(channel := s.queue.channel + [ev]) && s'.dropped == s.dropped && s'.written == s.written
      else
        && s'.sent == s.sent && s'.queue == s.queue
        && s'.dropped == s.dropped + (if s.policy.DropNewest? then multiset{ev} else multiset{})
        && s'.written == s.written + (if s.policy.SyncFallback? then multiset{ev} else multiset{})
        && s'.evicting == s.evicting + (if s.policy.DropOldest? then multiset{ev} else multiset{})
        && (s.policy.BlockProducer? ==> s' == s)
  {
  }

  /** A drop-oldest producer takes the oldest event out, then puts its own in, or drops it if another was faster. */
  lemma EvictThenRetry(s: State, ev: Event)
    ensures ev in s.evicting ==>
      var s' := Apply(s, Evict(ev));
      && s'.retrying == s.retrying + multiset{ev} && s'.evicting == s.evicting - multiset{ev}
      && s'.queue == s.queue.(channel := if s.queue.channel == [] then [] else s.queue.channel[1..])
    ensures ev in s.retrying ==>
      var s' := Apply(s, Retry(ev));
      && s'.retrying == s.retrying - multiset{ev}
      && if |s.queue.channel| < s.queue.capacity
         then s'.sent == s.sent + [ev] && s'.queue == s.queue.(channel := s.queue.channel + [ev]) && s'.dropped == s.dropped
         else s'.sent == s.sent && s'.queue == s.queue && s'.dropped == s.dropped + multiset{ev}
  {
  }

  /** Uncontended, drop-oldest replaces the oldest event of a full channel by the new one. */
  lemma OldestMakesRoom(s: State, ev: Event)
    requires s.policy.DropOldest? && 0 < |s.queue.channel| == s.queue.capacity
    ensures Apply(Apply(Apply(s, Offer(ev)), Evict(ev)), Retry(ev)).queue == s.queue.(channel := s.queue.channel[1..] + [ev])
  {
  }

  /** A running consumer takes the oldest event, and hands over a buffer that it fills; a tick hands over what there is. */
  lemma ConsumerTakes(s: State)
    requires s.consumer.Running?
    ensures s.queue.channel != [] ==>
      var q, q', batch := s.queue, Apply(s, Receive).queue, s.queue.buffer + [s.queue.channel[0]];
      && q'.channel == q.channel[1..]
      && if |batch| >= q.batchSize then q'.buffer == [] && q'.batches == q.batches + [batch] else q'.buffer == batch && q'.batches == q.batches
    ensures s.queue.buffer != [] ==>
      Apply(s, TickFlush).queue == s.queue.(buffer := [], batches := s.queue.batches + [s.queue.buffer])
  {
  }

  function Drained(s: State): State
    decreases |s.queue.channel|
  {
    if s.queue.channel == [] then Apply(s, DrainEnd) else if s.consumer.Draining? then Drained(Apply(s, DrainOne)) else s
  }

  /** After close, a drain that nobody disturbs stops with everything queued handed over, in order. */
  lemma {:induction false} DrainHandsOver(s: State)
    requires s.consumer.Draining?
    ensures Drained(s).consumer.Stopped? && Drained(s).queue.channel == [] && Drained(s).queue.buffer == []
    ensures Flat(Drained(s).queue.batches) == Contents(s.queue)
    decreases |s.queue.channel|
  {
    if s.queue.channel == [] {
      FlushKeepsHanded(s.queue);
    } else {
      DrainHandsOver(Apply(s, DrainOne));
      BufferMovesHead(s.queue);
      assert Handed(s.queue) + [s.queue.channel[0]] + s.queue.channel[1..] == Contents(s.queue);
    }
  }

  lemma CloseBeginsDrain(s: State)
    requires s.consumer.Running?
    ensures Apply(Apply(s, Close), DrainBegin).consumer.Draining? && Apply(Apply(s, Close), DrainBegin).queue == s.queue
    ensures !s.closed ==> Apply(s, DrainBegin) == s
  {
  }
}
