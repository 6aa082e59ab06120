/**
 The audit sink: producers put events on a bounded channel under one of four overflow
 policies, one consumer collects them into batches, and closing drains what is queued.
 */
module AuditQueue {

  datatype Policy = DropNewest | DropOldest | SyncFallback | BlockProducer

  /** The channel and the consumer's side of it; `batches` are the calls to the batch writer. */
  datatype Queue<!T> = Queue(capacity: nat, batchSize: nat, channel: seq<T>, buffer: seq<T>, batches: seq<seq<T>>)

  predicate HasRoom<T>(q: Queue<T>) {
    |q.channel| < q.capacity
  }

  function Sent<T>(q: Queue<T>, ev: T): Queue<T> {
    if HasRoom(q) then q.(channel := q.channel + [ev]) else q
  }

  function Popped<T>(q: Queue<T>): Queue<T> {
    if q.channel == [] then q else q.(channel := q.channel[1..])
  }

  function Flushed<T>(q: Queue<T>): Queue<T> {
    if q.buffer == [] then q else q.(buffer := [], batches := q.batches + [q.buffer])
  }

  /** Move the oldest event into the buffer. */
  function Buffered<T>(q: Queue<T>): Queue<T> {
    if q.channel == [] then q else Popped(q).(buffer := q.buffer + [q.channel[0]])
  }

  /** A receive in the main loop, which flushes a full buffer. */
  function Received<T>(q: Queue<T>): Queue<T> {
    if q.channel == [] then q
    else if |q.buffer| + 1 >= q.batchSize then Flushed(Buffered(q)) else Buffered(q)
  }

  function Flat<T>(batches: seq<seq<T>>): seq<T> {
    if batches == [] then [] else Flat(batches[..|batches| - 1]) + batches[|batches| - 1]
  }

  /** What was taken from the channel and not thrown away: handed over, then buffered. */
  function Handed<T>(q: Queue<T>): seq<T> {
    Flat(q.batches) + q.buffer
  }

  /** Everything handed over, then what is buffered, then what is queued. */
  function Contents<T>(q: Queue<T>): seq<T> {
    Handed(q) + q.channel
  }

  lemma FlatSnoc<T>(batches: seq<seq<T>>, batch: seq<T>)
    ensures Flat(batches + [batch]) == Flat(batches) + batch
  {
    assert (batches + [batch])[..|batches|] == batches;
  }

  lemma FlushKeepsHanded<T>(q: Queue<T>)
    ensures Handed(Flushed(q)) == Handed(q) && Flat(Flushed(q).batches) == Handed(q) && Flushed(q).buffer == []
  {
    FlatSnoc(q.batches, q.buffer);
    var flat := Flat(Flushed(q).batches);
    assert flat + [] == flat;
  }

  lemma BufferMovesHead<T>(q: Queue<T>)
    requires q.channel != []
    ensures Handed(Buffered(q)) == Handed(q) + [q.channel[0]] && Buffered(q).channel == q.channel[1..]
  {
    var flat := Flat(q.batches);
    assert flat + (q.buffer + [q.channel[0]]) == flat + q.buffer + [q.channel[0]];
  }

  lemma ReceiveMovesHead<T>(q: Queue<T>)
    requires q.channel != []
    ensures Handed(Received(q)) == Handed(q) + [q.channel[0]] && Received(q).channel == q.channel[1..]
  {
    BufferMovesHead(q);
    FlushKeepsHanded(Buffered(q));
  }

  class AsyncSink<T> {
    const capacity: nat
    const batchSize: nat
    var channel: seq<T>
    var buffer: seq<T>
    var batches: seq<seq<T>>

    function State(): Queue<T>
      reads this
    {
      Queue(capacity, batchSize, channel, buffer, batches)
    }

    constructor (bufferSize: int, batchSize: int)
      ensures State() == Queue(capacity, this.batchSize, [], [], [])
      ensures capacity == if bufferSize <= 0 then 1024 else bufferSize
      ensures this.batchSize == if batchSize <= 0 then 128 else batchSize
    {
      this.capacity := if bufferSize <= 0 then 1024 else bufferSize;
      this.batchSize := if batchSize <= 0 then 128 else batchSize;
      channel, buffer, batches := [], [], [];
    }

    /** A non-blocking send. */
    method TrySend(ev: T) returns (ok: bool)
      modifies this
      ensures ok <==> HasRoom(old(State()))
      ensures State() == Sent(old(State()), ev)
      ensures Contents(State()) == old(Contents(State())) + if ok then [ev] else []
    {
      assert Handed(State()) + (channel + [ev]) == Handed(State()) + channel + [ev];
      ok := |channel| < capacity;
      if ok {
        channel := channel + [ev];
      }
    }

    /** A non-blocking receive whose event is thrown away. */
    method TryEvict()
      modifies this
      ensures State() == Popped(old(State())) && Handed(State()) == old(Handed(State()))
      ensures old(channel) == (if old(channel) == [] then [] else [old(channel)[0]]) + channel
    {
      if channel != [] {
        channel := channel[1..];
      }
    }

    method Flush()
      modifies this
      ensures State() == Flushed(old(State())) && Contents(State()) == old(Contents(State()))
      ensures Flat(batches) == old(Handed(State())) && buffer == []
    {
      FlushKeepsHanded(State());
      if |buffer| == 0 {
        return;
      }
      var batch := buffer;
      buffer := [];
      batches := batches + [batch];
    }

    method Receive()
      modifies this
      ensures State() == Received(old(State())) && Contents(State()) == old(Contents(State()))
      ensures batchSize > 0 && old(|buffer|) < batchSize ==> |buffer| < batchSize
    {
      if channel != [] {
        ReceiveMovesHead(State());
        assert Handed(State()) + [channel[0]] + channel[1..] == Contents(State());
        var ev := channel[0];
        channel := channel[1..];
        buffer := buffer + [ev];
        if |buffer| >= batchSize {
          Flush();
        }
      }
    }

    /** The drain on close, undisturbed by producers: everything is handed over, in order. */
    method Drain()
      modifies this
      ensures channel == [] && buffer == []
      ensures Flat(batches) == Contents(old(State()))
    {
      while channel != []
        invariant batches == old(batches)
        invariant buffer + channel == old(buffer + channel)
        decreases |channel|
      {
        assert channel == [channel[0]] + channel[1..];
        buffer := buffer + [channel[0]];
        channel := channel[1..];
      }
      assert buffer == old(buffer) + old(channel);
      assert Contents(old(State())) == Flat(batches) + buffer;
      Flush();
    }
  }
}
