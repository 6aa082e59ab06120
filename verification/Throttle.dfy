/** The throttle on denied-request audit rows: one row per key and window, and a cap per window. */
module Throttle {

  type Key = string
  type Time = int

  datatype Throttle = Throttle(
    window: Time, limit: int, start: Time, written: nat, current: map<Key, nat>, previous: map<Key, nat>)

  datatype Answer = Answer(ok: bool, suppressed: nat)

  function Created(window: Time, limit: int): Throttle {
    Throttle(window, limit, 0, 0, map[], map[])
  }

  predicate Over(t: Throttle, now: Time) {
    now - t.start >= t.window
  }

  function Suppressed(current: map<Key, nat>): map<Key, nat> {
    map k | k in current && current[k] > 0 :: current[k]
  }

  /** Opens a new window once the old one is over; its counts survive one window at most. */
  function Rolled(t: Throttle, now: Time): Throttle {
    if !Over(t, now) then t
    else
      t.(previous := if now - t.start < 2 * t.window then Suppressed(t.current) else map[],
         current := map[], start := now, written := 0)
  }

  function Ask(t: Throttle, key: Key): Answer {
    if key in t.current || t.written >= t.limit then Answer(false, 0)
    else Answer(true, if key in t.previous then t.previous[key] else 0)
  }

  function Counted(t: Throttle, key: Key): Throttle {
    if key in t.current then t.(current := t.current[key := t.current[key] + 1])
    else if t.written >= t.limit then t
    else t.(written := t.written + 1, current := t.current[key := 0], previous := t.previous - {key})
  }

  class DenialThrottle {
    const window: Time
    const limit: int
    var start: Time
    var written: nat
    var current: map<Key, nat>
    var previous: map<Key, nat>

    function State(): Throttle
      reads this
    {
      Throttle(window, limit, start, written, current, previous)
    }

    constructor (window: Time, limit: int)
      ensures State() == Created(window, limit)
    {
      this.window, this.limit := window, limit;
      start, written := 0, 0;
      current, previous := map[], map[];
    }

    method Allow(key: Key, now: Time) returns (ok: bool, suppressed: nat)
      modifies this
      ensures State() == Counted(Rolled(old(State()), now), key)
      ensures Answer(ok, suppressed) == Ask(Rolled(old(State()), now), key)
    {
      if now - start >= window {
        var carried: map<Key, nat> := map[];
        if now - start < 2 * window {
          carried := Carry();
        }
        previous := carried;
        current := map[];
        start := now;
        written := 0;
      }
      if key in current {
        current := current[key := current[key] + 1];
        return false, 0;
      }
      if written >= limit {
        return false, 0;
      }
      written := written + 1;
      current := current[key := 0];
      suppressed := if key in previous then previous[key] else 0;
      previous := previous - {key};
      ok := true;
    }

    method Carry() returns (carried: map<Key, nat>)
      ensures carried == Suppressed(current)
    {
      carried := map[];
      var left := current.Keys;
      while left != {}
        invariant left <= current.Keys
        invariant carried == map k | k in current && k !in left && current[k] > 0 :: current[k]
        decreases |left|
      {
        var k :| k in left;
        if current[k] > 0 {
          carried := carried[k := current[k]];
        }
        left := left - {k};
      }
    }
  }
}
