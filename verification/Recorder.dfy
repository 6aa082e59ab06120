/** The in-memory ring of recent access-log entries. */
module Recorder {

  /** The last `n` elements, or all of them. */
  function Last<E>(s: seq<E>, n: nat): seq<E> {
    if |s| <= n then s else s[|s| - n..]
  }

  function First<E>(s: seq<E>, n: nat): seq<E> {
    if |s| <= n then s else s[..n]
  }

  /** Those of the oldest `k` elements that satisfy the filter, newest (last) first. */
  function Matches<E>(filter: E -> bool, s: seq<E>, k: nat): seq<E>
    requires k <= |s|
  {
    if k == 0 then []
    else if filter(s[k - 1]) then [s[k - 1]] + Matches(filter, s, k - 1)
    else Matches(filter, s, k - 1)
  }

  /** Exactly the elements that satisfy the filter, in reverse order. */
  lemma {:induction false} MatchesMean<E>(filter: E -> bool, s: seq<E>, k: nat, x: E)
    requires k <= |s|
    ensures x in Matches(filter, s, k) <==> x in s[..k] && filter(x)
  {
    if k > 0 {
      assert s[..k] == s[..k - 1] + [s[k - 1]];
      MatchesMean(filter, s, k - 1, x);
    }
  }

  /** Of two elements that match, the later one comes first. */
  lemma {:induction false} MatchesReverse<E>(filter: E -> bool, s: seq<E>, k: nat, i: nat, j: nat) returns (a: nat, b: nat)
    requires i < j < k <= |s| && filter(s[i]) && filter(s[j])
    ensures a < b < |Matches(filter, s, k)| && Matches(filter, s, k)[a] == s[j] && Matches(filter, s, k)[b] == s[i]
    decreases k
  {
    if j < k - 1 {
      a, b := MatchesReverse(filter, s, k - 1, i, j);
      if filter(s[k - 1]) {
        a, b := a + 1, b + 1;
      }
    } else {
      MatchesMean(filter, s, k - 1, s[i]);
      assert s[i] in s[..k - 1];
      var at :| 0 <= at < |Matches(filter, s, k - 1)| && Matches(filter, s, k - 1)[at] == s[i];
      a, b := 0, at + 1;
    }
  }

  function Limit(limit: int): nat {
    if limit <= 0 || limit > 1000 then 200 else limit
  }

  lemma Wraps(x: int, n: int)
    requires n > 0 && -n <= x < n
    ensures (x + n) % n == if x >= 0 then x else x + n
  {
    if x >= 0 {
      assert (x + n) / n == 1;
    }
  }

  /** The retained entries of a ring, oldest first. */
  function Unrolled<E>(ring: seq<E>, next: nat, full: bool): seq<E>
    requires next < |ring|
  {
    if full then ring[next..] + ring[..next] else ring[..next]
  }

  /** `window` with one more entry, the oldest making room when there are already `n`. */
  function Pushed<E>(window: seq<E>, entry: E, n: nat): seq<E> {
    if |window| < n || window == [] then window + [entry] else window[1..] + [entry]
  }

  lemma LastPushed<E>(log: seq<E>, entry: E, n: nat)
    requires n > 0
    ensures Last(log + [entry], n) == Pushed(Last(log, n), entry, n)
  {
  }

  lemma UnrolledPushed<E>(ring: seq<E>, next: nat, full: bool, entry: E)
    requires next < |ring|
    ensures next + 1 == |ring| ==> Unrolled(ring[next := entry], 0, true) == Pushed(Unrolled(ring, next, full), entry, |ring|)
    ensures next + 1 < |ring| ==> Unrolled(ring[next := entry], next + 1, full) == Pushed(Unrolled(ring, next, full), entry, |ring|)
  {
    if next + 1 < |ring| {
      assert ring[next := entry][..next + 1] == ring[..next] + [entry];
      assert ring[next := entry][next + 1..] == ring[next..][1..];
    } else {
      assert ring[next := entry] == ring[..next] + [entry];
    }
  }

  /** Counting `i` back from the newest entry wraps around the start of the ring. */
  lemma FromNewest<E>(ring: seq<E>, next: nat, full: bool, i: nat)
    requires next < |ring| && i < |Unrolled(ring, next, full)|
    ensures 0 <= (next - 1 - i + |ring|) % |ring| < |ring|
    ensures ring[(next - 1 - i + |ring|) % |ring|] == Unrolled(ring, next, full)[|Unrolled(ring, next, full)| - 1 - i]
  {
    Wraps(next - 1 - i, |ring|);
  }

  class Recorder<E(0)> {
    const entries: array<E>
    var next: nat
    var full: bool
    /** Every entry recorded, oldest first. */
    ghost var log: seq<E>

    ghost predicate Valid()
      reads this, entries
    {
      next < entries.Length && Unrolled(entries[..], next, full) == Last(log, entries.Length)
    }

    constructor (capacity: int)
      ensures Valid() && fresh(entries) && log == []
      ensures entries.Length == if capacity <= 0 then 2000 else capacity
    {
      entries := new E[if capacity <= 0 then 2000 else capacity];
      next, full, log := 0, false, [];
    }

    method Record(entry: E)
      requires Valid()
      modifies this, entries
      ensures Valid() && log == old(log) + [entry]
    {
      UnrolledPushed(entries[..], next, full, entry);
      LastPushed(log, entry, entries.Length);
      entries[next] := entry;
      log := log + [entry];
      Wraps(next + 1 - entries.Length, entries.Length);
      next := (next + 1) % entries.Length;
      if next == 0 {
        full := true;
      }
    }

    /** The newest matches among the last `capacity` entries recorded, at most `limit` of them. */
    method List(filter: E -> bool, limit: int) returns (out: seq<E>)
      requires Valid()
      ensures out == First(Matches(filter, Last(log, entries.Length), |Last(log, entries.Length)|), Limit(limit))
      ensures |out| <= if 0 < limit <= 1000 then limit else 200
      ensures |out| < (if 0 < limit <= 1000 then limit else 200) ==>
        out == Matches(filter, Last(log, entries.Length), |Last(log, entries.Length)|)
    {
      var most := Limit(limit);
      var size := if full then entries.Length else next;
      ghost var window := Unrolled(entries[..], next, full);
      ghost var all := Matches(filter, window, size);
      out := [];
      var i := 0;
      while i < size && |out| < most
        invariant 0 <= i <= size && |out| <= most
        invariant out + Matches(filter, window, size - i) == all
      {
        FromNewest(entries[..], next, full, i);
        var entry := entries[(next - 1 - i + entries.Length) % entries.Length];
        assert entry == window[size - 1 - i];
        if filter(entry) {
          ghost var rest := Matches(filter, window, size - i - 1);
          assert out + ([entry] + rest) == (out + [entry]) + rest;
          out := out + [entry];
        }
        i := i + 1;
      }
    }
  }
}
