/**
 The stale-while-revalidate certificate cache, one critical section at a time.
 `Cache` holds what the mutex protects; the class below updates it in place.
 */
module CertificateCache {
  import opened Common

  type Name = string
  type Time = int

  /** Seconds a hit is served without a background refresh. */
  const FRESH_FOR := 60
  /** Seconds a miss is remembered. */
  const MISS_FOR := 30
  const MAX_MISSES := 4096

  /** A key pair that loaded: its chain and the private key that fits it. */
  datatype Certificate = Certificate(chain: string, key: int)

  /** What loading a name from the table gave. */
  datatype Outcome = Found(cert: Certificate) | Missing | Failed

  datatype Entry = Entry(cert: Certificate, loadedAt: Time)

  datatype Cache = Cache(hits: map<Name, Entry>, misses: map<Name, Time>, gen: nat)

  datatype Lookup = Fresh(cert: Certificate) | Stale(cert: Certificate) | KnownMissing | Unknown

  const EMPTY := Cache(map[], map[], 0)

  function Look(c: Cache, name: Name, now: Time): Lookup {
    if name in c.hits then
      var entry := c.hits[name];
      if now - entry.loadedAt >= FRESH_FOR then Stale(entry.cert) else Fresh(entry.cert)
    else if name in c.misses && now - c.misses[name] < MISS_FOR then KnownMissing
    else Unknown
  }

  /** The locked tail of a refresh that read generation `gen` before loading. */
  function Remember(c: Cache, name: Name, gen: nat, outcome: Outcome, now: Time): Cache {
    if gen != c.gen then c
    else match outcome
      case Found(cert) => c.(hits := c.hits[name := Entry(cert, now)], misses := c.misses - {name})
      case Missing =>
        var kept := if |c.misses| >= MAX_MISSES then map[] else c.misses;
        c.(hits := c.hits - {name}, misses := kept[name := now])
      case Failed =>
        if name in c.hits then c.(hits := c.hits[name := c.hits[name].(loadedAt := now)]) else c
  }

  /**
   What the end of a refresh leaves: nothing changes after an invalidation or for another
   name; a loaded certificate is a hit from now on, a missing one a miss; and a load that
   failed costs nothing, the certificate served so far stays and is not retried at once.
   */
  ghost predicate Settles(c: Cache, c': Cache, name: Name, gen: nat, outcome: Outcome, now: Time) {
    && c'.gen == c.gen
    && (forall n :: n != name ==> (n in c'.hits <==> n in c.hits) && (n in c.hits ==> c'.hits[n] == c.hits[n]))
    && if gen != c.gen then c' == c
       else match outcome
         case Found(cert) => name in c'.hits && c'.hits[name] == Entry(cert, now) && c'.misses == c.misses - {name}
         case Missing =>
           && name !in c'.hits && name in c'.misses && c'.misses[name] == now
           && (forall n :: n in c'.misses && n != name ==> n in c.misses && c'.misses[n] == c.misses[n])
           && (|c.misses| < 4096 ==> forall n :: n in c.misses ==> n in c'.misses)
         case Failed =>
           && c'.misses == c.misses && (name in c'.hits <==> name in c.hits)
           && (name in c.hits ==> c'.hits[name] == Entry(c.hits[name].cert, now))
  }

  lemma RememberSettles(c: Cache, name: Name, gen: nat, outcome: Outcome, now: Time)
    ensures Settles(c, Remember(c, name, gen, outcome, now), name, gen, outcome, now)
  {
  }

  function Invalidated(c: Cache, name: Name): Cache {
    Cache(c.hits - {name}, c.misses - {name}, c.gen + 1)
  }

  function AllInvalidated(c: Cache): Cache {
    Cache(map[], map[], c.gen + 1)
  }

  /** Hits and misses never name the same certificate, and misses are bounded. */
  predicate WellFormed(c: Cache) {
    c.hits.Keys !! c.misses.Keys && |c.misses| <= MAX_MISSES
  }

  lemma RememberKeepsWellFormed(c: Cache, name: Name, gen: nat, outcome: Outcome, now: Time)
    requires WellFormed(c)
    ensures WellFormed(Remember(c, name, gen, outcome, now))
  {
    if gen == c.gen {
      match outcome
      case Found(_) => SmallerMap(c.misses - {name}, c.misses);
      case Missing =>
        GrownMap(if |c.misses| >= MAX_MISSES then map[] else c.misses, name, now);
      case Failed =>
    }
  }

  lemma InvalidatedKeepsWellFormed(c: Cache, name: Name)
    requires WellFormed(c)
    ensures WellFormed(Invalidated(c, name))
  {
    SmallerMap(Invalidated(c, name).misses, c.misses);
  }

  lemma GrownMap<K, V>(m: map<K, V>, k: K, v: V)
    ensures |m[k := v]| <= |m| + 1
  {
    assert m[k := v].Keys == m.Keys + {k};
  }

  lemma SmallerMap<K, V>(a: map<K, V>, b: map<K, V>)
    requires a.Keys <= b.Keys
    ensures |a| <= |b|
  {
    SmallerSet(a.Keys, b.Keys);
  }

  lemma SmallerSet<T>(a: set<T>, b: set<T>)
    requires a <= b
    ensures |a| <= |b|
  {
    assert b == a + (b - a);
    assert |b| == |a| + |b - a|;
  }

  class CertificateCache {
    var hits: map<Name, Entry>
    var misses: map<Name, Time>
    var gen: nat

    function State(): Cache
      reads this
    {
      Cache(hits, misses, gen)
    }

    constructor ()
      ensures State() == EMPTY && WellFormed(State())
    {
      hits, misses, gen := map[], map[], 0;
    }

    /** The read-locked head of `get`. */
    method Get(name: Name, now: Time) returns (found: Lookup)
      ensures found == Look(State(), name, now)
      ensures name in hits <==> found.Fresh? || found.Stale?
      ensures found.Fresh? || found.Stale? ==> found.cert == hits[name].cert && (found.Fresh? <==> now < hits[name].loadedAt + 60)
      ensures found.KnownMissing? <==> name !in hits && name in misses && now < misses[name] + 30
    {
      if name in hits {
        var entry := hits[name];
        if now - entry.loadedAt >= FRESH_FOR {
          return Stale(entry.cert);
        }
        return Fresh(entry.cert);
      }
      if name in misses && now - misses[name] < MISS_FOR {
        return KnownMissing;
      }
      return Unknown;
    }

    /** The write-locked tail of `refresh`. */
    method FinishRefresh(name: Name, readGen: nat, outcome: Outcome, now: Time)
      requires WellFormed(State())
      modifies this
      ensures State() == Remember(old(State()), name, readGen, outcome, now)
      ensures Settles(old(State()), State(), name, readGen, outcome, now)
      ensures WellFormed(State())
    {
      RememberSettles(State(), name, readGen, outcome, now);
      RememberKeepsWellFormed(State(), name, readGen, outcome, now);
      if readGen != gen {
        return;
      }
      match outcome
      case Found(cert) =>
        hits := hits[name := Entry(cert, now)];
        misses := misses - {name};
      case Missing =>
        hits := hits - {name};
        if |misses| >= MAX_MISSES {
          misses := map[];
        }
        misses := misses[name := now];
      case Failed =>
        if name in hits {
          var entry := hits[name];
          hits := hits[name := entry.(loadedAt := now)];
        }
    }

    method Invalidate(name: Name)
      requires WellFormed(State())
      modifies this
      ensures State() == Invalidated(old(State()), name)
      ensures name !in hits && name !in misses && gen > old(gen)
      ensures forall n :: n != name ==> (n in hits <==> n in old(hits)) && (n in hits ==> hits[n] == old(hits)[n])
      ensures WellFormed(State())
    {
      InvalidatedKeepsWellFormed(State(), name);
      hits := hits - {name};
      misses := misses - {name};
      gen := gen + 1;
    }

    method InvalidateAll()
      modifies this
      ensures State() == AllInvalidated(old(State()))
      ensures hits == map[] && misses == map[] && gen > old(gen)
      ensures WellFormed(State())
    {
      hits := map[];
      misses := map[];
      gen := gen + 1;
    }
  }
}
