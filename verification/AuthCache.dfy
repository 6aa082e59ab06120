/** The in-process cache of authentication results, with its index by user and its sweep. */
module AuthCache {
  import opened Common

  type TokenKey = string
  type UserId = nat
  type Time = int

  const MAX_ENTRIES := 10000

  datatype Entry = Entry(user: UserId, groups: seq<nat>, expires: Time)

  type Entries = map<TokenKey, Entry>
  type Index = map<UserId, set<TokenKey>>

  /** Each cached token is listed under its user. */
  ghost predicate Indexed(entries: Entries, index: Index) {
    forall t :: t in entries ==> Listed(index, entries[t].user, t)
  }

  predicate Listed(index: Index, user: UserId, t: TokenKey) {
    user in index && t in index[user]
  }

  function Relisted(index: Index, user: UserId, t: TokenKey): Index {
    index[user := (if user in index then index[user] else {}) + {t}]
  }

  /** The index without `t` under `user`; a user left without tokens goes too. */
  function Unlisted(index: Index, user: UserId, t: TokenKey): Index {
    if user !in index then index
    else
      var left := index[user] - {t};
      if left == {} then index - {user} else index[user := left]
  }

  lemma UnlistedKeepsIndex(entries: Entries, index: Index, t: TokenKey)
    requires Indexed(entries, index) && t in entries
    ensures Indexed(entries - {t}, Unlisted(index, entries[t].user, t))
  {
  }

  /** Exactly that listing goes, and a user left without one. */
  lemma UnlistedDrops(index: Index, user: UserId, t: TokenKey, u: UserId, x: TokenKey)
    ensures Listed(Unlisted(index, user, t), u, x) <==> Listed(index, u, x) && !(u == user && x == t)
    ensures user in Unlisted(index, user, t) ==> Unlisted(index, user, t)[user] != {}
  {
    if u == user && Listed(index, user, x) && x != t {
      assert x in index[user] - {t};
    }
  }

  function Unexpired(entries: Entries, now: Time): Entries {
    map t | t in entries && now <= entries[t].expires :: entries[t]
  }

  /** What was evicted expires no later than anything kept. */
  ghost predicate OldestOut(before: Entries, after: Entries) {
    forall t, u :: t in before && t !in after && u in after ==> before[t].expires <= after[u].expires
  }

  ghost predicate Within(after: Entries, before: Entries) {
    forall t :: t in after ==> t in before && after[t] == before[t]
  }

  ghost predicate Ascending(keys: seq<TokenKey>, entries: Entries)
    requires forall t :: t in keys ==> t in entries
  {
    forall i, j :: 0 <= i < j < |keys| ==> entries[keys[i]].expires <= entries[keys[j]].expires
  }

  ghost predicate Distinct(keys: seq<TokenKey>) {
    forall i, j :: 0 <= i < j < |keys| ==> keys[i] != keys[j]
  }

  /** The cached tokens in order of expiry. */
  method ByExpiry(entries: Entries) returns (keys: seq<TokenKey>)
    ensures forall t :: t in keys <==> t in entries
    ensures Ascending(keys, entries) && Distinct(keys) && |keys| == |entries|
  {
    keys := [];
    var left := entries.Keys;
    while left != {}
      invariant left <= entries.Keys
      invariant forall t :: t in keys <==> t in entries && t !in left
      invariant Ascending(keys, entries) && Distinct(keys) && |keys| + |left| == |entries|
      decreases |left|
    {
      var t :| t in left;
      keys := Insert(keys, t, entries);
      left := left - {t};
    }
  }

  method Insert(keys: seq<TokenKey>, t: TokenKey, entries: Entries) returns (r: seq<TokenKey>)
    requires t in entries && t !in keys && forall k :: k in keys ==> k in entries
    requires Ascending(keys, entries) && Distinct(keys)
    ensures forall k :: k in r <==> k in keys || k == t
    ensures Ascending(r, entries) && Distinct(r) && |r| == |keys| + 1
  {
    var i := 0;
    while i < |keys| && entries[keys[i]].expires < entries[t].expires
      invariant 0 <= i <= |keys|
      invariant forall k :: 0 <= k < i ==> entries[keys[k]].expires < entries[t].expires
    {
      i := i + 1;
    }
    r := keys[..i] + [t] + keys[i..];
    InsertedHolds(keys, i, t, r);
    InsertedAscends(keys, i, t, r, entries);
  }

  lemma InsertedHolds(keys: seq<TokenKey>, i: nat, t: TokenKey, r: seq<TokenKey>)
    requires i <= |keys| && r == keys[..i] + [t] + keys[i..]
    requires t !in keys && Distinct(keys)
    ensures Distinct(r)
    ensures forall k :: k in r <==> k in keys || k == t
  {
    assert keys == keys[..i] + keys[i..];
    forall a, b | 0 <= a < b < |r| ensures r[a] != r[b] {
      if a < i { assert r[a] == keys[a]; } else if a > i { assert r[a] == keys[a - 1]; }
      if b < i { assert r[b] == keys[b]; } else if b > i { assert r[b] == keys[b - 1]; }
    }
  }

  lemma InsertedAscends(keys: seq<TokenKey>, i: nat, t: TokenKey, r: seq<TokenKey>, entries: Entries)
    requires i <= |keys| && r == keys[..i] + [t] + keys[i..]
    requires t in entries && forall k :: k in keys ==> k in entries
    requires Ascending(keys, entries)
    requires forall k :: 0 <= k < i ==> entries[keys[k]].expires < entries[t].expires
    requires i < |keys| ==> entries[t].expires <= entries[keys[i]].expires
    ensures forall k :: k in r ==> k in entries
    ensures Ascending(r, entries)
  {
    forall a, b | 0 <= a < b < |r| ensures entries[r[a]].expires <= entries[r[b]].expires {
      if a < i { assert r[a] == keys[a]; } else if a > i { assert r[a] == keys[a - 1]; }
      if b < i { assert r[b] == keys[b]; } else if b > i { assert r[b] == keys[b - 1]; }
    }
  }

  class AuthCache {
    const ttl: Time
    var entries: Entries
    var index: Index

    ghost predicate Valid()
      reads this
    {
      Indexed(entries, index)
    }

    constructor (ttl: Time)
      ensures Valid() && entries == map[] && this.ttl == ttl
    {
      this.ttl := ttl;
      entries, index := map[], map[];
    }

    /** Caches a result until the time to live or the token's own expiry ends, whichever is first. */
    method Store(t: TokenKey, user: UserId, groups: seq<nat>, tokenExpires: Option<Time>, now: Time)
      requires Valid()
      modifies this
      ensures Valid()
      ensures var expires := if tokenExpires.Some? && tokenExpires.value < now + ttl then tokenExpires.value else now + ttl;
        entries == if ttl > 0 && now < expires then old(entries)[t := Entry(user, groups, expires)] else old(entries)
    {
      if ttl <= 0 {
        return;
      }
      var expires := now + ttl;
      if tokenExpires.Some? && tokenExpires.value < expires {
        expires := tokenExpires.value;
      }
      if !(now < expires) {
        return;
      }
      entries := entries[t := Entry(user, groups, expires)];
      index := Relisted(index, user, t);
    }

    /** The read-locked lookup: a hit is never past its expiry. */
    method Look(t: TokenKey, now: Time) returns (hit: Option<Entry>, expired: bool)
      ensures hit == if ttl > 0 && t in Unexpired(entries, now) then Some(entries[t]) else None
      ensures hit.Some? ==> now <= hit.value.expires
      ensures expired <==> ttl > 0 && t in entries && t !in Unexpired(entries, now)
    {
      if ttl <= 0 {
        return None, false;
      }
      if t !in entries {
        return None, false;
      }
      if now > entries[t].expires {
        return None, true;
      }
      return Some(entries[t]), false;
    }

    /**
     The write-locked removal that follows an expired lookup. It removes whatever is cached by
     then, so also a result stored in between; the index keeps listing the token.
     */
    method Remove(t: TokenKey)
      requires Valid()
      modifies this`entries
      ensures Valid() && entries == old(entries) - {t}
    {
      entries := entries - {t};
    }

    /** No entry of the user survives, and only tokens listed under the user are removed. */
    method InvalidateUser(user: UserId)
      requires Valid()
      modifies this
      ensures Valid() && user !in index
      ensures forall t :: t in entries ==> entries[t].user != user
      ensures entries == old(entries) - (if user in old(index) then old(index)[user] else {})
    {
      var listed := if user in index then index[user] else {};
      var left := listed;
      while left != {}
        invariant left <= listed
        invariant entries == old(entries) - (listed - left)
        invariant index == old(index)
        decreases |left|
      {
        var t :| t in left;
        entries := entries - {t};
        left := left - {t};
      }
      index := index - {user};
    }

    method InvalidateAll()
      modifies this
      ensures Valid() && entries == map[] && index == map[]
    {
      entries, index := map[], map[];
    }

    method Drop(t: TokenKey)
      requires Valid() && t in entries
      modifies this
      ensures Valid() && entries == old(entries) - {t}
      ensures forall u, x :: Listed(index, u, x) <==> Listed(old(index), u, x) && !(u == old(entries)[t].user && x == t)
    {
      forall u, x ensures Listed(Unlisted(index, entries[t].user, t), u, x) <==> Listed(index, u, x) && !(u == entries[t].user && x == t) {
        UnlistedDrops(index, entries[t].user, t, u, x);
      }
      UnlistedKeepsIndex(entries, index, t);
      var user := entries[t].user;
      entries := entries - {t};
      index := Unlisted(index, user, t);
    }

    method DropExpired(now: Time)
      requires Valid()
      modifies this
      ensures Valid() && entries == Unexpired(old(entries), now)
    {
      var left := entries.Keys;
      while left != {}
        invariant Valid() && left <= entries.Keys
        invariant entries == map t | t in old(entries) && (t in left || now <= old(entries)[t].expires) :: old(entries)[t]
        decreases |left|
      {
        var t :| t in left;
        if now > entries[t].expires {
          Drop(t);
        }
        left := left - {t};
      }
    }

    /**
     After a sweep no entry is expired and at most 10000 remain; an unexpired entry is
     evicted only for size, and then expires no later than every entry kept.
     */
    method Sweep(now: Time)
      requires Valid()
      modifies this
      ensures Valid() && Within(entries, Unexpired(old(entries), now))
      ensures |entries| == if |Unexpired(old(entries), now)| <= 10000 then |Unexpired(old(entries), now)| else 10000
      ensures OldestOut(Unexpired(old(entries), now), entries)
    {
      DropExpired(now);
      if |entries| <= MAX_ENTRIES {
        return;
      }
      var keys := ByExpiry(entries);
      LeftAreYoungest(entries, keys, |keys| - MAX_ENTRIES);
      DropFirst(keys, |keys| - MAX_ENTRIES);
    }

    /** Evicts the first `excess` of the tokens listed by expiry. */
    method DropFirst(keys: seq<TokenKey>, excess: nat)
      requires Valid() && excess <= |keys|
      requires forall t :: t in keys <==> t in entries
      requires Ascending(keys, entries) && Distinct(keys)
      modifies this
      ensures Valid() && entries == Left(old(entries), keys, excess) && |entries| == old(|entries|) - excess
    {
      for i := 0 to excess
        invariant Valid() && entries == Left(old(entries), keys, i)
        invariant |entries| == old(|entries|) - i
      {
        LeftShrinks(old(entries), keys, i);
        Drop(keys[i]);
      }
    }
  }

  /** The entries that are not among the first `i` listed. */
  function Left(entries: Entries, keys: seq<TokenKey>, i: nat): Entries
    requires i <= |keys|
  {
    map t | t in entries && t !in keys[..i] :: entries[t]
  }

  lemma LeftShrinks(entries: Entries, keys: seq<TokenKey>, i: nat)
    requires i < |keys| && Distinct(keys) && forall t :: t in keys <==> t in entries
    ensures keys[i] in Left(entries, keys, i)
    ensures Left(entries, keys, i + 1) == Left(entries, keys, i) - {keys[i]}
    ensures |Left(entries, keys, i + 1)| == |Left(entries, keys, i)| - 1
  {
    assert keys[i] in keys && keys[i] !in keys[..i];
    assert keys[..i + 1] == keys[..i] + [keys[i]];
    assert Left(entries, keys, i).Keys == Left(entries, keys, i + 1).Keys + {keys[i]};
  }

  lemma LeftAreYoungest(entries: Entries, keys: seq<TokenKey>, i: nat)
    requires i <= |keys| && forall t :: t in keys <==> t in entries
    requires Ascending(keys, entries)
    ensures OldestOut(entries, Left(entries, keys, i))
  {
    forall t, u | t in entries && t in keys[..i] && u in entries && u !in keys[..i]
      ensures entries[t].expires <= entries[u].expires
    {
      var a :| 0 <= a < i && keys[a] == t;
      var b :| 0 <= b < |keys| && keys[b] == u;
      assert i <= b;
    }
  }
}
