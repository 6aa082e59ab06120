/** The shared table of named locks with leases, one SQL transaction at a time. */
module LockTable {

  type Name = string
  type Token = string
  type Time = int

  datatype Lease = Lease(owner: Token, expires: Time)

  type Rows = map<Name, Lease>

  /** Rows left after expired ones are deleted. */
  function Purged(rows: Rows, now: Time): Rows {
    map n | n in rows && now < rows[n].expires :: rows[n]
  }

  /** Purge, then insert unless the name is taken. */
  function Acquired(rows: Rows, name: Name, owner: Token, now: Time, ttl: nat): Rows {
    var left := Purged(rows, now);
    if name in left then left else left[name := Lease(owner, now + ttl)]
  }

  predicate Free(rows: Rows, name: Name, now: Time) {
    name !in rows || rows[name].expires <= now
  }

  predicate Owned(rows: Rows, name: Name, owner: Token) {
    name in rows && rows[name].owner == owner
  }

  /** Move the expiry of the row, if the owner still has it. */
  function Extended(rows: Rows, name: Name, owner: Token, expires: Time): Rows {
    if Owned(rows, name, owner) then rows[name := Lease(owner, expires)] else rows
  }

  /** Delete the row, if the owner still has it. */
  function Released(rows: Rows, name: Name, owner: Token): Rows {
    if Owned(rows, name, owner) then rows - {name} else rows
  }

  /** A row not expired at the reading survives the purge and is not handed out. */
  lemma AcquiredSpares(rows: Rows, name: Name, owner: Token, now: Time, ttl: nat, n: Name)
    requires n in rows && now < rows[n].expires
    ensures n in Acquired(rows, name, owner, now, ttl) && Acquired(rows, name, owner, now, ttl)[n] == rows[n]
  {
  }

  /** The only new row is that of a name that was free. */
  lemma AcquiredAdds(rows: Rows, name: Name, owner: Token, now: Time, ttl: nat, n: Name)
    requires n in Acquired(rows, name, owner, now, ttl)
    ensures var lease := Acquired(rows, name, owner, now, ttl)[n];
      if n == name && Free(rows, name, now) then lease == Lease(owner, now + ttl) else n in rows && rows[n] == lease
  {
  }

  lemma AcquiredTakesFree(rows: Rows, name: Name, owner: Token, now: Time, ttl: nat)
    requires Free(rows, name, now)
    ensures name in Acquired(rows, name, owner, now, ttl) && Acquired(rows, name, owner, now, ttl)[name] == Lease(owner, now + ttl)
  {
  }

  /** Of the other rows it deletes exactly the expired ones. */
  lemma AcquiredPurges(rows: Rows, name: Name, owner: Token, now: Time, ttl: nat, n: Name)
    requires n != name
    ensures n in Acquired(rows, name, owner, now, ttl) <==> n in rows && now < rows[n].expires
    ensures n in Acquired(rows, name, owner, now, ttl) ==> Acquired(rows, name, owner, now, ttl)[n] == rows[n]
  {
  }

  class LockTable {
    var rows: Rows

    constructor ()
      ensures rows == map[]
    {
      rows := map[];
    }

    /** `tryAcquire`: succeeds exactly on a free name, and then the new owner has it. */
    method TryAcquire(name: Name, owner: Token, now: Time, ttl: nat) returns (ok: bool)
      modifies this
      ensures rows == Acquired(old(rows), name, owner, now, ttl)
      ensures ok <==> Free(old(rows), name, now)
      ensures ok ==> name in rows && rows[name] == Lease(owner, now + ttl)
      ensures !ok ==> name in rows && rows[name] == old(rows)[name]
      ensures forall n :: n != name ==> (n in rows <==> n in old(rows) && now < old(rows)[n].expires)
      ensures forall n :: n != name && n in rows ==> rows[n] == old(rows)[n]
    {
      var left: Rows := rows;
      var names := rows.Keys;
      while names != {}
        invariant names <= rows.Keys == old(rows).Keys
        invariant rows == old(rows)
        invariant left == map n | n in rows && (n in names || now < rows[n].expires) :: rows[n]
        decreases |names|
      {
        var n :| n in names;
        if rows[n].expires <= now {
          left := left - {n};
        }
        names := names - {n};
      }
      rows := left;
      ok := name !in rows;
      if ok {
        rows := rows[name := Lease(owner, now + ttl)];
      }
    }

    method Extend(name: Name, owner: Token, expires: Time)
      modifies this
      ensures rows == Extended(old(rows), name, owner, expires)
      ensures forall n, o :: Owned(rows, n, o) <==> Owned(old(rows), n, o)
      ensures Owned(rows, name, owner) ==> rows[name].expires == expires
      ensures forall n :: n in rows && !(n == name && Owned(rows, n, owner)) ==> rows[n] == old(rows)[n]
    {
      if name in rows && rows[name].owner == owner {
        rows := rows[name := Lease(owner, expires)];
      }
    }

    method Release(name: Name, owner: Token)
      modifies this
      ensures rows == Released(old(rows), name, owner)
      ensures !Owned(rows, name, owner)
      ensures forall n :: n in old(rows) && !(n == name && Owned(old(rows), n, owner)) ==> n in rows && rows[n] == old(rows)[n]
    {
      if name in rows && rows[name].owner == owner {
        rows := rows - {name};
      }
    }
  }
}
