/** The session table: each operation is one guarded SQL statement. */
module SessionStore {

  type Sid = nat
  type UserId = nat
  type Token = string
  type Time = int

  /** Random tokens and their stored hashes are identified: hashing is taken as collision-free. */
  datatype Session = Session(user: UserId, tokenID: Token, refresh: Token, revoked: bool, expires: Time)

  type Rows = map<Sid, Session>

  predicate Active(rows: Rows, id: Sid) {
    id in rows && !rows[id].revoked
  }

  /** The guard of `Rotate`: the row is active and still holds the presented refresh token. */
  predicate CanRotate(rows: Rows, id: Sid, previous: Token) {
    Active(rows, id) && rows[id].refresh == previous
  }

  function Rotated(rows: Rows, id: Sid, previous: Token, tokenID: Token, refresh: Token, expires: Time): Rows {
    if CanRotate(rows, id, previous)
    then rows[id := rows[id].(tokenID := tokenID, refresh := refresh, expires := expires)] else rows
  }

  /** Revokes the active sessions of `user` except `keep`, where 0 keeps none. */
  function RevokedExcept(rows: Rows, user: UserId, keep: Sid): Rows {
    map id | id in rows ::
      if rows[id].user == user && (keep == 0 || id != keep) then rows[id].(revoked := true) else rows[id]
  }

  function RevokedOne(rows: Rows, id: Sid): Rows {
    if id in rows then rows[id := rows[id].(revoked := true)] else rows
  }

  class SessionStore {
    var rows: Rows

    constructor ()
      ensures rows == map[]
    {
      rows := map[];
    }

    method Rotate(id: Sid, previous: Token, tokenID: Token, refresh: Token, expires: Time) returns (ok: bool)
      modifies this
      ensures ok <==> CanRotate(old(rows), id, previous)
      ensures rows == Rotated(old(rows), id, previous, tokenID, refresh, expires)
      ensures ok <==> id in old(rows) && !old(rows)[id].revoked && old(rows)[id].refresh == previous
      ensures ok ==> id in rows && rows[id] == Session(old(rows)[id].user, tokenID, refresh, false, expires)
      ensures !ok ==> rows == old(rows)
      ensures rows.Keys == old(rows).Keys && forall k :: k in rows && k != id ==> rows[k] == old(rows)[k]
      ensures refresh != previous ==> !CanRotate(rows, id, previous)
    {
      ok := id in rows && !rows[id].revoked && rows[id].refresh == previous;
      if ok {
        rows := rows[id := rows[id].(tokenID := tokenID, refresh := refresh, expires := expires)];
      }
    }

    /** The update of the last-seen time, which only reports whether the row was active. */
    method Touch(id: Sid) returns (ok: bool)
      ensures ok <==> id in rows && !rows[id].revoked
    {
      ok := id in rows && !rows[id].revoked;
    }

    method Revoke(id: Sid) returns (ok: bool)
      modifies this
      ensures ok <==> id in old(rows) && !old(rows)[id].revoked
      ensures rows == RevokedOne(old(rows), id) && rows.Keys == old(rows).Keys
      ensures id in rows ==> rows[id] == old(rows)[id].(revoked := true)
      ensures forall k :: k in rows && k != id ==> rows[k] == old(rows)[k]
    {
      ok := id in rows && !rows[id].revoked;
      if ok {
        rows := rows[id := rows[id].(revoked := true)];
      }
    }

    method RevokeByUserExcept(user: UserId, keep: Sid)
      modifies this
      ensures rows == RevokedExcept(old(rows), user, keep) && rows.Keys == old(rows).Keys
      ensures forall id :: id in rows ==>
        (rows[id].revoked <==> old(rows)[id].revoked || (old(rows)[id].user == user && (keep == 0 || id != keep)))
      ensures forall id :: id in rows ==> rows[id] == old(rows)[id].(revoked := rows[id].revoked)
    {
      var left := rows.Keys;
      while left != {}
        invariant left <= old(rows).Keys == rows.Keys
        invariant forall id :: id in left ==> rows[id] == old(rows)[id]
        invariant forall id :: id in rows && id !in left ==> rows[id] == RevokedExcept(old(rows), user, keep)[id]
        decreases |left|
      {
        var id :| id in left;
        if rows[id].user == user && !rows[id].revoked && (keep == 0 || id != keep) {
          rows := rows[id := rows[id].(revoked := true)];
        }
        left := left - {id};
      }
    }
  }
}
