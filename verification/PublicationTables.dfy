/** The lease, fence and item tables behind remote publication, for one task.
    Each table operation is one database transaction, so each is one function from
    tables to tables; the class `PublicationStore` performs it in place. */
module PublicationTables {
  import opened Wrappers

  /** Publication keys are digests and owner ids are fresh UUIDs: only equality matters. */
  type Key = nat
  type OwnerId = nat

  datatype ItemState = Pending | Succeeded | Failed | Unknown

  datatype RemoteComment = RemoteComment(remoteId: string, url: string)

  datatype Row = Row(
    state: ItemState,
    remote: Option<RemoteComment>,
    error: Option<string>,
    version: nat,
    token: nat)

  datatype Lease = Lease(owner: OwnerId, token: nat, expires: int)

  datatype Tables = Tables(lease: Option<Lease>, lastToken: nat, rows: map<Key, Row>)

  /** What one item is set to: the state, remote and error columns. */
  datatype ItemWrite = ItemWrite(state: ItemState, remote: Option<RemoteComment>, error: Option<string>)

  predicate HeldBy(t: Tables, owner: OwnerId) {
    t.lease.Some? && t.lease.value.owner == owner
  }

  /** The `EXISTS` guard shared by renewal and item update. */
  predicate Live(t: Tables, owner: OwnerId, token: nat, now: int) {
    HeldBy(t, owner) && t.lease.value.token == token && now < t.lease.value.expires
  }

  function InitialRow(): Row {
    Row(Pending, None, None, 1, 0)
  }

  function Acquired(t: Tables, owner: OwnerId, now: int, seconds: nat): (Tables, Option<nat>) {
    if t.lease.Some? && now < t.lease.value.expires then
      (t, None)
    else
      var token := t.lastToken + 1;
      (t.(lease := Some(Lease(owner, token, now + seconds)), lastToken := token), Some(token))
  }

  function Renewed(t: Tables, owner: OwnerId, token: nat, now: int, seconds: nat): (Tables, bool) {
    if Live(t, owner, token, now) then
      (t.(lease := Some(Lease(owner, token, now + seconds))), true)
    else
      (t, false)
  }

  function Released(t: Tables, owner: OwnerId, token: Option<nat>): Tables {
    if HeldBy(t, owner) && (token == None || token == Some(t.lease.value.token)) then
      t.(lease := None)
    else
      t
  }

  function Updated(t: Tables, key: Key, write: ItemWrite, owner: OwnerId, token: nat,
                   expectedVersion: nat, now: int): (Tables, bool) {
    if key in t.rows && t.rows[key].version == expectedVersion && Live(t, owner, token, now) then
      var row := Row(write.state, write.remote, write.error, expectedVersion + 1, token);
      (t.(rows := t.rows[key := row]), true)
    else
      (t, false)
  }

  /** The tables as the repository updates them. */
  class PublicationStore {
    var lease: Option<Lease>
    var lastToken: nat
    var rows: map<Key, Row>

    function Contents(): Tables
      reads this
    {
      Tables(lease, lastToken, rows)
    }

    constructor (keys: set<Key>)
      ensures Contents() == Tables(None, 0, map k | k in keys :: InitialRow())
    {
      lease, lastToken := None, 0;
      rows := map k | k in keys :: InitialRow();
    }

    method AcquirePublicationLease(owner: OwnerId, now: int, seconds: nat) returns (token: Option<nat>)
      modifies this
      ensures (Contents(), token) == Acquired(old(Contents()), owner, now, seconds)
      ensures token == None <==> old(lease).Some? && now < old(lease).value.expires
      ensures token == None ==> lease == old(lease) && lastToken == old(lastToken)
      ensures token.Some? ==> token.value == lastToken == old(lastToken) + 1
      ensures token.Some? ==> lease == Some(Lease(owner, lastToken, now + seconds))
      ensures rows == old(rows)
    {
      if lease.Some? && lease.value.expires <= now {
        lease := None;
      }
      if lease.Some? {
        return None;
      }
      lastToken := lastToken + 1;
      lease := Some(Lease(owner, lastToken, now + seconds));
      return Some(lastToken);
    }

    method RenewPublicationLease(owner: OwnerId, token: nat, now: int, seconds: nat) returns (ok: bool)
      modifies this
      ensures (Contents(), ok) == Renewed(old(Contents()), owner, token, now, seconds)
      ensures ok <==> old(lease).Some? && old(lease).value.owner == owner && old(lease).value.token == token
                      && now < old(lease).value.expires
      ensures lease == if ok then Some(Lease(owner, token, now + seconds)) else old(lease)
      ensures lastToken == old(lastToken) && rows == old(rows)
    {
      ok := Live(Contents(), owner, token, now);
      if ok {
        lease := Some(lease.value.(expires := now + seconds));
      }
    }

    method ReleasePublicationLease(owner: OwnerId, token: Option<nat>)
      modifies this
      ensures Contents() == Released(old(Contents()), owner, token)
      ensures var own := old(lease).Some? && old(lease).value.owner == owner
                         && (token == None || token.value == old(lease).value.token);
        lease == if own then None else old(lease)
      ensures lastToken == old(lastToken) && rows == old(rows)
    {
      if lease.Some? && lease.value.owner == owner && (token == None || token == Some(lease.value.token)) {
        lease := None;
      }
    }

    method UpdatePublicationItem(key: Key, write: ItemWrite, owner: OwnerId, token: nat,
                                 expectedVersion: nat, now: int)
      returns (ok: bool)
      modifies this
      ensures (Contents(), ok) == Updated(old(Contents()), key, write, owner, token, expectedVersion, now)
      ensures ok <==> key in old(rows) && old(rows)[key].version == expectedVersion
                      && old(lease).Some? && old(lease).value.owner == owner && old(lease).value.token == token
                      && now < old(lease).value.expires
      ensures ok ==> rows.Keys == old(rows).Keys && (forall k :: k in rows && k != key ==> rows[k] == old(rows)[k])
      ensures ok ==> rows[key].state == write.state && rows[key].remote == write.remote && rows[key].error == write.error
      ensures ok ==> rows[key].version == expectedVersion + 1 && rows[key].token == token
      ensures !ok ==> rows == old(rows)
      ensures lease == old(lease) && lastToken == old(lastToken)
    {
      ok := key in rows && rows[key].version == expectedVersion && Live(Contents(), owner, token, now);
      if ok {
        rows := rows[key := Row(write.state, write.remote, write.error, rows[key].version + 1, token)];
      }
    }
  }
}
