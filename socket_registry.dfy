/** The `connectedTenants` map of server/server.js: which socket each
    registered tenant id was last seen on. */
module SocketRegistry {

  /** The id a client sends with `registerTenant`. */
  type TenantKey = string

  /** A socket.io connection id. */
  type SocketId = string

  /** The registry after `socket` has gone: every entry pointing at it is
      dropped and every other entry is kept as it was. */
  function Without(m: map<TenantKey, SocketId>, socket: SocketId): (r: map<TenantKey, SocketId>)
    ensures socket !in r.Values
    ensures r.Keys <= m.Keys
    ensures forall t :: t in m && m[t] != socket ==> t in r && r[t] == m[t]
    ensures forall t :: t in m && m[t] == socket ==> t !in r
  {
    map t | t in m && m[t] != socket :: m[t]
  }

  /** A registration on another socket survives a disconnect. */
  lemma DisconnectKeepsOthers(m: map<TenantKey, SocketId>, tenant: TenantKey, socket: SocketId, other: SocketId)
    requires socket != other
    ensures tenant in Without(m[tenant := socket], other)
    ensures Without(m[tenant := socket], other)[tenant] == socket
  {
  }

  class Registry {
    var connected: map<TenantKey, SocketId>

    constructor ()
      ensures connected == map[]
    {
      connected := map[];
    }

    /** `socket.on("registerTenant")`: `connectedTenants.set(tenantId, socket.id)`.
        The tenant now maps to this socket, replacing any earlier one;
        every other entry is unchanged. */
    method RegisterTenant(socket: SocketId, tenant: TenantKey)
      modifies this
      ensures connected == old(connected)[tenant := socket]
      ensures forall t :: t != tenant ==> (t in connected <==> t in old(connected))
      ensures forall t :: t != tenant && t in connected ==> connected[t] == old(connected)[t]
    {
      connected := connected[tenant := socket];
    }

    /** `socket.on("disconnect")`: the loop over `connectedTenants.entries()`
        that deletes every tenant whose entry is this socket. A socket
        registered under several tenant ids loses all of them. */
    method Disconnect(socket: SocketId)
      modifies this
      ensures connected == Without(old(connected), socket)
      ensures socket !in connected.Values
      ensures forall t :: t in old(connected) && old(connected)[t] == socket ==> t !in connected
    {
      ghost var before := connected;
      var pending := connected.Keys;
      while pending != {}
        invariant pending <= before.Keys
        invariant connected == map t | t in before && (t in pending || before[t] != socket) :: before[t]
        decreases pending
      {
        var t :| t in pending;
        if connected[t] == socket {
          connected := connected - {t};
        }
        pending := pending - {t};
      }
    }
  }
}
