/**
 * The connection cache: one shared connection object per (hostname, connection type) key.
 * Connections are created lazily by a caller-supplied constructor, and closing removes the
 * key from the cache. Each stored connection sits behind a lock; a poisoned lock makes
 * closing skip that object, but the key is removed all the same.
 */
module Connections {
  import opened Wrappers

  datatype ConnectionKey = ConnectionKey(hostname: string, connectionType: string)

  /** A connection object, seen only through whether it has been closed. */
  class Connection {
    var closed: bool
    /** The lock around this connection is poisoned, so it cannot be taken to close it. */
    var poisoned: bool

    constructor ()
      ensures !closed && !poisoned
    {
      closed := false;
      poisoned := false;
    }

    method Close()
      modifies this`closed
      ensures closed
    {
      closed := true;
    }
  }

  /** The constructor closure handed to `get_or_create`; `calls` counts its invocations. */
  class ConnectionFactory {
    var calls: nat

    constructor ()
      ensures calls == 0
    {
      calls := 0;
    }

    method Invoke() returns (c: Connection)
      modifies this
      ensures fresh(c) && !c.closed && !c.poisoned
      ensures calls == old(calls) + 1
    {
      c := new Connection();
      calls := calls + 1;
    }
  }

  class ConnectionManager {
    var connections: map<ConnectionKey, Connection>

    /** `ConnectionManager::default`: no connections. */
    constructor ()
      ensures connections == map[]
    {
      connections := map[];
    }

    /** `get`: the shared handle stored under `key`, if any. */
    function Get(key: ConnectionKey): (c: Option<Connection>)
      reads this
      ensures c.Some? <==> key in connections
      ensures c.Some? ==> c.value == connections[key]
    {
      if key in connections then Some(connections[key]) else None
    }

    /** `insert`: store `connection` under `key`, replacing what was there. */
    method Insert(key: ConnectionKey, connection: Connection)
      modifies this
      ensures connections == old(connections)[key := connection]
    {
      connections := connections[key := connection];
    }

    /**
     * `get_or_create`: a stored handle is returned without calling the constructor;
     * otherwise the constructor runs exactly once and its connection is stored under
     * `key` and returned.
     */
    method GetOrCreate(key: ConnectionKey, ctor: ConnectionFactory) returns (c: Connection)
      modifies this, ctor
      ensures key in old(connections) ==>
        c == old(connections)[key] && connections == old(connections) && ctor.calls == old(ctor.calls)
      ensures key !in old(connections) ==>
        fresh(c) && !c.closed && !c.poisoned && connections == old(connections)[key := c] && ctor.calls == old(ctor.calls) + 1
    {
      var existing := Get(key);
      if existing.Some? {
        return existing.value;
      }
      c := ctor.Invoke();
      if key !in connections {
        connections := connections[key := c];
      }
    }

    /**
     * `close_connection`: remove `key` and close the connection it held, unless that
     * connection's lock is poisoned. No other key and no other connection is touched.
     */
    method CloseConnection(key: ConnectionKey)
      modifies this, if key in connections then {connections[key]} else {}
      ensures connections == old(connections) - {key}
      ensures key in old(connections) ==>
        var c := old(connections)[key];
        c.closed == (old(c.closed) || !c.poisoned) && c.poisoned == old(c.poisoned)
    {
      if key in connections {
        var c := connections[key];
        connections := connections - {key};
        if !c.poisoned {
          c.Close();
        }
      }
    }

    /**
     * `close_all_connections`: close every stored connection whose lock can be taken, then
     * empty the cache.
     */
    method CloseAllConnections()
      modifies this, connections.Values
      ensures connections == map[]
      ensures forall c :: c in old(connections).Values ==>
        c.closed == (old(c.closed) || !c.poisoned) && c.poisoned == old(c.poisoned)
    {
      var pending := connections.Values;
      while pending != {}
        invariant pending <= old(connections).Values
        invariant connections == old(connections)
        invariant forall c :: c in old(connections).Values ==> c.poisoned == old(c.poisoned)
        invariant forall c :: c in old(connections).Values && c !in pending ==>
          c.closed == (old(c.closed) || !c.poisoned)
        invariant forall c :: c in pending ==> c.closed == old(c.closed)
        decreases pending
      {
        var c :| c in pending;
        if !c.poisoned {
          c.Close();
        }
        pending := pending - {c};
      }
      connections := map[];
    }
  }

  /**
   * Two `get_or_create` calls for the same key: the constructor runs once and both calls
   * return the same shared connection.
   */
  method LazyCreationScenario() returns (created: nat, same: bool)
    ensures created == 1 && same
  {
    var manager := new ConnectionManager();
    var key := ConnectionKey("router1.lab", "ssh2");
    var ctor := new ConnectionFactory();
    var first := manager.GetOrCreate(key, ctor);
    var second := manager.GetOrCreate(key, ctor);
    created := ctor.calls;
    same := first == second;
  }

  /**
   * Closing a key ends its connection and forgets it, so the next `get_or_create` builds a
   * new one while a second key's connection stays open.
   */
  method ReopenAfterCloseScenario() returns (firstClosed: bool, otherOpen: bool, renewed: bool, created: nat)
    ensures firstClosed && otherOpen && renewed && created == 3
  {
    var manager := new ConnectionManager();
    var ssh := ConnectionKey("router1.lab", "ssh2");
    var netconf := ConnectionKey("router1.lab", "netconf");
    var ctor := new ConnectionFactory();
    var first := manager.GetOrCreate(ssh, ctor);
    var other := manager.GetOrCreate(netconf, ctor);
    manager.CloseConnection(ssh);
    var again := manager.GetOrCreate(ssh, ctor);
    firstClosed := first.closed;
    otherOpen := !other.closed;
    renewed := again != first;
    created := ctor.calls;
  }
}
