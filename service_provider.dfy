/** The older revision's per-user table of connections to the supplemental
    process (`SupplementalProcessServiceProviderImpl`).  Binding goes through
    `Context.bindServiceAsUser`, whose answer is an input here; the calls made
    to the context are recorded in a ghost log. */
module ServiceProvider {
  import opened Common

  type UserHandle = int

  /** The bound supplemental process service (`ISupplementalProcessService`). */
  type ProcessService = nat

  const SUPPLEMENTAL_PROCESS_SERVICE_PACKAGE: string := "com.android.supplemental.process"
  const SERVICE_INTERFACE: string := "com.android.supplemental.process.SupplementalProcessService"

  /** `SupplementalProcessConnection`: the `ServiceConnection` created for a
      user (present once `bindService` has built it) and the service it was
      handed, if any.  The connection callbacks act on this record. */
  class ProcessConnection {
    var hasServiceConnection: bool
    var service: Option<ProcessService>

    constructor ()
      ensures !hasServiceConnection && service == None
    {
      hasServiceConnection := false;
      service := None;
    }

    /** `isConnected`: both the connection and the service are there. */
    predicate IsConnected()
      reads this
    {
      hasServiceConnection && service.Some?
    }

    /** The connection's `onServiceConnected`. */
    method OnServiceConnected(s: ProcessService)
      modifies this
      ensures service == Some(s) && hasServiceConnection == old(hasServiceConnection)
      ensures IsConnected() <==> hasServiceConnection
    {
      service := Some(s);
    }

    /** The connection's `onServiceDisconnected`: the record stays in the table. */
    method OnServiceDisconnected()
      modifies this
      ensures service == None && hasServiceConnection == old(hasServiceConnection)
      ensures !IsConnected()
    {
      service := None;
    }
  }

  /** The calls the provider makes to its `Context`. */
  datatype ContextCall =
    | BindServiceAsUser(action: string, package: string, connection: ProcessConnection, user: UserHandle)
    | UnbindServiceCall(connection: ProcessConnection)

  class Provider {
    var connections: map<UserHandle, ProcessConnection>
    ghost var log: seq<ContextCall>

    /** Every record in the table has its `ServiceConnection`, and no two users share one. */
    ghost predicate Valid()
      reads this, connections.Values
    {
      && (forall u | u in connections :: connections[u].hasServiceConnection)
      && (forall u, v | u in connections && v in connections && u != v :: connections[u] != connections[v])
    }

    constructor ()
      ensures Valid() && connections == map[] && log == []
    {
      connections := map[];
      log := [];
    }

    /** `isServiceBound`: the user has a record. */
    method IsServiceBound(user: UserHandle) returns (b: bool)
      ensures b <==> user in connections
    {
      b := user in connections;
    }

    /** `getService`: the record's service; without a record `map.get` yields
        null and the dereference throws. */
    method GetService(user: UserHandle) returns (c: Completion, s: Option<ProcessService>)
      ensures user !in connections ==> c == Threw(NullPointerException) && s == None
      ensures user in connections ==> c == Returned && s == connections[user].service
    {
      if user !in connections {
        return Threw(NullPointerException), None;
      }
      return Returned, connections[user].service;
    }

    /** `bindService`.  A user with a record is left alone.  Otherwise a new
        record with its connection is built and bound; it enters the table
        only when `bindServiceAsUser` answers `bound`, and its service stays
        unset until the connection is told. */
    method BindService(user: UserHandle, bound: bool) returns (ghost conn: ProcessConnection?)
      requires Valid()
      modifies this
      ensures Valid()
      ensures user in old(connections) ==> conn == null && connections == old(connections) && log == old(log)
      ensures user !in old(connections) ==>
        && conn != null && fresh(conn)
        && conn.hasServiceConnection && conn.service == None
        && log == old(log) + [BindServiceAsUser(SERVICE_INTERFACE, SUPPLEMENTAL_PROCESS_SERVICE_PACKAGE, conn, user)]
        && connections == if bound then old(connections)[user := conn] else old(connections)
    {
      var isBound := IsServiceBound(user);
      if isBound {
        return null;
      }
      var userConnection := new ProcessConnection();
      userConnection.hasServiceConnection := true;
      log := log + [BindServiceAsUser(SERVICE_INTERFACE, SUPPLEMENTAL_PROCESS_SERVICE_PACKAGE, userConnection, user)];
      conn := userConnection;
      if !bound {
        return;
      }
      connections := connections[user := userConnection];
    }

    /** `unbindService`: unbind and drop the user's record if there is one. */
    method UnbindService(user: UserHandle)
      requires Valid()
      modifies this
      ensures Valid()
      ensures connections == old(connections) - {user}
      ensures log == old(log) + if user in old(connections) then [UnbindServiceCall(old(connections)[user])] else []
    {
      var isBound := IsServiceBound(user);
      if isBound {
        var userConnection := connections[user];
        log := log + [UnbindServiceCall(userConnection)];
        connections := connections - {user};
      }
    }

    /** The connection's `onBindingDied`: unbind the user, then bind again. */
    method OnBindingDied(user: UserHandle, bound: bool) returns (ghost conn: ProcessConnection?)
      requires Valid()
      modifies this
      ensures Valid()
      ensures conn != null && fresh(conn) && conn.hasServiceConnection && conn.service == None
      ensures log == old(log)
                     + (if user in old(connections) then [UnbindServiceCall(old(connections)[user])] else [])
                     + [BindServiceAsUser(SERVICE_INTERFACE, SUPPLEMENTAL_PROCESS_SERVICE_PACKAGE, conn, user)]
      ensures connections == if bound then old(connections)[user := conn] else old(connections) - {user}
    {
      UnbindService(user);
      conn := BindService(user, bound);
    }

    /** A connection callback on a record of the table keeps the table valid. */
    method ConnectionChanged(conn: ProcessConnection, s: Option<ProcessService>)
      requires Valid()
      modifies conn
      ensures Valid()
      ensures conn.service == s && conn.hasServiceConnection == old(conn.hasServiceConnection)
    {
      match s
      case Some(service) => conn.OnServiceConnected(service);
      case None => conn.OnServiceDisconnected();
    }
  }
}
