/** When an MCP child process is started and closed: once an operation, or once
    a command that performs many (mcp.go). */
module McpLifecycle {
  import opened Text

  type Child = nat

  /** How an attempt to prepare a child ends: it may fail before or after the
      process exists, and is then closed. */
  datatype Preparation = Ready | Refused

  class Provider {
    var client: Option<Child>
    var prepared: bool
    var failed: bool
    var commandRun: bool
    var started: nat
    ghost var live: set<Child>

    /** The live children are the prepared one, if any; and none outlives the
        operation, or the command, that needed it. */
    ghost predicate Valid()
      reads this
    {
      && (client.Some? ==> prepared && !failed && client.value < started)
      && (prepared && !failed ==> client.Some?) && (failed ==> prepared)
      && live == (if client.Some? then {client.value} else {})
      && (!commandRun ==> !prepared)
    }

    constructor ()
      ensures Valid() && !commandRun && started == 0 && live == {}
    {
      client, prepared, failed, commandRun, started, live := None, false, false, false, 0, {};
    }

    /** A second preparation repeats the first one's outcome. Children are
        numbered as they are started. */
    method Prepare(p: Preparation) returns (r: Option<Child>)
      requires client.Some? ==> prepared && !failed
      requires (prepared && !failed ==> client.Some?) && (failed ==> prepared)
      modifies this`client, this`prepared, this`failed, this`started, this`live
      ensures old(prepared) ==> r == old(client) && started == old(started) && live == old(live)
      ensures !old(prepared) ==> started == old(started) + 1 && r == (if p.Ready? then Some(old(started)) else None)
      ensures !old(prepared) ==> live == old(live) + if p.Ready? then {old(started)} else {}
      ensures prepared && client == r && (failed <==> r.None?)
    {
      if prepared {
        return client;
      }
      var child := started;
      prepared, started := true, started + 1;
      if p.Refused? {
        client, failed := None, true;
        return None;
      }
      client, failed, live := Some(child), false, live + {child};
      return client;
    }

    /* The child is forgotten even when it does not close cleanly. */
    method CloseClient()
      requires Valid() || (live == if client.Some? then {client.value} else {})
      modifies this`client, this`prepared, this`failed, this`live
      ensures client == None && !prepared && !failed && live == {}
    {
      if client.Some? {
        live := live - {client.value};
      }
      client, prepared, failed := None, false, false;
    }

    method BeginCommand()
      requires Valid()
      modifies this`commandRun
      ensures Valid() && commandRun
    {
      commandRun := true;
    }

    method EndCommand()
      requires Valid()
      modifies this
      ensures Valid() && !commandRun && live == {} && started == old(started)
    {
      commandRun := false;
      CloseClient();
    }

    /** One remote operation. Outside a command it starts a child of its own
        and closes it, or fails; inside, it starts one only if it is the first. */
    method Operate(p: Preparation) returns (used: Option<Child>)
      requires Valid()
      modifies this
      ensures Valid() && commandRun == old(commandRun)
      ensures started == old(started) + if old(prepared) then 0 else 1
      ensures !commandRun ==> live == {} && used == if p.Ready? then Some(old(started)) else None
      ensures commandRun && old(prepared) ==> used == old(client) && live == old(live)
      ensures commandRun && !old(prepared) ==> used == client == if p.Ready? then Some(old(started)) else None
      ensures commandRun ==> prepared && client == used
    {
      used := Prepare(p);
      if !commandRun {
        CloseClient();
      }
    }
  }

  /** Over a whole command, whatever the number of its operations and however
      its preparation ends, at most one child is started, every operation uses
      that one, and none is left. */
  method RunCommand(provider: Provider, operations: seq<Preparation>) returns (used: seq<Option<Child>>)
    requires provider.Valid() && !provider.commandRun
    modifies provider
    ensures provider.Valid() && !provider.commandRun && provider.live == {}
    ensures provider.started == old(provider.started) + (if operations == [] then 0 else 1)
    ensures |used| == |operations| && forall i | 0 <= i < |used| ::
      used[i] == if operations[0].Ready? then Some(old(provider.started)) else None
  {
    provider.BeginCommand();
    used := [];
    for k := 0 to |operations|
      invariant provider.Valid() && provider.commandRun && |used| == k
      invariant provider.prepared <==> k > 0
      invariant provider.started == old(provider.started) + if k == 0 then 0 else 1
      invariant k > 0 ==> provider.client == if operations[0].Ready? then Some(old(provider.started)) else None
      invariant forall i | 0 <= i < k :: used[i] == if operations[0].Ready? then Some(old(provider.started)) else None
    {
      var u := provider.Operate(operations[k]);
      used := used + [u];
    }
    provider.EndCommand();
  }
}
