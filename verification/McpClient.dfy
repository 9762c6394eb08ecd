/** The MCP client: one call, the restart during negotiation, and the bounded
    record of the server's diagnostics (mcp_client.go). */
module McpClient {
  import opened Text
  import opened McpRuns

  datatype Script = Script(writable: bool, selects: seq<Select>)

  function Ends(s: Script, id: int): Outcome { if s.writable then Await(s.selects, id) else Broken }

  datatype Era = Modern | Legacy(version: string) | NotNegotiated

  class Client {
    var nextID: nat
    var closed: bool
    var started: bool
    var restarts: nat
    ghost var exchanges: seq<Exchange>
    ghost var events: seq<Event>

    /** Everything the client has done is a run, with no call in progress. */
    ghost predicate Valid()
      reads this
    {
      Run(events) == State(nextID, closed, started, restarts, [], None, exchanges)
    }

    constructor ()
      ensures Valid() && nextID == 0 && !closed && !started && restarts == 0 && exchanges == [] && events == []
    {
      nextID, closed, started, restarts, exchanges, events := 0, false, false, 0, [], [];
    }

    method Start()
      requires Valid()
      modifies this`started, this`events
      ensures Valid() && started && events == old(events) + [Starts]
    {
      started := true;
      events := events + [Starts];
      RunOne(old(events), Starts);
    }

    /** A closed client uses no ID. Every other call uses a new one, and ends as
        the first message that carries it. What earlier calls left in the channel
        comes first in the script. */
    method Call(script: Script) returns (r: Option<Outcome>)
      requires Valid()
      modifies this`nextID, this`exchanges, this`events
      ensures Valid() && old(events) <= events
      ensures r.None? <==> closed
      ensures closed ==> nextID == old(nextID) && exchanges == old(exchanges)
      ensures !closed ==> nextID == old(nextID) + 1 && r == Some(Ends(script, nextID))
      ensures !closed ==> exchanges == old(exchanges) + [Exchange(nextID, r.value)]
    {
      RunOne(events, Begins(script.writable));
      events := events + [Begins(script.writable)];
      if closed {
        return None;
      }
      nextID := nextID + 1;
      var outcome := Broken;
      if script.writable {
        outcome := Receive(script.selects);
      }
      exchanges := exchanges + [Exchange(nextID, outcome)];
      return Some(outcome);
    }

    /* A call is waiting, over an empty channel. */
    ghost predicate Waits()
      reads this
    {
      Run(events) == State(nextID, closed, started, restarts, [], Some(nextID), exchanges)
    }

    ghost predicate Over(outcome: Outcome)
      reads this
    {
      Run(events) == State(nextID, closed, started, restarts, [], None, exchanges + [Exchange(nextID, outcome)])
    }

    /* A message comes and is taken: the call's own ends it. */
    ghost method Take(r: Response)
      requires Waits()
      modifies this`events
      ensures old(events) <= events && if Carries(r, nextID) then Over(Answered(r)) else Waits()
    {
      RunOne(events, Sends(r));
      RunOne(events + [Sends(r)], Takes);
      events := events + [Sends(r)] + [Takes];
    }

    ghost method CutOff(outcome: Outcome)
      requires Waits() && !HasResponse(outcome)
      modifies this`events
      ensures old(events) <= events && Over(outcome)
    {
      RunOne(events, CutsOff(outcome));
      events := events + [CutsOff(outcome)];
    }

    /* The loop of a call, from the written request on. */
    method Receive(selects: seq<Select>) returns (outcome: Outcome)
      requires Waits()
      modifies this`events
      ensures outcome == Await(selects, nextID) && old(events) <= events && Over(outcome)
    {
      hide Waits, Over, Answered;
      for i := 0 to |selects|
        invariant old(events) <= events && Waits()
        invariant Await(selects, nextID) == Await(selects[i..], nextID)
      {
        match selects[i] {
          case Received(response) =>
            Take(response);
            if Carries(response, nextID) {
              return Answered(response);
            }
          case Deadline =>
            CutOff(TimedOut);
            return TimedOut;
          case Cancelled =>
            CutOff(GivenUp);
            return GivenUp;
          case ProcessFails =>
            CutOff(Broken);
            return Broken;
        }
      }
      CutOff(TimedOut);
      return TimedOut;
    }

    method Close()
      requires Valid()
      modifies this`closed, this`events
      ensures Valid() && closed == (old(closed) || started) && old(events) <= events
    {
      if !started || closed {
        return;
      }
      closed := true;
      events := events + [Closes];
      RunOne(old(events), Closes);
    }

    /* The process is forgotten; the request IDs are not. */
    method Reset()
      requires Valid()
      modifies this`closed, this`started, this`restarts, this`events
      ensures Valid() && !closed && !started && restarts == old(restarts) + 1 && events == old(events) + [Resets]
    {
      closed, started, restarts := false, false, restarts + 1;
      events := events + [Resets];
      RunOne(old(events), Resets);
    }

    /** Discovery decides for the modern era; after any failure but a refusal of
        the version, the legacy handshake follows. Only a discovery
        that timed out, whose answer may be in flight, restarts the process. */
    method Negotiate(discover: Script, initialize: Script, acknowledged: bool) returns (era: Era)
      requires Valid() && !closed
      modifies this
      ensures Valid() && !closed && started && old(events) <= events
      ensures var first, second := Ends(discover, old(nextID) + 1), Ends(initialize, old(nextID) + 2);
        && nextID == old(nextID) + (if FallsBack(first) then 2 else 1)
        && exchanges == old(exchanges) + [Exchange(old(nextID) + 1, first)]
                        + (if FallsBack(first) then [Exchange(old(nextID) + 2, second)] else [])
        && restarts == old(restarts) + (if first.TimedOut? then 1 else 0)
        && (era.Modern? <==> ListsModern(first))
        && (FallsBack(first) ==>
              era == if second.Delivered? && second.response.version != "" && acknowledged
                     then Legacy(second.response.version) else NotNegotiated)
    {
      hide Valid, Ends;
      Start();
      var discovered := Call(discover);
      var first := discovered.value;
      if first.Delivered? {
        return if first.response.listsModern then Modern else NotNegotiated;
      }
      if first.RpcError? && first.response.errorCode == Some(VERSION_REFUSED) {
        return if first.response.listsModern then Modern else NotNegotiated;
      }
      if first.TimedOut? {
        Close();
        Reset();
        Start();
      }
      var initialized := Call(initialize);
      var second := initialized.value;
      if !second.Delivered? || second.response.version == "" || !acknowledged {
        return NotNegotiated;
      }
      return Legacy(second.response.version);
    }
  }

  const VERSION_REFUSED := -32022

  predicate AnswersDiscovery(o: Outcome) {
    o.Delivered? || (o.RpcError? && o.response.errorCode == Some(VERSION_REFUSED))
  }

  predicate ListsModern(o: Outcome) { AnswersDiscovery(o) && o.response.listsModern }
  predicate FallsBack(o: Outcome) { !AnswersDiscovery(o) }

  // ---- the server's diagnostics ------------------------------------------------------

  class BoundedBuffer {
    const limit: int
    var data: string
    var truncated: bool
    ghost var written: string

    /** The buffer is the beginning of all that was written, up to its limit;
        without a positive limit it keeps nothing and never says so. */
    ghost predicate Valid()
      reads this
    {
      && data == Beginning(written, limit)
      && (truncated <==> 0 < limit < |written|)
    }

    constructor (limit: int)
      ensures Valid() && this.limit == limit && written == "" && data == ""
    {
      this.limit, data, truncated, written := limit, "", false, "";
    }

    method Write(p: string) returns (n: nat)
      requires Valid()
      modifies this
      ensures Valid() && written == old(written) + p && n == |p|
    {
      written := written + p;
      if limit <= 0 {
        return |p|;
      }
      var remaining := limit - |data|;
      if remaining > 0 {
        if remaining > |p| {
          remaining := |p|;
        }
        data := data + p[..remaining];
      }
      if remaining < |p| {
        truncated := true;
      }
      return |p|;
    }
  }

  function Beginning(s: string, limit: int): string {
    if limit <= 0 then "" else if |s| <= limit then s else s[..limit]
  }
}
