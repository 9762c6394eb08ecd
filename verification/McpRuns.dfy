/** The MCP client as a state machine: the server sends what it likes when it
    likes, calls begin and are cut off, and the process is closed and restarted
    (mcp_client.go; section 5 of JSON-RPC 2.0). */
module McpRuns {
  import opened Text

  /** A message of the server; `request` names what it asks or notifies, and is
      empty in a response. An absent or unreadable ID is None; `readable` says
      whether the result decodes. */
  datatype Response = Response(
    request: string, id: Option<int>, errorCode: Option<int>, readable: bool, listsModern: bool, version: string)

  datatype Outcome =
    | TimedOut | GivenUp | Broken
    | RpcError(response: Response) | Unreadable(response: Response) | Delivered(response: Response)

  /** A request that was given an ID, and how its call ended. */
  datatype Exchange = Exchange(id: int, outcome: Outcome)

  /* The message is a response, and it carries the ID of the call. */
  predicate Carries(r: Response, id: int) { r.request == "" && r.id == Some(id) }

  function Answered(r: Response): Outcome {
    if r.errorCode.Some? then RpcError(r) else if !r.readable then Unreadable(r) else Delivered(r)
  }

  predicate HasResponse(o: Outcome) { o.RpcError? || o.Unreadable? || o.Delivered? }

  // ---- the machine ----------------------------------------------------------------

  /** `queue` is the channel of messages that nobody has taken yet; a call that
      was cut off leaves its answer there. */
  datatype State = State(
    nextID: nat, closed: bool, started: bool, restarts: nat,
    queue: seq<Response>, waiting: Option<int>, exchanges: seq<Exchange>)

  datatype Event =
    | Starts | Closes | Resets
    | Sends(response: Response)
    | Begins(writable: bool)
    | Takes
    | CutsOff(outcome: Outcome)

  ghost function Ended(s: State, outcome: Outcome): State
    requires s.waiting.Some?
  {
    s.(waiting := None, exchanges := s.exchanges + [Exchange(s.waiting.value, outcome)])
  }

  /** A closed client begins no call; a restart forgets the channel, not the count. */
  ghost function Step(s: State, e: Event): State {
    match e
    case Starts => s.(started := true)
    case Closes => s.(closed := s.closed || s.started)
    case Resets => s.(closed := false, started := false, restarts := s.restarts + 1, queue := [])
    case Sends(r) => s.(queue := s.queue + [r])
    case Begins(writable) =>
      if s.waiting.Some? || s.closed then s
      else
        var t := s.(nextID := s.nextID + 1, waiting := Some(s.nextID + 1));
        if writable then t else Ended(t, Broken)
    case Takes =>
      if s.waiting.None? || s.queue == [] then s
      else
        var r, t := s.queue[0], s.(queue := s.queue[1..]);
        if Carries(r, s.waiting.value) then Ended(t, Answered(r)) else t
    case CutsOff(outcome) => if s.waiting.None? || HasResponse(outcome) then s else Ended(s, outcome)
  }

  const INITIAL := State(0, false, false, 0, [], None, [])

  ghost function Run(events: seq<Event>): State {
    if events == [] then INITIAL else Step(Run(events[..|events| - 1]), events[|events| - 1])
  }

  lemma RunOne(events: seq<Event>, e: Event)
    ensures Run(events + [e]) == Step(Run(events), e)
  {
    assert (events + [e])[..|events|] == events;
  }

  // ---- what every run keeps ---------------------------------------------------------

  ghost predicate Own(sent: seq<Event>, x: Exchange) {
    HasResponse(x.outcome) ==> Carries(x.outcome.response, x.id) && Sends(x.outcome.response) in sent
  }

  ghost predicate Inv(events: seq<Event>, s: State) {
    && s.nextID == |s.exchanges| + (if s.waiting.Some? then 1 else 0)
    && (s.waiting.Some? ==> s.waiting.value == s.nextID)
    && (forall i | 0 <= i < |s.exchanges| :: s.exchanges[i].id == i + 1 && Own(events, s.exchanges[i]))
    && (forall r | r in s.queue :: Sends(r) in events)
  }

  lemma StepKeepsInv(events: seq<Event>, s: State, e: Event)
    requires Inv(events, s)
    ensures Inv(events + [e], Step(s, e))
  {
    var t := Step(s, e);
    forall i | 0 <= i < |t.exchanges| ensures t.exchanges[i].id == i + 1 && Own(events + [e], t.exchanges[i]) {
      if i < |s.exchanges| {
        assert t.exchanges[i] == s.exchanges[i] && Own(events, s.exchanges[i]);
      } else if e.Takes? {
        assert s.queue[0] in s.queue;
      }
    }
    forall r | r in t.queue ensures Sends(r) in events + [e] {
      assert r in s.queue || e == Sends(r);
    }
  }

  lemma {:induction false} RunKeepsInv(events: seq<Event>)
    ensures Inv(events, Run(events))
  {
    if events != [] {
      var k := |events| - 1;
      RunKeepsInv(events[..k]);
      StepKeepsInv(events[..k], Run(events[..k]), events[k]);
      assert events[..k] + [events[k]] == events;
    }
  }

  /** Over any run of messages, calls, cancellations, closings and restarts, the
      requests that were sent have the IDs 1, 2, 3, ..., each of them once. */
  lemma IdsAreNeverReused(events: seq<Event>, i: nat)
    requires i < |Run(events).exchanges|
    ensures Run(events).exchanges[i].id == i + 1 <= Run(events).nextID
    ensures Run(events).waiting.Some? ==> Run(events).exchanges[i].id < Run(events).waiting.value
  {
    hide Run;
    RunKeepsInv(events);
  }

  /** Whatever follows, a restart included, the count does not fall and the past
      calls stay as they ended. */
  lemma {:induction false} CountNeverFalls(before: seq<Event>, after: seq<Event>)
    ensures Run(before).nextID <= Run(before + after).nextID
    ensures Run(before).exchanges <= Run(before + after).exchanges
    decreases |after|
  {
    hide Run;
    if after == [] {
      assert before + after == before;
    } else {
      var k := |after| - 1;
      CountNeverFalls(before, after[..k]);
      RunOne(before + after[..k], after[k]);
      assert before + after == before + after[..k] + [after[k]];
    }
  }

  /** A call is ended by a response only if the server sent it, under the ID of
      that very call. So a response to one call, late or sent twice, ends no
      other: least of all once its own call was cut off. */
  lemma LateAnswersAreNotDelivered(events: seq<Event>, i: nat, j: nat)
    requires var xs := Run(events).exchanges;
             && i < |xs| && j < |xs| && HasResponse(xs[j].outcome) && xs[j].outcome.response.id == Some(xs[i].id)
    ensures i == j && Sends(Run(events).exchanges[j].outcome.response) in events
  {
    hide Run;
    RunKeepsInv(events);
    assert Own(events, Run(events).exchanges[j]);
  }

  // ---- what a waiting call sees -------------------------------------------------------

  /** What the waiting call sees next. */
  datatype Select = Deadline | Cancelled | ProcessFails | Received(response: Response)

  /** The call waits, past everything that is not its own response. A script
      that runs out is a deadline. */
  function Await(selects: seq<Select>, id: int): Outcome {
    if selects == [] then TimedOut
    else
      match selects[0]
      case Deadline => TimedOut
      case Cancelled => GivenUp
      case ProcessFails => Broken
      case Received(r) => if Carries(r, id) then Answered(r) else Await(selects[1..], id)
  }

  /* No message before position `k` decides the call. */
  ghost predicate Skips(selects: seq<Select>, id: int, k: nat) {
    forall j | 0 <= j < k && j < |selects| :: selects[j].Received? && !Carries(selects[j].response, id)
  }

  /** A call is answered by the first message that carries its ID, if neither
      the deadline nor the process's end comes before. */
  lemma {:induction false} AwaitMeans(selects: seq<Select>, id: int, k: nat)
    requires k < |selects| && Skips(selects, id, k)
    requires selects[k].Received? ==> Carries(selects[k].response, id)
    ensures Await(selects, id) ==
      match selects[k]
      case Deadline => TimedOut
      case Cancelled => GivenUp
      case ProcessFails => Broken
      case Received(r) => Answered(r)
  {
    if k > 0 {
      assert forall j | 0 <= j < k - 1 :: selects[1..][j] == selects[j + 1];
      AwaitMeans(selects[1..], id, k - 1);
    }
  }

  /** What the queue holds for other calls never matters. */
  lemma {:induction false} StrangersAreSkipped(strangers: seq<Select>, selects: seq<Select>, id: int)
    requires Skips(strangers, id, |strangers|)
    ensures Await(strangers + selects, id) == Await(selects, id)
  {
    if strangers == [] {
      assert strangers + selects == selects;
    } else {
      assert (strangers + selects)[1..] == strangers[1..] + selects;
      assert forall j | 0 <= j < |strangers| - 1 :: strangers[1..][j] == strangers[j + 1];
      StrangersAreSkipped(strangers[1..], selects, id);
    }
  }

  function Messages(queue: seq<Response>): seq<Select> {
    seq(|queue|, i requires 0 <= i < |queue| => Received(queue[i]))
  }

  ghost function Drains(count: nat): seq<Event> {
    if count == 0 then [] else Drains(count - 1) + [Takes]
  }

  /** Taking everything from the channel ends the waiting call as it waits for
      its own answer, or leaves it waiting over an empty channel. */
  lemma {:induction false} DrainingAwaits(events: seq<Event>, k: nat)
    requires Run(events).waiting.Some? && k <= |Run(events).queue|
    requires Skips(Messages(Run(events).queue), Run(events).waiting.value, k)
    ensures var s, t := Run(events), Run(events + Drains(k));
            && t == s.(queue := s.queue[k..])
            && (k < |s.queue| && Carries(s.queue[k], s.waiting.value) ==>
                  Step(t, Takes).exchanges == s.exchanges + [Exchange(s.waiting.value, Await(Messages(s.queue), s.waiting.value))])
  {
    hide Run;
    var s := Run(events);
    if k == 0 {
      assert events + Drains(0) == events && s.queue[0..] == s.queue;
    } else {
      DrainingAwaits(events, k - 1);
      assert events + Drains(k) == (events + Drains(k - 1)) + [Takes];
      RunOne(events + Drains(k - 1), Takes);
      assert Messages(s.queue)[k - 1] == Received(s.queue[k - 1]);
    }
    if k < |s.queue| && Carries(s.queue[k], s.waiting.value) { AwaitMeans(Messages(s.queue), s.waiting.value, k); }
  }
}
