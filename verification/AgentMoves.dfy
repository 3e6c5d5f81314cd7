/** The steps of the agent, one lemma for each kind: what the methods of the agent object need to
    know of a step, and nothing else. */
module AgentMoves {
  import opened Recency
  import opened AgentTypes
  import opened AgentProtocol
  import opened AgentSafety
  import opened AgentThreads

  lemma ReachesSelf(s: State)
    ensures Reaches(s, s)
  {
    assert Allowed(s, []) && After(s, []) == s;
  }

  /** Takes a step; what the step does is in the postconditions of the lemmas below, and the
      methods need not look into it. */
  lemma Take(s: State, step: Step) returns (s': State)
    requires Reachable(s) && Enabled(s, step)
    ensures s' == Apply(s, step) && Reachable(s') && Reaches(s, s')
  {
    s' := Apply(s, step);
    OneStep(s, step);
    ReachesTransitive(INITIAL, s, s');
  }

  lemma TakeTalkerStep(s: State, step: Step, pushed: Option<Request>) returns (s': State)
    requires Reachable(s) && Enabled(s, step)
    requires step.TalkerInitialize? || step.TalkerReceive? || step.TalkerLoseConnection?
             || step.TalkerEnd?
    requires match step
             case TalkerInitialize(ok) =>
               pushed == if ok then None else Some(Request(RT_Close, 0, "", |s.pushed|))
             case TalkerReceive(m) =>
               pushed == if Supported(m) then Some(Request(AgentType(m.kind), m.id, m.data, |s.pushed|))
                         else None
             case TalkerLoseConnection => pushed == Some(Request(RT_Close, 0, "", |s.pushed|))
             case _ => pushed == None
    ensures Reachable(s') && Reaches(s, s') && s'.desk == s.desk && s'.responses == s.responses
    ensures s'.requests == s.requests + if pushed.Some? then [pushed.value] else []
    ensures |s'.pushed| == |s.pushed| + if pushed.Some? then 1 else 0
    ensures s'.talker == match step
                         case TalkerInitialize(ok) => if ok then Receiving else Failed
                         case TalkerReceive(m) => Receiving
                         case TalkerLoseConnection => Closing
                         case _ => Done
  {
    s' := Take(s, step);
    assert s.requests + [] == s.requests;
  }

  lemma TakePost(s: State, id: RequestId, kind: UIResponseType) returns (s': State)
    requires Reachable(s) && Enabled(s, UIPost(id, kind))
    ensures Reachable(s') && Reaches(s, s')
    ensures s' == s.(responses := s.responses + [Response(id, kind, s.desk.uis[id].origin)],
                     posted := s.posted[s.desk.uis[id].origin := kind],
                     desk := Advance(s.desk, id, Posted))
  {
    s' := Take(s, UIPost(id, kind));
  }

  lemma TakeFinish(s: State, id: RequestId) returns (s': State)
    requires Reachable(s) && Enabled(s, UIFinish(id))
    ensures Reachable(s') && Reaches(s, s')
    ensures s' == s.(desk := Advance(s.desk, id, Finished))
  {
    s' := Take(s, UIFinish(id));
  }

  /** A step of the agent thread on its desk. */
  lemma TakeDeskStep(s: State, starts: bool, u: nat, next: RequestId) returns (s': State)
    requires Reachable(s) && !Over(s.desk) && !AtQueues(s.desk.at) && AgentEnabled(s, next)
    ensures Reachable(s') && Reaches(s, s')
    ensures s' == s.(desk := DeskStep(s.desk, starts, u, next))
  {
    s' := Take(s, Step.Agent(starts, u, next));
  }

  /** What retiring a user interface leaves alone. */
  ghost predicate Quiet(d: Desk, d': Desk) {
    && d'.pending == d.pending && d'.stop == d.stop
    && d'.log.accepted == d.log.accepted && d'.log.failed == d.log.failed
    && d'.log.sent == d.log.sent
  }

  lemma TakeDismiss(s: State) returns (s': State)
    requires Reachable(s) && s.desk.at.Dismissing?
    ensures Reachable(s') && Reaches(s, s') && s' == s.(desk := s'.desk) && Quiet(s.desk, s'.desk)
    ensures s'.desk.uis == DismissUI(s.desk, s.desk.at.id).uis
    ensures s'.desk.at == if s.desk.at.cancel.Some? then NextResponse else Cleaning(s'.desk.uis.Keys)
  {
    s' := TakeDeskStep(s, false, 0, 0);
  }

  /** Where the loop of `cleanupUIThreads` stands after the turn for `id`. */
  function Visited(at: Location, id: RequestId, gone: bool): Location
    requires at.Cleaning? || at.Reaping?
  {
    if at.Cleaning? then Cleaning(at.todo - {id}) else Reaping(at.todo - {id}, at.clean && gone)
  }

  lemma TakeCollect(s: State, id: RequestId) returns (s': State)
    requires Reachable(s) && (s.desk.at.Cleaning? || s.desk.at.Reaping?)
    requires id in s.desk.at.todo && id in s.desk.uis
    ensures Reachable(s') && Reaches(s, s') && s' == s.(desk := s'.desk) && Quiet(s.desk, s'.desk)
    ensures s'.desk.uis == Collect(s.desk, id).uis
    ensures s'.desk.at == Visited(s.desk.at, id, id !in s'.desk.uis)
  {
    s' := TakeDeskStep(s, false, 0, id);
  }

  lemma TakeQueueStep(s: State) returns (s': State)
    requires Reachable(s) && AtQueues(s.desk.at) && AgentEnabled(s, 0)
    ensures Reachable(s') && Reaches(s, s') && s' == QueueStep(s)
  {
    s' := Take(s, Step.Agent(false, 0, 0));
  }

  function Left(keys: set<RequestId>, id: RequestId, gone: bool): set<RequestId> {
    if gone then keys - {id} else keys
  }

  lemma OneLess(keys: set<RequestId>, todo: set<RequestId>, kept: set<RequestId>, id: RequestId)
    requires keys == todo + kept && todo !! kept && id in todo
    ensures keys - {id} == (todo - {id}) + kept && keys == (todo - {id}) + (kept + {id})
    ensures todo - {id} !! kept + {id}
  {
  }

  /** Woken up and not told to stop, or about to test the queues again. */
  predicate InLoop(d: Desk) {
    d.at.Looping? || (d.at.Idle? && !d.stop)
  }

  lemma TakePopRequest(s: State) returns (s': State)
    requires Reachable(s) && InLoop(s.desk)
    requires s.requests != []
    ensures Reachable(s') && Reaches(s, s')
    ensures s' == s.(requests := s.requests[1..], desk := s.desk.(at := GotRequest(s.requests[0])))
  {
    s' := TakeQueueStep(s);
  }

  lemma TakePopResponse(s: State) returns (s': State)
    requires Reachable(s)
    requires s.desk.at.NextResponse?
             || (InLoop(s.desk) && s.requests == [])
    requires s.responses != []
    ensures Reachable(s') && Reaches(s, s') && s' == PopResponse(s)
  {
    s' := TakeQueueStep(s);
  }

  /** Nothing to pop. */
  lemma TakeEmpty(s: State) returns (s': State)
    requires Reachable(s) && s.responses == []
    requires s.desk.at.NextResponse? || (s.desk.at.Looping? && s.requests == [])
    ensures Reachable(s') && Reaches(s, s')
    ensures s' == s.(desk := s.desk.(at := if s.desk.at.Looping? then Idle
                                           else Cleaning(s.desk.uis.Keys)))
  {
    s' := TakeQueueStep(s);
  }

  lemma TakeLeave(s: State) returns (s': State)
    requires Reachable(s) && s.desk.at.Idle? && s.desk.stop
    ensures Reachable(s') && Reaches(s, s') && s' == s.(desk := s.desk.(at := Leaving))
  {
    s' := TakeQueueStep(s);
  }

  lemma TakeProcessRequest(s: State, starts: bool, u: nat) returns (s': State)
    requires Reachable(s) && s.desk.at.GotRequest?
    ensures Reachable(s') && Reaches(s, s')
    ensures s' == s.(desk := ProcessRequest(s.desk, s.desk.at.request, starts, u))
  {
    s' := TakeDeskStep(s, starts, u, 0);
  }

  /** A request for an id that is not pending. */
  lemma TakeAccept(s: State, starts: bool, u: nat) returns (s': State)
    requires Reachable(s) && s.desk.at.GotRequest?
    requires s.desk.at.request.kind == RT_Action && s.desk.at.request.id !in s.desk.pending
    ensures Reachable(s') && Reaches(s, s')
    ensures s' == s.(desk := s.desk.(at := s'.desk.at, uis := s'.desk.uis, log := s'.desk.log))
    ensures var r := s.desk.at.request;
      && s'.desk.at == (if !starts then NextResponse
                        else if r.id in s.desk.uis then Terminated else Registering(r))
      && s'.desk.uis == (if starts && r.id !in s.desk.uis then s.desk.uis[r.id := NewUI(r, u)]
                         else s.desk.uis)
      && s'.desk.log.sent == if starts then s.desk.log.sent
                             else s.desk.log.sent + [Sent(RT_Action, r.id, START_FAILED, r.serial)]
  {
    s' := TakeProcessRequest(s, starts, u);
  }

  lemma TakeRegister(s: State) returns (s': State)
    requires Reachable(s) && s.desk.at.Registering?
    ensures s.desk.at.request.id !in s.desk.pending
    ensures Reachable(s') && Reaches(s, s')
    ensures s' == s.(desk := s.desk.(at := NextResponse,
                       pending := s.desk.pending[s.desk.at.request.id := s.desk.at.request]))
  {
    InvReachable(s);
    s' := TakeDeskStep(s, false, 0, 0);
  }

  lemma TakeProcessResponse(s: State) returns (s': State)
    requires Reachable(s) && s.desk.at.GotResponse?
    ensures Reachable(s') && Reaches(s, s')
    ensures s' == s.(desk := ProcessResponse(s.desk, s.desk.at.response))
  {
    s' := TakeDeskStep(s, false, 0, 0);
  }

  lemma TakeCleaned(s: State) returns (s': State)
    requires Reachable(s) && s.desk.at == Cleaning({})
    ensures Reachable(s') && Reaches(s, s') && s' == s.(desk := s.desk.(at := Looping))
  {
    s' := TakeDeskStep(s, false, 0, 0);
  }

  lemma CallsMore(sent: seq<Sent>, e: Sent)
    ensures Calls(sent + [e]) == Calls(sent) + [(e.kind, e.id, e.data)]
  {
  }

  lemma PendingKnown(s: State, id: RequestId)
    requires Reachable(s) && id in s.desk.pending
    ensures s.desk.pending[id].id == id
  {
    InvReachable(s);
  }

  lemma TakeStop(s: State) returns (s': State)
    requires Reachable(s) && s.desk.at.Leaving?
    ensures Reachable(s') && Reaches(s, s')
    ensures s'.desk.at == if s.talker == Done then Reaping(s.desk.uis.Keys, true) else QuickExited
    ensures s' == s.(requests := if s.talker == Done then [] else s.requests,
                     desk := s.desk.(at := s'.desk.at, log := s'.desk.log))
    ensures s'.desk.log == s.desk.log.(freed := s'.desk.log.freed)
  {
    s' := TakeQueueStep(s);
  }

  lemma TakeExit(s: State) returns (s': State)
    requires Reachable(s) && s.desk.at.Reaping? && s.desk.at.todo == {}
    ensures Reachable(s') && Reaches(s, s')
    ensures s'.desk.at == if s.desk.at.clean then Exited else QuickExited
    ensures s.desk.at.clean ==> s.desk.pending == map[] && s.desk.uis == map[]
    ensures s' == s.(desk := s.desk.(at := s'.desk.at, log := s'.desk.log))
    ensures s'.desk.log == s.desk.log.(freed := s'.desk.log.freed)
  {
    if s.desk.at.clean {
      NothingLeftToDelete(s);
    }
    s' := TakeDeskStep(s, false, 0, 0);
  }
}
