/** The agent object (src/agent/main/Agent.cpp). Every method keeps the object in step with the
    transition system, with the other threads acting in between: `OtherThreads` stands wherever
    the agent thread can be interrupted to any effect. */
module AgentDaemon {
  import opened Recency
  import opened Translator
  import opened AgentTypes
  import opened AgentProtocol
  import opened AgentAnswers
  import opened AgentSafety
  import opened AgentThreads
  import opened AgentMoves

  /** What becomes of m_requests, and what is sent, when a popped request is processed. */
  ghost predicate Served(request: Request, pending: map<RequestId, Request>, sent: seq<Sent>,
                         pending': map<RequestId, Request>, sent': seq<Sent>) {
    if request.kind == RT_Cancel && request.id in pending then
      // confirmed
      && pending' == pending - {request.id}
      && sent' == sent + [Sent(RT_Cancel, request.id, "", pending[request.id].serial)]
    else if request.kind == RT_Action && request.id !in pending then
      // accepted, or answered with an error when its user interface does not start
      || (pending' == pending[request.id := request] && sent' == sent)
      || (&& pending' == pending
          && sent' == sent + [Sent(RT_Action, request.id, "ERROR", request.serial)])
    else
      pending' == pending && sent' == sent
  }

  /** The same for a response: it is the answer if the request is pending, and is swallowed
      otherwise. */
  ghost predicate Settled(response: Response, pending: map<RequestId, Request>, sent: seq<Sent>,
                          pending': map<RequestId, Request>, sent': seq<Sent>) {
    if response.id in pending then
      && pending' == pending - {response.id}
      && sent' == sent + [Sent(RT_Action, response.id, Payload(response.kind),
                               pending[response.id].serial)]
    else
      pending' == pending && sent' == sent
  }

  /** The second half of a turn of the loop, with or without a response. */
  ghost predicate Ended(response: Option<Response>, pending: map<RequestId, Request>,
                        sent: seq<Sent>, pending': map<RequestId, Request>, sent': seq<Sent>) {
    match response
    case Some(r) => Settled(r, pending, sent, pending', sent')
    case None => pending' == pending && sent' == sent
  }

  class Agent {
    const m_cynaraTalker: CynaraTalker
    var m_requests: map<RequestId, Request>
    var m_incomingRequests: seq<Request>
    var m_incomingResponses: seq<Response>
    var m_stopFlag: bool
    var m_UIs: map<RequestId, AskUINotificationBackend>
    /** The state of the transition system this object is in. */
    ghost var st: State

    /** m_UIs holds a different running thread for every user interface. */
    ghost predicate UIsMatch(uis: map<RequestId, UI>)
      reads this`m_UIs, m_UIs.Values
    {
      && m_UIs.Keys == uis.Keys
      && (forall id | id in m_UIs :: m_UIs[id].View() == uis[id] && m_UIs[id].Running(id))
      && (forall i, j | i in m_UIs && j in m_UIs && i != j :: m_UIs[i] != m_UIs[j])
    }

    ghost predicate TalkerMatches(phase: Talker, made: nat, sent: seq<Sent>)
      reads m_cynaraTalker
    {
      && m_cynaraTalker.Valid() && m_cynaraTalker.phase == phase
      && m_cynaraTalker.m_allocated == made && m_cynaraTalker.calls == Calls(sent)
    }

    ghost predicate Valid()
      reads this, m_cynaraTalker, m_UIs.Values
    {
      && Reachable(st)
      && st.requests == m_incomingRequests && st.responses == m_incomingResponses
      && st.desk.pending == m_requests && st.desk.stop == m_stopFlag
      && TalkerMatches(st.talker, |st.pushed|, st.desk.log.sent)
      && UIsMatch(st.desk.uis)
    }

    constructor ()
      ensures Valid() && fresh(m_cynaraTalker) && st == INITIAL
    {
      m_cynaraTalker := new CynaraTalker();
      m_requests, m_UIs := map[], map[];
      m_incomingRequests, m_incomingResponses := [], [];
      m_stopFlag := false;
      st := INITIAL;
      new;
      ReachesSelf(INITIAL);
    }

    lemma InStep()
      requires Valid()
      ensures Reachable(st) && UIsMatch(st.desk.uis) && m_UIs.Keys == st.desk.uis.Keys
    {
    }

    // ------------------------------------------------------------- the other threads

    /** `requestHandler`, run by the talker thread. */
    method RequestHandler(request: Request)
      modifies this`m_incomingRequests
      ensures m_incomingRequests == old(m_incomingRequests) + [request]
    {
      m_incomingRequests := m_incomingRequests + [request];
    }

    /** `UIResponseHandler`, run by the thread of a user interface. */
    method UIResponseHandler(id: RequestId, kind: UIResponseType, origin: nat)
      modifies this`m_incomingResponses
      ensures m_incomingResponses == old(m_incomingResponses) + [Response(id, kind, origin)]
    {
      m_incomingResponses := m_incomingResponses + [Response(id, kind, origin)];
    }

    method TalkerStarts(ok: bool)
      requires Valid() && !Over(st.desk) && m_cynaraTalker.phase == Starting
      modifies this`st, this`m_incomingRequests, m_cynaraTalker
      ensures Valid() && st.desk == old(st.desk) && Reaches(old(st), st)
      ensures m_incomingRequests == old(m_incomingRequests)
        + if ok then [] else [Request(RT_Close, 0, "", |old(st.pushed)|)]
    {
      hide Reaches, Reachable;
      var pushed := m_cynaraTalker.Initialize(ok);
      if pushed.Some? {
        RequestHandler(pushed.value);
      }
      st := TakeTalkerStep(st, TalkerInitialize(ok), pushed);
    }

    method TalkerReceives(message: Message)
      requires Valid() && !Over(st.desk) && m_cynaraTalker.phase == Receiving
      modifies this`st, this`m_incomingRequests, m_cynaraTalker
      ensures Valid() && st.desk == old(st.desk) && Reaches(old(st), st)
      ensures m_incomingRequests == old(m_incomingRequests)
        + if !Supported(message) then []
          else [Request(AgentType(message.kind), message.id, message.data, |old(st.pushed)|)]
      ensures Supported(message) ==> Mirrors(m_incomingRequests[|m_incomingRequests| - 1], message)
      ensures message.kind != MSG_ACTION && message.kind != MSG_CANCEL ==>
        m_incomingRequests == old(m_incomingRequests)
    {
      hide Reaches, Reachable;
      var pushed := m_cynaraTalker.Receive(message);
      if pushed.Some? {
        RequestHandler(pushed.value);
      }
      st := TakeTalkerStep(st, TalkerReceive(message), pushed);
    }

    method TalkerEnds()
      requires Valid() && !Over(st.desk)
      requires m_cynaraTalker.phase == Receiving || m_cynaraTalker.phase == Closing
      modifies this`st, this`m_incomingRequests, m_cynaraTalker
      ensures Valid() && st.desk == old(st.desk) && Reaches(old(st), st)
      ensures m_incomingRequests == old(m_incomingRequests)
        + if old(st.talker) == Closing then [] else [Request(RT_Close, 0, "", |old(st.pushed)|)]
    {
      hide Reaches, Reachable;
      if m_cynaraTalker.phase == Receiving {
        var close := m_cynaraTalker.LoseConnection();
        RequestHandler(close);
        st := TakeTalkerStep(st, TalkerLoseConnection, Some(close));
      } else {
        m_cynaraTalker.End();
        st := TakeTalkerStep(st, TalkerEnd, None);
      }
    }

    /** SIGTERM. */
    method Stop()
      requires Valid() && !Over(st.desk)
      modifies this`st, this`m_stopFlag
      ensures Valid() && st.desk == old(st.desk).(stop := true) && Reaches(old(st), st)
    {
      hide Reaches, Reachable;
      st := Take(st, Signal);
      m_stopFlag := true;
    }

    /** The thread of a user interface, up to its call of the handler. */
    method Report(id: RequestId, waited: bool, button: int) returns (kind: UIResponseType)
      requires UIsMatch(st.desk.uis) && id in m_UIs && !m_UIs[id].m_reported
      requires -0x8000_0000 <= button < 0x8000_0000
      modifies m_UIs[id]
      ensures st.desk.uis[id].phase == Waiting
      ensures UIsMatch(Advance(st.desk, id, Posted).uis)
      ensures m_UIs[id].m_origin == st.desk.uis[id].origin
      ensures ReportsPress(kind, waited, button)
    {
      assert m_UIs[id].View() == st.desk.uis[id];
      kind := m_UIs[id].Report(waited, button);
      assert m_UIs[id].View() == old(m_UIs[id].View()).(phase := Posted);
    }

    method UIReports(id: RequestId, waited: bool, button: int)
      requires Valid() && !Over(st.desk) && id in m_UIs && !m_UIs[id].m_reported
      requires -0x8000_0000 <= button < 0x8000_0000
      modifies this`st, this`m_incomingResponses, m_UIs[id]
      ensures Valid() && SameDesk(old(st.desk), st.desk) && Reaches(old(st), st)
      ensures id in st.desk.uis && st.desk.uis[id].phase == Posted
      ensures |m_incomingResponses| == |old(m_incomingResponses)| + 1
      ensures old(m_incomingResponses) <= m_incomingResponses
      ensures var r := m_incomingResponses[|old(m_incomingResponses)|];
        r.id == id && r.origin == st.desk.uis[id].origin && ReportsPress(r.kind, waited, button)
    {
      hide Reaches, Reachable, UIsMatch, TalkerMatches;
      InStep();
      var kind := Report(id, waited, button);
      UIResponseHandler(id, kind, m_UIs[id].m_origin);
      st := TakePost(st, id, kind);
    }

    method SetFinished(id: RequestId)
      requires UIsMatch(st.desk.uis) && id in m_UIs
      requires m_UIs[id].m_reported && !m_UIs[id].m_threadFinished
      modifies m_UIs[id]
      ensures st.desk.uis[id].phase == Posted
      ensures UIsMatch(Advance(st.desk, id, Finished).uis)
    {
      assert m_UIs[id].View() == st.desk.uis[id];
      m_UIs[id].SetFinished();
    }

    method UIFinishes(id: RequestId)
      requires Valid() && !Over(st.desk) && id in m_UIs
      requires m_UIs[id].m_reported && !m_UIs[id].m_threadFinished
      modifies this`st, m_UIs[id]
      ensures Valid() && SameDesk(old(st.desk), st.desk) && Reaches(old(st), st)
      ensures id in st.desk.uis && st.desk.uis[id].phase == Finished
    {
      hide Reaches, Reachable, UIsMatch, TalkerMatches;
      InStep();
      SetFinished(id);
      st := TakeFinish(st, id);
    }

    /** One step of another thread, or none. */
    method OneOther()
      requires Valid() && !Over(st.desk)
      modifies this`st, this`m_incomingRequests, this`m_incomingResponses, this`m_stopFlag
      modifies m_cynaraTalker, m_UIs.Values
      ensures Valid() && SameDesk(old(st.desk), st.desk) && Reaches(old(st), st)
      ensures old(m_incomingResponses) <= m_incomingResponses
    {
      hide Reaches, Reachable;
      ReachesSelf(st);
      if * {
        if m_cynaraTalker.phase == Starting {
          var ok: bool := *;
          TalkerStarts(ok);
        } else if m_cynaraTalker.phase == Closing {
          TalkerEnds();
        } else if m_cynaraTalker.phase == Receiving {
          if * {
            var message: Message := *;
            TalkerReceives(message);
          } else {
            TalkerEnds();
          }
        }
      } else if * {
        Stop();
      } else {
        OneUIThread();
      }
    }

    method OneUIThread()
      requires Valid() && !Over(st.desk)
      modifies this`st, this`m_incomingResponses, m_UIs.Values
      ensures Valid() && SameDesk(old(st.desk), st.desk) && Reaches(old(st), st)
      ensures old(m_incomingResponses) <= m_incomingResponses
    {
      hide Reaches, Reachable;
      ReachesSelf(st);
      if m_UIs.Keys != {} {
        var id :| id in m_UIs.Keys;
        if !m_UIs[id].m_reported {
          var waited: bool := *;
          var button: int :| -0x8000_0000 <= button < 0x8000_0000;
          UIReports(id, waited, button);
        } else if !m_UIs[id].m_threadFinished {
          UIFinishes(id);
        }
      }
    }

    /** Any number of steps of the other threads. */
    method Interleave()
      requires Valid() && !Over(st.desk)
      modifies this`st, this`m_incomingRequests, this`m_incomingResponses, this`m_stopFlag
      modifies m_cynaraTalker, m_UIs.Values
      ensures Valid() && SameDesk(old(st.desk), st.desk) && Reaches(old(st), st)
      ensures old(m_incomingResponses) <= m_incomingResponses
    {
      hide Reaches, Reachable;
      ReachesSelf(st);
      var n: nat :| true;
      for i := 0 to n
        invariant Valid() && SameDesk(old(st.desk), st.desk) && Reaches(old(st), st)
        invariant old(m_incomingResponses) <= m_incomingResponses
      {
        ghost var before := st;
        OneOther();
        ReachesTransitive(old(st), before, st);
      }
    }

    // ------------------------------------------------------------- the agent thread

    /** Dismisses one user interface, and drops it if its thread was joined. */
    method Reap(id: RequestId) returns (gone: bool)
      requires UIsMatch(st.desk.uis) && id in m_UIs
      modifies this`m_UIs, m_UIs[id]
      ensures UIsMatch(Dismiss(st.desk, id).uis) && m_UIs.Values <= old(m_UIs.Values)
      ensures gone == old(m_UIs[id].m_threadFinished)
      ensures m_UIs.Keys == Left(old(m_UIs.Keys), id, gone)
    {
      assert m_UIs[id].View() == st.desk.uis[id];
      gone := m_UIs[id].Dismiss();
      if gone {
        m_UIs := m_UIs - {id};
      }
    }

    method ReapKnown(id: RequestId)
      requires UIsMatch(st.desk.uis)
      modifies this`m_UIs, m_UIs.Values
      ensures UIsMatch(AgentProtocol.DismissUI(st.desk, id).uis) && m_UIs.Values <= old(m_UIs.Values)
      ensures AgentProtocol.DismissUI(st.desk, id).uis.Keys == m_UIs.Keys
      ensures m_UIs.Keys
        == Left(old(m_UIs.Keys), id, id in old(m_UIs) && old(m_UIs[id].m_threadFinished))
    {
      if id in m_UIs {
        var _ := Reap(id);
      }
    }

    /** `dismissUI`, and the end of the handler that called it. */
    method DismissUI(id: RequestId)
      requires Valid() && st.desk.at.Dismissing? && st.desk.at.id == id
      modifies this`st, this`m_UIs, m_UIs.Values
      ensures Valid() && m_UIs.Values <= old(m_UIs.Values) && Reaches(old(st), st)
      ensures st == old(st).(desk := st.desk) && Quiet(old(st.desk), st.desk)
      ensures st.desk.at ==
        if old(st.desk.at.cancel).Some? then NextResponse else Cleaning(m_UIs.Keys)
      ensures m_UIs.Keys
        == Left(old(m_UIs.Keys), id, id in old(m_UIs) && old(m_UIs[id].m_threadFinished))
    {
      hide Reaches, Reachable, UIsMatch, TalkerMatches;
      ReapKnown(id);
      st := TakeDismiss(st);
    }

    method ReapDismissing(id: RequestId) returns (gone: bool)
      requires UIsMatch(st.desk.uis) && id in m_UIs
      modifies this`m_UIs, m_UIs[id]
      ensures UIsMatch(Collect(st.desk, id).uis) && m_UIs.Values <= old(m_UIs.Values)
      ensures gone <==> id !in Collect(st.desk, id).uis
      ensures gone == old(m_UIs[id].m_dismissing && m_UIs[id].m_threadFinished)
      ensures m_UIs.Keys == Left(old(m_UIs.Keys), id, gone)
    {
      assert m_UIs[id].View() == st.desk.uis[id];
      gone := false;
      if m_UIs[id].m_dismissing {
        gone := Reap(id);
      }
    }

    /** Retiring user interfaces keeps the object in step. */
    twostate lemma StaysValid()
      requires old(Valid()) && Reachable(st) && UIsMatch(st.desk.uis)
      requires st == old(st).(desk := st.desk) && Quiet(old(st.desk), st.desk)
      requires unchanged(this`m_requests, this`m_incomingRequests, this`m_incomingResponses,
                         this`m_stopFlag, m_cynaraTalker)
      ensures Valid()
    {
    }

    /** One turn of the loop in `cleanupUIThreads`. */
    method CollectOne(id: RequestId) returns (gone: bool)
      requires Valid() && (st.desk.at.Cleaning? || st.desk.at.Reaping?)
      requires id in m_UIs && id in st.desk.at.todo
      modifies this`st, this`m_UIs, m_UIs[id]
      ensures Valid() && m_UIs.Values <= old(m_UIs.Values) && Reaches(old(st), st)
      ensures st == old(st).(desk := st.desk) && Quiet(old(st.desk), st.desk)
      ensures gone == old(m_UIs[id].m_dismissing && m_UIs[id].m_threadFinished)
      ensures m_UIs.Keys == Left(old(m_UIs.Keys), id, gone)
      ensures st.desk.at == Visited(old(st.desk.at), id, gone)
    {
      hide Reaches, Reachable, Collect, Valid, UIsMatch, Visited, Left, Quiet;
      InStep();
      gone := ReapDismissing(id);
      st := TakeCollect(st, id);
      StaysValid();
    }

    /** `cleanupUIThreads`: true exactly when m_UIs ends empty. */
    method CleanupUIThreads() returns (ret: bool)
      requires Valid()
      requires st.desk.at == Cleaning(m_UIs.Keys) || st.desk.at == Reaping(m_UIs.Keys, true)
      modifies this`st, this`m_UIs, this`m_incomingRequests, this`m_incomingResponses,
               this`m_stopFlag
      modifies m_cynaraTalker, m_UIs.Values
      ensures Valid() && m_UIs.Values <= old(m_UIs.Values) && Reaches(old(st), st)
      ensures ret <==> m_UIs == map[]
      ensures st.desk.at == if old(st.desk.at).Cleaning? then Cleaning({}) else Reaping({}, ret)
      ensures st.desk.log.sent == old(st.desk.log.sent)
    {
      hide Reaches, Reachable, Valid, UIsMatch, TalkerMatches;
      ret := true;
      ReachesSelf(st);
      var todo := m_UIs.Keys;
      ghost var kept: set<RequestId> := {};
      while todo != {}
        invariant Valid() && m_UIs.Values <= old(m_UIs.Values) && Reaches(old(st), st)
        invariant m_UIs.Keys == todo + kept && todo !! kept && (ret <==> kept == {})
        invariant st.desk.at == if old(st.desk.at).Cleaning? then Cleaning(todo) else Reaping(todo, ret)
        invariant st.desk.log.sent == old(st.desk.log.sent)
      {
        var id :| id in todo;
        ghost var before := st;
        Interleave();
        ReachesTransitive(old(st), before, st);
        before := st;
        ghost var keys := m_UIs.Keys;
        var gone := CollectOne(id);
        ReachesTransitive(old(st), before, st);
        ret := ret && gone;
        OneLess(keys, todo, kept, id);
        todo, kept := todo - {id}, if gone then kept else kept + {id};
      }
    }

    // ------------------------------------------------------------- the handlers

    /** `sendResponse` of the talker; what it returns is not looked at. */
    method SendResponse(kind: RequestType, id: RequestId, data: string, ghost serial: nat)
      requires TalkerMatches(st.talker, |st.pushed|, st.desk.log.sent)
      modifies m_cynaraTalker
      ensures TalkerMatches(st.talker, |st.pushed|,
                            st.desk.log.sent + [Sent(kind, id, data, serial)])
    {
      CallsMore(st.desk.log.sent, Sent(kind, id, data, serial));
      var accepted: bool := *;
      var _ := m_cynaraTalker.SendResponse(kind, id, data, accepted);
    }

    /** `startUIForRequest`. Starting a user interface for an id that m_UIs still holds destroys
        a running thread, which terminates the program. */
    method StartUIForRequest(request: Request)
      returns (ret: bool, terminates: bool, ghost u: nat)
      requires UIsMatch(st.desk.uis)
      modifies this`m_UIs
      ensures terminates == (ret && request.id in old(m_UIs))
      ensures fresh(m_UIs.Values - old(m_UIs.Values))
      ensures UIsMatch(if ret && !terminates then st.desk.uis[request.id := NewUI(request, u)]
                       else st.desk.uis)
    {
      hide Parsed, RequestToData;
      var uninitialized: nat := *;
      u := uninitialized;
      var data := DataToRequest(request.data, uninitialized);
      var ui := new AskUINotificationBackend();
      var created: bool := *;
      ret := ui.Start(data.client, data.user, data.privilege, request, true, created);
      terminates := ret && request.id in m_UIs;
      if ret && !terminates {
        m_UIs := m_UIs[request.id := ui];
      }
    }

    /** The rest of a handler that has settled its request. */
    method EndDismissing(id: RequestId)
      requires Valid() && st.desk.at.Dismissing? && st.desk.at.id == id
      modifies this`st, this`m_UIs, this`m_incomingRequests, this`m_incomingResponses,
               this`m_stopFlag
      modifies m_cynaraTalker, m_UIs.Values
      ensures Valid() && m_UIs.Values <= old(m_UIs.Values) && Reaches(old(st), st)
      ensures old(m_incomingResponses) <= m_incomingResponses
      ensures st.desk.log.sent == old(st.desk.log.sent)
      ensures st.desk.at ==
        if old(st.desk.at.cancel).Some? then NextResponse else Cleaning(m_UIs.Keys)
    {
      hide Reaches, Reachable, Valid, UIsMatch, TalkerMatches;
      Interleave();
      ghost var before := st;
      DismissUI(id);
      ReachesTransitive(old(st), before, st);
    }

    method ConfirmCancel(request: Request)
      requires Valid() && st.desk.at == GotRequest(request)
      requires request.kind == RT_Cancel && request.id in m_requests
      modifies this`st, this`m_requests, m_cynaraTalker
      ensures Valid() && Reaches(old(st), st)
      ensures st.desk.at == Dismissing(request.id, Some(request))
      ensures m_requests == old(m_requests) - {request.id}
      ensures st.desk.log.sent == old(st.desk.log.sent)
        + [Sent(RT_Cancel, request.id, "", old(m_requests)[request.id].serial)]
    {
      hide Reaches, Reachable, UIsMatch, TalkerMatches;
      InStep();
      PendingKnown(st, request.id);
      ghost var serial := m_requests[request.id].serial;
      m_requests := m_requests - {request.id};
      SendResponse(request.kind, request.id, "", serial);
      st := TakeProcessRequest(st, false, 0);
    }

    /** A request that is not acted on: a cancellation of what is not pending, or an id that is
        being dealt with. */
    method Drop(request: Request)
      requires Valid() && st.desk.at == GotRequest(request) && request.kind != RT_Close
      requires request.id in m_requests <==> request.kind != RT_Cancel
      modifies this`st
      ensures Valid() && Reaches(old(st), st) && st.desk.at == NextResponse
      ensures st.desk.log.sent == old(st.desk.log.sent)
    {
      hide Reaches, Reachable, UIsMatch, TalkerMatches;
      InStep();
      st := TakeProcessRequest(st, false, 0);
    }

    /** A request for an id that is not pending: its user interface is started, and until
        m_requests holds it the other threads may act. */
    method Accept(request: Request) returns (started: bool, terminates: bool)
      requires Valid() && st.desk.at == GotRequest(request)
      requires request.kind == RT_Action && request.id !in m_requests
      modifies this`st, this`m_UIs, m_cynaraTalker
      ensures Valid() && Reaches(old(st), st) && fresh(m_UIs.Values - old(m_UIs.Values))
      ensures terminates == (started && request.id in old(m_UIs))
      ensures st.desk.at == if terminates then Terminated
                            else if started then Registering(request) else NextResponse
      ensures st.desk.log.sent == old(st.desk.log.sent)
        + if started then [] else [Sent(RT_Action, request.id, "ERROR", request.serial)]
    {
      StartFailedIsError();
      hide Reaches, Reachable, UIsMatch, TalkerMatches;
      InStep();
      assert request.id in m_UIs.Keys <==> request.id in st.desk.uis.Keys;
      ghost var u;
      started, terminates, u := StartUIForRequest(request);
      if !started {
        SendResponse(RT_Action, request.id, AnswerToData(0, ERROR), request.serial);
      }
      st := TakeAccept(st, started, u);
    }

    method Register(request: Request)
      requires Valid() && st.desk.at == Registering(request)
      modifies this`st, this`m_requests
      ensures Valid() && Reaches(old(st), st) && st.desk.at == NextResponse
      ensures m_requests == old(m_requests)[request.id := request]
      ensures st.desk.log.sent == old(st.desk.log.sent)
    {
      hide Reaches, Reachable, UIsMatch, TalkerMatches;
      InStep();
      st := TakeRegister(st);
      if request.id !in m_requests {
        m_requests := m_requests[request.id := request];
      }
    }

    /** `processCynaraRequest`. */
    method ProcessCynaraRequest(request: Request) returns (terminates: bool)
      requires Valid() && st.desk.at == GotRequest(request) && request.kind != RT_Close
      modifies this, m_cynaraTalker, m_UIs.Values
      ensures Valid() && Reaches(old(st), st) && fresh(m_UIs.Values - old(m_UIs.Values))
      ensures st.desk.at == if terminates then Terminated else NextResponse
      ensures terminates ==>
        request.kind == RT_Action && request.id !in old(m_requests) && request.id in old(m_UIs)
      ensures !terminates ==>
        Served(request, old(m_requests), old(st.desk.log.sent), m_requests, st.desk.log.sent)
      ensures old(m_incomingResponses) <= m_incomingResponses
    {
      hide Reaches, Reachable, Valid, UIsMatch, TalkerMatches;
      terminates := false;
      if request.id in m_requests {
        if request.kind == RT_Cancel {
          ConfirmCancel(request);
          ghost var before := st;
          EndDismissing(request.id);
          ReachesTransitive(old(st), before, st);
        } else {
          Drop(request);
        }
        return;
      }
      if request.kind == RT_Cancel {
        Drop(request);
        return;
      }
      var started;
      started, terminates := Accept(request);
      if !started || terminates {
        return;
      }
      ghost var before := st;
      Interleave();
      ReachesTransitive(old(st), before, st);
      before := st;
      Register(request);
      ReachesTransitive(old(st), before, st);
    }

    /** The payload for what the user did. */
    method PluginData(kind: UIResponseType) returns (pluginData: string)
      ensures pluginData == Payload(kind)
    {
      AnswerIsPayload(kind);
      if kind == URT_ERROR {
        pluginData := AnswerToData(0, ERROR);
      } else if kind == URT_TIMEOUT {
        pluginData := AnswerToData(0, TIMEOUT);
      } else {
        pluginData := AnswerToData(UIResponseToPolicyType(kind), NO_ERROR);
      }
    }

    method SettleResponse(response: Response)
      requires Valid() && st.desk.at == GotResponse(response)
      modifies this`st, this`m_requests, m_cynaraTalker
      ensures Valid() && Reaches(old(st), st)
      ensures st.desk.at == Dismissing(response.id, None)
      ensures Settled(response, old(m_requests), old(st.desk.log.sent), m_requests, st.desk.log.sent)
    {
      hide Reaches, Reachable, UIsMatch, TalkerMatches;
      AnswerIsPayload(response.kind);
      InStep();
      if response.id in m_requests {
        PendingKnown(st, response.id);
        var pluginData := PluginData(response.kind);
        SendResponse(RT_Action, m_requests[response.id].id, pluginData,
                     m_requests[response.id].serial);
        m_requests := m_requests - {response.id};
      }
      st := TakeProcessResponse(st);
    }

    /** `processUIResponse`: a response for a pending request is sent as the answer to it, a late
        one only retires its user interface. */
    method ProcessUIResponse(response: Response)
      requires Valid() && st.desk.at == GotResponse(response)
      modifies this, m_cynaraTalker, m_UIs.Values
      ensures Valid() && Reaches(old(st), st) && m_UIs.Values <= old(m_UIs.Values)
      ensures st.desk.at == Cleaning(m_UIs.Keys)
      ensures Settled(response, old(m_requests), old(st.desk.log.sent), m_requests, st.desk.log.sent)
    {
      hide Reaches, Reachable, Valid, UIsMatch, TalkerMatches;
      SettleResponse(response);
      ghost var before := st;
      EndDismissing(response.id);
      ReachesTransitive(old(st), before, st);
    }

    // ------------------------------------------------------------- `run`

    method PopRequest() returns (request: Request)
      requires Valid() && InLoop(st.desk) && m_incomingRequests != []
      modifies this`st, this`m_incomingRequests
      ensures Valid() && Reaches(old(st), st)
      ensures request == old(m_incomingRequests)[0] && st.desk.at == GotRequest(request)
      ensures m_incomingRequests == old(m_incomingRequests)[1..]
      ensures st.desk.log.sent == old(st.desk.log.sent)
    {
      hide Reaches, Reachable, UIsMatch, TalkerMatches;
      InStep();
      request := m_incomingRequests[0];
      m_incomingRequests := m_incomingRequests[1..];
      st := TakePopRequest(st);
    }

    method PopUIResponse() returns (response: Response)
      requires Valid() && m_incomingResponses != []
      requires st.desk.at.NextResponse? || (InLoop(st.desk) && m_incomingRequests == [])
      modifies this`st, this`m_incomingResponses
      ensures Valid() && Reaches(old(st), st)
      ensures response == old(m_incomingResponses)[0] && st.desk.at == GotResponse(response)
      ensures m_incomingResponses == old(m_incomingResponses)[1..]
      ensures st.desk.log.sent == old(st.desk.log.sent)
    {
      hide Reaches, Reachable, UIsMatch, TalkerMatches;
      InStep();
      response := m_incomingResponses[0];
      m_incomingResponses := m_incomingResponses[1..];
      st := TakePopResponse(st);
    }

    /** The popped request, in the inner loop of `run`; `leaves` says that the loop is left. */
    method HandleRequest(request: Request) returns (leaves: bool, terminates: bool)
      requires Valid() && st.desk.at == GotRequest(request)
      modifies this, m_cynaraTalker, m_UIs.Values
      ensures Valid() && Reaches(old(st), st) && fresh(m_UIs.Values - old(m_UIs.Values))
      ensures leaves == (request.kind == RT_Close)
      ensures st.desk.at == if leaves then Idle else if terminates then Terminated else NextResponse
      ensures leaves ==> m_stopFlag && !terminates
      ensures !terminates ==>
        Served(request, old(m_requests), old(st.desk.log.sent), m_requests, st.desk.log.sent)
      ensures old(m_incomingResponses) <= m_incomingResponses
    {
      hide Reaches, Reachable, Valid, UIsMatch, TalkerMatches;
      Interleave();
      ghost var before := st;
      leaves, terminates := request.kind == RT_Close, false;
      if leaves {
        Close(request);
      } else {
        terminates := ProcessCynaraRequest(request);
      }
      ReachesTransitive(old(st), before, st);
    }

    method Close(request: Request)
      requires Valid() && st.desk.at == GotRequest(request) && request.kind == RT_Close
      modifies this`st, this`m_stopFlag
      ensures Valid() && Reaches(old(st), st) && st.desk.at == Idle && m_stopFlag
      ensures st.desk.log.sent == old(st.desk.log.sent)
    {
      hide Reaches, Reachable, UIsMatch, TalkerMatches;
      InStep();
      m_stopFlag := true;
      st := TakeProcessRequest(st, false, 0);
    }

    /** The second half of a turn of the inner loop: a response if there is one, then the user
        interfaces that can be collected. */
    method HandleResponse() returns (ghost response: Option<Response>)
      requires Valid()
      requires st.desk.at.NextResponse? || (InLoop(st.desk) && m_incomingRequests == []
                                            && m_incomingResponses != [])
      modifies this, m_cynaraTalker, m_UIs.Values
      ensures Valid() && Reaches(old(st), st) && m_UIs.Values <= old(m_UIs.Values)
      ensures st.desk.at == Looping
      ensures response == if old(m_incomingResponses) == [] then None
                          else Some(old(m_incomingResponses)[0])
      ensures Ended(response, old(m_requests), old(st.desk.log.sent), m_requests, st.desk.log.sent)
    {
      hide Reaches, Reachable, Valid, UIsMatch, TalkerMatches;
      ghost var before;
      response := None;
      if m_incomingResponses != [] {
        var popped := PopUIResponse();
        response := Some(popped);
        before := st;
        Interleave();
        ReachesTransitive(old(st), before, st);
        before := st;
        ProcessUIResponse(popped);
        ReachesTransitive(old(st), before, st);
      } else {
        NoResponse();
      }
      before := st;
      var _ := CleanupUIThreads();
      ReachesTransitive(old(st), before, st);
      before := st;
      Cleaned();
      ReachesTransitive(old(st), before, st);
    }

    method NoResponse()
      requires Valid() && st.desk.at == NextResponse && m_incomingResponses == []
      modifies this`st
      ensures Valid() && Reaches(old(st), st) && st.desk.at == Cleaning(m_UIs.Keys)
      ensures st.desk.log.sent == old(st.desk.log.sent)
    {
      hide Reaches, Reachable, UIsMatch, TalkerMatches;
      InStep();
      st := TakeEmpty(st);
    }

    method Cleaned()
      requires Valid() && st.desk.at == Cleaning({})
      modifies this`st
      ensures Valid() && Reaches(old(st), st) && st.desk.at == Looping
      ensures st.desk.log.sent == old(st.desk.log.sent)
    {
      hide Reaches, Reachable, UIsMatch, TalkerMatches;
      InStep();
      st := TakeCleaned(st);
    }

    /** One turn of the inner loop of `run`: the first request if there is one, and unless that
        leaves the loop the first response if there is one. `pending` and `sent` say how things
        stand in between, `response` which one was handled. */
    method Turn()
      returns (leaves: bool, terminates: bool, ghost pending: map<RequestId, Request>,
               ghost sent: seq<Sent>, ghost response: Option<Response>)
      requires Valid() && InLoop(st.desk)
      requires m_incomingRequests != [] || m_incomingResponses != []
      modifies this, m_cynaraTalker, m_UIs.Values
      ensures Valid() && Reaches(old(st), st) && fresh(m_UIs.Values - old(m_UIs.Values))
      ensures st.desk.at == if terminates then Terminated else if leaves then Idle else Looping
      ensures leaves ==> m_stopFlag
      ensures leaves <==> old(m_incomingRequests) != [] && old(m_incomingRequests)[0].kind == RT_Close
      ensures old(m_incomingRequests) != [] && !terminates ==>
        Served(old(m_incomingRequests)[0], old(m_requests), old(st.desk.log.sent), pending, sent)
      ensures old(m_incomingRequests) == [] ==>
        pending == old(m_requests) && sent == old(st.desk.log.sent)
      ensures !leaves && !terminates && old(m_incomingResponses) != [] ==>
        response == Some(old(m_incomingResponses)[0])
      ensures leaves ==> response == None
      ensures !terminates ==> Ended(response, pending, sent, m_requests, st.desk.log.sent)
    {
      hide Reaches, Reachable, Valid, UIsMatch, TalkerMatches, Served, Settled;
      ghost var before;
      leaves, terminates, response := false, false, None;
      ReachesSelf(st);
      if m_incomingRequests != [] {
        var request := PopRequest();
        before := st;
        leaves, terminates := HandleRequest(request);
        ReachesTransitive(old(st), before, st);
        pending, sent := m_requests, st.desk.log.sent;
        if leaves || terminates {
          return;
        }
        before := st;
        Interleave();
        ReachesTransitive(old(st), before, st);
      } else {
        pending, sent := m_requests, st.desk.log.sent;
      }
      before := st;
      response := HandleResponse();
      ReachesTransitive(old(st), before, st);
    }

    method Leave()
      requires Valid() && st.desk.at == Idle && m_stopFlag
      modifies this`st
      ensures Valid() && Reaches(old(st), st) && st.desk.at == Leaving
    {
      hide Reaches, Reachable, UIsMatch, TalkerMatches;
      InStep();
      st := TakeLeave(st);
    }

    method Wait()
      requires Valid() && st.desk.at == Looping
      requires m_incomingRequests == [] && m_incomingResponses == []
      modifies this`st
      ensures Valid() && Reaches(old(st), st) && st.desk.at == Idle
    {
      hide Reaches, Reachable, UIsMatch, TalkerMatches;
      InStep();
      st := TakeEmpty(st);
    }

    /** The inner loop of `run`, for at most `turns` turns. */
    method HandleQueues(turns: nat) returns (left: nat, terminates: bool)
      requires Valid() && st.desk.at == Idle && !m_stopFlag
      modifies this, m_cynaraTalker, m_UIs.Values
      ensures Valid() && Reaches(old(st), st) && fresh(m_UIs.Values - old(m_UIs.Values))
      ensures left <= turns
      ensures if terminates then st.desk.at == Terminated
              else st.desk.at == Idle || (left == 0 && st.desk.at == Looping)
    {
      hide Reaches, Reachable, Valid, UIsMatch, TalkerMatches;
      ghost var before;
      var leaves := false;
      left, terminates := turns, false;
      ReachesSelf(st);
      InLoopIdle();
      while (m_incomingRequests != [] || m_incomingResponses != []) && left > 0
        invariant Valid() && Reaches(old(st), st) && fresh(m_UIs.Values - old(m_UIs.Values))
        invariant InLoop(st.desk) && left <= turns && !terminates
        invariant st.desk.at == if left == turns then Idle else Looping
        decreases left
      {
        before := st;
        ghost var pending, sent, response;
        leaves, terminates, pending, sent, response := Turn();
        ReachesTransitive(old(st), before, st);
        left := left - 1;
        if leaves || terminates {
          return;
        }
        before := st;
        Interleave();
        ReachesTransitive(old(st), before, st);
      }
      if left < turns && m_incomingRequests == [] && m_incomingResponses == [] {
        before := st;
        Wait();
        ReachesTransitive(old(st), before, st);
      }
    }

    /** `run`, for at most `turns` turns of its loops. */
    method Run(turns: nat) returns (left: nat, terminates: bool)
      requires Valid() && st.desk.at == Idle
      modifies this, m_cynaraTalker, m_UIs.Values
      ensures Valid() && Reaches(old(st), st) && fresh(m_UIs.Values - old(m_UIs.Values))
      ensures left == 0 || st.desk.at == if terminates then Terminated else Leaving
    {
      hide Reaches, Reachable, Valid, UIsMatch, TalkerMatches;
      ghost var before;
      left, terminates := turns, false;
      ReachesSelf(st);
      while !m_stopFlag && left > 0
        invariant Valid() && Reaches(old(st), st) && fresh(m_UIs.Values - old(m_UIs.Values))
        invariant st.desk.at == Idle && !terminates
        decreases left
      {
        before := st;
        Interleave();
        ReachesTransitive(old(st), before, st);
        left := left - 1;
        if m_stopFlag {
          break;
        }
        before := st;
        left, terminates := HandleQueues(left);
        ReachesTransitive(old(st), before, st);
        if terminates || left == 0 {
          return;
        }
      }
      if m_stopFlag {
        before := st;
        Leave();
        ReachesTransitive(old(st), before, st);
      }
    }

    lemma InLoopIdle()
      requires Valid() && st.desk.at == Idle && !m_stopFlag
      ensures InLoop(st.desk)
    {
    }

    // ---------------------------------------------------------- `finish`

    lemma TalkerInStep()
      requires Valid()
      ensures m_cynaraTalker.Valid() && m_cynaraTalker.phase == st.talker
    {
    }

    lemma NothingQueued()
      requires Valid() && st.desk.at == Exited
      ensures m_incomingRequests == []
    {
      InvReachable(st);
    }

    /** The talker is stopped, and what it left in the queue deleted. */
    method StopTalker() returns (stopped: bool)
      requires Valid() && st.desk.at == Leaving
      modifies this`st, this`m_incomingRequests
      ensures Valid() && Reaches(old(st), st)
      ensures stopped ==> m_incomingRequests == []
      ensures st.desk.at == if stopped then Reaping(m_UIs.Keys, true) else QuickExited
      ensures st.desk.log.sent == old(st.desk.log.sent)
    {
      hide Reaches, Reachable, UIsMatch, TalkerMatches;
      InStep();
      TalkerInStep();
      stopped := m_cynaraTalker.Stop();
      if stopped {
        while m_incomingRequests != []
          modifies this`m_incomingRequests
        {
          m_incomingRequests := m_incomingRequests[1..];
        }
      }
      st := TakeStop(st);
    }

    method DeleteRequests()
      modifies this`m_requests
      ensures m_requests == map[]
    {
      while m_requests.Keys != {}
        decreases |m_requests|
      {
        var id :| id in m_requests;
        m_requests := m_requests - {id};
      }
    }

    method Exit(clean: bool)
      requires Valid() && st.desk.at == Reaping({}, clean)
      modifies this`st, this`m_requests
      ensures Valid() && Reaches(old(st), st)
      ensures st.desk.at == if clean then Exited else QuickExited
      ensures clean ==> old(m_requests) == map[] && m_UIs == map[]
      ensures m_requests == old(m_requests)
      ensures st.desk.log.sent == old(st.desk.log.sent)
    {
      hide Reaches, Reachable, UIsMatch, TalkerMatches;
      InStep();
      st := TakeExit(st);
      if clean {
        DeleteRequests();
      }
    }

    /** `finish`. A clean end leaves no accepted request unanswered, no thread and no Request
        object behind; otherwise the program is ended by `quick_exit`. */
    method Finish() returns (clean: bool)
      requires Valid() && st.desk.at == Leaving
      modifies this, m_cynaraTalker, m_UIs.Values
      ensures Valid() && Reaches(old(st), st)
      ensures st.desk.at == if clean then Exited else QuickExited
      ensures clean ==> m_requests == map[] && m_UIs == map[] && m_incomingRequests == []
      ensures clean ==> old(m_requests) == map[]
      ensures clean ==> forall n: nat ::
        && TimesAccepted(st.desk.log, n) == TimesSent(st.desk.log, n)
        && st.desk.log.freed[n] == if n < |st.pushed| then 1 else 0
      ensures st.desk.log.sent == old(st.desk.log.sent)
    {
      hide Reaches, Reachable, Valid, UIsMatch, TalkerMatches;
      Interleave();
      ghost var before := st;
      clean := StopTalker();
      ReachesTransitive(old(st), before, st);
      if clean {
        before := st;
        clean := CleanupUIThreads();
        ReachesTransitive(old(st), before, st);
        before := st;
        Exit(clean);
        ReachesTransitive(old(st), before, st);
      }
      if clean {
        NothingQueued();
        forall n: nat
          ensures TimesAccepted(st.desk.log, n) == TimesSent(st.desk.log, n)
          ensures st.desk.log.freed[n] == if n < |st.pushed| then 1 else 0
        {
          InStep();
          CleanExit(st, n);
        }
      }
    }
  }
}
