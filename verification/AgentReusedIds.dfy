/** What goes wrong when the ids of Action messages are not distinct: schedules of the agent that
    end in its termination, or in consent given to one request counting for another. */
module AgentReusedIds {
  import opened AgentTypes
  import opened AgentProtocol
  import opened AgentQueue
  import opened AgentUIs
  import opened AgentSafety
  import opened AgentFreshIds
  import opened AgentMessages
  import opened AgentCancels
  import opened AgentMoves

  // ---------------------------------------------------------------- pieces of a schedule

  /** The talker gets all messages before the agent thread wakes up. */
  lemma {:induction false} ReceiveAll(messages: seq<Message>) returns (s: State)
    ensures Reachable(s) && s.talker == Receiving
    ensures s.received == messages && s.requests == s.pushed == Requests(messages)
    ensures s.responses == [] && s.posted == map[] && s.desk == INITIAL.desk
  {
    if messages == [] {
      ReachesSelf(INITIAL);
      s := Take(INITIAL, TalkerInitialize(true));
    } else {
      var before := ReceiveAll(messages[..|messages| - 1]);
      s := Take(before, TalkerReceive(messages[|messages| - 1]));
    }
  }

  /** The first request is accepted, its user interface starts, and it is registered. */
  lemma StartNext(s: State, u: nat) returns (s': State)
    requires Reachable(s) && InLoop(s.desk) && s.requests != [] && s.requests[0].kind == RT_Action
    requires s.desk.pending == map[] && s.desk.uis == map[]
    ensures Reachable(s') && s' == s.(requests := s.requests[1..], desk := s'.desk)
    ensures s'.desk.at == NextResponse && s'.desk.log.failed == s.desk.log.failed
    ensures var r := s.requests[0];
      s'.desk.pending == map[r.id := r] && s'.desk.uis == map[r.id := NewUI(r, u)]
  {
    hide Reaches, Reachable;
    s' := TakePopRequest(s);
    s' := TakeProcessRequest(s', true, u);
    s' := TakeRegister(s');
  }

  /** The pass of `cleanupUIThreads` when nothing can be collected. */
  lemma CleanNone(s: State, id: RequestId) returns (s': State)
    requires Reachable(s) && s.desk.at == Cleaning(s.desk.uis.Keys) && s.desk.uis.Keys <= {id}
    requires id in s.desk.uis ==> s.desk.uis[id].phase != Finished
    ensures Reachable(s') && s' == s.(desk := s'.desk) && s'.desk.at == Looping
    ensures s'.desk.uis == s.desk.uis && s'.desk.pending == s.desk.pending
    ensures s'.desk.log.failed == s.desk.log.failed && s'.desk.log.sent == s.desk.log.sent
  {
    hide Reaches, Reachable;
    s' := s;
    if id in s.desk.uis {
      assert s.desk.uis.Keys == {id} && {id} - {id} == {};
      s' := TakeCollect(s, id);
    }
    s' := TakeCleaned(s');
  }

  // --------------------------------------------------------------------- termination

  /** Nothing is pending, and the one user interface that may be left has reported and not
      finished. */
  predicate Drained(s: State, id: RequestId) {
    && InLoop(s.desk) && s.responses == [] && s.desk.pending == map[]
    && s.desk.uis.Keys <= {id}
    && (id in s.desk.uis ==> s.desk.uis[id].phase == Posted)
  }

  /** A request whose user interface does not start, or a cancellation of nothing. */
  lemma SkipNext(s: State, id: RequestId) returns (s': State)
    requires Reachable(s) && Drained(s, id) && s.requests != [] && s.requests[0].kind != RT_Close
    ensures Reachable(s') && Drained(s', id) && s' == s.(requests := s.requests[1..], desk := s'.desk)
    ensures s'.desk.uis == s.desk.uis
  {
    hide Reaches, Reachable;
    s' := TakePopRequest(s);
    s' := TakeProcessRequest(s', false, 0);
    s' := TakeEmpty(s');
    s' := CleanNone(s', id);
  }

  lemma {:induction false} SkipMany(s: State, id: RequestId, k: nat) returns (s': State)
    requires Reachable(s) && Drained(s, id) && k <= |s.requests|
    requires forall i | 0 <= i < k :: s.requests[i].kind != RT_Close
    ensures Reachable(s') && Drained(s', id) && s' == s.(requests := s.requests[k..], desk := s'.desk)
    ensures s'.desk.uis == s.desk.uis
    decreases k
  {
    hide Reaches, Reachable, Drained;
    if k == 0 {
      s' := s;
      assert s.requests[0..] == s.requests;
    } else {
      var next := SkipNext(s, id);
      assert forall i | 0 <= i < k - 1 :: next.requests[i] == s.requests[i + 1];
      s' := SkipMany(next, id, k - 1);
      assert s.requests[1..][k - 1..] == s.requests[k..];
    }
  }

  /** The first request is accepted and answered, but the thread that reported is slow to end. */
  lemma AnswerNext(s: State, id: RequestId) returns (s': State)
    requires Reachable(s) && Drained(s, id) && s.desk.uis == map[]
    requires s.requests != [] && IsFor(s.requests[0], RT_Action, id)
    ensures Reachable(s') && Drained(s', id) && id in s'.desk.uis
    ensures s'.requests == s.requests[1..] && s'.received == s.received
  {
    hide Reaches, Reachable;
    s' := StartNext(s, 0);
    s' := TakePost(s', id, URT_YES_ONCE);
    s' := TakePopResponse(s');
    s' := TakeProcessResponse(s');
    s' := TakeDismiss(s');
    s' := CleanNone(s', id);
  }

  /** The same id again. */
  lemma TerminateNext(s: State, id: RequestId) returns (s': State)
    requires Reachable(s) && Drained(s, id) && id in s.desk.uis
    requires s.requests != [] && IsFor(s.requests[0], RT_Action, id)
    ensures Reachable(s') && s'.desk.at.Terminated? && s'.received == s.received
  {
    hide Reaches, Reachable;
    s' := TakePopRequest(s);
    s' := TakeProcessRequest(s', true, 0);
  }

  /** Whatever the messages are, two Actions with one id among them can get the agent terminated. */
  lemma TerminationReachable(messages: seq<Message>) returns (s: State)
    requires !DistinctActions(messages)
    ensures Reachable(s) && s.received == messages && s.desk.at.Terminated?
  {
    DistinctEither(messages);
    RequestsNumbered(messages);
    var all := Requests(messages);
    var i, j :| 0 <= i < j < |all| && all[i].kind == RT_Action
                && IsFor(all[j], RT_Action, all[i].id);
    var id := all[i].id;
    hide Reaches, Reachable;
    s := ReceiveAll(messages);
    s := SkipMany(s, id, i);
    assert s.requests[0] == all[i] && s.requests[1..] == all[i + 1..];
    s := AnswerNext(s, id);
    s := SkipMany(s, id, j - i - 1);
    assert s.requests == all[j..];
    s := TerminateNext(s, id);
  }

  /** The exact condition on the messages: every run is safe from termination if and only if no
      two Action messages carry the same id. */
  lemma NeverTerminatedExactly(messages: seq<Message>)
    ensures (forall s | Reachable(s) && s.received == messages :: !s.desk.at.Terminated?)
       <==> DistinctActions(messages)
  {
    if DistinctActions(messages) {
      forall s | Reachable(s) && s.received == messages
        ensures !s.desk.at.Terminated?
      {
        DistinctIsFresh(s);
      }
    } else {
      var s := TerminationReachable(messages);
    }
  }

  // ----------------------------------------------------------------- an old answer

  /** About to collect user interfaces, when there is one that waits for its user. */
  predicate Asking(s: State, id: RequestId) {
    && s.desk.at == Cleaning(s.desk.uis.Keys) && s.desk.uis.Keys == {id}
    && s.desk.uis[id].phase == Waiting
    && s.responses == [] && s.desk.pending.Keys <= {id}
  }

  /** Any request passes by that is not the cancellation of a pending one. */
  lemma PassNext(s: State, id: RequestId) returns (s': State)
    requires Reachable(s) && Asking(s, id) && s.requests != [] && s.requests[0].kind != RT_Close
    requires id in s.desk.pending ==> !IsFor(s.requests[0], RT_Cancel, id)
    ensures Reachable(s') && Asking(s', id) && s' == s.(requests := s.requests[1..], desk := s'.desk)
    ensures s'.desk.uis == s.desk.uis && s'.desk.pending == s.desk.pending
  {
    hide Reaches, Reachable;
    s' := CleanNone(s, id);
    s' := TakePopRequest(s');
    s' := TakeProcessRequest(s', false, 0);
    s' := TakeEmpty(s');
  }

  lemma {:induction false} PassMany(s: State, id: RequestId, k: nat) returns (s': State)
    requires Reachable(s) && Asking(s, id) && k <= |s.requests|
    requires forall i | 0 <= i < k :: s.requests[i].kind != RT_Close
    requires forall i | 0 <= i < k ::
      id in s.desk.pending ==> !IsFor(s.requests[i], RT_Cancel, id)
    ensures Reachable(s') && Asking(s', id) && s' == s.(requests := s.requests[k..], desk := s'.desk)
    ensures s'.desk.uis == s.desk.uis && s'.desk.pending == s.desk.pending
    decreases k
  {
    hide Reaches, Reachable, Asking, IsFor;
    if k == 0 {
      s' := s;
      assert s.requests[0..] == s.requests;
    } else {
      var next := PassNext(s, id);
      assert forall i | 0 <= i < k - 1 :: next.requests[i] == s.requests[i + 1];
      s' := PassMany(next, id, k - 1);
      assert s.requests[1..][k - 1..] == s.requests[k..];
    }
  }

  /** The first request is accepted, and its user does not respond. */
  lemma AskNext(s: State, id: RequestId) returns (s': State)
    requires Reachable(s) && Drained(s, id) && s.desk.uis == map[]
    requires s.requests != [] && IsFor(s.requests[0], RT_Action, id)
    ensures Reachable(s') && Asking(s', id) && s' == s.(requests := s.requests[1..], desk := s'.desk)
    ensures id in s'.desk.pending && s'.desk.uis[id].origin == s.requests[0].serial
  {
    hide Reaches, Reachable;
    s' := StartNext(s, 0);
    s' := TakeEmpty(s');
  }

  /** The request is cancelled while the user still has not responded. */
  lemma CancelNext(s: State, id: RequestId) returns (s': State)
    requires Reachable(s) && Asking(s, id) && id in s.desk.pending
    requires s.requests != [] && IsFor(s.requests[0], RT_Cancel, id)
    ensures Reachable(s') && Asking(s', id) && s' == s.(requests := s.requests[1..], desk := s'.desk)
    ensures s'.desk.pending == map[] && s'.desk.uis[id] == s.desk.uis[id].(dismissing := true)
  {
    hide Reaches, Reachable;
    s' := CleanNone(s, id);
    s' := TakePopRequest(s');
    s' := TakeProcessRequest(s', false, 0);
    s' := TakeDismiss(s');
    s' := TakeEmpty(s');
  }

  /** Only now the user responds; the thread ends in time to be collected, its response is left. */
  lemma LeaveResponse(s: State, id: RequestId, kind: UIResponseType) returns (s': State)
    requires Reachable(s) && Asking(s, id) && s.desk.pending == map[] && s.desk.uis[id].dismissing
    ensures Reachable(s') && InLoop(s'.desk) && s'.desk.pending == map[] && s'.desk.uis == map[]
    ensures s'.requests == s.requests && s'.received == s.received
    ensures s'.responses == [Response(id, kind, s.desk.uis[id].origin)]
    ensures s'.posted == s.posted[s.desk.uis[id].origin := kind]
  {
    hide Reaches, Reachable;
    s' := TakePost(s, id, kind);
    s' := TakeFinish(s', id);
    s' := TakeCollect(s', id);
    assert s'.desk.uis.Keys == {} && {id} - {id} == {};
    s' := TakeCleaned(s');
  }

  /** The same id is asked for again, and gets the response that was left. */
  lemma AnswerWithOld(s: State, id: RequestId, stale: Response) returns (s': State)
    requires Reachable(s) && InLoop(s.desk) && s.desk.pending == map[] && s.desk.uis == map[]
    requires s.responses == [stale] && stale.id == id
    requires s.requests != [] && IsFor(s.requests[0], RT_Action, id)
    ensures Reachable(s') && s'.posted == s.posted && s'.received == s.received
    ensures var sent, r := s'.desk.log.sent, s.requests[0];
      && sent != []
      && sent[|sent| - 1] == Sent(RT_Action, id, Answer(stale.kind), r.serial)
      && s'.desk.uis == map[id := NewUI(r, 0)]
  {
    hide Reaches, Reachable;
    s' := StartNext(s, 0);
    s' := TakePopResponse(s');
    s' := TakeProcessResponse(s');
  }

  lemma {:induction false} FirstCancel(requests: seq<Request>, i: nat, k: nat, id: RequestId)
    returns (first: nat)
    requires i < k < |requests| && IsFor(requests[k], RT_Cancel, id)
    ensures i < first <= k && IsFor(requests[first], RT_Cancel, id)
    ensures forall m | i < m < first :: !IsFor(requests[m], RT_Cancel, id)
    decreases k - i
  {
    if IsFor(requests[i + 1], RT_Cancel, id) {
      first := i + 1;
    } else {
      first := FirstCancel(requests, i + 1, k, id);
    }
  }

  /** Whatever the messages are: if what was cancelled is asked again, what the user said to the
      cancelled request, anything at all, can be sent as the answer to the later one, about which
      no user interface has reported anything. */
  lemma OldAnswerReachable(messages: seq<Message>, i: nat, k: nat, j: nat, kind: UIResponseType)
    returns (s: State)
    requires AskedAgain(messages, i, k, j)
    ensures Reachable(s) && s.received == messages && s.posted == map[Rank(messages, i) := kind]
    ensures Rank(messages, i) < Rank(messages, j) && Rank(messages, j) !in s.desk.log.failed
    ensures s.desk.log.sent != [] && s.desk.log.sent[|s.desk.log.sent| - 1]
         == Sent(RT_Action, messages[i].id, Answer(kind), Rank(messages, j))
  {
    RequestsMirror(messages);
    AskedIsRequested(messages, i, k, j);
    s := OldAnswerSent(messages, Rank(messages, i), Rank(messages, k), Rank(messages, j), kind);
  }

  lemma OldAnswerSent(messages: seq<Message>, i: nat, k: nat, j: nat, kind: UIResponseType)
    returns (s: State)
    requires RequestedAgain(Requests(messages), i, k, j)
    ensures Reachable(s) && s.received == messages && s.posted == map[i := kind]
    ensures j !in s.desk.log.failed && s.desk.log.sent != []
    ensures s.desk.log.sent[|s.desk.log.sent| - 1]
         == Sent(RT_Action, Requests(messages)[i].id, Answer(kind), j)
  {
    var all, id := Requests(messages), Requests(messages)[i].id;
    RequestsNumbered(messages);
    var first := FirstCancel(all, i, k, id);
    s := Unheard(messages, i, first, j);
    hide Reaches, Reachable, Requests;
    s := LeaveResponse(s, id, kind);
    s := AnswerWithOld(s, id, Response(id, kind, i));
    StartedDidNotFail(s, id);
  }

  /** The request at i was asked and cancelled without a response of its user, and what came
      after it has been dealt with as far as j. */
  lemma Unheard(messages: seq<Message>, i: nat, first: nat, j: nat) returns (s: State)
    requires RequestedAgain(Requests(messages), i, first, j)
    requires forall m | i < m < first ::
      !IsFor(Requests(messages)[m], RT_Cancel, Requests(messages)[i].id)
    ensures var all, id := Requests(messages), Requests(messages)[i].id;
      && Reachable(s) && s.received == messages && s.requests == all[j..]
      && Asking(s, id) && s.desk.pending == map[] && s.posted == map[]
      && s.desk.uis[id].dismissing && s.desk.uis[id].origin == i
  {
    RequestsNumbered(messages);
    var all, id := Requests(messages), Requests(messages)[i].id;
    hide Reaches, Reachable, Requests;
    s := ReceiveAll(messages);
    s := SkipMany(s, id, i);
    assert s.requests[0] == all[i] && s.requests[1..] == all[i + 1..];
    s := AskNext(s, id);
    s := PassMany(s, id, first - i - 1);
    assert s.requests == all[first..] && s.requests[1..] == all[first + 1..];
    s := CancelNext(s, id);
    s := PassMany(s, id, j - first - 1);
    assert s.requests == all[j..];
  }

  lemma StartedDidNotFail(s: State, id: RequestId)
    requires Reachable(s) && id in s.desk.uis
    ensures s.desk.uis[id].origin !in s.desk.log.failed
  {
    InvReachable(s);
    assert UIOf(s.desk.uis[id], id, s.pushed);
    assert Accounted(s.desk, s.pushed, s.desk.uis[id].origin);
  }

  /** The exact condition on the messages: in every run all answers stay with the requests they
      were given for if and only if nothing that was cancelled is asked again. */
  lemma NeverCrossedExactly(messages: seq<Message>)
    ensures (forall s | Reachable(s) && s.received == messages :: RightAnswers(s.desk.log, s.posted))
       <==> NeverAskedAgain(messages)
  {
    if NeverAskedAgain(messages) {
      forall s | Reachable(s) && s.received == messages
        ensures RightAnswers(s.desk.log, s.posted)
      {
        forall i | 0 <= i < |s.desk.log.sent|
          ensures RightAnswer(s.desk.log.sent[i], s.desk.log, s.posted)
        {
          AnswersStayWithRequests(s, i);
        }
      }
    } else {
      var i, k, j :| AskedAgain(messages, i, k, j);
      var s := OldAnswerReachable(messages, i, k, j, URT_YES_LIFE);
      assert !RightAnswer(s.desk.log.sent[|s.desk.log.sent| - 1], s.desk.log, s.posted);
    }
  }
}
