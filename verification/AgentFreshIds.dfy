/** Answers and ids. Cynara chooses the ids of its requests; the agent tells them apart only as
    long as an id is not used again while the previous use of it is still in m_UIs or in
    m_incomingResponses. With that, every answer goes to the request it was given for; without
    it, the agent can be terminated, or give an old answer to a new request. */
module AgentFreshIds {
  import opened AgentTypes
  import opened AgentProtocol
  import opened AgentQueue
  import opened AgentRegistry
  import opened AgentOwnership
  import opened AgentAnswers
  import opened AgentUIs
  import opened AgentInbox
  import opened AgentReports
  import opened AgentSafety

  /** An id nothing in the agent remembers any more. */
  ghost predicate Unused(s: State, id: RequestId) {
    id !in s.desk.uis && !Awaits(Inbox(s), id)
  }

  /** Whether a step is the agent starting a user interface for a request. */
  predicate Accepts(s: State, step: Step) {
    && step.Agent? && step.starts
    && s.desk.at.GotRequest?
    && s.desk.at.request.kind == RT_Action && s.desk.at.request.id !in s.desk.pending
  }

  ghost predicate Fresh(s: State, step: Step) {
    Accepts(s, step) ==> Unused(s, s.desk.at.request.id)
  }

  ghost predicate Careful(s: State, steps: seq<Step>)
    decreases |steps|
  {
    steps == []
    || (Enabled(s, steps[0]) && Fresh(s, steps[0]) && Careful(Apply(s, steps[0]), steps[1..]))
  }

  /** The payload is the one for what the thread of this very request reported, or its user
      interface could not be started. */
  ghost predicate RightAnswer(e: Sent, log: Log, posted: map<nat, UIResponseType>) {
    e.kind == RT_Action ==>
      || (e.serial in log.failed && e.data == START_FAILED)
      || (e.serial in posted && e.data == Answer(posted[e.serial]))
  }

  ghost predicate FromItsUI(r: Response, d: Desk, posted: map<nat, UIResponseType>) {
    && r.origin in posted && posted[r.origin] == r.kind
    && (r.id in d.uis ==> d.uis[r.id].phase != Waiting && d.uis[r.id].origin == r.origin)
  }

  ghost predicate InboxInv(d: Desk, inbox: seq<Response>, posted: map<nat, UIResponseType>) {
    && !d.at.Terminated?
    && (forall i, j | 0 <= i < j < |inbox| :: inbox[i].id != inbox[j].id)
    && (forall i | 0 <= i < |inbox| :: FromItsUI(inbox[i], d, posted))
  }

  ghost predicate RightAnswers(log: Log, posted: map<nat, UIResponseType>) {
    forall i | 0 <= i < |log.sent| :: RightAnswer(log.sent[i], log, posted)
  }

  ghost predicate FreshInv(s: State) {
    InboxInv(s.desk, Inbox(s), s.posted) && RightAnswers(s.desk.log, s.posted)
  }

  // ------------------------------------------------------------- steps on the desk

  /** Moves that post nothing and start nothing. */
  lemma InboxUnchanged(d: Desk, d': Desk, inbox: seq<Response>, posted: map<nat, UIResponseType>)
    requires InboxInv(d, inbox, posted)
    requires !d'.at.Terminated? && d'.log.started == d.log.started
    requires forall id | id in d'.uis :: id in d.uis && d'.uis[id].origin == d.uis[id].origin
                                      && (d'.uis[id].phase == Waiting <==> d.uis[id].phase == Waiting)
    ensures InboxInv(d', inbox, posted)
  {
    forall i | 0 <= i < |inbox|
      ensures FromItsUI(inbox[i], d', posted)
    {
      assert FromItsUI(inbox[i], d, posted);
    }
  }

  lemma InboxAccept(d: Desk, pushed: seq<Request>, c: int, inbox: seq<Response>,
                    posted: map<nat, UIResponseType>, u: nat)
    requires InboxInv(d, inbox, posted) && OwnInv(d, pushed, c)
    requires AnswerInv(d, pushed) && UIInv(d, pushed) && ReportInv(d, posted)
    requires d.at.GotRequest? && d.at.request.kind == RT_Action
    requires d.at.request.id !in d.pending && d.at.request.id !in d.uis
    requires !Awaits(inbox, d.at.request.id)
    ensures InboxInv(ProcessRequest(d, d.at.request, true, u), inbox, posted)
  {
    var r, d' := d.at.request, ProcessRequest(d, d.at.request, true, u);
    assert Places(d, pushed, r.serial) == 1 && Balanced(d, pushed, r.serial);
    assert Accounted(d, pushed, r.serial);
    assert r.serial !in posted;
    forall i | 0 <= i < |inbox|
      ensures FromItsUI(inbox[i], d', posted)
    {
      assert FromItsUI(inbox[i], d, posted);
    }
  }

  /** Answering takes the response out of the inbox. */
  lemma InboxProcessResponse(d: Desk, inbox: seq<Response>, posted: map<nat, UIResponseType>)
    requires InboxInv(d, inbox, posted) && d.at.GotResponse?
    requires inbox != [] && inbox[0] == d.at.response
    ensures InboxInv(ProcessResponse(d, d.at.response), inbox[1..], posted)
  {
    var r, d', rest := d.at.response, ProcessResponse(d, d.at.response), inbox[1..];
    forall i | 0 <= i < |rest|
      ensures FromItsUI(rest[i], d', posted)
    {
      assert FromItsUI(inbox[i + 1], d, posted);
    }
  }

  /** The answer sent is the one the thread of the pending request reported. */
  lemma AnswerIsRight(d: Desk, inbox: seq<Response>, posted: map<nat, UIResponseType>)
    requires InboxInv(d, inbox, posted) && RightAnswers(d.log, posted) && RegistryInv(d)
    requires d.at.GotResponse? && inbox != [] && inbox[0] == d.at.response
    ensures RightAnswers(ProcessResponse(d, d.at.response).log, posted)
  {
    var r, log' := d.at.response, ProcessResponse(d, d.at.response).log;
    assert FromItsUI(r, d, posted);
    if r.id in d.pending {
      assert Live(d, r.id, d.pending[r.id].serial);
      var e := log'.sent[|d.log.sent|];
      assert RightAnswer(e, log', posted);
    }
    forall i | 0 <= i < |d.log.sent|
      ensures RightAnswer(log'.sent[i], log', posted)
    {
      assert RightAnswer(d.log.sent[i], d.log, posted);
    }
  }

  lemma AnswersStayRight(log: Log, log': Log, posted: map<nat, UIResponseType>)
    requires RightAnswers(log, posted) && log.sent <= log'.sent && log.failed <= log'.failed
    requires forall i | |log.sent| <= i < |log'.sent| :: RightAnswer(log'.sent[i], log', posted)
    ensures RightAnswers(log', posted)
  {
    forall i | 0 <= i < |log.sent|
      ensures RightAnswer(log'.sent[i], log', posted)
    {
      assert RightAnswer(log.sent[i], log, posted);
    }
  }

  lemma FreshProcessRequest(d: Desk, pushed: seq<Request>, c: int, inbox: seq<Response>,
                            posted: map<nat, UIResponseType>, starts: bool, u: nat)
    requires InboxInv(d, inbox, posted) && RightAnswers(d.log, posted)
    requires OwnInv(d, pushed, c) && AnswerInv(d, pushed) && UIInv(d, pushed)
    requires ReportInv(d, posted) && d.at.GotRequest?
    requires starts && d.at.request.kind == RT_Action && d.at.request.id !in d.pending ==>
      d.at.request.id !in d.uis && !Awaits(inbox, d.at.request.id)
    ensures var d' := ProcessRequest(d, d.at.request, starts, u);
      InboxInv(d', inbox, posted) && RightAnswers(d'.log, posted)
  {
    var r, d' := d.at.request, ProcessRequest(d, d.at.request, starts, u);
    AnswersStayRight(d.log, d'.log, posted);
    if starts && r.kind == RT_Action && r.id !in d.pending {
      InboxAccept(d, pushed, c, inbox, posted, u);
    } else {
      InboxUnchanged(d, d', inbox, posted);
    }
  }

  lemma FreshCollect(d: Desk, inbox: seq<Response>, posted: map<nat, UIResponseType>,
                     next: RequestId, at: Location)
    requires InboxInv(d, inbox, posted) && next in d.uis
    requires !at.Terminated? && !at.Registering?
    ensures InboxInv(Collect(d, next).(at := at), inbox, posted)
  {
    InboxUnchanged(d, Collect(d, next).(at := at), inbox, posted);
  }

  lemma FreshDismissed(d: Desk, inbox: seq<Response>, posted: map<nat, UIResponseType>)
    requires InboxInv(d, inbox, posted) && RightAnswers(d.log, posted) && d.at.Dismissing?
    ensures var d' := Dismissed(DismissUI(d, d.at.id), d.at.cancel);
      InboxInv(d', inbox, posted) && RightAnswers(d'.log, posted)
  {
    var d' := Dismissed(DismissUI(d, d.at.id), d.at.cancel);
    InboxUnchanged(d, DismissUI(d, d.at.id), inbox, posted);
    InboxUnchanged(DismissUI(d, d.at.id), d', inbox, posted);
    AnswersStayRight(d.log, d'.log, posted);
  }

  lemma FreshReap(d: Desk, inbox: seq<Response>, posted: map<nat, UIResponseType>,
                  starts: bool, u: nat, next: RequestId)
    requires InboxInv(d, inbox, posted) && RightAnswers(d.log, posted)
    requires d.at.Cleaning? || d.at.Reaping?
    requires d.at.todo != {} ==> next in d.uis
    ensures var d' := DeskStep(d, starts, u, next);
      InboxInv(d', inbox, posted) && RightAnswers(d'.log, posted)
  {
    var d' := DeskStep(d, starts, u, next);
    if d.at.todo != {} {
      FreshCollect(d, inbox, posted, next, d'.at);
    } else {
      InboxUnchanged(d, d', inbox, posted);
    }
    AnswersStayRight(d.log, d'.log, posted);
  }

  lemma FreshDeskStep(d: Desk, pushed: seq<Request>, c: int, inbox: seq<Response>,
                      posted: map<nat, UIResponseType>, starts: bool, u: nat, next: RequestId)
    requires InboxInv(d, inbox, posted) && RightAnswers(d.log, posted)
    requires OwnInv(d, pushed, c) && AnswerInv(d, pushed) && UIInv(d, pushed) && RegistryInv(d)
    requires ReportInv(d, posted)
    requires !AtQueues(d.at) && !Over(d) && !d.at.GotResponse?
    requires (d.at.Cleaning? || d.at.Reaping?) && d.at.todo != {} ==> next in d.uis
    requires d.at.GotRequest? && starts && d.at.request.kind == RT_Action
             && d.at.request.id !in d.pending ==>
      d.at.request.id !in d.uis && !Awaits(inbox, d.at.request.id)
    ensures var d' := DeskStep(d, starts, u, next);
      InboxInv(d', inbox, posted) && RightAnswers(d'.log, posted)
  {
    match d.at
    case GotRequest(r) => FreshProcessRequest(d, pushed, c, inbox, posted, starts, u);
    case Registering(r) => InboxUnchanged(d, Register(d, r), inbox, posted);
    case Dismissing(id, cancel) => FreshDismissed(d, inbox, posted);
    case Cleaning(todo) => FreshReap(d, inbox, posted, starts, u, next);
    case Reaping(todo, clean) => FreshReap(d, inbox, posted, starts, u, next);
  }

  // --------------------------------------------------------------- the other steps

  lemma InboxPost(d: Desk, inbox: seq<Response>, posted: map<nat, UIResponseType>,
                  id: RequestId, r: Response)
    requires InboxInv(d, inbox, posted) && ReportInv(d, posted)
    requires id in d.uis && d.uis[id].phase == Waiting
    requires r.id == id && r.origin == d.uis[id].origin
    ensures InboxInv(Advance(d, id, Posted), inbox + [r], posted[r.origin := r.kind])
  {
    forall i | 0 <= i < |inbox|
      ensures inbox[i].id != id
      ensures FromItsUI(inbox[i], Advance(d, id, Posted), posted[r.origin := r.kind])
    {
      assert FromItsUI(inbox[i], d, posted);
    }
  }

  lemma FreshPost(s: State, id: RequestId, kind: UIResponseType)
    requires FreshInv(s) && ReportInv(s.desk, s.posted)
    requires id in s.desk.uis && s.desk.uis[id].phase == Waiting
    ensures FreshInv(Post(s, id, kind))
  {
    var s', d := Post(s, id, kind), s.desk;
    var r := Response(id, kind, d.uis[id].origin);
    assert Inbox(s') == Inbox(s) + [r];
    InboxPost(d, Inbox(s), s.posted, id, r);
    forall i | 0 <= i < |d.log.sent|
      ensures RightAnswer(d.log.sent[i], d.log, s'.posted)
    {
      assert RightAnswer(d.log.sent[i], d.log, s.posted);
    }
  }

  lemma FreshOtherThreads(s: State, step: Step)
    requires FreshInv(s) && ReportInv(s.desk, s.posted) && Enabled(s, step) && !step.Agent?
    ensures FreshInv(Apply(s, step))
  {
    var s' := Apply(s, step);
    if step.UIPost? {
      FreshPost(s, step.ui, step.kind);
    } else {
      assert Inbox(s') == Inbox(s) && s'.posted == s.posted && s'.desk.log == s.desk.log;
      InboxUnchanged(s.desk, s'.desk, Inbox(s), s.posted);
    }
  }

  lemma FreshQueueStep(s: State)
    requires FreshInv(s) && AtQueues(s.desk.at) && AgentEnabled(s, 0)
    ensures FreshInv(QueueStep(s))
  {
    var s' := QueueStep(s);
    QueueAccess(s);
    SameInbox(s);
    InboxUnchanged(s.desk, s'.desk, Inbox(s), s.posted);
    AnswersStayRight(s.desk.log, s'.desk.log, s.posted);
  }

  lemma FreshInvStep(s: State, step: Step)
    requires FreshInv(s) && Inv(s) && Enabled(s, step) && Fresh(s, step)
    ensures FreshInv(Apply(s, step))
  {
    if !step.Agent? {
      FreshOtherThreads(s, step);
    } else if AtQueues(s.desk.at) {
      FreshQueueStep(s);
    } else if s.desk.at.GotResponse? {
      var s' := Apply(s, step);
      ResponseTaken(s, step);
      InboxProcessResponse(s.desk, Inbox(s), s.posted);
      AnswerIsRight(s.desk, Inbox(s), s.posted);
    } else {
      FreshDeskStep(s.desk, s.pushed, Consumed(s), Inbox(s), s.posted,
                    step.starts, step.uninitialized, step.next);
      NoNewHandResponse(s.desk, step.starts, step.uninitialized, step.next);
    }
  }

  // -------------------------------------------------------------------- whole runs

  /** Reachable by a run in which every id is unused whenever the agent accepts it. */
  ghost predicate FreshReachable(s: State) {
    exists steps :: Careful(INITIAL, steps) && Allowed(INITIAL, steps) && After(INITIAL, steps) == s
  }

  lemma {:induction false} FreshRun(s: State, steps: seq<Step>)
    requires Inv(s) && FreshInv(s) && Careful(s, steps)
    ensures Allowed(s, steps) && Inv(After(s, steps)) && FreshInv(After(s, steps))
    decreases |steps|
  {
    if steps == [] {
    } else {
      InvStep(s, steps[0]);
      FreshInvStep(s, steps[0]);
      FreshRun(Apply(s, steps[0]), steps[1..]);
    }
  }

  lemma FreshReachableInv(s: State)
    requires FreshReachable(s)
    ensures Inv(s) && FreshInv(s) && Reachable(s)
  {
    var steps :| Careful(INITIAL, steps) && Allowed(INITIAL, steps) && After(INITIAL, steps) == s;
    InvInitial();
    FreshRun(INITIAL, steps);
  }

  /** The answer for the id has exactly one source: the thread of its user interface, which has
      not reported yet, or the one response for it on the way. */
  ghost predicate OneSource(s: State, id: RequestId) {
    && id in s.desk.uis
    && (s.desk.uis[id].phase == Waiting <==> !Awaits(Inbox(s), id))
    && (forall i, j | 0 <= i < j < |Inbox(s)| :: !(Inbox(s)[i].id == id && Inbox(s)[j].id == id))
  }

  /** Every pending request has exactly one answer to come, and from its own user interface. */
  lemma OneAnswerSource(s: State, id: RequestId)
    requires FreshReachable(s) && id in s.desk.pending
    ensures OneSource(s, id) && s.desk.uis[id].origin == s.desk.pending[id].serial
  {
    FreshReachableInv(s);
    assert Live(s.desk, id, s.desk.pending[id].serial);
    forall i | 0 <= i < |Inbox(s)|
      ensures FromItsUI(Inbox(s)[i], s.desk, s.posted)
    {
    }
  }

  /** Every answer sent for an action is the one that the user gave to that very request, unless
      its user interface could not be started. */
  lemma AnswersAreNotCrossed(s: State, i: nat)
    requires FreshReachable(s) && i < |s.desk.log.sent|
    ensures RightAnswer(s.desk.log.sent[i], s.desk.log, s.posted)
  {
    FreshReachableInv(s);
  }

  /** The exact condition. When the agent starts a user interface, it goes on and the answer for
      the id has one source, if and only if the id was in neither m_UIs nor a response on the
      way. */
  lemma AcceptingExactly(s: State, step: Step)
    requires Enabled(s, step) && Accepts(s, step)
    ensures var s', id := Apply(s, step), s.desk.at.request.id;
      !s'.desk.at.Terminated? && OneSource(s', id) <==> Unused(s, id)
  {
    var s', id := Apply(s, step), s.desk.at.request.id;
    assert Inbox(s') == Inbox(s);
    if id !in s.desk.uis {
      AcceptedWaits(s, step);
      if !Awaits(Inbox(s), id) {
        assert forall i | 0 <= i < |Inbox(s)| :: Inbox(s)[i].id != id;
      }
    }
  }

  lemma AcceptedWaits(s: State, step: Step)
    requires Enabled(s, step) && Accepts(s, step) && s.desk.at.request.id !in s.desk.uis
    ensures var d', r := Apply(s, step).desk, s.desk.at.request;
      d'.at == Registering(r) && r.id in d'.uis && d'.uis[r.id].phase == Waiting
  {
  }

  /** The agent is terminated exactly when it starts a user interface for an id that m_UIs still
      holds. */
  lemma TerminatedExactly(s: State, step: Step)
    requires Enabled(s, step)
    ensures Apply(s, step).desk.at.Terminated? <==>
      Accepts(s, step) && s.desk.at.request.id in s.desk.uis
  {
    if step.Agent? && AtQueues(s.desk.at) {
      QueueAccess(s);
    } else if step.Agent? && !s.desk.at.GotRequest? {
      NotTerminated(s.desk, step.starts, step.uninitialized, step.next);
    }
  }

  lemma NotTerminated(d: Desk, starts: bool, u: nat, next: RequestId)
    requires !AtQueues(d.at) && !Over(d) && !d.at.GotRequest?
    requires (d.at.Cleaning? || d.at.Reaping?) && d.at.todo != {} ==> next in d.uis
    ensures !DeskStep(d, starts, u, next).at.Terminated?
  {
  }
}
