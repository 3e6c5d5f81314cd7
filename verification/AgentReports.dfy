/** What became of each request, and what its user said: whatever ids the messages carry, a user
    interface starts for an Action, or fails to start, and its thread reports at most once. */
module AgentReports {
  import opened AgentTypes
  import opened AgentProtocol
  import opened AgentQueue
  import opened AgentOwnership
  import opened AgentAnswers
  import opened AgentUIs
  import opened AgentInbox

  /** A request whose user interface failed to start was accepted, and never gets another one. */
  ghost predicate FailedInv(log: Log) {
    forall n | n in log.failed :: n !in log.started && TimesAccepted(log, n) > 0
  }

  predicate IsAction(pushed: seq<Request>, n: nat) {
    n < |pushed| && pushed[n].kind == RT_Action
  }

  /** A response on the way stems from a user interface started for its id. */
  ghost predicate Stems(r: Response, log: Log, pushed: seq<Request>) {
    r.origin in log.started && r.origin < |pushed| && pushed[r.origin].id == r.id
  }

  /** Only started threads have reported, and none that still waits. */
  ghost predicate ReportInv(d: Desk, posted: map<nat, UIResponseType>) {
    && (forall n | n in posted :: n in d.log.started)
    && (forall id | id in d.uis && d.uis[id].phase == Waiting :: d.uis[id].origin !in posted)
  }

  ghost predicate OutcomeInv(d: Desk, pushed: seq<Request>, inbox: seq<Response>,
                             posted: map<nat, UIResponseType>) {
    && FailedInv(d.log)
    && (forall n | n in d.log.started :: IsAction(pushed, n))
    && (forall r | r in inbox :: Stems(r, d.log, pushed))
    && ReportInv(d, posted)
  }

  /** What started is not started again, and what is left of m_UIs keeps waiting. */
  ghost predicate SameOutcomes(d: Desk, d': Desk) {
    && d'.log.accepted == d.log.accepted && d'.log.started == d.log.started
    && d'.log.failed == d.log.failed
    && forall id | id in d'.uis ::
         id in d.uis && d'.uis[id].origin == d.uis[id].origin
         && (d'.uis[id].phase == Waiting ==> d.uis[id].phase == Waiting)
  }

  lemma OutcomeUnchanged(d: Desk, d': Desk, pushed: seq<Request>, pushed': seq<Request>,
                         inbox: seq<Response>, inbox': seq<Response>,
                         posted: map<nat, UIResponseType>)
    requires OutcomeInv(d, pushed, inbox, posted) && SameOutcomes(d, d')
    requires pushed <= pushed' && forall r | r in inbox' :: r in inbox
    ensures OutcomeInv(d', pushed', inbox', posted)
  {
    forall r | r in inbox'
      ensures Stems(r, d'.log, pushed')
    {
      assert Stems(r, d.log, pushed);
    }
    forall n | n in d'.log.started
      ensures IsAction(pushed', n)
    {
      assert IsAction(pushed, n);
    }
  }

  // -------------------------------------------------------------- processCynaraRequest

  lemma NotAcceptedBefore(d: Desk, pushed: seq<Request>, c: int)
    requires OwnInv(d, pushed, c) && AnswerInv(d, pushed) && UIInv(d, pushed) && d.at.GotRequest?
    ensures TimesAccepted(d.log, d.at.request.serial) == 0
    ensures d.at.request.serial !in d.log.started
  {
    var n := d.at.request.serial;
    assert Places(d, pushed, n) == 1 && Balanced(d, pushed, n) && Accounted(d, pushed, n);
  }

  lemma FailedProcessRequest(d: Desk, starts: bool, u: nat)
    requires FailedInv(d.log) && d.at.GotRequest?
    requires TimesAccepted(d.log, d.at.request.serial) == 0
    requires d.at.request.serial !in d.log.started
    ensures FailedInv(ProcessRequest(d, d.at.request, starts, u).log)
  {
    var log, log' := d.log, ProcessRequest(d, d.at.request, starts, u).log;
    if log'.accepted != log.accepted {
      AcceptedOneMore(log, log', d.at.request);
    }
  }

  lemma ReportProcessRequest(d: Desk, posted: map<nat, UIResponseType>, starts: bool, u: nat)
    requires ReportInv(d, posted) && d.at.GotRequest?
    requires d.at.request.serial !in d.log.started
    ensures var d' := ProcessRequest(d, d.at.request, starts, u);
      && ReportInv(d', posted)
      && d.log.started <= d'.log.started
      && (forall n | n in d'.log.started ::
            n in d.log.started || (n == d.at.request.serial && d.at.request.kind == RT_Action))
  {
  }

  lemma OutcomeProcessRequest(d: Desk, pushed: seq<Request>, c: int, inbox: seq<Response>,
                              posted: map<nat, UIResponseType>, starts: bool, u: nat)
    requires OwnInv(d, pushed, c) && AnswerInv(d, pushed) && UIInv(d, pushed) && d.at.GotRequest?
    requires OutcomeInv(d, pushed, inbox, posted)
    ensures OutcomeInv(ProcessRequest(d, d.at.request, starts, u), pushed, inbox, posted)
  {
    NotAcceptedBefore(d, pushed, c);
    FailedProcessRequest(d, starts, u);
    ReportProcessRequest(d, posted, starts, u);
    assert IsAction(pushed, d.at.request.serial) <==> d.at.request.kind == RT_Action;
    hide ProcessRequest, OwnInv, AnswerInv, UIInv, FailedInv, ReportInv;
    var d' := ProcessRequest(d, d.at.request, starts, u);
    forall r | r in inbox
      ensures Stems(r, d'.log, pushed)
    {
      assert Stems(r, d.log, pushed);
    }
  }

  // ------------------------------------------------------------------ the other steps

  lemma DismissKeepsOutcomes(d: Desk, id: RequestId)
    ensures SameOutcomes(d, DismissUI(d, id))
  {
  }

  lemma DeskKeepsOutcomes(d: Desk, starts: bool, u: nat, next: RequestId)
    requires !AtQueues(d.at) && !Over(d) && !d.at.GotRequest?
    requires (d.at.Cleaning? || d.at.Reaping?) && d.at.todo != {} ==> next in d.uis
    ensures SameOutcomes(d, DeskStep(d, starts, u, next))
  {
    hide Dismiss;
    DismissKeepsOutcomes(d, next);
    if d.at.Dismissing? {
      DismissKeepsOutcomes(d, d.at.id);
    }
  }

  lemma OutcomePost(d: Desk, pushed: seq<Request>, inbox: seq<Response>,
                    posted: map<nat, UIResponseType>, id: RequestId, r: Response)
    requires OutcomeInv(d, pushed, inbox, posted) && UIInv(d, pushed)
    requires id in d.uis && d.uis[id].phase == Waiting
    requires r.id == id && r.origin == d.uis[id].origin
    ensures r.origin !in posted
    ensures OutcomeInv(Advance(d, id, Posted), pushed, inbox + [r], posted[r.origin := r.kind])
  {
    var d', posted' := Advance(d, id, Posted), posted[r.origin := r.kind];
    assert UIOf(d.uis[id], id, pushed) && Accounted(d, pushed, r.origin);
    forall other | other in d'.uis && d'.uis[other].phase == Waiting
      ensures d'.uis[other].origin !in posted'
    {
      assert UIOf(d.uis[other], other, pushed);
    }
    forall x | x in inbox + [r]
      ensures Stems(x, d'.log, pushed)
    {
      assert x in inbox ==> Stems(x, d.log, pushed);
    }
  }

  lemma OutcomeOtherThreads(s: State, step: Step)
    requires OutcomeInv(s.desk, s.pushed, Inbox(s), s.posted) && UIInv(s.desk, s.pushed)
    requires Enabled(s, step) && !step.Agent?
    ensures var s' := Apply(s, step);
      OutcomeInv(s'.desk, s'.pushed, Inbox(s'), s'.posted)
  {
    var s' := Apply(s, step);
    if step.UIPost? {
      var r := Response(step.ui, step.kind, s.desk.uis[step.ui].origin);
      assert Inbox(s') == Inbox(s) + [r];
      OutcomePost(s.desk, s.pushed, Inbox(s), s.posted, step.ui, r);
    } else {
      OtherThreads(s, step);
      assert Inbox(s') == Inbox(s) && s'.posted == s.posted;
      OutcomeUnchanged(s.desk, s'.desk, s.pushed, s'.pushed, Inbox(s), Inbox(s), s.posted);
    }
  }

  lemma OutcomeInvStep(s: State, step: Step)
    requires OwnInv(s.desk, s.pushed, Consumed(s)) && AnswerInv(s.desk, s.pushed)
    requires UIInv(s.desk, s.pushed) && Enabled(s, step)
    requires OutcomeInv(s.desk, s.pushed, Inbox(s), s.posted)
    ensures var s' := Apply(s, step);
      OutcomeInv(s'.desk, s'.pushed, Inbox(s'), s'.posted)
  {
    hide OwnInv, AnswerInv, UIInv, OutcomeInv;
    if !step.Agent? {
      OutcomeOtherThreads(s, step);
    } else if AtQueues(s.desk.at) {
      QueueAccess(s);
      SameInbox(s);
      OutcomeUnchanged(s.desk, QueueStep(s).desk, s.pushed, s.pushed, Inbox(s), Inbox(s), s.posted);
    } else {
      OutcomeDeskStep(s, step);
    }
  }

  lemma OutcomeDeskStep(s: State, step: Step)
    requires OwnInv(s.desk, s.pushed, Consumed(s)) && AnswerInv(s.desk, s.pushed)
    requires UIInv(s.desk, s.pushed) && Enabled(s, step)
    requires OutcomeInv(s.desk, s.pushed, Inbox(s), s.posted)
    requires step.Agent? && !AtQueues(s.desk.at)
    ensures var s' := Apply(s, step);
      OutcomeInv(s'.desk, s'.pushed, Inbox(s'), s'.posted)
  {
    hide OwnInv, AnswerInv, UIInv, OutcomeInv;
    var s' := Apply(s, step);
    if s.desk.at.GotRequest? {
      OutcomeProcessRequest(s.desk, s.pushed, Consumed(s), Inbox(s), s.posted, step.starts,
                            step.uninitialized);
      NoNewHandResponse(s.desk, step.starts, step.uninitialized, step.next);
      assert Inbox(s') == Inbox(s);
    } else {
      DeskKeepsOutcomes(s.desk, step.starts, step.uninitialized, step.next);
      InboxShrinks(s, step);
      OutcomeUnchanged(s.desk, s'.desk, s.pushed, s.pushed, Inbox(s), Inbox(s'), s.posted);
    }
  }

  /** Away from the queues, the agent thread takes at most the response in hand out of the inbox. */
  lemma InboxShrinks(s: State, step: Step)
    requires Enabled(s, step) && step.Agent? && !AtQueues(s.desk.at)
    ensures Inbox(Apply(s, step)) == if s.desk.at.GotResponse? then Inbox(s)[1..] else Inbox(s)
  {
    NoNewHandResponse(s.desk, step.starts, step.uninitialized, step.next);
    if s.desk.at.GotResponse? {
      ResponseTaken(s, step);
    }
  }

  // -------------------------------------------------------------- what was reported

  ghost predicate Kept(posted: map<nat, UIResponseType>, posted': map<nat, UIResponseType>) {
    forall n | n in posted :: n in posted' && posted'[n] == posted[n]
  }

  lemma ReportedOnce(s: State, step: Step)
    requires OutcomeInv(s.desk, s.pushed, Inbox(s), s.posted) && Enabled(s, step)
    ensures Kept(s.posted, Apply(s, step).posted)
  {
    if step.Agent? && AtQueues(s.desk.at) {
      QueueAccess(s);
    }
  }
}
