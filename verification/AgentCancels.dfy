/** When answers stay with their requests: as long as no Action message reuses the id of one that
    was cancelled, even if that terminates the program. */
module AgentCancels {
  import opened AgentTypes
  import opened AgentProtocol
  import opened AgentQueue
  import opened AgentRegistry
  import opened AgentOwnership
  import opened AgentAnswers
  import opened AgentUIs
  import opened AgentInbox
  import opened AgentReports
  import opened AgentSafety
  import opened AgentFreshIds
  import opened AgentMessages
  import opened AgentOutcomes

  /** A cancellation of this request has been popped. */
  ghost predicate Cancelled(pushed: seq<Request>, consumed: int, n: nat) {
    exists k | n < k < consumed && k < |pushed| :: IsFor(pushed[k], RT_Cancel, pushed[n].id)
  }

  /** A started request that is closed was answered by its own user, or cancelled. */
  ghost predicate Explained(d: Desk, pushed: seq<Request>, consumed: int, n: nat) {
    Open(d, pushed, n) || Cancelled(pushed, consumed, n)
  }

  /** If a request with this id is open, it is the one the response stems from. */
  predicate Matches(r: Response, d: Desk) {
    && (r.id in d.pending ==> d.pending[r.id].serial == r.origin)
    && (d.at.Registering? && d.at.request.id == r.id ==> d.at.request.serial == r.origin)
  }

  ghost predicate Trusted(r: Response, d: Desk, pushed: seq<Request>, consumed: int,
                          posted: map<nat, UIResponseType>) {
    && r.origin in posted && posted[r.origin] == r.kind
    && Matches(r, d) && Explained(d, pushed, consumed, r.origin)
  }

  ghost predicate TrustInv(d: Desk, pushed: seq<Request>, consumed: int, inbox: seq<Response>,
                           posted: map<nat, UIResponseType>) {
    && (forall i, j | 0 <= i < j < |inbox| :: inbox[i].origin != inbox[j].origin)
    && (forall r | r in inbox :: Trusted(r, d, pushed, consumed, posted))
    && (forall id | id in d.uis && d.uis[id].phase == Waiting ::
          Explained(d, pushed, consumed, d.uis[id].origin))
  }

  // --------------------------------------------------------------- what stays explained

  lemma CancelledStays(pushed: seq<Request>, pushed': seq<Request>, c: int, c': int, n: nat)
    requires Cancelled(pushed, c, n) && pushed <= pushed' && c <= c'
    ensures Cancelled(pushed', c', n)
  {
    var k :| n < k < c && k < |pushed| && IsFor(pushed[k], RT_Cancel, pushed[n].id);
    assert IsFor(pushed'[k], RT_Cancel, pushed'[n].id);
  }

  lemma TrustUnchanged(d: Desk, d': Desk, pushed: seq<Request>, pushed': seq<Request>, c: int,
                       c': int, inbox: seq<Response>, posted: map<nat, UIResponseType>)
    requires TrustInv(d, pushed, c, inbox, posted) && pushed <= pushed' && c <= c'
    requires forall n: nat :: Open(d, pushed, n) ==> Open(d', pushed', n)
    requires forall r | r in inbox && Matches(r, d) :: Matches(r, d')
    requires forall id | id in d'.uis && d'.uis[id].phase == Waiting ::
      id in d.uis && d.uis[id].phase == Waiting && d'.uis[id].origin == d.uis[id].origin
    ensures TrustInv(d', pushed', c', inbox, posted)
  {
    forall n: nat | Explained(d, pushed, c, n)
      ensures Explained(d', pushed', c', n)
    {
      if Cancelled(pushed, c, n) {
        CancelledStays(pushed, pushed', c, c', n);
      } else {
        assert Open(d, pushed, n);
      }
    }
    forall r | r in inbox
      ensures Trusted(r, d', pushed', c', posted)
    {
      assert Trusted(r, d, pushed, c, posted);
    }
  }

  // ------------------------------------------------------------------------- posting

  lemma TrustPost(d: Desk, pushed: seq<Request>, c: int, inbox: seq<Response>,
                  posted: map<nat, UIResponseType>, id: RequestId, r: Response)
    requires TrustInv(d, pushed, c, inbox, posted) && RegistryInv(d) && ReportInv(d, posted)
    requires id in d.uis && d.uis[id].phase == Waiting
    requires r.id == id && r.origin == d.uis[id].origin
    ensures TrustInv(Advance(d, id, Posted), pushed, c, inbox + [r], posted[r.origin := r.kind])
  {
    var d', posted' := Advance(d, id, Posted), posted[r.origin := r.kind];
    forall n: nat
      ensures Explained(d', pushed, c, n) == Explained(d, pushed, c, n)
    {
    }
    hide Explained;
    forall i | 0 <= i < |inbox|
      ensures inbox[i].origin != r.origin
    {
      assert inbox[i] in inbox && Trusted(inbox[i], d, pushed, c, posted);
    }
    forall x | x in inbox + [r]
      ensures Trusted(x, d', pushed, c, posted')
    {
      if x in inbox {
        assert Trusted(x, d, pushed, c, posted);
      } else if id in d.pending {
        assert Live(d, id, d.pending[id].serial);
      }
    }
  }

  // ------------------------------------------------------------- processCynaraRequest

  /** At acceptance no response for the id is on the way. */
  lemma NoneOnTheWay(d: Desk, pushed: seq<Request>, c: int, inbox: seq<Response>,
                     posted: map<nat, UIResponseType>)
    requires TrustInv(d, pushed, c, inbox, posted) && OutcomeInv(d, pushed, inbox, posted)
    requires d.at.GotRequest? && d.at.request.kind == RT_Action
    requires d.at.request.id !in d.pending
    requires 0 < c <= |pushed| && pushed[c - 1] == d.at.request && NeverRequestedAgain(pushed)
    ensures forall r | r in inbox :: r.id != d.at.request.id
  {
    forall r | r in inbox
      ensures r.id != d.at.request.id
    {
      assert Trusted(r, d, pushed, c, posted) && Stems(r, d.log, pushed);
      var o := r.origin;
      assert IsAction(pushed, o);
      if r.id == d.at.request.id {
        var k :| o < k < c && k < |pushed| && IsFor(pushed[k], RT_Cancel, pushed[o].id);
        assert RequestedAgain(pushed, o, k, c - 1);
      }
    }
  }

  /** A cancelled request stays explained. */
  lemma TrustCancel(d: Desk, pushed: seq<Request>, c: int, inbox: seq<Response>,
                    posted: map<nat, UIResponseType>, u: nat)
    requires TrustInv(d, pushed, c, inbox, posted) && OwnInv(d, pushed, c)
    requires d.at.GotRequest? && d.at.request.kind == RT_Cancel && d.at.request.id in d.pending
    requires d.at.request.serial == c - 1 && pushed[c - 1] == d.at.request
    ensures TrustInv(ProcessRequest(d, d.at.request, false, u), pushed, c, inbox, posted)
  {
    var r, d' := d.at.request, ProcessRequest(d, d.at.request, false, u);
    var n := d.pending[r.id].serial;
    assert Places(d, pushed, r.serial) == 1;
    assert Cancelled(pushed, c, n) by {
      assert IsFor(pushed[c - 1], RT_Cancel, pushed[n].id);
    }
    forall m: nat | Explained(d, pushed, c, m)
      ensures Explained(d', pushed, c, m)
    {
      if m != n && Open(d, pushed, m) {
        assert Open(d', pushed, m);
      }
    }
    hide OwnInv, Explained, Cancelled;
    forall x | x in inbox
      ensures Trusted(x, d', pushed, c, posted)
    {
      assert Trusted(x, d, pushed, c, posted);
    }
  }

  lemma TrustStart(d: Desk, pushed: seq<Request>, c: int, inbox: seq<Response>,
                   posted: map<nat, UIResponseType>, u: nat)
    requires TrustInv(d, pushed, c, inbox, posted) && d.at.GotRequest?
    requires d.at.request.kind == RT_Action && d.at.request.id !in d.pending
    requires d.at.request.id !in d.uis
    requires forall r | r in inbox :: r.id != d.at.request.id
    ensures TrustInv(ProcessRequest(d, d.at.request, true, u), pushed, c, inbox, posted)
  {
    var d' := ProcessRequest(d, d.at.request, true, u);
    forall n: nat | Explained(d, pushed, c, n)
      ensures Explained(d', pushed, c, n)
    {
    }
    assert Explained(d', pushed, c, d.at.request.serial);
    hide Explained;
    forall x | x in inbox
      ensures Trusted(x, d', pushed, c, posted)
    {
      assert Trusted(x, d, pushed, c, posted);
    }
  }

  lemma TrustProcessRequest(d: Desk, pushed: seq<Request>, c: int, inbox: seq<Response>,
                            posted: map<nat, UIResponseType>, starts: bool, u: nat)
    requires TrustInv(d, pushed, c, inbox, posted) && OwnInv(d, pushed, c)
    requires OutcomeInv(d, pushed, inbox, posted)
    requires d.at.GotRequest? && 0 < c <= |pushed|
    requires d.at.request.serial == c - 1 && pushed[c - 1] == d.at.request
    requires NeverRequestedAgain(pushed)
    ensures TrustInv(ProcessRequest(d, d.at.request, starts, u), pushed, c, inbox, posted)
  {
    var r := d.at.request;
    if r.kind == RT_Cancel && r.id in d.pending {
      TrustCancel(d, pushed, c, inbox, posted, u);
    } else if r.kind == RT_Action && r.id !in d.pending && r.id !in d.uis && starts {
      NoneOnTheWay(d, pushed, c, inbox, posted);
      TrustStart(d, pushed, c, inbox, posted, u);
    } else {
      hide OwnInv, OutcomeInv, TrustInv, NeverRequestedAgain;
      TrustUnchanged(d, ProcessRequest(d, r, starts, u), pushed, pushed, c, c, inbox, posted);
    }
  }

  // ---------------------------------------------------------------- processUIResponse

  lemma TrustProcessResponse(d: Desk, pushed: seq<Request>, c: int, inbox: seq<Response>,
                             posted: map<nat, UIResponseType>)
    requires TrustInv(d, pushed, c, inbox, posted) && ReportInv(d, posted)
    requires d.at.GotResponse? && inbox != [] && inbox[0] == d.at.response
    ensures TrustInv(ProcessResponse(d, d.at.response), pushed, c, inbox[1..], posted)
  {
    var r, d', rest := d.at.response, ProcessResponse(d, d.at.response), inbox[1..];
    assert Trusted(r, d, pushed, c, posted);
    forall n: nat | Explained(d, pushed, c, n) && n != r.origin
      ensures Explained(d', pushed, c, n)
    {
      if Open(d, pushed, n) {
        assert Open(d', pushed, n);
      }
    }
    hide Explained;
    forall x | x in rest
      ensures Trusted(x, d', pushed, c, posted)
    {
      var i :| 0 <= i < |rest| && rest[i] == x;
      assert inbox[i + 1] == x && x.origin != r.origin && Trusted(x, d, pushed, c, posted);
    }
  }

  /** A response answers the request it stems from, or none. */
  lemma TrustedAnswer(d: Desk, pushed: seq<Request>, c: int, inbox: seq<Response>,
                      posted: map<nat, UIResponseType>)
    requires TrustInv(d, pushed, c, inbox, posted) && RightAnswers(d.log, posted)
    requires d.at.GotResponse? && inbox != [] && inbox[0] == d.at.response
    ensures RightAnswers(ProcessResponse(d, d.at.response).log, posted)
  {
    var r, log' := d.at.response, ProcessResponse(d, d.at.response).log;
    assert Trusted(r, d, pushed, c, posted);
    if r.id in d.pending {
      assert RightAnswer(log'.sent[|d.log.sent|], log', posted);
    }
    AnswersStayRight(d.log, log', posted);
  }

  // ------------------------------------------------------------------ the other steps

  lemma OpenElsewhere(d: Desk, pushed: seq<Request>, n: nat, starts: bool, u: nat, next: RequestId)
    requires RegistryInv(d)
    requires !AtQueues(d.at) && !Over(d) && !d.at.GotRequest? && !d.at.GotResponse?
    requires (d.at.Cleaning? || d.at.Reaping?) && d.at.todo != {} ==> next in d.uis
    requires d.at.Registering? && d.at.request.serial == n ==>
      n < |pushed| && pushed[n].id == d.at.request.id
    ensures Open(d, pushed, n) ==> Open(DeskStep(d, starts, u, next), pushed, n)
  {
    hide Dismiss;
    DismissAccess(d, next);
    if d.at.Dismissing? {
      DismissAccess(d, d.at.id);
    }
  }

  lemma MatchesElsewhere(r: Response, d: Desk, starts: bool, u: nat, next: RequestId)
    requires Matches(r, d) && RegistryInv(d)
    requires !AtQueues(d.at) && !Over(d) && !d.at.GotRequest? && !d.at.GotResponse?
    requires (d.at.Cleaning? || d.at.Reaping?) && d.at.todo != {} ==> next in d.uis
    ensures Matches(r, DeskStep(d, starts, u, next))
  {
    hide Dismiss;
    DismissAccess(d, next);
    if d.at.Dismissing? {
      DismissAccess(d, d.at.id);
    }
  }

  lemma TrustElsewhere(d: Desk, pushed: seq<Request>, c: int, inbox: seq<Response>,
                       posted: map<nat, UIResponseType>, starts: bool, u: nat, next: RequestId)
    requires TrustInv(d, pushed, c, inbox, posted) && RegistryInv(d) && OwnInv(d, pushed, c)
    requires !AtQueues(d.at) && !Over(d) && !d.at.GotRequest? && !d.at.GotResponse?
    requires (d.at.Cleaning? || d.at.Reaping?) && d.at.todo != {} ==> next in d.uis
    ensures TrustInv(DeskStep(d, starts, u, next), pushed, c, inbox, posted)
  {
    assert d.at.Registering? ==>
      d.at.request.serial < |pushed| && pushed[d.at.request.serial].id == d.at.request.id;
    hide OwnInv, TrustInv, Open, Matches, DeskStep;
    forall n: nat
      ensures Open(d, pushed, n) ==> Open(DeskStep(d, starts, u, next), pushed, n)
    {
      OpenElsewhere(d, pushed, n, starts, u, next);
    }
    forall r | r in inbox && Matches(r, d)
      ensures Matches(r, DeskStep(d, starts, u, next))
    {
      MatchesElsewhere(r, d, starts, u, next);
    }
    DeskKeepsOutcomes(d, starts, u, next);
    TrustUnchanged(d, DeskStep(d, starts, u, next), pushed, pushed, c, c, inbox, posted);
  }

  // ---------------------------------------------------------------------- whole runs

  ghost predicate CancelInv(s: State) {
    && TrustInv(s.desk, s.pushed, Consumed(s), Inbox(s), s.posted)
    && RightAnswers(s.desk.log, s.posted)
  }

  lemma CancelPost(s: State, id: RequestId, kind: UIResponseType)
    requires Inv(s) && CancelInv(s)
    requires id in s.desk.uis && s.desk.uis[id].phase == Waiting
    ensures CancelInv(Post(s, id, kind))
  {
    var s', d, r := Post(s, id, kind), s.desk, Response(id, kind, s.desk.uis[id].origin);
    assert Inbox(s') == Inbox(s) + [r];
    hide QueueInv, OwnInv, AnswerInv, UIInv, AwaitInv, FailedInv, TrustInv;
    TrustPost(d, s.pushed, Consumed(s), Inbox(s), s.posted, id, r);
    forall i | 0 <= i < |d.log.sent|
      ensures RightAnswer(d.log.sent[i], d.log, s'.posted)
    {
      assert RightAnswer(d.log.sent[i], d.log, s.posted);
    }
  }

  lemma CancelOtherThreads(s: State, step: Step)
    requires Inv(s) && CancelInv(s) && Enabled(s, step) && !step.Agent?
    ensures CancelInv(Apply(s, step))
  {
    hide Inv, TrustInv;
    if step.UIPost? {
      CancelPost(s, step.ui, step.kind);
    } else {
      var s' := Apply(s, step);
      OtherThreads(s, step);
      assert Inbox(s') == Inbox(s) && s'.posted == s.posted;
      TrustUnchanged(s.desk, s'.desk, s.pushed, s'.pushed, Consumed(s), Consumed(s'), Inbox(s),
                     s.posted);
    }
  }

  lemma CancelQueueStep(s: State)
    requires CancelInv(s) && AtQueues(s.desk.at) && AgentEnabled(s, 0)
    ensures CancelInv(QueueStep(s))
  {
    var s' := QueueStep(s);
    QueueAccess(s);
    SameInbox(s);
    ConsumedMore(s);
    AnswersStayRight(s.desk.log, s'.desk.log, s.posted);
    hide RightAnswers, QueueStep, TrustInv;
    TrustUnchanged(s.desk, s'.desk, s.pushed, s.pushed, Consumed(s), Consumed(s'), Inbox(s),
                   s.posted);
  }

  lemma ConsumedMore(s: State)
    requires AtQueues(s.desk.at) && AgentEnabled(s, 0)
    ensures Consumed(s) <= Consumed(QueueStep(s))
  {
  }

  lemma RequestStaysRight(d: Desk, posted: map<nat, UIResponseType>, starts: bool, u: nat)
    requires RightAnswers(d.log, posted) && d.at.GotRequest?
    ensures RightAnswers(ProcessRequest(d, d.at.request, starts, u).log, posted)
  {
    AnswersStayRight(d.log, ProcessRequest(d, d.at.request, starts, u).log, posted);
  }

  lemma ElsewhereStaysRight(d: Desk, pushed: seq<Request>, posted: map<nat, UIResponseType>,
                            starts: bool, u: nat, next: RequestId)
    requires RightAnswers(d.log, posted)
    requires !AtQueues(d.at) && !Over(d) && !d.at.GotRequest? && !d.at.GotResponse?
    requires (d.at.Cleaning? || d.at.Reaping?) && d.at.todo != {} ==> next in d.uis
    ensures RightAnswers(DeskStep(d, starts, u, next).log, posted)
  {
    PendingElsewhere(d, pushed, 0, starts, u, next);
    DeskKeepsOutcomes(d, starts, u, next);
    hide DeskStep, RightAnswer;
    AnswersStayRight(d.log, DeskStep(d, starts, u, next).log, posted);
  }

  lemma HandIsLast(s: State)
    requires QueueInv(s) && s.desk.at.GotRequest?
    ensures var c := Consumed(s);
      0 < c <= |s.pushed| && s.desk.at.request == s.pushed[c - 1] && s.desk.at.request.serial == c - 1
  {
  }

  lemma RequestOnly(s: State, step: Step)
    requires Enabled(s, step) && step.Agent? && s.desk.at.GotRequest?
    ensures Apply(s, step)
         == s.(desk := ProcessRequest(s.desk, s.desk.at.request, step.starts, step.uninitialized))
  {
  }

  lemma CancelRequestStep(s: State, step: Step)
    requires Inv(s) && CancelInv(s) && NeverRequestedAgain(s.pushed)
    requires Enabled(s, step) && step.Agent? && s.desk.at.GotRequest?
    ensures CancelInv(Apply(s, step))
  {
    InboxShrinks(s, step);
    HandIsLast(s);
    RequestOnly(s, step);
    hide QueueInv, RegistryInv, OwnInv, AnswerInv, UIInv, AwaitInv, OutcomeInv, TrustInv,
         RightAnswers, NeverRequestedAgain, ProcessRequest, Inbox, Apply;
    RequestStaysRight(s.desk, s.posted, step.starts, step.uninitialized);
    TrustProcessRequest(s.desk, s.pushed, Consumed(s), Inbox(s), s.posted, step.starts,
                        step.uninitialized);
  }

  lemma CancelResponseStep(s: State, step: Step)
    requires Inv(s) && CancelInv(s)
    requires Enabled(s, step) && step.Agent? && s.desk.at.GotResponse?
    ensures CancelInv(Apply(s, step))
  {
    ResponseTaken(s, step);
    ReportsOf(s);
    assert Inbox(s) != [];
    hide Inv, TrustInv, RightAnswers, ProcessResponse, Inbox;
    TrustedAnswer(s.desk, s.pushed, Consumed(s), Inbox(s), s.posted);
    TrustProcessResponse(s.desk, s.pushed, Consumed(s), Inbox(s), s.posted);
  }

  lemma CancelElsewhereStep(s: State, step: Step)
    requires Inv(s) && CancelInv(s)
    requires Enabled(s, step) && step.Agent? && !AtQueues(s.desk.at)
    requires !s.desk.at.GotRequest? && !s.desk.at.GotResponse?
    ensures CancelInv(Apply(s, step))
  {
    InboxShrinks(s, step);
    hide RegistryInv, OwnInv, AnswerInv, UIInv, AwaitInv, OutcomeInv, TrustInv, RightAnswers,
         DeskStep, Inbox;
    ElsewhereStaysRight(s.desk, s.pushed, s.posted, step.starts, step.uninitialized, step.next);
    TrustElsewhere(s.desk, s.pushed, Consumed(s), Inbox(s), s.posted, step.starts,
                   step.uninitialized, step.next);
  }

  lemma ReportsOf(s: State)
    requires OutcomeInv(s.desk, s.pushed, Inbox(s), s.posted)
    ensures ReportInv(s.desk, s.posted)
  {
  }

  lemma CancelInvStep(s: State, step: Step)
    requires Inv(s) && CancelInv(s) && NeverRequestedAgain(s.pushed) && Enabled(s, step)
    ensures CancelInv(Apply(s, step))
  {
    hide Inv, CancelInv, NeverRequestedAgain;
    if !step.Agent? {
      CancelOtherThreads(s, step);
    } else if AtQueues(s.desk.at) {
      CancelQueueStep(s);
    } else if s.desk.at.GotRequest? {
      CancelRequestStep(s, step);
    } else if s.desk.at.GotResponse? {
      CancelResponseStep(s, step);
    } else {
      CancelElsewhereStep(s, step);
    }
  }

  lemma AskedBefore(requests: seq<Request>, more: seq<Request>)
    requires NeverRequestedAgain(more) && requests <= more
    ensures NeverRequestedAgain(requests)
  {
    forall i, k, j
      ensures !RequestedAgain(requests, i, k, j)
    {
      assert !RequestedAgain(more, i, k, j);
    }
  }

  lemma {:induction false} CancelRun(s: State, steps: seq<Step>)
    requires Inv(s) && CancelInv(s) && Allowed(s, steps)
    requires NeverRequestedAgain(After(s, steps).pushed)
    ensures CancelInv(After(s, steps))
    decreases |steps|
  {
    hide Inv, CancelInv, NeverRequestedAgain, Apply;
    if steps == [] {
    } else {
      PushedGrows(s, steps);
      AskedBefore(s.pushed, After(s, steps).pushed);
      InvStep(s, steps[0]);
      CancelInvStep(s, steps[0]);
      CancelRun(Apply(s, steps[0]), steps[1..]);
    }
  }

  lemma CloseAsksNothing(s: State)
    requires QueueInv(s) && NeverAskedAgain(s.received)
    ensures NeverRequestedAgain(s.pushed)
  {
    NeverEither(s.received);
    forall i, k, j
      ensures !RequestedAgain(s.pushed, i, k, j)
    {
      assert !RequestedAgain(Requests(s.received), i, k, j);
    }
  }

  /** In every run whose messages never ask again for what was cancelled, every answer sent is the
      one the user gave to that very request, or its user interface did not start. */
  lemma AnswersStayWithRequests(s: State, i: nat)
    requires Reachable(s) && NeverAskedAgain(s.received) && i < |s.desk.log.sent|
    ensures RightAnswer(s.desk.log.sent[i], s.desk.log, s.posted)
  {
    var steps :| Allowed(INITIAL, steps) && After(INITIAL, steps) == s;
    InvReachable(s);
    CloseAsksNothing(s);
    InvInitial();
    hide Inv, Allowed, After;
    CancelRun(INITIAL, steps);
  }
}
