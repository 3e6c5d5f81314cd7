/** Everything the agent did was asked for: in every run, and whatever ids the messages carry, what
    was accepted and what was sent goes back to messages received and to responses of users. */
module AgentGrounds {
  import opened Recency
  import opened AgentTypes
  import opened AgentProtocol
  import opened AgentQueue
  import opened AgentRegistry
  import opened AgentOwnership
  import opened AgentAnswers
  import opened AgentUIs
  import opened AgentInbox
  import opened AgentReports
  import opened AgentSafety
  import opened AgentMessages
  import opened AgentOutcomes

  ghost predicate AskedFor(r: Request, pushed: seq<Request>) {
    r.serial < |pushed| && pushed[r.serial] == r && r.kind == RT_Action
  }

  /** A user was asked for a request with this id and responded so that the answer is this one. */
  ghost predicate SaidBy(n: nat, e: Sent, pushed: seq<Request>, posted: map<nat, UIResponseType>) {
    && n in posted && n < |pushed|
    && pushed[n].kind == RT_Action && pushed[n].id == e.id && e.data == Answer(posted[n])
  }

  ghost predicate CancelledAt(k: nat, e: Sent, pushed: seq<Request>) {
    e.serial < k < |pushed| && IsFor(pushed[k], RT_Cancel, e.id)
  }

  /** A confirmation follows a cancellation; an answer marks a user interface that did not start, or
      a user gave it. */
  ghost predicate Grounded(e: Sent, log: Log, pushed: seq<Request>, posted: map<nat, UIResponseType>) {
    && e.serial < |pushed| && IsFor(pushed[e.serial], RT_Action, e.id)
    && e.kind != RT_Close
    && (e.kind == RT_Cancel ==> e.data == "" && exists k :: CancelledAt(k, e, pushed))
    && (e.kind == RT_Action ==>
          if e.serial in log.failed then e.data == "ERROR"
          else exists n :: SaidBy(n, e, pushed, posted))
  }

  ghost predicate GroundInv(log: Log, pushed: seq<Request>, inbox: seq<Response>,
                            posted: map<nat, UIResponseType>) {
    && (forall r | r in log.accepted :: AskedFor(r, pushed))
    && (forall e | e in log.sent :: Grounded(e, log, pushed, posted))
    && (forall r | r in inbox :: r.origin in posted && posted[r.origin] == r.kind)
  }

  // -------------------------------------------------------------- what stays grounded

  lemma GroundedStays(e: Sent, log: Log, log': Log, pushed: seq<Request>, pushed': seq<Request>,
                      posted: map<nat, UIResponseType>, posted': map<nat, UIResponseType>)
    requires Grounded(e, log, pushed, posted) && pushed <= pushed' && Kept(posted, posted')
    requires e.serial in log'.failed <==> e.serial in log.failed
    ensures Grounded(e, log', pushed', posted')
  {
    if e.kind == RT_Cancel {
      var k :| CancelledAt(k, e, pushed);
      assert CancelledAt(k, e, pushed');
    } else if e.serial !in log.failed {
      var n :| SaidBy(n, e, pushed, posted);
      assert SaidBy(n, e, pushed', posted');
    }
  }

  lemma GroundUnchanged(log: Log, log': Log, pushed: seq<Request>, pushed': seq<Request>,
                        inbox: seq<Response>, inbox': seq<Response>,
                        posted: map<nat, UIResponseType>, posted': map<nat, UIResponseType>)
    requires GroundInv(log, pushed, inbox, posted) && pushed <= pushed' && Kept(posted, posted')
    requires log'.accepted == log.accepted && log'.sent == log.sent && log'.failed == log.failed
    requires forall r | r in inbox' :: r in inbox || (r.origin in posted' && posted'[r.origin] == r.kind)
    ensures GroundInv(log', pushed', inbox', posted')
  {
    forall e | e in log'.sent
      ensures Grounded(e, log', pushed', posted')
    {
      GroundedStays(e, log, log', pushed, pushed', posted, posted');
    }
    forall r | r in log'.accepted
      ensures AskedFor(r, pushed')
    {
      assert AskedFor(r, pushed);
    }
  }

  // ------------------------------------------------------------- processCynaraRequest

  /** What is pending is an Action whose user interface started. */
  lemma PendingStarted(d: Desk, pushed: seq<Request>, c: int, inbox: seq<Response>,
                       posted: map<nat, UIResponseType>, id: RequestId)
    requires RegistryInv(d) && OwnInv(d, pushed, c) && UIInv(d, pushed)
    requires OutcomeInv(d, pushed, inbox, posted) && id in d.pending
    ensures var n := d.pending[id].serial;
      n < c <= |pushed| && IsFor(pushed[n], RT_Action, id) && n !in d.log.failed
  {
    var n := d.pending[id].serial;
    assert Live(d, id, n) && UIOf(d.uis[id], id, pushed) && Accounted(d, pushed, n);
    assert IsAction(pushed, n);
  }

  /** What is in hand has not been answered. */
  lemma HandUnanswered(d: Desk, pushed: seq<Request>, c: int)
    requires OwnInv(d, pushed, c) && AnswerInv(d, pushed) && d.at.GotRequest?
    ensures forall e | e in d.log.sent :: e.serial != d.at.request.serial
  {
    var n := d.at.request.serial;
    assert Places(d, pushed, n) == 1 && Balanced(d, pushed, n);
    forall e | e in d.log.sent
      ensures e.serial != n
    {
      var i :| 0 <= i < |d.log.sent| && d.log.sent[i] == e;
      assert SentSerials(d.log.sent)[i] == e.serial;
    }
  }

  lemma GroundStartFailed(log: Log, pushed: seq<Request>, inbox: seq<Response>,
                          posted: map<nat, UIResponseType>, r: Request)
    requires GroundInv(log, pushed, inbox, posted) && AskedFor(r, pushed)
    requires forall e | e in log.sent :: e.serial != r.serial
    ensures GroundInv(StartFailed(log, r), pushed, inbox, posted)
  {
    StartFailedIsError();
    forall e | e in StartFailed(log, r).sent
      ensures Grounded(e, StartFailed(log, r), pushed, posted)
    {
      if e in log.sent {
        GroundedStays(e, log, StartFailed(log, r), pushed, pushed, posted, posted);
      }
    }
  }

  lemma GroundSettle(log: Log, pushed: seq<Request>, inbox: seq<Response>, inbox': seq<Response>,
                     posted: map<nat, UIResponseType>, kind: RequestType, data: string, r: Request)
    requires GroundInv(log, pushed, inbox, posted)
    requires Grounded(Sent(kind, r.id, data, r.serial), log, pushed, posted)
    requires forall x | x in inbox' :: x in inbox
    ensures GroundInv(Settle(log, kind, data, r), pushed, inbox', posted)
  {
    var log' := Settle(log, kind, data, r);
    forall e | e in log'.sent
      ensures Grounded(e, log', pushed, posted)
    {
      assert e in log.sent || e == Sent(kind, r.id, data, r.serial);
      GroundedStays(e, log, log', pushed, pushed, posted, posted);
    }
  }

  lemma GroundProcessRequest(d: Desk, pushed: seq<Request>, c: int, inbox: seq<Response>,
                             posted: map<nat, UIResponseType>, starts: bool, u: nat)
    requires RegistryInv(d) && OwnInv(d, pushed, c) && AnswerInv(d, pushed) && UIInv(d, pushed)
    requires OutcomeInv(d, pushed, inbox, posted) && GroundInv(d.log, pushed, inbox, posted)
    requires d.at.GotRequest? && d.at.request.serial == c - 1 && pushed[c - 1] == d.at.request
    ensures GroundInv(ProcessRequest(d, d.at.request, starts, u).log, pushed, inbox, posted)
  {
    var r := d.at.request;
    HandUnanswered(d, pushed, c);
    if r.kind == RT_Cancel && r.id in d.pending {
      PendingStarted(d, pushed, c, inbox, posted, r.id);
      var p := d.pending[r.id];
      assert Places(d, pushed, r.serial) == 1;
      assert CancelledAt(c - 1, Sent(RT_Cancel, p.id, "", p.serial), pushed);
      hide RegistryInv, OwnInv, AnswerInv, UIInv, OutcomeInv, GroundInv;
      GroundSettle(d.log, pushed, inbox, inbox, posted, RT_Cancel, "", p);
      GroundFreed(d, pushed, inbox, posted, starts, u);
    } else {
      hide RegistryInv, OwnInv, AnswerInv, UIInv, OutcomeInv;
      if r.kind == RT_Action && r.id !in d.pending && !starts {
        GroundStartFailed(d.log, pushed, inbox, posted, r);
      }
      GroundFreed(d, pushed, inbox, posted, starts, u);
    }
  }

  /** The two branches that send something, and those that only delete the request. */
  lemma GroundFreed(d: Desk, pushed: seq<Request>, inbox: seq<Response>,
                    posted: map<nat, UIResponseType>, starts: bool, u: nat)
    requires d.at.GotRequest? && GroundInv(d.log, pushed, inbox, posted)
    requires d.at.request.serial < |pushed| && pushed[d.at.request.serial] == d.at.request
    requires var r := d.at.request;
      && (r.kind == RT_Cancel && r.id in d.pending ==>
            GroundInv(Settle(d.log, RT_Cancel, "", d.pending[r.id]), pushed, inbox, posted))
      && (r.kind == RT_Action && r.id !in d.pending && !starts ==>
            GroundInv(StartFailed(d.log, r), pushed, inbox, posted))
    ensures GroundInv(ProcessRequest(d, d.at.request, starts, u).log, pushed, inbox, posted)
  {
    var log' := ProcessRequest(d, d.at.request, starts, u).log;
    if log'.sent == d.log.sent {
      forall e | e in log'.sent
        ensures Grounded(e, log', pushed, posted)
      {
        GroundedStays(e, d.log, log', pushed, pushed, posted, posted);
      }
    }
  }

  // ---------------------------------------------------------------- processUIResponse

  lemma GroundProcessResponse(d: Desk, pushed: seq<Request>, c: int, inbox: seq<Response>,
                              posted: map<nat, UIResponseType>)
    requires RegistryInv(d) && OwnInv(d, pushed, c) && UIInv(d, pushed)
    requires OutcomeInv(d, pushed, inbox, posted) && GroundInv(d.log, pushed, inbox, posted)
    requires d.at.GotResponse? && inbox != [] && inbox[0] == d.at.response
    ensures GroundInv(ProcessResponse(d, d.at.response).log, pushed, inbox[1..], posted)
  {
    var r := d.at.response;
    assert r in inbox && Stems(r, d.log, pushed) && IsAction(pushed, r.origin);
    assert forall x | x in inbox[1..] :: x in inbox;
    if r.id in d.pending {
      PendingStarted(d, pushed, c, inbox, posted, r.id);
      var p := d.pending[r.id];
      assert SaidBy(r.origin, Sent(RT_Action, p.id, Answer(r.kind), p.serial), pushed, posted);
      hide RegistryInv, OwnInv, UIInv, OutcomeInv, GroundInv;
      GroundSettle(d.log, pushed, inbox, inbox[1..], posted, RT_Action, Answer(r.kind), p);
    }
  }

  // ---------------------------------------------------------------------- whole runs

  ghost predicate Grounds(s: State) {
    GroundInv(s.desk.log, s.pushed, Inbox(s), s.posted)
  }

  lemma InboxGrows(s: State, step: Step)
    requires Enabled(s, step) && !step.Agent?
    ensures var s' := Apply(s, step);
      forall r | r in Inbox(s') :: r in Inbox(s) || (r.origin in s'.posted && s'.posted[r.origin] == r.kind)
  {
    if step.UIPost? {
      assert Inbox(Apply(s, step))
          == Inbox(s) + [Response(step.ui, step.kind, s.desk.uis[step.ui].origin)];
    }
  }

  lemma GroundOtherThreads(s: State, step: Step)
    requires Inv(s) && Grounds(s) && Enabled(s, step) && !step.Agent?
    ensures Grounds(Apply(s, step))
  {
    var s' := Apply(s, step);
    OtherThreads(s, step);
    ReportedOnce(s, step);
    InboxGrows(s, step);
    hide Inv, GroundInv, Inbox;
    GroundUnchanged(s.desk.log, s'.desk.log, s.pushed, s'.pushed, Inbox(s), Inbox(s'), s.posted,
                    s'.posted);
  }

  lemma GroundQueueStep(s: State)
    requires Grounds(s) && AtQueues(s.desk.at) && AgentEnabled(s, 0)
    ensures Grounds(QueueStep(s))
  {
    var s' := QueueStep(s);
    QueueAccess(s);
    SameInbox(s);
    hide GroundInv, QueueStep;
    GroundUnchanged(s.desk.log, s'.desk.log, s.pushed, s.pushed, Inbox(s), Inbox(s), s.posted,
                    s.posted);
  }

  lemma GroundDeskStep(s: State, step: Step)
    requires Inv(s) && Grounds(s) && Enabled(s, step) && step.Agent? && !AtQueues(s.desk.at)
    ensures Grounds(Apply(s, step))
  {
    var d, c := s.desk, Consumed(s);
    InboxShrinks(s, step);
    assert d.at.GotResponse? ==> Inbox(s) != [] && Inbox(s)[0] == d.at.response;
    hide RegistryInv, OwnInv, AnswerInv, UIInv, AwaitInv, OutcomeInv, GroundInv, Inbox,
         ProcessRequest, ProcessResponse;
    if d.at.GotRequest? {
      GroundProcessRequest(d, s.pushed, c, Inbox(s), s.posted, step.starts, step.uninitialized);
    } else if d.at.GotResponse? {
      GroundProcessResponse(d, s.pushed, c, Inbox(s), s.posted);
    } else {
      PendingElsewhere(d, s.pushed, 0, step.starts, step.uninitialized, step.next);
      DeskKeepsOutcomes(d, step.starts, step.uninitialized, step.next);
      hide DeskStep;
      GroundUnchanged(d.log, Apply(s, step).desk.log, s.pushed, s.pushed, Inbox(s), Inbox(s),
                      s.posted, s.posted);
    }
  }

  lemma GroundsStep(s: State, step: Step)
    requires Inv(s) && Grounds(s) && Enabled(s, step)
    ensures Grounds(Apply(s, step))
  {
    hide Inv, Grounds;
    if !step.Agent? {
      GroundOtherThreads(s, step);
    } else if AtQueues(s.desk.at) {
      GroundQueueStep(s);
    } else {
      GroundDeskStep(s, step);
    }
  }

  lemma {:induction false} GroundsRun(s: State, steps: seq<Step>)
    requires Inv(s) && Grounds(s) && Allowed(s, steps)
    ensures Grounds(After(s, steps))
    decreases |steps|
  {
    hide Inv, Grounds, Apply;
    if steps == [] {
    } else {
      InvStep(s, steps[0]);
      GroundsStep(s, steps[0]);
      GroundsRun(Apply(s, steps[0]), steps[1..]);
    }
  }

  lemma GroundsReachable(s: State)
    requires Reachable(s)
    ensures Grounds(s)
  {
    var steps :| Allowed(INITIAL, steps) && After(INITIAL, steps) == s;
    InvInitial();
    hide Inv, Allowed, After;
    GroundsRun(INITIAL, steps);
  }

  // -------------------------------------------------------------------------- messages

  lemma PushedMessage(s: State, n: nat) returns (m: nat)
    requires QueueInv(s) && n < |s.pushed| && s.pushed[n].kind != RT_Close
    ensures m < |s.received| && Rank(s.received, m) == n
    ensures Mirrors(s.pushed[n], s.received[m])
  {
    m := MessageFor(s.received, n);
  }

  /** What was accepted is an Action message received, with its id and its data. */
  lemma AcceptedWasAsked(s: State, r: Request)
    requires Reachable(s) && r in s.desk.log.accepted
    ensures Message(MSG_ACTION, r.id, r.data) in s.received
  {
    InvReachable(s);
    GroundsReachable(s);
    assert AskedFor(r, s.pushed);
    var m := PushedMessage(s, r.serial);
    assert s.received[m] == Message(MSG_ACTION, r.id, r.data);
  }

  /** A user interface is shown for an Action message received, and with its id. */
  lemma UIWasAsked(s: State, id: RequestId) returns (m: nat)
    requires Reachable(s) && id in s.desk.uis
    ensures m < |s.received| && s.received[m].kind == MSG_ACTION && s.received[m].id == id
    ensures Shows(s.desk.uis[id], s.received[m].data)
  {
    InvReachable(s);
    var n := s.desk.uis[id].origin;
    assert UIOf(s.desk.uis[id], id, s.pushed) && Accounted(s.desk, s.pushed, n);
    assert IsAction(s.pushed, n);
    m := PushedMessage(s, n);
  }

  /** What is answered was an Action message, and a confirmed cancellation a later Cancel message
      with the same id. */
  lemma SentWasAsked(s: State, i: nat) returns (m: nat, k: nat)
    requires Reachable(s) && i < |s.desk.log.sent|
    ensures var e := s.desk.log.sent[i];
      && m < |s.received| && s.received[m].kind == MSG_ACTION && s.received[m].id == e.id
      && (e.kind == RT_Cancel ==>
            m < k < |s.received| && s.received[k].kind == MSG_CANCEL && s.received[k].id == e.id)
  {
    InvReachable(s);
    GroundsReachable(s);
    var e := s.desk.log.sent[i];
    assert Grounded(e, s.desk.log, s.pushed, s.posted);
    hide Inv, Grounds, GroundInv;
    m := PushedMessage(s, e.serial);
    k := 0;
    if e.kind == RT_Cancel {
      var c :| CancelledAt(c, e, s.pushed);
      k := PushedMessage(s, c);
      if k <= m {
        RankGrows(s.received, k, m);
      }
    }
  }
}
