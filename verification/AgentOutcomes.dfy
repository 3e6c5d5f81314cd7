/** Which answer a request gets, in every run and whatever ids the messages carry: that of the
    first response for its id, and so that of its own user unless an older response is still on
    the way. */
module AgentOutcomes {
  import opened Recency
  import opened AgentTypes
  import opened AgentProtocol
  import opened AgentQueue
  import opened AgentRegistry
  import opened AgentOwnership
  import opened AgentAnswers
  import opened AgentUIs
  import opened AgentInbox
  import opened AgentReports
  import opened AgentSafety
  import opened AgentFreshIds

  /** The response on the way for an id that is dealt with first. */
  function FirstFor(inbox: seq<Response>, id: RequestId): (r: Option<Response>)
    ensures r.Some? <==> Awaits(inbox, id)
  {
    if inbox == [] then None
    else if inbox[0].id == id then Some(inbox[0])
    else
      var r := FirstFor(inbox[1..], id);
      assert Awaits(inbox, id) <==> Awaits(inbox[1..], id) by { FirstElsewhere(inbox, id); }
      r
  }

  lemma FirstElsewhere(inbox: seq<Response>, id: RequestId)
    requires inbox != [] && inbox[0].id != id
    ensures Awaits(inbox, id) <==> Awaits(inbox[1..], id)
  {
    if Awaits(inbox, id) {
      var i :| 0 <= i < |inbox| && inbox[i].id == id;
      assert inbox[1..][i - 1].id == id;
    }
    if Awaits(inbox[1..], id) {
      var i :| 0 <= i < |inbox[1..]| && inbox[1..][i].id == id;
      assert inbox[i + 1].id == id;
    }
  }

  lemma {:induction false} FirstStays(inbox: seq<Response>, r: Response, id: RequestId)
    ensures FirstFor(inbox + [r], id)
         == if Awaits(inbox, id) then FirstFor(inbox, id) else if r.id == id then Some(r) else None
  {
    if inbox == [] {
      assert inbox + [r] == [r] && [r][1..] == [];
    } else {
      assert (inbox + [r])[1..] == inbox[1..] + [r];
      if inbox[0].id != id {
        FirstElsewhere(inbox, id);
        FirstStays(inbox[1..], r, id);
      }
    }
  }

  predicate Answers(e: Sent, n: nat) {
    e.kind == RT_Action && e.serial == n
  }

  /** Nothing but `data` was sent as the answer to request n, and as long as the request is open
      the first response for its id says the same. */
  ghost predicate Decided(d: Desk, pushed: seq<Request>, inbox: seq<Response>, n: nat, data: string) {
    && n < |pushed| && TimesAccepted(d.log, n) > 0
    && (forall e | e in d.log.sent && Answers(e, n) :: e.data == data)
    && (Open(d, pushed, n) ==> FirstSays(inbox, pushed[n].id, data))
  }

  predicate FirstSays(inbox: seq<Response>, id: RequestId, data: string) {
    FirstFor(inbox, id).Some? && Answer(FirstFor(inbox, id).value.kind) == data
  }

  /** Nothing is answered, and the request is not opened again. */
  lemma DecidedUnchanged(d: Desk, d': Desk, pushed: seq<Request>, pushed': seq<Request>,
                         inbox: seq<Response>, inbox': seq<Response>, n: nat, data: string)
    requires Decided(d, pushed, inbox, n, data) && pushed <= pushed'
    requires forall e | e in d'.log.sent && Answers(e, n) :: e in d.log.sent
    requires TimesAccepted(d'.log, n) >= TimesAccepted(d.log, n)
    requires Open(d', pushed, n) ==> Open(d, pushed, n)
    requires Open(d, pushed, n) && FirstSays(inbox, pushed[n].id, data) ==>
      FirstSays(inbox', pushed[n].id, data)
    ensures Decided(d', pushed', inbox', n, data)
  {
  }

  /** Another request neither answers this one nor opens it. */
  lemma OthersRequest(d: Desk, pushed: seq<Request>, n: nat, starts: bool, u: nat)
    requires d.at.GotRequest? && d.at.request.serial != n
    ensures var d' := ProcessRequest(d, d.at.request, starts, u);
      && (forall e | e in d'.log.sent && Answers(e, n) :: e in d.log.sent)
      && (Open(d', pushed, n) ==> Open(d, pushed, n))
      && TimesAccepted(d'.log, n) >= TimesAccepted(d.log, n)
  {
    var d' := ProcessRequest(d, d.at.request, starts, u);
    if d'.log.accepted != d.log.accepted {
      AcceptedOneMore(d.log, d'.log, d.at.request);
    }
  }

  lemma DecidedProcessRequest(d: Desk, pushed: seq<Request>, c: int, inbox: seq<Response>, n: nat,
                              data: string, starts: bool, u: nat)
    requires OwnInv(d, pushed, c) && AnswerInv(d, pushed) && UIInv(d, pushed) && d.at.GotRequest?
    requires Decided(d, pushed, inbox, n, data)
    ensures Decided(ProcessRequest(d, d.at.request, starts, u), pushed, inbox, n, data)
  {
    NotAcceptedBefore(d, pushed, c);
    OthersRequest(d, pushed, n, starts, u);
    hide OwnInv, AnswerInv, UIInv, ProcessRequest, Open;
    DecidedUnchanged(d, ProcessRequest(d, d.at.request, starts, u), pushed, pushed, inbox, inbox,
                     n, data);
  }

  lemma DecidedProcessResponse(d: Desk, pushed: seq<Request>, c: int, inbox: seq<Response>, n: nat,
                               data: string)
    requires OwnInv(d, pushed, c) && Decided(d, pushed, inbox, n, data)
    requires d.at.GotResponse? && inbox != [] && inbox[0] == d.at.response
    ensures Decided(ProcessResponse(d, d.at.response), pushed, inbox[1..], n, data)
  {
    var r := d.at.response;
    if r.id in d.pending && d.pending[r.id].serial == n {
      assert pushed[n].id == r.id;
    }
  }

  lemma DecidedElsewhere(d: Desk, pushed: seq<Request>, inbox: seq<Response>, n: nat, data: string,
                         starts: bool, u: nat, next: RequestId)
    requires Decided(d, pushed, inbox, n, data)
    requires !AtQueues(d.at) && !Over(d) && !d.at.GotRequest? && !d.at.GotResponse?
    requires (d.at.Cleaning? || d.at.Reaping?) && d.at.todo != {} ==> next in d.uis
    ensures Decided(DeskStep(d, starts, u, next), pushed, inbox, n, data)
  {
    PendingElsewhere(d, pushed, n, starts, u, next);
    hide Decided, DeskStep, Open;
    DecidedUnchanged(d, DeskStep(d, starts, u, next), pushed, pushed, inbox, inbox, n, data);
  }

  lemma PendingElsewhere(d: Desk, pushed: seq<Request>, n: nat, starts: bool, u: nat,
                         next: RequestId)
    requires !AtQueues(d.at) && !Over(d) && !d.at.GotRequest? && !d.at.GotResponse?
    requires (d.at.Cleaning? || d.at.Reaping?) && d.at.todo != {} ==> next in d.uis
    ensures var d' := DeskStep(d, starts, u, next);
      && d'.log.sent == d.log.sent && d'.log.accepted == d.log.accepted
      && (Open(d', pushed, n) ==> Open(d, pushed, n))
  {
    hide Dismiss;
    DismissAccess(d, next);
    if d.at.Dismissing? {
      DismissAccess(d, d.at.id);
    }
  }

  lemma DecidedDeskStep(s: State, n: nat, data: string, step: Step)
    requires Inv(s) && Decided(s.desk, s.pushed, Inbox(s), n, data)
    requires Enabled(s, step) && step.Agent? && !AtQueues(s.desk.at)
    ensures var s' := Apply(s, step);
      Decided(s'.desk, s'.pushed, Inbox(s'), n, data)
  {
    hide OwnInv, AnswerInv, UIInv, Decided;
    InboxShrinks(s, step);
    if s.desk.at.GotRequest? {
      DecidedProcessRequest(s.desk, s.pushed, Consumed(s), Inbox(s), n, data, step.starts,
                            step.uninitialized);
    } else if s.desk.at.GotResponse? {
      DecidedProcessResponse(s.desk, s.pushed, Consumed(s), Inbox(s), n, data);
    } else {
      DecidedElsewhere(s.desk, s.pushed, Inbox(s), n, data, step.starts, step.uninitialized,
                       step.next);
    }
  }

  lemma DecidedOtherThreads(s: State, n: nat, data: string, step: Step)
    requires Decided(s.desk, s.pushed, Inbox(s), n, data) && Enabled(s, step) && !step.Agent?
    ensures var s' := Apply(s, step);
      Decided(s'.desk, s'.pushed, Inbox(s'), n, data)
  {
    var s' := Apply(s, step);
    OtherThreads(s, step);
    if step.UIPost? {
      var r := Response(step.ui, step.kind, s.desk.uis[step.ui].origin);
      assert Inbox(s') == Inbox(s) + [r];
      FirstStays(Inbox(s), r, s.pushed[n].id);
    } else {
      assert Inbox(s') == Inbox(s);
    }
    DecidedUnchanged(s.desk, s'.desk, s.pushed, s'.pushed, Inbox(s), Inbox(s'), n, data);
  }

  lemma DecidedStep(s: State, n: nat, data: string, step: Step)
    requires Inv(s) && Decided(s.desk, s.pushed, Inbox(s), n, data) && Enabled(s, step)
    ensures var s' := Apply(s, step);
      Decided(s'.desk, s'.pushed, Inbox(s'), n, data)
  {
    hide Inv;
    if !step.Agent? {
      DecidedOtherThreads(s, n, data, step);
    } else if AtQueues(s.desk.at) {
      QueueAccess(s);
      SameInbox(s);
      DecidedUnchanged(s.desk, QueueStep(s).desk, s.pushed, s.pushed, Inbox(s), Inbox(s), n, data);
    } else {
      DecidedDeskStep(s, n, data, step);
    }
  }

  lemma {:induction false} DecidedRun(s: State, n: nat, data: string, steps: seq<Step>)
    requires Inv(s) && Decided(s.desk, s.pushed, Inbox(s), n, data) && Allowed(s, steps)
    ensures var s' := After(s, steps);
      Decided(s'.desk, s'.pushed, Inbox(s'), n, data)
    decreases |steps|
  {
    hide Inv, Decided, Apply;
    if steps == [] {
    } else {
      InvStep(s, steps[0]);
      DecidedStep(s, n, data, steps[0]);
      DecidedRun(Apply(s, steps[0]), n, data, steps[1..]);
    }
  }

  // ---------------------------------------------------------------------- whole runs

  /** Accepted, and no answer sent yet. */
  lemma OpenIsUnanswered(s: State, n: nat)
    requires Reachable(s) && Open(s.desk, s.pushed, n)
    ensures TimesAccepted(s.desk.log, n) == 1
    ensures forall e | e in s.desk.log.sent :: e.serial != n
  {
    InvReachable(s);
    AnsweredAtMostOnce(s, n);
    assert Balanced(s.desk, s.pushed, n);
    forall e | e in s.desk.log.sent
      ensures e.serial != n
    {
      var i :| 0 <= i < |s.desk.log.sent| && s.desk.log.sent[i] == e;
      assert SentSerials(s.desk.log.sent)[i] == e.serial;
    }
  }

  /** However the run goes on, and whatever ids it uses: an open request is answered, if it is
      answered at all, with the first response on the way for its id. */
  lemma TheFirstResponseAnswers(s: State, n: nat, steps: seq<Step>, i: nat)
    requires Reachable(s) && Open(s.desk, s.pushed, n) && n < |s.pushed|
    requires Awaits(Inbox(s), s.pushed[n].id)
    requires Allowed(s, steps)
    ensures var sent := After(s, steps).desk.log.sent;
      i < |sent| && Answers(sent[i], n) ==>
        sent[i].data == Answer(FirstFor(Inbox(s), s.pushed[n].id).value.kind)
  {
    InvReachable(s);
    OpenIsUnanswered(s, n);
    hide Inv, Apply;
    DecidedRun(s, n, Answer(FirstFor(Inbox(s), s.pushed[n].id).value.kind), steps);
  }

  /** Request n can still get the answer its user is about to give: no other was sent, and if it
      is open no response for its id is on the way. */
  ghost predicate Undecided(s: State, id: RequestId, n: nat) {
    && (forall e | e in s.desk.log.sent :: !Answers(e, n))
    && (OpenId(s.desk, id) ==> !Awaits(Inbox(s), id))
  }

  /** However the run goes on after the user responds, and whatever ids it uses, the only answer
      ever sent for the request is the payload for that response. */
  lemma TheAnswerIsTheUsers(s: State, id: RequestId, kind: UIResponseType, steps: seq<Step>, i: nat)
    requires Reachable(s) && Enabled(s, UIPost(id, kind))
    requires Undecided(s, id, s.desk.uis[id].origin)
    requires Allowed(Apply(s, UIPost(id, kind)), steps)
    ensures var sent := After(Apply(s, UIPost(id, kind)), steps).desk.log.sent;
      i < |sent| && Answers(sent[i], s.desk.uis[id].origin) ==> sent[i].data == Answer(kind)
  {
    var s', n := Apply(s, UIPost(id, kind)), s.desk.uis[id].origin;
    InvReachable(s);
    InvStep(s, UIPost(id, kind));
    PostDecides(s, id, kind);
    hide Inv, Apply;
    DecidedRun(s', n, Answer(kind), steps);
  }

  lemma PostDecides(s: State, id: RequestId, kind: UIResponseType)
    requires Inv(s) && Enabled(s, UIPost(id, kind)) && Undecided(s, id, s.desk.uis[id].origin)
    ensures var s' := Apply(s, UIPost(id, kind));
      Decided(s'.desk, s'.pushed, Inbox(s'), s.desk.uis[id].origin, Answer(kind))
  {
    var s', n := Apply(s, UIPost(id, kind)), s.desk.uis[id].origin;
    UIAccepted(s, id);
    hide Inv;
    assert Inbox(s') == Inbox(s) + [Response(id, kind, n)];
    FirstStays(Inbox(s), Response(id, kind, n), id);
  }

  lemma UIAccepted(s: State, id: RequestId)
    requires Inv(s) && id in s.desk.uis
    ensures var n := s.desk.uis[id].origin;
      n < |s.pushed| && s.pushed[n].id == id && TimesAccepted(s.desk.log, n) > 0
  {
    assert UIOf(s.desk.uis[id], id, s.pushed);
    assert Accounted(s.desk, s.pushed, s.desk.uis[id].origin);
  }

  /** The exact condition: while a response for the id of an open request is on the way, it is
      that one, and not the user's, that any answer will carry. */
  lemma TheUsersAnswerExactly(s: State, id: RequestId, kind: UIResponseType, steps: seq<Step>,
                              i: nat)
    requires Reachable(s) && Enabled(s, UIPost(id, kind)) && OpenId(s.desk, id)
    requires Allowed(Apply(s, UIPost(id, kind)), steps)
    ensures var sent := After(Apply(s, UIPost(id, kind)), steps).desk.log.sent;
      i < |sent| && Answers(sent[i], s.desk.uis[id].origin) ==>
        (sent[i].data == Answer(kind) <==>
           Awaits(Inbox(s), id) ==> Answer(FirstFor(Inbox(s), id).value.kind) == Answer(kind))
  {
    OpenAfterPost(s, id, kind);
    hide Apply, Reachable, Open;
    TheFirstResponseAnswers(Apply(s, UIPost(id, kind)), s.desk.uis[id].origin, steps, i);
  }

  lemma OpenAfterPost(s: State, id: RequestId, kind: UIResponseType)
    requires Reachable(s) && Enabled(s, UIPost(id, kind)) && OpenId(s.desk, id)
    ensures var s', n := Apply(s, UIPost(id, kind)), s.desk.uis[id].origin;
      && Reachable(s') && Open(s'.desk, s'.pushed, n)
      && n < |s'.pushed| && s'.pushed[n].id == id
      && FirstFor(Inbox(s'), id) == if Awaits(Inbox(s), id) then FirstFor(Inbox(s), id)
                                    else Some(Response(id, kind, n))
  {
    var s' := Apply(s, UIPost(id, kind));
    InvReachable(s);
    UIAccepted(s, id);
    OpenIsItsUI(s, id);
    FirstAfterPost(s, id, kind);
    OneStep(s, UIPost(id, kind));
    ReachesTransitive(INITIAL, s, s');
    hide Inv, Reachable, Reaches, FirstFor, Awaits;
  }

  lemma FirstAfterPost(s: State, id: RequestId, kind: UIResponseType)
    requires Enabled(s, UIPost(id, kind))
    ensures FirstFor(Inbox(Post(s, id, kind)), id)
         == if Awaits(Inbox(s), id) then FirstFor(Inbox(s), id)
            else Some(Response(id, kind, s.desk.uis[id].origin))
  {
    var r := Response(id, kind, s.desk.uis[id].origin);
    assert Inbox(Post(s, id, kind)) == Inbox(s) + [r];
    FirstStays(Inbox(s), r, id);
  }

  lemma OpenIsItsUI(s: State, id: RequestId)
    requires Inv(s) && id in s.desk.uis && OpenId(s.desk, id)
    ensures Open(s.desk, s.pushed, s.desk.uis[id].origin)
  {
    UIAccepted(s, id);
    if id in s.desk.pending {
      assert Live(s.desk, id, s.desk.pending[id].serial);
    }
  }

  /** With unused ids the condition always holds. */
  lemma FreshIsUndecided(s: State, id: RequestId)
    requires FreshReachable(s) && id in s.desk.uis && s.desk.uis[id].phase == Waiting
    ensures Undecided(s, id, s.desk.uis[id].origin)
  {
    FreshReachableInv(s);
    var n := s.desk.uis[id].origin;
    UIAccepted(s, id);
    assert Accounted(s.desk, s.pushed, n);
    forall e | e in s.desk.log.sent
      ensures !Answers(e, n)
    {
      var i :| 0 <= i < |s.desk.log.sent| && s.desk.log.sent[i] == e;
      assert RightAnswer(s.desk.log.sent[i], s.desk.log, s.posted);
    }
    forall i | 0 <= i < |Inbox(s)|
      ensures Inbox(s)[i].id != id
    {
      assert FromItsUI(Inbox(s)[i], s.desk, s.posted);
    }
  }

  // ---------------------------------------------------------------- what was reported

  /** In every run, a thread reports at most once for a request. */
  lemma {:induction false} ReportsStand(s: State, steps: seq<Step>)
    requires Reachable(s) && Allowed(s, steps)
    ensures Kept(s.posted, After(s, steps).posted)
    decreases |steps|
  {
    InvReachable(s);
    if steps == [] {
    } else {
      ReportedOnce(s, steps[0]);
      OneStep(s, steps[0]);
      ReachesTransitive(INITIAL, s, Apply(s, steps[0]));
      hide Inv, Reachable, Apply;
      ReportsStand(Apply(s, steps[0]), steps[1..]);
    }
  }

  /** A request whose user interface failed to start never gets another one. */
  lemma FailedForGood(s: State, n: nat)
    requires Reachable(s) && n in s.desk.log.failed
    ensures n !in s.desk.log.started && TimesAccepted(s.desk.log, n) == 1
  {
    InvReachable(s);
    AnsweredAtMostOnce(s, n);
  }
}
