/** No pending request is stranded: its thread has not posted yet, or a response for its id is on
    the way. */
module AgentInbox {
  import opened AgentTypes
  import opened AgentProtocol
  import opened AgentAnswers

  /** The responses posted and not yet dealt with, the one in hand first. */
  function Inbox(s: State): seq<Response> {
    (if s.desk.at.GotResponse? then [s.desk.at.response] else []) + s.responses
  }

  ghost predicate Awaits(inbox: seq<Response>, id: RequestId) {
    exists i | 0 <= i < |inbox| :: inbox[i].id == id
  }

  ghost predicate AwaitInv(d: Desk, inbox: seq<Response>) {
    forall id | id in d.uis && OpenId(d, id) && d.uis[id].phase != Waiting :: Awaits(inbox, id)
  }

  lemma SameInbox(s: State)
    requires AtQueues(s.desk.at) && AgentEnabled(s, 0)
    ensures Inbox(QueueStep(s)) == Inbox(s)
  {
    if s.desk.at.Leaving? {
      StopAccess(s);
    } else {
      PopAccess(s);
    }
  }

  lemma ResponseTaken(s: State, step: Step)
    requires Enabled(s, step) && step.Agent? && s.desk.at.GotResponse?
    ensures Inbox(s)[0] == s.desk.at.response && Inbox(Apply(s, step)) == Inbox(s)[1..]
  {
  }

  lemma NoNewHandResponse(d: Desk, starts: bool, u: nat, next: RequestId)
    requires !AtQueues(d.at) && !Over(d)
    requires (d.at.Cleaning? || d.at.Reaping?) && d.at.todo != {} ==> next in d.uis
    ensures !DeskStep(d, starts, u, next).at.GotResponse?
  {
  }

  lemma AwaitMore(d: Desk, inbox: seq<Response>, id: RequestId, r: Response)
    requires AwaitInv(d, inbox) && id in d.uis && r.id == id
    ensures AwaitInv(Advance(d, id, Posted), inbox + [r])
  {
    forall other | other in d.uis && (other == id || Awaits(inbox, other))
      ensures Awaits(inbox + [r], other)
    {
      if other == id {
        assert (inbox + [r])[|inbox|].id == id;
      } else {
        var i :| 0 <= i < |inbox| && inbox[i].id == other;
        assert (inbox + [r])[i].id == other;
      }
    }
  }

  /** A response is taken out only together with the request that awaits it. */
  lemma AwaitProcessResponse(d: Desk, inbox: seq<Response>)
    requires AwaitInv(d, inbox) && d.at.GotResponse?
    requires inbox != [] && inbox[0] == d.at.response
    ensures AwaitInv(ProcessResponse(d, d.at.response), inbox[1..])
  {
    var d', rest := ProcessResponse(d, d.at.response), inbox[1..];
    forall id | id in d'.uis && OpenId(d', id) && d'.uis[id].phase != Waiting
      ensures Awaits(rest, id)
    {
      var i :| 0 <= i < |inbox| && inbox[i].id == id;
      assert rest[i - 1].id == id;
    }
  }

  lemma AwaitDeskStep(d: Desk, inbox: seq<Response>, starts: bool, u: nat, next: RequestId)
    requires AwaitInv(d, inbox) && !AtQueues(d.at) && !Over(d) && !d.at.GotResponse?
    requires (d.at.Cleaning? || d.at.Reaping?) && d.at.todo != {} ==> next in d.uis
    ensures AwaitInv(DeskStep(d, starts, u, next), inbox)
  {
    match d.at
    case GotRequest(r) =>
    case Registering(r) =>
    case Dismissing(id, cancel) =>
    case Cleaning(todo) =>
    case Reaping(todo, clean) =>
  }

  lemma AwaitInvStep(s: State, step: Step)
    requires AwaitInv(s.desk, Inbox(s)) && Enabled(s, step)
    ensures AwaitInv(Apply(s, step).desk, Inbox(Apply(s, step)))
  {
    var s' := Apply(s, step);
    if step.UIPost? {
      var r := Response(step.ui, step.kind, s.desk.uis[step.ui].origin);
      assert Inbox(s') == Inbox(s) + [r];
      AwaitMore(s.desk, Inbox(s), step.ui, r);
    } else if !step.Agent? {
      assert Inbox(s') == Inbox(s);
    } else if AtQueues(s.desk.at) {
      SameInbox(s);
      QueueAccess(s);
    } else if s.desk.at.GotResponse? {
      ResponseTaken(s, step);
      AwaitProcessResponse(s.desk, Inbox(s));
    } else {
      AwaitDeskStep(s.desk, Inbox(s), step.starts, step.uninitialized, step.next);
      NoNewHandResponse(s.desk, step.starts, step.uninitialized, step.next);
    }
  }
}
