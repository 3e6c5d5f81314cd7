/** What Cynara can see for itself: an id is safe as long as no two Action messages carry it. */
module AgentMessages {
  import opened AgentTypes
  import opened AgentProtocol
  import opened AgentQueue
  import opened AgentUIs
  import opened AgentInbox
  import opened AgentReports
  import opened AgentSafety
  import opened AgentFreshIds

  predicate IsFor(r: Request, kind: RequestType, id: RequestId) {
    r.kind == kind && r.id == id
  }

  predicate Asks(m: Message, kind: MessageType, id: RequestId) {
    m.kind == kind && m.id == id
  }

  /** No two Action messages carry the same id. */
  predicate DistinctActions(messages: seq<Message>) {
    forall i, j | 0 <= i < j < |messages| ::
      messages[i].kind == MSG_ACTION ==> !Asks(messages[j], MSG_ACTION, messages[i].id)
  }

  /** An Action message, its cancellation, and later an Action message with the same id again. */
  predicate AskedAgain(messages: seq<Message>, i: nat, k: nat, j: nat) {
    && i < k < j < |messages|
    && messages[i].kind == MSG_ACTION
    && Asks(messages[k], MSG_CANCEL, messages[i].id)
    && Asks(messages[j], MSG_ACTION, messages[i].id)
  }

  ghost predicate NeverAskedAgain(messages: seq<Message>) {
    forall i, k, j :: !AskedAgain(messages, i, k, j)
  }

  /** The same for the requests that stand for the messages. */
  predicate DistinctRequests(requests: seq<Request>) {
    forall i, j | 0 <= i < j < |requests| ::
      requests[i].kind == RT_Action ==> !IsFor(requests[j], RT_Action, requests[i].id)
  }

  predicate RequestedAgain(requests: seq<Request>, i: nat, k: nat, j: nat) {
    && i < k < j < |requests|
    && requests[i].kind == RT_Action
    && IsFor(requests[k], RT_Cancel, requests[i].id)
    && IsFor(requests[j], RT_Action, requests[i].id)
  }

  ghost predicate NeverRequestedAgain(requests: seq<Request>) {
    forall i, k, j :: !RequestedAgain(requests, i, k, j)
  }

  // ------------------------------------------------------------- messages and requests

  /** The number of the request that stands for a message. */
  function Rank(messages: seq<Message>, m: nat): nat
    requires m <= |messages|
  {
    SupportedCount(messages[..m])
  }

  lemma {:induction false} RankGrows(messages: seq<Message>, m: nat, m': nat)
    requires m <= m' <= |messages|
    ensures Rank(messages, m) <= Rank(messages, m')
    ensures m < m' && messages[m].kind in {MSG_ACTION, MSG_CANCEL} ==>
      Rank(messages, m) < Rank(messages, m')
    decreases m' - m
  {
    if m == m' {
    } else {
      RankGrows(messages, m, m' - 1);
      assert messages[..m'][..m' - 1] == messages[..m' - 1];
    }
  }

  /** The message a request stands for. */
  lemma {:induction false} MessageFor(messages: seq<Message>, n: nat) returns (m: nat)
    requires n < |Requests(messages)|
    ensures m < |messages| && Rank(messages, m) == n
    ensures Mirrors(Requests(messages)[n], messages[m])
  {
    var before := messages[..|messages| - 1];
    RequestsMirror(before);
    if n < |Requests(before)| {
      m := MessageFor(before, n);
      assert messages[m] == before[m] && messages[..m] == before[..m];
    } else {
      m := |messages| - 1;
    }
  }

  lemma InOrder(messages: seq<Message>, n: nat, n': nat) returns (m: nat, m': nat)
    requires n < n' < |Requests(messages)|
    ensures m < m' < |messages| && Rank(messages, m) == n && Rank(messages, m') == n'
    ensures Mirrors(Requests(messages)[n], messages[m])
    ensures Mirrors(Requests(messages)[n'], messages[m'])
  {
    m := MessageFor(messages, n);
    m' := MessageFor(messages, n');
    if m' <= m {
      RankGrows(messages, m', m);
    }
  }

  lemma DistinctEither(messages: seq<Message>)
    ensures DistinctActions(messages) <==> DistinctRequests(Requests(messages))
  {
    var all := Requests(messages);
    RequestsMirror(messages);
    if !DistinctRequests(all) {
      var n, n' :| 0 <= n < n' < |all| && all[n].kind == RT_Action
                   && IsFor(all[n'], RT_Action, all[n].id);
      var m, m' := InOrder(messages, n, n');
      assert Asks(messages[m'], MSG_ACTION, messages[m].id);
    }
    if !DistinctActions(messages) {
      var m, m' :| 0 <= m < m' < |messages| && messages[m].kind == MSG_ACTION
                   && Asks(messages[m'], MSG_ACTION, messages[m].id);
      RankGrows(messages, m, m');
      assert IsFor(all[Rank(messages, m')], RT_Action, all[Rank(messages, m)].id);
    }
  }

  lemma AskedIsRequested(messages: seq<Message>, i: nat, k: nat, j: nat)
    requires AskedAgain(messages, i, k, j)
    ensures RequestedAgain(Requests(messages), Rank(messages, i), Rank(messages, k), Rank(messages, j))
  {
    RequestsMirror(messages);
    RankGrows(messages, i, k);
    RankGrows(messages, k, j);
  }

  lemma NeverEither(messages: seq<Message>)
    ensures NeverAskedAgain(messages) <==> NeverRequestedAgain(Requests(messages))
  {
    if !NeverAskedAgain(messages) {
      var i, k, j :| AskedAgain(messages, i, k, j);
      AskedIsRequested(messages, i, k, j);
    }
    if !NeverRequestedAgain(Requests(messages)) {
      var i, k, j :| RequestedAgain(Requests(messages), i, k, j);
      var m, m' := InOrder(messages, i, k);
      var n', n := InOrder(messages, k, j);
      if n' < m' {
        RankGrows(messages, n', m');
      } else {
        RankGrows(messages, m', n');
      }
      assert AskedAgain(messages, m, m', n);
    }
  }

  // ------------------------------------------------------ distinct ids are always unused

  lemma AcceptsUnused(s: State, step: Step)
    requires Inv(s) && Enabled(s, step) && Accepts(s, step) && DistinctRequests(s.pushed)
    ensures Unused(s, s.desk.at.request.id)
  {
    var r := s.desk.at.request;
    NotAcceptedBefore(s.desk, s.pushed, Consumed(s));
    assert s.pushed[r.serial] == r;
    forall n: nat | n in s.desk.log.started
      ensures n < |s.pushed| && s.pushed[n].id != r.id
    {
      assert IsAction(s.pushed, n) && n != r.serial;
    }
    forall id | id in s.desk.uis
      ensures s.desk.uis[id].origin in s.desk.log.started && s.pushed[s.desk.uis[id].origin].id == id
    {
      assert UIOf(s.desk.uis[id], id, s.pushed);
      assert Accounted(s.desk, s.pushed, s.desk.uis[id].origin);
    }
    forall i | 0 <= i < |Inbox(s)|
      ensures Inbox(s)[i].id != r.id
    {
      assert Stems(Inbox(s)[i], s.desk.log, s.pushed);
    }
  }

  lemma {:induction false} PushedGrows(s: State, steps: seq<Step>)
    requires Allowed(s, steps)
    ensures s.pushed <= After(s, steps).pushed
    decreases |steps|
  {
    if steps == [] {
    } else {
      PushedStep(s, steps[0]);
      hide Apply;
      PushedGrows(Apply(s, steps[0]), steps[1..]);
    }
  }

  lemma PushedStep(s: State, step: Step)
    requires Enabled(s, step)
    ensures s.pushed <= Apply(s, step).pushed
  {
    if !step.Agent? {
      OtherThreads(s, step);
    } else if AtQueues(s.desk.at) {
      QueueAccess(s);
    }
  }

  lemma {:induction false} DistinctRunIsCareful(s: State, steps: seq<Step>)
    requires Inv(s) && Allowed(s, steps) && DistinctRequests(After(s, steps).pushed)
    ensures Careful(s, steps)
    decreases |steps|
  {
    if steps == [] {
    } else {
      PushedGrows(s, steps);
      if Accepts(s, steps[0]) {
        AcceptsUnused(s, steps[0]);
      }
      InvStep(s, steps[0]);
      hide Inv, Apply, Unused;
      DistinctRunIsCareful(Apply(s, steps[0]), steps[1..]);
    }
  }

  /** Whatever happens, while the Action messages received carry distinct ids the agent has found
      every id unused: it is not terminated, and no answer goes astray. */
  lemma DistinctIsFresh(s: State)
    requires Reachable(s) && DistinctActions(s.received)
    ensures FreshReachable(s) && !s.desk.at.Terminated?
  {
    InvReachable(s);
    DistinctPushed(s);
    hide Inv;
    var steps :| Allowed(INITIAL, steps) && After(INITIAL, steps) == s;
    InvInitial();
    DistinctRunIsCareful(INITIAL, steps);
    FreshReachableInv(s);
  }

  lemma DistinctPushed(s: State)
    requires QueueInv(s) && DistinctActions(s.received)
    ensures DistinctRequests(s.pushed)
  {
    DistinctEither(s.received);
  }
}
