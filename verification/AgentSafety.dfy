/** The safety of the agent over whole runs. */
module AgentSafety {
  import opened Recency
  import opened AgentTypes
  import opened AgentProtocol
  import opened AgentQueue
  import opened AgentRegistry
  import opened AgentOwnership
  import opened AgentAnswers
  import opened AgentUIs
  import opened AgentInbox
  import opened AgentReports

  ghost predicate Inv(s: State) {
    && QueueInv(s)
    && RegistryInv(s.desk)
    && OwnInv(s.desk, s.pushed, Consumed(s))
    && AnswerInv(s.desk, s.pushed)
    && UIInv(s.desk, s.pushed)
    && AwaitInv(s.desk, Inbox(s))
    && OutcomeInv(s.desk, s.pushed, Inbox(s), s.posted)
  }

  lemma InvInitial()
    ensures Inv(INITIAL)
  {
    hide OwnInv, AnswerInv, UIInv;
    OwnInitial();
    AnswerInitial();
    UIInitial();
  }

  lemma OwnInitial()
    ensures OwnInv(INITIAL.desk, [], 0)
  {
    assert forall n: nat :: Places(INITIAL.desk, [], n) == 0;
  }

  lemma AnswerInitial()
    ensures AnswerInv(INITIAL.desk, [])
  {
    assert forall n: nat :: Balanced(INITIAL.desk, [], n);
    assert forall id: RequestId :: BalancedId(INITIAL.desk, id);
  }

  lemma UIInitial()
    ensures UIInv(INITIAL.desk, [])
  {
    assert forall n: nat :: Accounted(INITIAL.desk, [], n);
  }

  lemma InvStep(s: State, step: Step)
    requires Inv(s) && Enabled(s, step)
    ensures Inv(Apply(s, step))
  {
    QueueInvStep(s, step);
    RegistryInvStep(s, step);
    OwnInvStep(s, step);
    AnswerInvStep(s, step);
    UIInvStep(s, step);
    AwaitInvStep(s, step);
    OutcomeInvStep(s, step);
  }

  lemma {:induction false} InvRun(s: State, steps: seq<Step>)
    requires Inv(s) && Allowed(s, steps)
    ensures Inv(After(s, steps))
    decreases |steps|
  {
    if steps == [] {
    } else {
      InvStep(s, steps[0]);
      InvRun(Apply(s, steps[0]), steps[1..]);
    }
  }

  lemma InvReachable(s: State)
    requires Reachable(s)
    ensures Inv(s)
  {
    var steps :| Allowed(INITIAL, steps) && After(INITIAL, steps) == s;
    InvInitial();
    InvRun(INITIAL, steps);
  }

  /** Between two handlers, for every outcome of `dismiss` so far, the pending ids are exactly the
      ids of the user interfaces that are not being dismissed. */
  lemma RegistriesAgree(s: State)
    requires Reachable(s) && Limbo(s.desk.at) == None
    ensures s.desk.pending.Keys
         == set id | id in s.desk.uis && !s.desk.uis[id].dismissing :: id
  {
    InvReachable(s);
    assert forall id | id in s.desk.pending :: Live(s.desk, id, s.desk.pending[id].serial);
  }

  /** No pending request is stranded, whatever ids the messages carry. */
  lemma NeverStranded(s: State, id: RequestId)
    requires Reachable(s) && id in s.desk.pending
    ensures id in s.desk.uis && !s.desk.uis[id].dismissing
    ensures s.desk.uis[id].phase == Waiting || Awaits(Inbox(s), id)
  {
    InvReachable(s);
    assert Live(s.desk, id, s.desk.pending[id].serial);
  }

  /** At every moment and for every id, what was accepted was answered, except for the one request
      that may be pending, or about to be. */
  lemma AnsweredOrPending(s: State, id: RequestId)
    requires Reachable(s)
    ensures AcceptedCount(s.desk.log, id)
         == SentCount(s.desk.log, id) + if OpenId(s.desk, id) then 1 else 0
  {
    InvReachable(s);
    assert BalancedId(s.desk, id);
  }

  /** No acceptance is answered twice: once a cancellation is confirmed, the late answer of the
      user is not sent. Nothing is answered that was not accepted, or before it was. */
  lemma AnsweredAtMostOnce(s: State, n: nat)
    requires Reachable(s)
    ensures TimesSent(s.desk.log, n) <= TimesAccepted(s.desk.log, n) <= 1
    ensures IsPending(s.desk, s.pushed, n) ==>
      TimesSent(s.desk.log, n) == 0 && TimesAccepted(s.desk.log, n) == 1
  {
    InvReachable(s);
    assert Balanced(s.desk, s.pushed, n);
    assert Places(s.desk, s.pushed, n) <= 1;
  }

  lemma TwiceInMultiset(s: seq<nat>, i: nat, j: nat)
    requires i < j < |s| && s[i] == s[j]
    ensures multiset(s)[s[i]] >= 2
  {
    assert s == s[..j] + [s[j]] + s[j + 1..];
    assert s[..j][i] == s[i];
  }

  /** The same for two entries of the log of answers. */
  lemma NoSecondAnswer(s: State, i: nat, j: nat)
    requires Reachable(s)
    requires i < j < |s.desk.log.sent|
    ensures s.desk.log.sent[i].serial != s.desk.log.sent[j].serial
  {
    var serials := SentSerials(s.desk.log.sent);
    AnsweredAtMostOnce(s, serials[i]);
    if serials[i] == serials[j] {
      TwiceInMultiset(serials, i, j);
    }
  }

  /** A Request object is in the queue, in hand, in m_requests or deleted, and in only one of
      these, however the run went: none is deleted twice and none is lost. */
  lemma OneOwner(s: State, n: nat)
    requires Reachable(s) && !s.desk.at.Terminated?
    ensures Places(s.desk, s.pushed, n) + (if n in Serials(s.requests) then 1 else 0)
         == if n < |s.pushed| then 1 else 0
  {
    InvReachable(s);
    var c := Consumed(s);
    assert Places(s.desk, s.pushed, n) == if n < c then 1 else 0;
    if c <= n < |s.pushed| {
      assert Serials(s.requests)[n - c] == n;
    }
  }

  /** A UI thread is started at most once for a request and joined at most once; what m_UIs holds
      is exactly what was started and not joined. */
  lemma JoinedOnce(s: State, n: nat)
    requires Reachable(s)
    ensures s.desk.log.joined[n] <= s.desk.log.started[n] <= 1
    ensures HasUI(s.desk, s.pushed, n) <==> s.desk.log.joined[n] < s.desk.log.started[n]
  {
    InvReachable(s);
    assert Accounted(s.desk, s.pushed, n);
    AnsweredAtMostOnce(s, n);
  }

  /** A clean exit leaves nothing behind: no request unanswered that was accepted, no thread
      running, and every Request object deleted exactly once. */
  lemma CleanExit(s: State, n: nat)
    requires Reachable(s) && s.desk.at.Exited?
    ensures s.desk.pending == map[] && s.desk.uis == map[]
    ensures TimesAccepted(s.desk.log, n) == TimesSent(s.desk.log, n)
    ensures s.desk.log.started[n] == s.desk.log.joined[n]
    ensures s.desk.log.freed[n] == if n < |s.pushed| then 1 else 0
  {
    InvReachable(s);
    assert Balanced(s.desk, s.pushed, n) && Accounted(s.desk, s.pushed, n);
    OneOwner(s, n);
  }

  /** `cleanupUIThreads`, as `finish` calls it, ends with success exactly when m_UIs is empty, and
      then nothing is pending: the loop that deletes what is left in m_requests finds nothing. */
  lemma NothingLeftToDelete(s: State)
    requires Reachable(s) && s.desk.at.Reaping? && s.desk.at.todo == {}
    ensures s.desk.at.clean <==> s.desk.uis == map[]
    ensures s.desk.at.clean ==> s.desk.pending == map[]
  {
    InvReachable(s);
    RegistriesAgree(s);
    assert s.desk.uis.Keys == {} <==> s.desk.uis == map[];
    assert s.desk.uis == map[] ==> s.desk.pending.Keys == {};
  }

  /** Without the end of the talker thread there is no clean exit; a talker that could not
      initialize never counts as ended. */
  lemma CleanExitNeedsTalker(s: State)
    requires Reachable(s) && (s.desk.at.Reaping? || s.desk.at.Exited?)
    ensures s.talker == Done && s.requests == [] && s.pushed != []
    ensures s.pushed[|s.pushed| - 1].kind == RT_Close
  {
    InvReachable(s);
  }

  /** When the agent pops RT_Close the queue is empty, and every supported message that was
      received had been popped before, in order. */
  lemma CloseIsLast(s: State)
    requires Reachable(s) && s.desk.at.GotRequest? && s.desk.at.request.kind == RT_Close
    ensures s.requests == []
    ensures s.pushed == Requests(s.received) + [s.desk.at.request]
  {
    InvReachable(s);
    RequestsNumbered(s.received);
  }

  /** At most one RT_Close is ever pushed, and nothing after it. */
  lemma OneClose(s: State, i: nat)
    requires Reachable(s) && i < |s.pushed| && s.pushed[i].kind == RT_Close
    ensures i == |s.pushed| - 1 && Closed(s.talker)
    ensures s.pushed[..i] == Requests(s.received)
  {
    InvReachable(s);
    RequestsNumbered(s.received);
  }

  /** What is sent is never something `agentType2CynaraType` refuses, and always decodes. */
  lemma SentIsWellFormed(s: State, i: nat)
    requires Reachable(s) && i < |s.desk.log.sent|
    ensures WellSent(s.desk.log.sent[i])
  {
    InvReachable(s);
  }
}
