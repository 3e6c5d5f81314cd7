/** What reaches the agent, and in which order (src/agent/main/CynaraTalker.cpp, `run`). */
module AgentQueue {
  import opened AgentTypes
  import opened AgentProtocol

  predicate Closed(talker: Talker) {
    talker.Closing? || talker.Done? || talker.Failed?
  }

  ghost function Expected(s: State): seq<Request> {
    var ordinary := Requests(s.received);
    if Closed(s.talker) then ordinary + [Request(RT_Close, 0, "", |ordinary|)] else ordinary
  }

  /** How many of the pushed requests have left the queue. */
  function Consumed(s: State): int {
    |s.pushed| - |s.requests|
  }

  /** The supported messages in order, then at most one RT_Close; requests are numbered; the
      queue holds what was not popped. */
  ghost predicate QueueInv(s: State) {
    && s.pushed == Expected(s)
    && (forall i | 0 <= i < |s.pushed| :: s.pushed[i].serial == i)
    && |s.requests| <= |s.pushed|
    && s.requests == s.pushed[Consumed(s)..]
    && (s.desk.at.Reaping? || s.desk.at.Exited? ==> s.talker == Done && s.requests == [])
    && (s.desk.at.GotRequest? ==> Consumed(s) > 0 && s.desk.at.request == s.pushed[Consumed(s) - 1])
  }

  lemma {:induction false} RequestsNumbered(messages: seq<Message>)
    ensures forall i | 0 <= i < |Requests(messages)| ::
      Requests(messages)[i].serial == i && Requests(messages)[i].kind != RT_Close
  {
    if messages == [] {
    } else {
      RequestsNumbered(messages[..|messages| - 1]);
    }
  }

  lemma QueuePush(s: State, kind: RequestType, id: RequestId, data: string)
    requires QueueInv(s)
    ensures var s' := Push(s, kind, id, data);
      && (forall i | 0 <= i < |s'.pushed| :: s'.pushed[i].serial == i)
      && Consumed(s') == Consumed(s) && s'.requests == s'.pushed[Consumed(s')..]
      && (s.desk.at.GotRequest? ==> s'.pushed[Consumed(s) - 1] == s.pushed[Consumed(s) - 1])
  {
  }

  lemma QueueTalkerStep(s: State, step: Step)
    requires QueueInv(s) && Enabled(s, step) && !step.Agent?
    ensures QueueInv(Apply(s, step))
  {
    var s' := Apply(s, step);
    match step
    case TalkerInitialize(ok) =>
      QueuePush(s, RT_Close, 0, "");
    case TalkerReceive(message) =>
      assert s'.received[..|s'.received| - 1] == s.received;
      if Supported(message) {
        QueuePush(s, AgentType(message.kind), message.id, message.data);
      }
    case TalkerLoseConnection =>
      QueuePush(s, RT_Close, 0, "");
    case _ =>
  }

  lemma QueuePop(s: State)
    requires QueueInv(s) && (s.requests != [] || s.responses != [])
    ensures QueueInv(Pop(s))
  {
    var s' := Pop(s);
    if s.requests != [] {
      assert s.requests[0] == s.pushed[Consumed(s)];
      assert s.requests[1..] == s.pushed[Consumed(s) + 1..];
    }
  }

  lemma QueueStop(s: State)
    requires QueueInv(s) && s.desk.at.Leaving?
    ensures QueueInv(StopTalker(s))
  {
    assert s.pushed[|s.pushed|..] == [];
  }

  lemma QueueStepKeeps(s: State)
    requires QueueInv(s) && AtQueues(s.desk.at) && AgentEnabled(s, 0)
    ensures QueueInv(QueueStep(s))
  {
    if s.desk.at.Leaving? {
      QueueStop(s);
    } else if s.requests != [] || s.responses != [] {
      QueuePop(s);
    }
  }

  /** No handler goes back to the entry of processCynaraRequest, or into `finish`. */
  lemma DeskLeavesQueue(d: Desk, starts: bool, uninitialized: nat, next: RequestId)
    requires !AtQueues(d.at) && !Over(d)
    requires (d.at.Cleaning? || d.at.Reaping?) && d.at.todo != {} ==> next in d.uis
    ensures var at := DeskStep(d, starts, uninitialized, next).at;
      !at.GotRequest? && (at.Reaping? || at.Exited? ==> d.at.Reaping?)
  {
  }

  lemma QueueInvStep(s: State, step: Step)
    requires QueueInv(s) && Enabled(s, step)
    ensures QueueInv(Apply(s, step))
  {
    if !step.Agent? {
      QueueTalkerStep(s, step);
    } else if AtQueues(s.desk.at) {
      QueueStepKeeps(s);
    } else {
      DeskLeavesQueue(s.desk, step.starts, step.uninitialized, step.next);
    }
  }
}
