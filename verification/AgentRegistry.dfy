/** How m_requests and m_UIs stay in line. */
module AgentRegistry {
  import opened Recency
  import opened AgentTypes
  import opened AgentProtocol

  /** The id whose registries are being brought into line. */
  function Limbo(at: Location): Option<RequestId> {
    match at
    case Registering(r) => Some(r.id)
    case Dismissing(id, cancel) => Some(id)
    case _ => None
  }

  ghost predicate Live(d: Desk, id: RequestId, serial: nat) {
    id in d.uis && !d.uis[id].dismissing && d.uis[id].origin == serial
  }

  /** m_requests holds exactly the ids whose user interface is not being dismissed, except for
      the one id a handler is working on. */
  ghost predicate RegistryInv(d: Desk) {
    && (forall id | id in d.pending :: Live(d, id, d.pending[id].serial))
    && (forall id | id in d.uis && Some(id) != Limbo(d.at) && !d.uis[id].dismissing ::
          id in d.pending)
    && (Limbo(d.at).Some? ==> Limbo(d.at).value !in d.pending)
    && (d.at.Registering? ==> Live(d, d.at.request.id, d.at.request.serial))
    && (d.at.Cleaning? ==> d.at.todo <= d.uis.Keys)
    && (d.at.Reaping? ==> d.at.todo <= d.uis.Keys && (d.at.clean <==> d.at.todo == d.uis.Keys))
    && (d.at.Exited? ==> d.pending == map[] && d.uis == map[])
  }

  lemma RegistryProcessRequest(d: Desk, starts: bool, u: nat)
    requires RegistryInv(d) && d.at.GotRequest?
    ensures RegistryInv(ProcessRequest(d, d.at.request, starts, u))
  {
  }

  lemma RegistryDismiss(d: Desk)
    requires RegistryInv(d) && d.at.Dismissing?
    ensures RegistryInv(Dismissed(DismissUI(d, d.at.id), d.at.cancel))
  {
  }

  lemma RegistryCollect(d: Desk, next: RequestId)
    requires RegistryInv(d) && Limbo(d.at) == None && next in d.uis
    ensures var d' := Collect(d, next);
      && d'.pending == d.pending
      && d'.uis.Keys == (if next in d'.uis then d.uis.Keys else d.uis.Keys - {next})
      && (forall id | id in d.pending :: Live(d', id, d.pending[id].serial))
      && (forall id | id in d'.uis && !d'.uis[id].dismissing :: id in d.pending)
  {
  }

  lemma RegistryCleaning(d: Desk, next: RequestId)
    requires RegistryInv(d) && d.at.Cleaning? && next in d.at.todo && next in d.uis
    ensures RegistryInv(Collect(d, next).(at := Cleaning(d.at.todo - {next})))
  {
    RegistryCollect(d, next);
  }

  lemma OneLeftOut<T>(all: set<T>, todo: set<T>, x: T)
    requires todo <= all && x in todo
    ensures todo - {x} == all - {x} <==> todo == all
    ensures todo - {x} != all
  {
    assert todo == todo - {x} + {x} && all == all - {x} + {x};
  }

  lemma RegistryReaping(d: Desk, next: RequestId)
    requires RegistryInv(d) && d.at.Reaping? && next in d.at.todo && next in d.uis
    ensures var d' := Collect(d, next);
      RegistryInv(d'.(at := Reaping(d.at.todo - {next}, d.at.clean && next !in d'.uis)))
  {
    RegistryCollect(d, next);
    OneLeftOut(d.uis.Keys, d.at.todo, next);
    hide Collect;
  }

  lemma RegistryDeskStep(d: Desk, starts: bool, u: nat, next: RequestId)
    requires RegistryInv(d) && !AtQueues(d.at) && !Over(d)
    requires (d.at.Cleaning? || d.at.Reaping?) && d.at.todo != {} ==> next in d.at.todo && next in d.uis
    ensures RegistryInv(DeskStep(d, starts, u, next))
  {
    match d.at
    case GotRequest(r) => RegistryProcessRequest(d, starts, u);
    case Registering(r) => RegistryMove(d);
    case GotResponse(r) => RegistryMove(d);
    case Dismissing(id, cancel) => RegistryDismiss(d);
    case Cleaning(todo) =>
      if todo != {} {
        RegistryCleaning(d, next);
        hide RegistryInv;
      } else {
        RegistryEnd(d);
      }
    case Reaping(todo, clean) =>
      if todo != {} {
        RegistryReaping(d, next);
        hide RegistryInv;
      } else {
        RegistryEnd(d);
      }
  }

  lemma RegistryMove(d: Desk)
    requires RegistryInv(d)
    ensures d.at.Registering? ==> RegistryInv(Register(d, d.at.request))
    ensures d.at.GotResponse? ==> RegistryInv(ProcessResponse(d, d.at.response))
  {
  }

  lemma RegistryEnd(d: Desk)
    requires RegistryInv(d)
    ensures d.at.Cleaning? ==> RegistryInv(d.(at := Looping))
    ensures d.at.Reaping? && d.at.todo == {} ==> RegistryInv(Exit(d, d.at.clean))
  {
    assert d.uis.Keys == {} <==> d.uis == map[];
  }

  lemma RegistryInvStep(s: State, step: Step)
    requires RegistryInv(s.desk) && Enabled(s, step)
    ensures RegistryInv(Apply(s, step).desk)
  {
    if !step.Agent? {
      OtherThreads(s, step);
      RegistrySameDesk(s.desk, Apply(s, step).desk);
    } else if AtQueues(s.desk.at) {
      QueueAccess(s);
    } else {
      RegistryDeskStep(s.desk, step.starts, step.uninitialized, step.next);
    }
  }

  lemma RegistrySameDesk(d: Desk, d': Desk)
    requires RegistryInv(d) && SameDesk(d, d')
    ensures RegistryInv(d')
  {
  }
}
