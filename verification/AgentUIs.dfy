/** Every user interface that entered m_UIs leaves it when, and only when, its thread is joined. */
module AgentUIs {
  import opened Translator
  import opened AgentTypes
  import opened AgentProtocol
  import opened AgentQueue
  import opened AgentOwnership
  import opened AgentAnswers

  predicate HasUI(d: Desk, pushed: seq<Request>, n: nat) {
    n < |pushed| && pushed[n].id in d.uis && d.uis[pushed[n].id].origin == n
  }

  /** The user is asked about the triple that was encoded in the request. */
  ghost predicate Shows(ui: UI, data: string) {
    forall q: RequestData :: RequestToData(q) <= data ==> ui.shown == q
  }

  ghost predicate UIOf(ui: UI, id: RequestId, pushed: seq<Request>) {
    ui.origin < |pushed| && pushed[ui.origin].id == id && Shows(ui, pushed[ui.origin].data)
  }

  ghost predicate Accounted(d: Desk, pushed: seq<Request>, n: nat) {
    && d.log.started[n] == d.log.joined[n] + (if HasUI(d, pushed, n) then 1 else 0)
    && d.log.started[n] <= TimesAccepted(d.log, n)
  }

  ghost predicate UIInv(d: Desk, pushed: seq<Request>) {
    && (forall id | id in d.uis :: UIOf(d.uis[id], id, pushed))
    && (forall n: nat :: Accounted(d, pushed, n))
  }

  lemma NewUIShows(r: Request, u: nat)
    ensures Shows(NewUI(r, u), r.data)
  {
    forall q: RequestData | RequestToData(q) <= r.data
      ensures NewUI(r, u).shown == q
    {
      var t := r.data[|RequestToData(q)|..];
      assert r.data == RequestToData(q) + t;
      RequestRoundTrip(q, t, u);
    }
  }

  lemma UIUnchanged(d: Desk, d': Desk, pushed: seq<Request>, pushed': seq<Request>)
    requires UIInv(d, pushed) && pushed <= pushed'
    requires d'.uis.Keys == d.uis.Keys
    requires forall id | id in d.uis :: d'.uis[id].origin == d.uis[id].origin
                                     && d'.uis[id].shown == d.uis[id].shown
    requires d'.log.started == d.log.started && d'.log.joined == d.log.joined
    requires forall n: nat :: TimesAccepted(d.log, n) <= TimesAccepted(d'.log, n)
    ensures UIInv(d', pushed')
  {
    forall id | id in d'.uis
      ensures UIOf(d'.uis[id], id, pushed')
    {
      assert UIOf(d.uis[id], id, pushed);
    }
    forall n: nat
      ensures Accounted(d', pushed', n)
    {
      assert Accounted(d, pushed, n);
      assert TimesAccepted(d.log, n) <= TimesAccepted(d'.log, n);
    }
  }

  lemma UIStarted(d: Desk, pushed: seq<Request>, c: int, u: nat)
    requires UIInv(d, pushed) && OwnInv(d, pushed, c) && d.at.GotRequest?
    requires d.at.request.kind == RT_Action
    requires d.at.request.id !in d.pending && d.at.request.id !in d.uis
    ensures UIInv(ProcessRequest(d, d.at.request, true, u), pushed)
  {
    var r, d' := d.at.request, ProcessRequest(d, d.at.request, true, u);
    NewUIShows(r, u);
    AcceptedOneMore(d.log, d'.log, r);
    forall id | id in d'.uis
      ensures UIOf(d'.uis[id], id, pushed)
    {
      if id != r.id {
        assert UIOf(d.uis[id], id, pushed);
      }
    }
    forall n: nat
      ensures Accounted(d', pushed, n)
    {
      assert Accounted(d, pushed, n);
    }
  }

  lemma UIProcessRequest(d: Desk, pushed: seq<Request>, c: int, starts: bool, u: nat)
    requires UIInv(d, pushed) && OwnInv(d, pushed, c) && d.at.GotRequest?
    ensures UIInv(ProcessRequest(d, d.at.request, starts, u), pushed)
  {
    var r, d' := d.at.request, ProcessRequest(d, d.at.request, starts, u);
    if r.kind == RT_Action && r.id !in d.pending && r.id !in d.uis && starts {
      UIStarted(d, pushed, c, u);
    } else {
      if r.kind == RT_Action && r.id !in d.pending && !starts {
        AcceptedOneMore(d.log, d'.log, r);
      }
      UIUnchanged(d, d', pushed, pushed);
    }
  }

  lemma UIDismiss(d: Desk, pushed: seq<Request>, id: RequestId)
    requires UIInv(d, pushed) && id in d.uis
    ensures UIInv(Dismiss(d, id), pushed)
  {
    var d' := Dismiss(d, id);
    if d.uis[id].phase == Finished {
      forall i | i in d'.uis
        ensures UIOf(d'.uis[i], i, pushed)
      {
        assert UIOf(d.uis[i], i, pushed);
      }
      assert UIOf(d.uis[id], id, pushed);
      forall n: nat
        ensures Accounted(d', pushed, n)
      {
        assert Accounted(d, pushed, n);
      }
    } else {
      UIUnchanged(d, d', pushed, pushed);
    }
  }

  lemma UICollect(d: Desk, pushed: seq<Request>, next: RequestId)
    requires UIInv(d, pushed) && next in d.uis
    ensures UIInv(Collect(d, next), pushed)
  {
    if d.uis[next].dismissing {
      UIDismiss(d, pushed, next);
    }
  }

  lemma UIDeskStep(d: Desk, pushed: seq<Request>, c: int, starts: bool, u: nat, next: RequestId)
    requires UIInv(d, pushed) && OwnInv(d, pushed, c) && !AtQueues(d.at) && !Over(d)
    requires (d.at.Cleaning? || d.at.Reaping?) && d.at.todo != {} ==> next in d.uis
    ensures UIInv(DeskStep(d, starts, u, next), pushed)
  {
    var d' := DeskStep(d, starts, u, next);
    match d.at
    case GotRequest(r) => UIProcessRequest(d, pushed, c, starts, u);
    case Dismissing(id, cancel) =>
      if id in d.uis {
        UIDismiss(d, pushed, id);
      }
      UIUnchanged(DismissUI(d, id), d', pushed, pushed);
    case Cleaning(todo) =>
      if todo == {} {
        UIUnchanged(d, d', pushed, pushed);
      } else {
        UICollect(d, pushed, next);
        UIUnchanged(Collect(d, next), d', pushed, pushed);
      }
    case Reaping(todo, clean) =>
      if todo == {} {
        UIUnchanged(d, d', pushed, pushed);
      } else {
        UICollect(d, pushed, next);
        UIUnchanged(Collect(d, next), d', pushed, pushed);
      }
    case _ => UIUnchanged(d, d', pushed, pushed);
  }

  lemma UIInvStep(s: State, step: Step)
    requires Enabled(s, step) && UIInv(s.desk, s.pushed)
    requires OwnInv(s.desk, s.pushed, Consumed(s))
    ensures UIInv(Apply(s, step).desk, Apply(s, step).pushed)
  {
    var s' := Apply(s, step);
    if !step.Agent? {
      OtherThreads(s, step);
      forall id | id in s.desk.uis
        ensures s'.desk.uis[id].origin == s.desk.uis[id].origin
             && s'.desk.uis[id].shown == s.desk.uis[id].shown
      {
        assert s'.desk.uis[id].(phase := Waiting) == s.desk.uis[id].(phase := Waiting);
      }
      UIUnchanged(s.desk, s'.desk, s.pushed, s'.pushed);
    } else if AtQueues(s.desk.at) {
      QueueAccess(s);
      UIUnchanged(s.desk, s'.desk, s.pushed, s.pushed);
    } else {
      UIDeskStep(s.desk, s.pushed, Consumed(s), step.starts, step.uninitialized, step.next);
    }
  }
}
