/** Every accepted request is answered exactly once. */
module AgentAnswers {
  import opened AgentTypes
  import opened AgentProtocol
  import opened AgentQueue
  import opened AgentRegistry
  import opened AgentOwnership

  function Ids(requests: seq<Request>): seq<RequestId> {
    seq(|requests|, i requires 0 <= i < |requests| => requests[i].id)
  }

  function SentSerials(sent: seq<Sent>): seq<nat> {
    seq(|sent|, i requires 0 <= i < |sent| => sent[i].serial)
  }

  function SentIds(sent: seq<Sent>): seq<RequestId> {
    seq(|sent|, i requires 0 <= i < |sent| => sent[i].id)
  }

  /** How often an id was accepted, and how often it was answered. */
  function AcceptedCount(log: Log, id: RequestId): nat {
    multiset(Ids(log.accepted))[id]
  }

  function SentCount(log: Log, id: RequestId): nat {
    multiset(SentIds(log.sent))[id]
  }

  /** How often one request was accepted, and how often it was answered. */
  function TimesAccepted(log: Log, n: nat): nat {
    multiset(Serials(log.accepted))[n]
  }

  function TimesSent(log: Log, n: nat): nat {
    multiset(SentSerials(log.sent))[n]
  }

  /** Accepted and not yet answered. */
  predicate Open(d: Desk, pushed: seq<Request>, n: nat) {
    IsPending(d, pushed, n) || (d.at.Registering? && d.at.request.serial == n)
  }

  predicate OpenId(d: Desk, id: RequestId) {
    id in d.pending || (d.at.Registering? && d.at.request.id == id)
  }

  ghost predicate Balanced(d: Desk, pushed: seq<Request>, n: nat) {
    && TimesAccepted(d.log, n) == TimesSent(d.log, n) + (if Open(d, pushed, n) then 1 else 0)
    && TimesSent(d.log, n) <= d.log.freed[n]
  }

  ghost predicate BalancedId(d: Desk, id: RequestId) {
    AcceptedCount(d.log, id) == SentCount(d.log, id) + if OpenId(d, id) then 1 else 0
  }

  predicate IsAnswer(data: string) {
    exists kind: UIResponseType :: Answer(kind) == data
  }

  /** A cancellation is confirmed with no data; an action is answered with one of the payloads
      for a response of the user interface. */
  predicate WellSent(e: Sent) {
    (e.kind == RT_Cancel && e.data == "") || (e.kind == RT_Action && IsAnswer(e.data))
  }

  ghost predicate AnswerInv(d: Desk, pushed: seq<Request>) {
    && (forall n: nat :: Balanced(d, pushed, n))
    && (forall id: RequestId :: BalancedId(d, id))
    && (forall i | 0 <= i < |d.log.sent| :: WellSent(d.log.sent[i]))
  }

  lemma AcceptedOneMore(log: Log, log': Log, r: Request)
    requires log'.accepted == log.accepted + [r]
    ensures forall n: nat :: TimesAccepted(log', n)
                          == TimesAccepted(log, n) + if n == r.serial then 1 else 0
    ensures forall id: RequestId :: AcceptedCount(log', id)
                                 == AcceptedCount(log, id) + if id == r.id then 1 else 0
  {
    assert Serials(log'.accepted) == Serials(log.accepted) + [r.serial];
    assert Ids(log'.accepted) == Ids(log.accepted) + [r.id];
  }

  lemma SentOneMore(log: Log, log': Log, e: Sent)
    requires log'.sent == log.sent + [e]
    ensures forall n: nat :: TimesSent(log', n)
                          == TimesSent(log, n) + if n == e.serial then 1 else 0
    ensures forall id: RequestId :: SentCount(log', id)
                                 == SentCount(log, id) + if id == e.id then 1 else 0
  {
    assert SentSerials(log'.sent) == SentSerials(log.sent) + [e.serial];
    assert SentIds(log'.sent) == SentIds(log.sent) + [e.id];
  }

  /** Settling a pending request closes it. */
  lemma AnswerSettle(d: Desk, d': Desk, pushed: seq<Request>, c: int, id: RequestId,
                     kind: RequestType, data: string)
    requires OwnInv(d, pushed, c) && AnswerInv(d, pushed) && !d.at.Registering?
    requires id in d.pending
    requires d'.pending == d.pending - {id} && !d'.at.Registering?
    requires d'.log == Settle(d.log, kind, data, d.pending[id])
    requires WellSent(Sent(kind, id, data, d.pending[id].serial))
    ensures AnswerInv(d', pushed)
  {
    SentOneMore(d.log, d'.log, Sent(kind, id, data, d.pending[id].serial));
    forall n: nat
      ensures Balanced(d', pushed, n)
    {
      assert Balanced(d, pushed, n);
    }
    forall i: RequestId
      ensures BalancedId(d', i)
    {
      assert BalancedId(d, i);
    }
  }

  /** Everything that neither accepts nor answers. */
  lemma AnswerUnchanged(d: Desk, d': Desk, pushed: seq<Request>)
    requires AnswerInv(d, pushed)
    requires d'.log.accepted == d.log.accepted && d'.log.sent == d.log.sent
    requires d.log.freed <= d'.log.freed
    requires forall n: nat :: Open(d', pushed, n) <==> Open(d, pushed, n)
    requires forall id: RequestId :: OpenId(d', id) <==> OpenId(d, id)
    ensures AnswerInv(d', pushed)
  {
    forall n: nat
      ensures Balanced(d', pushed, n)
    {
      assert Balanced(d, pushed, n);
      assert Open(d', pushed, n) <==> Open(d, pushed, n);
    }
    forall id: RequestId
      ensures BalancedId(d', id)
    {
      assert BalancedId(d, id);
      assert OpenId(d', id) <==> OpenId(d, id);
    }
  }

  lemma AnswerStartFailed(d: Desk, pushed: seq<Request>, c: int)
    requires OwnInv(d, pushed, c) && AnswerInv(d, pushed) && d.at.GotRequest?
    ensures AnswerInv(d.(at := NextResponse, log := StartFailed(d.log, d.at.request)), pushed)
  {
    var r := d.at.request;
    var d' := d.(at := NextResponse, log := StartFailed(d.log, r));
    assert Answer(URT_ERROR) == START_FAILED;
    AcceptedOneMore(d.log, d'.log, r);
    SentOneMore(d.log, d'.log, Sent(RT_Action, r.id, START_FAILED, r.serial));
    forall n: nat
      ensures Balanced(d', pushed, n)
    {
      assert Balanced(d, pushed, n);
    }
    forall id: RequestId
      ensures BalancedId(d', id)
    {
      assert BalancedId(d, id);
    }
  }

  lemma AnswerStarted(d: Desk, pushed: seq<Request>, c: int, u: nat)
    requires OwnInv(d, pushed, c) && AnswerInv(d, pushed) && d.at.GotRequest?
    requires d.at.request.id !in d.pending && d.at.request.id !in d.uis
    requires d.at.request.kind == RT_Action
    ensures AnswerInv(ProcessRequest(d, d.at.request, true, u), pushed)
  {
    var r, d' := d.at.request, ProcessRequest(d, d.at.request, true, u);
    assert Places(d, pushed, r.serial) == 1;
    AcceptedOneMore(d.log, d'.log, r);
    forall n: nat
      ensures Balanced(d', pushed, n)
    {
      assert Balanced(d, pushed, n);
    }
    forall id: RequestId
      ensures BalancedId(d', id)
    {
      assert BalancedId(d, id);
    }
  }

  lemma AnswerProcessRequest(d: Desk, pushed: seq<Request>, c: int, starts: bool, u: nat)
    requires OwnInv(d, pushed, c) && AnswerInv(d, pushed) && d.at.GotRequest?
    ensures AnswerInv(ProcessRequest(d, d.at.request, starts, u), pushed)
  {
    var r, d' := d.at.request, ProcessRequest(d, d.at.request, starts, u);
    if r.kind == RT_Close || (r.id in d.pending) != (r.kind == RT_Cancel) {
      AnswerUnchanged(d, d', pushed);
    } else if r.id in d.pending {
      AnswerSettle(d, d', pushed, c, r.id, RT_Cancel, "");
    } else if !starts {
      AnswerStartFailed(d, pushed, c);
    } else if r.id in d.uis {
      AnswerUnchanged(d, d', pushed);
    } else {
      AnswerStarted(d, pushed, c, u);
    }
  }

  lemma AnswerProcessResponse(d: Desk, pushed: seq<Request>, c: int)
    requires OwnInv(d, pushed, c) && AnswerInv(d, pushed) && d.at.GotResponse?
    ensures AnswerInv(ProcessResponse(d, d.at.response), pushed)
  {
    var r, d' := d.at.response, ProcessResponse(d, d.at.response);
    if r.id in d.pending {
      AnswerSettle(d, d', pushed, c, r.id, RT_Action, Answer(r.kind));
    } else {
      AnswerUnchanged(d, d', pushed);
    }
  }

  lemma AnswerDismiss(d: Desk, pushed: seq<Request>)
    requires AnswerInv(d, pushed) && d.at.Dismissing?
    ensures AnswerInv(Dismissed(DismissUI(d, d.at.id), d.at.cancel), pushed)
  {
    hide AnswerInv, DismissUI;
    DismissAccess(d, d.at.id);
    AnswerUnchanged(d, Dismissed(DismissUI(d, d.at.id), d.at.cancel), pushed);
  }

  lemma AnswerReap(d: Desk, pushed: seq<Request>, starts: bool, u: nat, next: RequestId)
    requires AnswerInv(d, pushed) && RegistryInv(d) && d.at.Reaping?
    requires d.at.todo != {} ==> next in d.uis
    ensures AnswerInv(DeskStep(d, starts, u, next), pushed)
  {
    if d.at.todo == {} && d.at.clean {
      assert d.uis == map[] && d.pending == map[];
    }
    AnswerUnchanged(d, DeskStep(d, starts, u, next), pushed);
  }

  lemma AnswerDeskStep(d: Desk, pushed: seq<Request>, c: int, starts: bool, u: nat,
                       next: RequestId)
    requires OwnInv(d, pushed, c) && AnswerInv(d, pushed) && RegistryInv(d)
    requires !AtQueues(d.at) && !Over(d)
    requires (d.at.Cleaning? || d.at.Reaping?) && d.at.todo != {} ==> next in d.uis
    ensures AnswerInv(DeskStep(d, starts, u, next), pushed)
  {
    match d.at
    case GotRequest(r) => AnswerProcessRequest(d, pushed, c, starts, u);
    case Registering(r) => AnswerUnchanged(d, Register(d, r), pushed);
    case GotResponse(r) => AnswerProcessResponse(d, pushed, c);
    case Dismissing(id, cancel) => AnswerDismiss(d, pushed);
    case Cleaning(todo) => AnswerUnchanged(d, DeskStep(d, starts, u, next), pushed);
    case Reaping(todo, clean) => AnswerReap(d, pushed, starts, u, next);
  }

  lemma AnswerInvStep(s: State, step: Step)
    requires Enabled(s, step) && AnswerInv(s.desk, s.pushed) && RegistryInv(s.desk)
    requires OwnInv(s.desk, s.pushed, Consumed(s))
    ensures AnswerInv(Apply(s, step).desk, Apply(s, step).pushed)
  {
    var s', c := Apply(s, step), Consumed(s);
    if !step.Agent? {
      OtherThreads(s, step);
      AnswerPush(s.desk, s.pushed, s'.pushed, c);
      AnswerUnchanged(s.desk, s'.desk, s'.pushed);
    } else if AtQueues(s.desk.at) {
      QueueAccess(s);
      AnswerUnchanged(s.desk, s'.desk, s.pushed);
    } else {
      AnswerDeskStep(s.desk, s.pushed, c, step.starts, step.uninitialized, step.next);
    }
  }

  lemma AnswerPush(d: Desk, pushed: seq<Request>, pushed': seq<Request>, c: int)
    requires AnswerInv(d, pushed) && OwnInv(d, pushed, c) && pushed <= pushed'
    ensures AnswerInv(d, pushed')
  {
    forall n: nat
      ensures Balanced(d, pushed', n)
    {
      assert Balanced(d, pushed, n);
    }
  }
}
