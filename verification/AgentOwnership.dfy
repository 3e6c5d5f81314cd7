/** Where every request is, from its allocation to its deletion. */
module AgentOwnership {
  import opened Recency
  import opened AgentTypes
  import opened AgentProtocol
  import opened AgentQueue
  import opened AgentRegistry

  /** The request the agent thread has popped and not yet handed on. */
  function Hand(at: Location): Option<Request> {
    match at
    case GotRequest(r) => Some(r)
    case Registering(r) => Some(r)
    case Dismissing(id, cancel) => cancel
    case _ => None
  }

  predicate InHand(d: Desk, n: nat) {
    Hand(d.at).Some? && Hand(d.at).value.serial == n
  }

  predicate IsPending(d: Desk, pushed: seq<Request>, n: nat) {
    n < |pushed| && pushed[n].id in d.pending && d.pending[pushed[n].id].serial == n
  }

  /** In how many places a request is: in hand, in m_requests, deleted (once for each time). */
  function Places(d: Desk, pushed: seq<Request>, n: nat): nat {
    d.log.freed[n] + (if InHand(d, n) then 1 else 0) + if IsPending(d, pushed, n) then 1 else 0
  }

  ghost predicate Known(r: Request, pushed: seq<Request>, consumed: int) {
    r.serial < consumed <= |pushed| && pushed[r.serial] == r
  }

  /** Every request that left the queue is in exactly one place, and the others in none. When the
      program is terminated the request in hand is lost. */
  ghost predicate OwnInv(d: Desk, pushed: seq<Request>, consumed: int) {
    && 0 <= consumed <= |pushed|
    && (Hand(d.at).Some? ==> Known(Hand(d.at).value, pushed, consumed))
    && (forall id | id in d.pending :: d.pending[id].id == id && Known(d.pending[id], pushed, consumed))
    && (forall n: nat :: Places(d, pushed, n) <= if n < consumed then 1 else 0)
    && (!d.at.Terminated? ==>
          forall n: nat :: Places(d, pushed, n) == if n < consumed then 1 else 0)
  }

  lemma OwnProcessRequest(d: Desk, pushed: seq<Request>, c: int, starts: bool, u: nat)
    requires OwnInv(d, pushed, c) && d.at.GotRequest?
    ensures OwnInv(ProcessRequest(d, d.at.request, starts, u), pushed, c)
  {
    var r, d' := d.at.request, ProcessRequest(d, d.at.request, starts, u);
    assert Places(d, pushed, r.serial) == 1;
    if r.id in d.pending {
      assert Places(d, pushed, d.pending[r.id].serial) == 1;
    }
    forall n: nat
      ensures Places(d', pushed, n) <= Places(d, pushed, n)
      ensures !d'.at.Terminated? ==> Places(d', pushed, n) == Places(d, pushed, n)
    {
    }
  }

  lemma OwnRegister(d: Desk, pushed: seq<Request>, c: int)
    requires OwnInv(d, pushed, c) && d.at.Registering? && d.at.request.id !in d.pending
    ensures OwnInv(Register(d, d.at.request), pushed, c)
  {
    var d' := Register(d, d.at.request);
    forall n: nat
      ensures Places(d', pushed, n) == Places(d, pushed, n)
    {
    }
  }

  lemma OwnProcessResponse(d: Desk, pushed: seq<Request>, c: int)
    requires OwnInv(d, pushed, c) && d.at.GotResponse?
    ensures OwnInv(ProcessResponse(d, d.at.response), pushed, c)
  {
    var d' := ProcessResponse(d, d.at.response);
    forall n: nat
      ensures Places(d', pushed, n) == Places(d, pushed, n)
    {
    }
  }

  lemma OwnDismissed(d: Desk, pushed: seq<Request>, c: int)
    requires OwnInv(d, pushed, c) && d.at.Dismissing?
    ensures OwnInv(Dismissed(d, d.at.cancel), pushed, c)
  {
    var d' := Dismissed(d, d.at.cancel);
    forall n: nat
      ensures Places(d', pushed, n) == Places(d, pushed, n)
    {
    }
  }

  /** Nothing about a user interface, and no move that keeps the same hand, matters here. */
  lemma OwnUnchanged(d: Desk, d': Desk, pushed: seq<Request>, c: int)
    requires OwnInv(d, pushed, c)
    requires d'.pending == d.pending && d'.log.freed == d.log.freed
    requires Hand(d'.at) == Hand(d.at) && (d.at.Terminated? ==> d'.at.Terminated?)
    ensures OwnInv(d', pushed, c)
  {
    forall n: nat
      ensures Places(d', pushed, n) == Places(d, pushed, n)
    {
    }
  }

  lemma OwnExit(d: Desk, pushed: seq<Request>, c: int, clean: bool)
    requires OwnInv(d, pushed, c) && d.at.Reaping?
    ensures OwnInv(Exit(d, clean), pushed, c)
  {
    var d' := Exit(d, clean);
    forall n: nat
      ensures Places(d', pushed, n) == Places(d, pushed, n)
    {
      assert n in PendingSerials(d) <==> IsPending(d, pushed, n);
    }
  }

  lemma OwnDismiss(d: Desk, pushed: seq<Request>, c: int)
    requires OwnInv(d, pushed, c) && d.at.Dismissing?
    ensures OwnInv(Dismissed(DismissUI(d, d.at.id), d.at.cancel), pushed, c)
  {
    OwnUnchanged(d, DismissUI(d, d.at.id), pushed, c);
    OwnDismissed(DismissUI(d, d.at.id), pushed, c);
  }

  lemma OwnReap(d: Desk, pushed: seq<Request>, c: int, starts: bool, u: nat, next: RequestId)
    requires OwnInv(d, pushed, c) && d.at.Reaping?
    requires d.at.todo != {} ==> next in d.uis
    ensures OwnInv(DeskStep(d, starts, u, next), pushed, c)
  {
    if d.at.todo == {} {
      OwnExit(d, pushed, c, d.at.clean);
    } else {
      OwnUnchanged(d, DeskStep(d, starts, u, next), pushed, c);
    }
  }

  lemma OwnDeskStep(d: Desk, pushed: seq<Request>, c: int, starts: bool, u: nat, next: RequestId)
    requires OwnInv(d, pushed, c) && RegistryInv(d) && !AtQueues(d.at) && !Over(d)
    requires (d.at.Cleaning? || d.at.Reaping?) && d.at.todo != {} ==> next in d.uis
    ensures OwnInv(DeskStep(d, starts, u, next), pushed, c)
  {
    match d.at
    case GotRequest(r) => OwnProcessRequest(d, pushed, c, starts, u);
    case Registering(r) => OwnRegister(d, pushed, c);
    case GotResponse(r) => OwnProcessResponse(d, pushed, c);
    case Dismissing(id, cancel) => OwnDismiss(d, pushed, c);
    case Cleaning(todo) => OwnUnchanged(d, DeskStep(d, starts, u, next), pushed, c);
    case Reaping(todo, clean) => OwnReap(d, pushed, c, starts, u, next);
  }

  lemma OwnPop(d: Desk, pushed: seq<Request>, c: nat)
    requires OwnInv(d, pushed, c) && Hand(d.at) == None && !d.at.Terminated?
    requires c < |pushed| && pushed[c].serial == c
    ensures OwnInv(d.(at := GotRequest(pushed[c])), pushed, c + 1)
  {
    var d' := d.(at := GotRequest(pushed[c]));
    forall n: nat
      ensures Places(d', pushed, n) == if n < c + 1 then 1 else 0
    {
      assert Places(d, pushed, n) == if n < c then 1 else 0;
    }
  }

  lemma OwnStopTalker(s: State)
    requires QueueInv(s) && OwnInv(s.desk, s.pushed, Consumed(s))
    requires s.desk.at.Leaving? && s.talker == Done
    ensures OwnInv(StopTalker(s).desk, s.pushed, |s.pushed|)
  {
    var d, d', c := s.desk, StopTalker(s).desk, Consumed(s);
    forall n: nat
      ensures Places(d', s.pushed, n) == if n < |s.pushed| then 1 else 0
    {
      assert Places(d, s.pushed, n) == if n < c then 1 else 0;
      SerialsOfSuffix(s.pushed, c, n);
    }
  }

  lemma OwnQueueStep(s: State)
    requires QueueInv(s) && OwnInv(s.desk, s.pushed, Consumed(s))
    requires AtQueues(s.desk.at) && AgentEnabled(s, 0)
    ensures OwnInv(QueueStep(s).desk, s.pushed, Consumed(QueueStep(s)))
  {
    if s.desk.at.Leaving? && s.talker == Done {
      OwnStopTalker(s);
    } else if QueueStep(s).desk.at.GotRequest? {
      assert s.requests[0] == s.pushed[Consumed(s)];
      OwnPop(s.desk, s.pushed, Consumed(s));
    } else {
      OwnNoPop(s);
    }
  }

  lemma OwnNoPop(s: State)
    requires OwnInv(s.desk, s.pushed, Consumed(s))
    requires AtQueues(s.desk.at) && AgentEnabled(s, 0)
    requires !QueueStep(s).desk.at.GotRequest? && !(s.desk.at.Leaving? && s.talker == Done)
    ensures OwnInv(QueueStep(s).desk, s.pushed, Consumed(QueueStep(s)))
  {
    if s.desk.at.Leaving? {
      OwnUnchanged(s.desk, QueueStep(s).desk, s.pushed, Consumed(s));
    } else {
      PopAccess(s);
      OwnUnchanged(s.desk, QueueStep(s).desk, s.pushed, Consumed(s));
    }
  }

  lemma {:induction false} SerialsOfSuffix(pushed: seq<Request>, c: nat, n: nat)
    requires c <= |pushed| && forall i | 0 <= i < |pushed| :: pushed[i].serial == i
    ensures multiset(Serials(pushed[c..]))[n] == if c <= n < |pushed| then 1 else 0
    decreases |pushed| - c
  {
    if c == |pushed| {
      assert Serials(pushed[c..]) == [];
    } else {
      SerialsOfSuffix(pushed, c + 1, n);
      assert Serials(pushed[c..]) == [c] + Serials(pushed[c + 1..]);
    }
  }

  lemma OwnInvStep(s: State, step: Step)
    requires QueueInv(s) && OwnInv(s.desk, s.pushed, Consumed(s)) && RegistryInv(s.desk)
    requires Enabled(s, step)
    ensures OwnInv(Apply(s, step).desk, Apply(s, step).pushed, Consumed(Apply(s, step)))
  {
    var s' := Apply(s, step);
    if step.Agent? && AtQueues(s.desk.at) {
      OwnQueueStep(s);
    } else if step.Agent? {
      OwnDeskStep(s.desk, s.pushed, Consumed(s), step.starts, step.uninitialized, step.next);
    } else {
      OtherThreads(s, step);
      OwnUnchanged(s.desk, s'.desk, s.pushed, Consumed(s));
      OwnPush(s'.desk, s.pushed, s'.pushed, Consumed(s));
    }
  }

  /** Requests still in the queue are in no other place, so pushing more makes no difference. */
  lemma OwnPush(d: Desk, pushed: seq<Request>, pushed': seq<Request>, c: int)
    requires OwnInv(d, pushed, c) && pushed <= pushed'
    ensures OwnInv(d, pushed', c)
  {
    forall n: nat
      ensures Places(d, pushed', n) == Places(d, pushed, n)
    {
    }
  }
}
