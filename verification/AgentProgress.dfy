/** Left alone, the agent answers everything it has accepted. No fairness is assumed: between two
    events from outside, the threads of the agent can only take finitely many steps, and they
    stop only when nothing is pending. */
module AgentProgress {
  import opened Recency
  import opened AgentTypes
  import opened AgentProtocol
  import opened AgentRegistry
  import opened AgentOwnership
  import opened AgentAnswers
  import opened AgentInbox
  import opened AgentSafety

  /** The steps of the agent's own threads, the talker excepted. */
  predicate Internal(step: Step) {
    step.Agent? || step.UIPost? || step.UIFinish?
  }

  function WaitingIds(d: Desk): set<RequestId> {
    set id | id in d.uis && d.uis[id].phase == Waiting
  }

  function UnfinishedIds(d: Desk): set<RequestId> {
    set id | id in d.uis && d.uis[id].phase != Finished
  }

  /** The work ahead: a request in the queue or in hand can become a waiting thread, and a waiting
      thread a response. */
  function Work(s: State): nat {
    3 * |s.requests| + 2 * |WaitingIds(s.desk)| + |s.responses| + InHandWork(s.desk.at)
  }

  function InHandWork(at: Location): nat {
    if at.GotRequest? then 3 else if at.GotResponse? then 1 else 0
  }

  /** How far the agent thread is from the next pop. */
  function Rank(at: Location): nat {
    match at
    case Registering(r) => 7
    case Dismissing(id, cancel) => 7
    case NextResponse => 6
    case Cleaning(todo) => 5
    case Looping => 4
    case Idle => 3
    case GotRequest(r) => 2
    case GotResponse(r) => 2
    case Leaving => 2
    case Reaping(todo, clean) => 1
    case _ => 0
  }

  function Todo(at: Location): set<RequestId> {
    match at
    case Cleaning(todo) => todo
    case Reaping(todo, clean) => todo
    case _ => {}
  }

  predicate FourLess(a: (nat, nat, nat, nat), b: (nat, nat, nat, nat)) {
    || a.0 < b.0
    || (a.0 == b.0 && (|| a.1 < b.1
                       || (a.1 == b.1 && (a.2 < b.2 || (a.2 == b.2 && a.3 < b.3)))))
  }

  function Measure(s: State): (nat, nat, nat, nat) {
    (Work(s), |UnfinishedIds(s.desk)|, Rank(s.desk.at), |Todo(s.desk.at)|)
  }

  // ------------------------------------------------------------------ each step

  lemma QueueProgress(s: State)
    requires AtQueues(s.desk.at) && AgentEnabled(s, 0)
    ensures FourLess(Measure(QueueStep(s)), Measure(s))
    ensures Work(QueueStep(s)) <= Work(s)
  {
    QueueAccess(s);
    assert WaitingIds(QueueStep(s).desk) == WaitingIds(s.desk);
    assert UnfinishedIds(QueueStep(s).desk) == UnfinishedIds(s.desk);
  }

  /** Only the user interface `id` differs. */
  ghost predicate Besides(d: Desk, d': Desk, id: RequestId) {
    forall i | i != id ::
      (i in d'.uis <==> i in d.uis) && (i in d.uis ==> d'.uis[i].phase == d.uis[i].phase)
  }

  lemma PhasesBesides(d: Desk, d': Desk, id: RequestId)
    requires Besides(d, d', id)
    ensures WaitingIds(d') - {id} == WaitingIds(d) - {id}
    ensures UnfinishedIds(d') - {id} == UnfinishedIds(d) - {id}
  {
    forall i | i != id
      ensures i in WaitingIds(d') <==> i in WaitingIds(d)
      ensures i in UnfinishedIds(d') <==> i in UnfinishedIds(d)
    {
    }
  }

  lemma DismissProgress(d: Desk, id: RequestId)
    requires id in d.uis
    ensures WaitingIds(Dismiss(d, id)) == WaitingIds(d)
    ensures UnfinishedIds(Dismiss(d, id)) == UnfinishedIds(d)
  {
    PhasesBesides(d, Dismiss(d, id), id);
    assert id in WaitingIds(Dismiss(d, id)) <==> id in WaitingIds(d);
    assert id in UnfinishedIds(Dismiss(d, id)) <==> id in UnfinishedIds(d);
    SameBesides(WaitingIds(Dismiss(d, id)), WaitingIds(d), id);
    SameBesides(UnfinishedIds(Dismiss(d, id)), UnfinishedIds(d), id);
  }

  lemma SameBesides<T>(a: set<T>, b: set<T>, x: T)
    requires a - {x} == b - {x} && (x in a <==> x in b)
    ensures a == b
  {
    forall y
      ensures y in a <==> y in b
    {
      assert y != x ==> (y in a <==> y in a - {x}) && (y in b <==> y in b - {x});
    }
  }

  lemma CollectProgress(d: Desk, next: RequestId)
    requires next in d.uis
    ensures WaitingIds(Collect(d, next)) == WaitingIds(d)
    ensures UnfinishedIds(Collect(d, next)) == UnfinishedIds(d)
  {
    if d.uis[next].dismissing {
      DismissProgress(d, next);
    }
  }

  /** What a handler leaves of the work on the desk. */
  function DeskWork(d: Desk): nat {
    2 * |WaitingIds(d)| + InHandWork(d.at)
  }

  lemma StartProgress(d: Desk, u: nat)
    requires d.at.GotRequest? && d.at.request.id !in d.uis
    ensures var r := d.at.request;
      |WaitingIds(d.(uis := d.uis[r.id := NewUI(r, u)]))| == |WaitingIds(d)| + 1
  {
    var r := d.at.request;
    var d' := d.(uis := d.uis[r.id := NewUI(r, u)]);
    PhasesBesides(d, d', r.id);
    assert WaitingIds(d') == WaitingIds(d) + {r.id};
  }

  lemma RequestProgress(d: Desk, starts: bool, u: nat)
    requires d.at.GotRequest?
    ensures DeskWork(ProcessRequest(d, d.at.request, starts, u)) < DeskWork(d)
  {
    var r, d' := d.at.request, ProcessRequest(d, d.at.request, starts, u);
    if d'.at.Registering? {
      StartProgress(d, u);
      assert WaitingIds(d') == WaitingIds(d.(uis := d'.uis));
    } else {
      assert WaitingIds(d') == WaitingIds(d);
    }
  }

  lemma ResponseProgress(d: Desk)
    requires d.at.GotResponse?
    ensures DeskWork(ProcessResponse(d, d.at.response)) < DeskWork(d)
  {
    assert WaitingIds(ProcessResponse(d, d.at.response)) == WaitingIds(d);
  }

  /** The other moves of the agent thread leave the work alone and come closer to the next pop. */
  ghost predicate Closer(d: Desk, d': Desk) {
    && DeskWork(d') == DeskWork(d) && UnfinishedIds(d') == UnfinishedIds(d)
    && (Rank(d'.at) < Rank(d.at) || (Rank(d'.at) == Rank(d.at) && |Todo(d'.at)| < |Todo(d.at)|))
  }

  lemma DismissedCloser(d: Desk)
    requires d.at.Dismissing?
    ensures Closer(d, Dismissed(DismissUI(d, d.at.id), d.at.cancel))
  {
    var d1 := DismissUI(d, d.at.id);
    if d.at.id in d.uis {
      DismissProgress(d, d.at.id);
    }
    assert WaitingIds(Dismissed(d1, d.at.cancel)) == WaitingIds(d1);
    assert UnfinishedIds(Dismissed(d1, d.at.cancel)) == UnfinishedIds(d1);
  }

  lemma ReapingCloser(d: Desk, starts: bool, u: nat, next: RequestId)
    requires d.at.Cleaning? || d.at.Reaping?
    requires d.at.todo != {} ==> next in d.at.todo && next in d.uis
    ensures Closer(d, DeskStep(d, starts, u, next))
  {
    var d' := DeskStep(d, starts, u, next);
    if d.at.todo != {} {
      CollectProgress(d, next);
      SubsetSize(d.at.todo - {next}, d.at.todo);
      assert WaitingIds(d') == WaitingIds(Collect(d, next));
      assert UnfinishedIds(d') == UnfinishedIds(Collect(d, next));
    } else {
      assert WaitingIds(d') == WaitingIds(d) && UnfinishedIds(d') == UnfinishedIds(d);
    }
  }

  lemma RegisterCloser(d: Desk)
    requires d.at.Registering?
    ensures Closer(d, Register(d, d.at.request))
  {
    var d' := Register(d, d.at.request);
    assert WaitingIds(d') == WaitingIds(d) && UnfinishedIds(d') == UnfinishedIds(d);
  }

  lemma DeskProgress(d: Desk, starts: bool, u: nat, next: RequestId)
    requires !AtQueues(d.at) && !Over(d)
    requires (d.at.Cleaning? || d.at.Reaping?) && d.at.todo != {} ==>
      next in d.at.todo && next in d.uis
    ensures var d' := DeskStep(d, starts, u, next);
      DeskWork(d') < DeskWork(d) || Closer(d, d')
    ensures d.at.GotRequest? || d.at.GotResponse? ==>
      DeskWork(DeskStep(d, starts, u, next)) < DeskWork(d)
  {
    match d.at
    case GotRequest(r) => RequestProgress(d, starts, u);
    case GotResponse(r) => ResponseProgress(d);
    case Registering(r) => RegisterCloser(d);
    case Dismissing(id, cancel) => DismissedCloser(d);
    case Cleaning(todo) => ReapingCloser(d, starts, u, next);
    case Reaping(todo, clean) => ReapingCloser(d, starts, u, next);
  }

  lemma PostedIds(d: Desk, id: RequestId)
    requires id in d.uis && d.uis[id].phase == Waiting
    ensures |WaitingIds(Advance(d, id, Posted))| == |WaitingIds(d)| - 1
  {
    PhasesBesides(d, Advance(d, id, Posted), id);
    assert WaitingIds(Advance(d, id, Posted)) == WaitingIds(d) - {id};
  }

  lemma FinishedIds(d: Desk, id: RequestId)
    requires id in d.uis && d.uis[id].phase == Posted
    ensures WaitingIds(Advance(d, id, Finished)) == WaitingIds(d)
    ensures |UnfinishedIds(Advance(d, id, Finished))| == |UnfinishedIds(d)| - 1
  {
    PhasesBesides(d, Advance(d, id, Finished), id);
    assert WaitingIds(Advance(d, id, Finished)) == WaitingIds(d);
    assert UnfinishedIds(Advance(d, id, Finished)) == UnfinishedIds(d) - {id};
  }

  lemma UIProgress(s: State, step: Step)
    requires Enabled(s, step) && (step.UIPost? || step.UIFinish?)
    ensures FourLess(Measure(Apply(s, step)), Measure(s))
    ensures Work(Apply(s, step)) <= Work(s) && (step.UIPost? ==> Work(Apply(s, step)) < Work(s))
  {
    if step.UIPost? {
      PostedIds(s.desk, step.ui);
    } else {
      FinishedIds(s.desk, step.ui);
    }
    hide WaitingIds, UnfinishedIds;
  }

  /** Whether a step is a handler taking up an item, or a thread posting. */
  predicate Handles(s: State, step: Step) {
    step.UIPost? || (step.Agent? && (s.desk.at.GotRequest? || s.desk.at.GotResponse?))
  }

  /** Every step of the agent's own threads brings the measure down; every item handled and every
      response posted brings down the work. */
  lemma Progress(s: State, step: Step)
    requires Enabled(s, step) && Internal(step)
    ensures FourLess(Measure(Apply(s, step)), Measure(s))
    ensures Work(Apply(s, step)) <= Work(s)
    ensures Handles(s, step) ==> Work(Apply(s, step)) < Work(s)
  {
    if !step.Agent? {
      UIProgress(s, step);
    } else if AtQueues(s.desk.at) {
      QueueProgress(s);
    } else {
      DeskProgress(s.desk, step.starts, step.uninitialized, step.next);
    }
  }

  // ------------------------------------------------------------------ whole runs

  ghost predicate InternalRun(s: State, steps: seq<Step>) {
    Allowed(s, steps) && forall i | 0 <= i < |steps| :: Internal(steps[i])
  }

  /** How many items are handled and responses posted in a run. */
  ghost function Handled(s: State, steps: seq<Step>): nat
    requires Allowed(s, steps)
    decreases |steps|
  {
    if steps == [] then 0
    else (if Handles(s, steps[0]) then 1 else 0) + Handled(Apply(s, steps[0]), steps[1..])
  }

  /** Without new events no more is handled than there was work. */
  lemma {:induction false} BoundedWork(s: State, steps: seq<Step>)
    requires InternalRun(s, steps)
    ensures Handled(s, steps) + Work(After(s, steps)) <= Work(s)
    decreases |steps|
  {
    if steps == [] {
    } else {
      Progress(s, steps[0]);
      assert forall i | 0 <= i < |steps[1..]| :: steps[1..][i] == steps[i + 1];
      BoundedWork(Apply(s, steps[0]), steps[1..]);
    }
  }

  ghost predicate Continues(s: State, s': State) {
    exists step :: Internal(step) && Enabled(s, step) && s' == Apply(s, step)
  }

  lemma ContinuesDown(s: State, s': State)
    requires Continues(s, s')
    ensures FourLess(Measure(s'), Measure(s))
  {
    var step :| Internal(step) && Enabled(s, step) && s' == Apply(s, step);
    Progress(s, step);
  }

  /** There is no infinite descent. */
  lemma {:induction false} EndOfDescent(m: nat -> (nat, nat, nat, nat), i: nat) returns (k: nat)
    ensures !FourLess(m(k + 1), m(k))
    decreases m(i).0, m(i).1, m(i).2, m(i).3
  {
    if FourLess(m(i + 1), m(i)) {
      k := EndOfDescent(m, i + 1);
    } else {
      k := i;
    }
  }

  /** The agent cannot run for ever without new events: no infinite sequence of states is a run
      of its own threads only. */
  lemma NoEndlessRun(states: nat -> State)
    ensures exists k: nat :: !Continues(states(k), states(k + 1))
  {
    var k := EndOfDescent(i => Measure(states(i)), 0);
    if Continues(states(k), states(k + 1)) {
      ContinuesDown(states(k), states(k + 1));
    }
  }

  ghost predicate Stuck(s: State) {
    forall step | Internal(step) :: !Enabled(s, step)
  }

  predicate Resting(s: State) {
    s.desk.at == Idle && s.requests == [] && s.responses == []
  }

  /** Anywhere else the agent thread can go on. */
  lemma SomeStep(s: State) returns (step: Step)
    requires RegistryInv(s.desk) && !Over(s.desk) && !Resting(s)
    ensures Internal(step) && Enabled(s, step)
  {
    step := Agent(false, 0, 0);
    if Todo(s.desk.at) != {} {
      var next :| next in Todo(s.desk.at);
      step := Agent(false, 0, next);
    }
  }

  /** A pending request always has a thread that can still report. */
  lemma PendingCanPost(s: State, id: RequestId)
    requires Reachable(s) && Resting(s) && id in s.desk.pending
    ensures Enabled(s, UIPost(id, URT_TIMEOUT))
  {
    NeverStranded(s, id);
  }

  /** When there is no work left, nothing is pending, and all that was accepted is answered. */
  lemma NoWorkNothingPending(s: State)
    requires Reachable(s) && Work(s) == 0
    ensures s.desk.pending == map[] && !s.desk.at.Registering?
    ensures forall n: nat :: TimesAccepted(s.desk.log, n) == TimesSent(s.desk.log, n)
    ensures forall id: RequestId :: AcceptedCount(s.desk.log, id) == SentCount(s.desk.log, id)
  {
    InvReachable(s);
    assert Inbox(s) == [];
    assert forall id | id in s.desk.pending :: Live(s.desk, id, s.desk.pending[id].serial);
    forall id | id in s.desk.uis
      ensures !OpenId(s.desk, id)
    {
      assert id !in WaitingIds(s.desk);
    }
    assert forall id | id in s.desk.pending :: OpenId(s.desk, id);
    assert s.desk.at.Registering? ==> OpenId(s.desk, s.desk.at.request.id);
    AllSettled(s);
  }

  lemma AllSettled(s: State)
    requires Inv(s) && forall id :: !OpenId(s.desk, id)
    ensures forall n: nat :: TimesAccepted(s.desk.log, n) == TimesSent(s.desk.log, n)
    ensures forall id: RequestId :: AcceptedCount(s.desk.log, id) == SentCount(s.desk.log, id)
  {
    forall n: nat
      ensures TimesAccepted(s.desk.log, n) == TimesSent(s.desk.log, n)
    {
      assert Balanced(s.desk, s.pushed, n);
      assert s.desk.at.Registering? ==> OpenId(s.desk, s.desk.at.request.id);
      assert IsPending(s.desk, s.pushed, n) ==> OpenId(s.desk, s.pushed[n].id);
    }
    forall id: RequestId
      ensures AcceptedCount(s.desk.log, id) == SentCount(s.desk.log, id)
    {
      assert BalancedId(s.desk, id);
    }
  }

  /** When its threads stop, nothing is pending and every accepted request has been answered. */
  lemma StuckIsDone(s: State)
    requires Reachable(s) && !Over(s.desk) && Stuck(s)
    ensures s.desk.at == Idle && s.requests == [] && s.responses == []
    ensures s.desk.pending == map[]
    ensures forall n :: TimesAccepted(s.desk.log, n) == TimesSent(s.desk.log, n)
    ensures forall id :: AcceptedCount(s.desk.log, id) == SentCount(s.desk.log, id)
  {
    InvReachable(s);
    if !Resting(s) {
      var step := SomeStep(s);
    }
    forall id
      ensures id !in s.desk.pending
    {
      if id in s.desk.pending {
        PendingCanPost(s, id);
      }
    }
    AllSettled(s);
  }

  /** From every reachable state the agent's own threads can come to rest; `NoEndlessRun` says that
      they do, whatever they do. */
  lemma {:induction false} ComesToRest(s: State) returns (steps: seq<Step>)
    requires Reachable(s)
    ensures InternalRun(s, steps)
    ensures Over(After(s, steps).desk) || Stuck(After(s, steps))
    decreases Measure(s).0, Measure(s).1, Measure(s).2, Measure(s).3
  {
    if step :| Internal(step) && Enabled(s, step) {
      Progress(s, step);
      OneStep(s, step);
      ReachesTransitive(INITIAL, s, Apply(s, step));
      var more := ComesToRest(Apply(s, step));
      steps := [step] + more;
      assert steps[1..] == more;
    } else {
      steps := [];
    }
  }
}
