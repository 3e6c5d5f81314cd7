/** The agent as a transition system: the agent thread (src/agent/main/Agent.cpp), one thread for
    each user interface (src/agent/ui/AskUINotificationBackend.cpp) and the talker thread
    (src/agent/main/CynaraTalker.cpp), interleaved between any two accesses to what they share.
    Nothing is assumed about the order of messages or about request ids. */
module AgentProtocol {
  import opened Recency
  import opened Translator
  import opened AgentTypes

  /** How far the thread of a user interface is: waiting for the user, past its one callback,
      past `m_threadFinished`. */
  datatype Phase = Waiting | Posted | Finished

  datatype UI = UI(origin: nat, shown: RequestData, phase: Phase, dismissing: bool)

  /** A talker whose initialization fails returns without `m_threadFinished`. */
  datatype Talker = Starting | Receiving | Closing | Done | Failed

  /** Where the agent thread stands, with what it has popped and not yet dealt with. */
  datatype Location =
    | Idle                                              // waiting for `m_event`
    | Looping                                           // testing the inner loop
    | GotRequest(request: Request)                      // entering processCynaraRequest
    | Registering(request: Request)                     // UI started, m_requests not yet updated
    | NextResponse                                      // testing m_incomingResponses
    | GotResponse(response: Response)                   // entering processUIResponse
    | Dismissing(id: RequestId, cancel: Option<Request>) // entering dismissUI
    | Cleaning(todo: set<RequestId>)                    // in cleanupUIThreads
    | Leaving                                           // entering finish
    | Reaping(todo: set<RequestId>, clean: bool)        // in cleanupUIThreads called by finish
    | Exited
    | QuickExited
    | Terminated                                        // std::terminate

  /** What the agent thread did so far. */
  datatype Log = Log(
    accepted: seq<Request>,    // requests that got as far as startUIForRequest
    failed: set<nat>,          // those whose user interface did not start
    sent: seq<Sent>,           // calls of sendResponse
    freed: multiset<nat>,      // requests deleted
    started: multiset<nat>,    // requests whose user interface entered m_UIs
    joined: multiset<nat>)     // those whose UI thread was joined

  /** What only the agent thread uses, `stop` and the phases in `uis` excepted. */
  datatype Desk = Desk(
    at: Location,
    stop: bool,                        // m_stopFlag
    pending: map<RequestId, Request>,  // m_requests
    uis: map<RequestId, UI>,           // m_UIs
    log: Log)

  datatype State = State(
    talker: Talker,
    received: seq<Message>,            // messages the talker got
    pushed: seq<Request>,              // requests it allocated, the closing one included
    requests: seq<Request>,            // m_incomingRequests
    responses: seq<Response>,          // m_incomingResponses
    posted: map<nat, UIResponseType>,  // what each UI thread reported
    desk: Desk)

  const INITIAL := State(Starting, [], [], [], [], map[],
                         Desk(Idle, false, map[], map[],
                              Log([], {}, [], multiset{}, multiset{}, multiset{})))

  // ---------------------------------------------------------------- the talker

  function Push(s: State, kind: RequestType, id: RequestId, data: string): State {
    var request := Request(kind, id, data, |s.pushed|);
    s.(requests := s.requests + [request], pushed := s.pushed + [request])
  }

  function Initialize(s: State, ok: bool): State {
    if ok then s.(talker := Receiving) else Push(s, RT_Close, 0, "").(talker := Failed)
  }

  function Receive(s: State, message: Message): State {
    var s' := if Supported(message) then Push(s, AgentType(message.kind), message.id, message.data)
              else s;
    s'.(received := s.received + [message])
  }

  function LoseConnection(s: State): State {
    Push(s, RT_Close, 0, "").(talker := Closing)
  }

  // ------------------------------------------------------------- the UI threads

  function Advance(d: Desk, id: RequestId, phase: Phase): Desk
    requires id in d.uis
  {
    d.(uis := d.uis[id := d.uis[id].(phase := phase)])
  }

  function Post(s: State, id: RequestId, kind: UIResponseType): State
    requires id in s.desk.uis
  {
    var origin := s.desk.uis[id].origin;
    s.(responses := s.responses + [Response(id, kind, origin)],
       posted := s.posted[origin := kind],
       desk := Advance(s.desk, id, Posted))
  }

  // ----------------------------------------------------------- the agent thread

  /** Pops a request if there is one, a response otherwise; the lock is held from the test. */
  function Pop(s: State): State
    requires s.requests != [] || s.responses != []
  {
    if s.requests != []
    then s.(requests := s.requests[1..], desk := s.desk.(at := GotRequest(s.requests[0])))
    else PopResponse(s)
  }

  function PopResponse(s: State): State
    requires s.responses != []
  {
    s.(responses := s.responses[1..], desk := s.desk.(at := GotResponse(s.responses[0])))
  }

  function Free(log: Log, request: Request): Log {
    log.(freed := log.freed + multiset{request.serial})
  }

  /** A request is answered and deleted. */
  function Settle(log: Log, kind: RequestType, data: string, request: Request): Log {
    log.(sent := log.sent + [Sent(kind, request.id, data, request.serial)],
         freed := log.freed + multiset{request.serial})
  }

  /** `processCynaraRequest` up to the first access to another thread's data. `starts` is the
      outcome of starting the user interface, `uninitialized` the garbage `dataToRequest` starts
      with. Starting a user interface for an id that m_UIs still holds destroys a joinable
      thread. */
  function ProcessRequest(d: Desk, r: Request, starts: bool, uninitialized: nat): Desk {
    if r.kind == RT_Close then
      d.(stop := true, at := Idle, log := Free(d.log, r))
    else if r.id in d.pending then
      if r.kind == RT_Cancel then
        d.(pending := d.pending - {r.id}, at := Dismissing(r.id, Some(r)),
           log := Settle(d.log, RT_Cancel, "", d.pending[r.id]))
      else
        d.(at := NextResponse, log := Free(d.log, r))
    else if r.kind == RT_Cancel then
      d.(at := NextResponse, log := Free(d.log, r))
    else if !starts then
      d.(at := NextResponse, log := StartFailed(d.log, r))
    else if r.id in d.uis then
      d.(at := Terminated)
    else
      d.(at := Registering(r), uis := d.uis[r.id := NewUI(r, uninitialized)],
         log := Started(d.log, r))
  }

  function NewUI(r: Request, uninitialized: nat): UI {
    UI(r.serial, Parsed(r.data, uninitialized), Waiting, false)
  }

  function StartFailed(log: Log, r: Request): Log {
    Settle(log, RT_Action, START_FAILED, r).(accepted := log.accepted + [r],
                                             failed := log.failed + {r.serial})
  }

  function Started(log: Log, r: Request): Log {
    log.(accepted := log.accepted + [r], started := log.started + multiset{r.serial})
  }

  /** `m_requests.insert`, which never overwrites. */
  function Register(d: Desk, r: Request): Desk {
    d.(pending := if r.id in d.pending then d.pending else d.pending[r.id := r],
       at := NextResponse)
  }

  function ProcessResponse(d: Desk, r: Response): Desk {
    if r.id in d.pending
    then d.(pending := d.pending - {r.id}, at := Dismissing(r.id, None),
            log := Settle(d.log, RT_Action, Answer(r.kind), d.pending[r.id]))
    else d.(at := Dismissing(r.id, None))
  }

  /** `AskUINotificationBackend::dismiss`, and what both its callers do with the result: a thread
      that has finished is joined, and its user interface removed. */
  function Dismiss(d: Desk, id: RequestId): Desk
    requires id in d.uis
  {
    if d.uis[id].phase == Finished
    then d.(uis := d.uis - {id},
            log := d.log.(joined := d.log.joined + multiset{d.uis[id].origin}))
    else d.(uis := d.uis[id := d.uis[id].(dismissing := true)])
  }

  function DismissUI(d: Desk, id: RequestId): Desk {
    if id in d.uis then Dismiss(d, id) else d
  }

  /** The rest of the handler that called `dismissUI`. */
  function Dismissed(d: Desk, cancel: Option<Request>): Desk {
    match cancel
    case Some(r) => d.(at := NextResponse, log := Free(d.log, r))
    case None => d.(at := Cleaning(d.uis.Keys))
  }

  /** One turn of the loop in `cleanupUIThreads`. */
  function Collect(d: Desk, id: RequestId): Desk
    requires id in d.uis
  {
    if d.uis[id].dismissing then Dismiss(d, id) else d
  }

  function Serials(requests: seq<Request>): seq<nat> {
    seq(|requests|, i requires 0 <= i < |requests| => requests[i].serial)
  }

  ghost function PendingSerials(d: Desk): set<nat> {
    set id | id in d.pending :: d.pending[id].serial
  }

  /** The rest of `finish`, once `cleanupUIThreads` is done. */
  ghost function Exit(d: Desk, clean: bool): Desk {
    if clean
    then d.(pending := map[], at := Exited,
            log := d.log.(freed := d.log.freed + multiset(PendingSerials(d))))
    else d.(at := QuickExited)
  }

  /** `finish` up to `cleanupUIThreads`. */
  function StopTalker(s: State): State {
    if s.talker != Done then s.(desk := s.desk.(at := QuickExited))
    else
      var log := s.desk.log;
      s.(requests := [],
         desk := s.desk.(at := Reaping(s.desk.uis.Keys, true),
                         log := log.(freed := log.freed + multiset(Serials(s.requests)))))
  }

  // ---------------------------------------------------------------------- steps

  datatype Step =
    | TalkerInitialize(ok: bool)
    | TalkerReceive(message: Message)
    | TalkerLoseConnection
    | TalkerEnd
    | Signal                                  // SIGTERM sets m_stopFlag
    | UIPost(ui: RequestId, kind: UIResponseType)
    | UIFinish(ui: RequestId)
    | Agent(starts: bool, uninitialized: nat, next: RequestId)

  predicate Over(d: Desk) {
    d.at.Exited? || d.at.QuickExited? || d.at.Terminated?
  }

  predicate AgentEnabled(s: State, next: RequestId) {
    match s.desk.at
    case Idle => s.desk.stop || s.requests != [] || s.responses != []
    case Cleaning(todo) => todo == {} || (next in todo && next in s.desk.uis)
    case Reaping(todo, clean) => todo == {} || (next in todo && next in s.desk.uis)
    case _ => true
  }

  predicate Enabled(s: State, step: Step) {
    && !Over(s.desk)
    && match step
       case TalkerInitialize(ok) => s.talker == Starting
       case TalkerReceive(message) => s.talker == Receiving
       case TalkerLoseConnection => s.talker == Receiving
       case TalkerEnd => s.talker == Closing
       case Signal => true
       case UIPost(id, kind) => id in s.desk.uis && s.desk.uis[id].phase == Waiting
       case UIFinish(id) => id in s.desk.uis && s.desk.uis[id].phase == Posted
       case Agent(starts, uninitialized, next) => AgentEnabled(s, next)
  }

  /** Whether the agent thread is about to touch a queue or the talker. */
  predicate AtQueues(at: Location) {
    at.Idle? || at.Looping? || at.NextResponse? || at.Leaving?
  }

  ghost function QueueStep(s: State): State
    requires AtQueues(s.desk.at) && AgentEnabled(s, 0)
  {
    match s.desk.at
    case Idle => if s.desk.stop then s.(desk := s.desk.(at := Leaving)) else Pop(s)
    case Looping =>
      if s.requests == [] && s.responses == [] then s.(desk := s.desk.(at := Idle)) else Pop(s)
    case NextResponse =>
      if s.responses == [] then s.(desk := s.desk.(at := Cleaning(s.desk.uis.Keys)))
      else PopResponse(s)
    case _ => StopTalker(s)
  }

  ghost function DeskStep(d: Desk, starts: bool, uninitialized: nat, next: RequestId): Desk
    requires !AtQueues(d.at)
    requires (d.at.Cleaning? || d.at.Reaping?) && d.at.todo != {} ==> next in d.uis
  {
    match d.at
    case GotRequest(r) => ProcessRequest(d, r, starts, uninitialized)
    case Registering(r) => Register(d, r)
    case GotResponse(r) => ProcessResponse(d, r)
    case Dismissing(id, cancel) => Dismissed(DismissUI(d, id), cancel)
    case Cleaning(todo) =>
      if todo == {} then d.(at := Looping)
      else Collect(d, next).(at := Cleaning(todo - {next}))
    case Reaping(todo, clean) =>
      if todo == {} then Exit(d, clean)
      else
        var d' := Collect(d, next);
        d'.(at := Reaping(todo - {next}, clean && next !in d'.uis))
    case _ => d
  }

  ghost function Apply(s: State, step: Step): State
    requires Enabled(s, step)
  {
    match step
    case TalkerInitialize(ok) => Initialize(s, ok)
    case TalkerReceive(message) => Receive(s, message)
    case TalkerLoseConnection => LoseConnection(s)
    case TalkerEnd => s.(talker := Done)
    case Signal => s.(desk := s.desk.(stop := true))
    case UIPost(id, kind) => Post(s, id, kind)
    case UIFinish(id) => s.(desk := Advance(s.desk, id, Finished))
    case Agent(starts, uninitialized, next) =>
      if AtQueues(s.desk.at) then QueueStep(s)
      else s.(desk := DeskStep(s.desk, starts, uninitialized, next))
  }

  /** What the other threads leave alone on the desk of the agent. */
  ghost predicate SameDesk(d: Desk, d': Desk) {
    && d'.at == d.at && d'.pending == d.pending && d'.log == d.log
    && d'.uis.Keys == d.uis.Keys
    && forall id | id in d.uis ::
         d'.uis[id].(phase := Waiting) == d.uis[id].(phase := Waiting)
  }

  lemma OtherThreads(s: State, step: Step)
    requires Enabled(s, step) && !step.Agent?
    ensures var s' := Apply(s, step);
      && SameDesk(s.desk, s'.desk)
      && s.pushed <= s'.pushed && |s'.pushed| - |s.pushed| == |s'.requests| - |s.requests|
  {
  }

  lemma PopAccess(s: State)
    requires AtQueues(s.desk.at) && !s.desk.at.Leaving? && AgentEnabled(s, 0)
    ensures var s' := QueueStep(s);
      && s' == s.(requests := s'.requests, responses := s'.responses,
                  desk := s.desk.(at := s'.desk.at))
      && (|| s'.desk.at.Idle? || s'.desk.at.Leaving? || s'.desk.at.GotRequest?
          || s'.desk.at.GotResponse? || s'.desk.at == Cleaning(s.desk.uis.Keys))
  {
  }

  lemma StopAccess(s: State)
    ensures var s' := StopTalker(s);
      && s' == s.(requests := s'.requests, desk := s'.desk)
      && s'.desk == s.desk.(at := s'.desk.at,
                            log := s.desk.log.(freed := s'.desk.log.freed))
      && s.desk.log.freed <= s'.desk.log.freed
      && (s'.desk.at.QuickExited? || s'.desk.at == Reaping(s.desk.uis.Keys, true))
  {
  }

  /** What dismissing a user interface leaves alone. */
  lemma DismissAccess(d: Desk, id: RequestId)
    ensures var d' := DismissUI(d, id);
      d' == d.(uis := d'.uis, log := d.log.(joined := d'.log.joined))
  {
  }

  /** What the queue tests and pops leave alone. */
  lemma QueueAccess(s: State)
    requires AtQueues(s.desk.at) && AgentEnabled(s, 0)
    ensures var s' := QueueStep(s);
      && s'.desk.pending == s.desk.pending && s'.desk.uis == s.desk.uis
      && s'.pushed == s.pushed && s'.posted == s.posted
      && s'.desk.log == s.desk.log.(freed := s'.desk.log.freed)
      && s.desk.log.freed <= s'.desk.log.freed
      && !s'.desk.at.Registering? && !s'.desk.at.Dismissing? && !s'.desk.at.Exited?
      && (s'.desk.at.Cleaning? ==> s'.desk.at.todo == s.desk.uis.Keys)
      && (s'.desk.at.Reaping? ==> s'.desk.at == Reaping(s.desk.uis.Keys, true))
  {
    if s.desk.at.Leaving? {
      StopAccess(s);
    } else {
      PopAccess(s);
    }
  }

  // ----------------------------------------------------------------------- runs

  ghost predicate Allowed(s: State, steps: seq<Step>)
    decreases |steps|
  {
    steps == [] || (Enabled(s, steps[0]) && Allowed(Apply(s, steps[0]), steps[1..]))
  }

  ghost function After(s: State, steps: seq<Step>): State
    requires Allowed(s, steps)
    decreases |steps|
  {
    if steps == [] then s else After(Apply(s, steps[0]), steps[1..])
  }

  ghost predicate Reaches(s: State, s': State) {
    exists steps :: Allowed(s, steps) && After(s, steps) == s'
  }

  ghost predicate Reachable(s: State) {
    Reaches(INITIAL, s)
  }

  lemma {:induction false} RunsCompose(s: State, first: seq<Step>, second: seq<Step>)
    requires Allowed(s, first) && Allowed(After(s, first), second)
    ensures Allowed(s, first + second) && After(s, first + second) == After(After(s, first), second)
    decreases |first|
  {
    var all := first + second;
    if first == [] {
      assert all == second;
    } else {
      assert all[0] == first[0] && all[1..] == first[1..] + second;
      RunsCompose(Apply(s, first[0]), first[1..], second);
    }
  }

  lemma ReachesTransitive(a: State, b: State, c: State)
    requires Reaches(a, b) && Reaches(b, c)
    ensures Reaches(a, c)
  {
    var first :| Allowed(a, first) && After(a, first) == b;
    var second :| Allowed(b, second) && After(b, second) == c;
    RunsCompose(a, first, second);
  }

  lemma OneStep(s: State, step: Step)
    requires Enabled(s, step)
    ensures Reaches(s, Apply(s, step))
  {
    assert [step][1..] == [];
    assert Allowed(s, [step]) && After(s, [step]) == Apply(s, step);
  }
}
