/** From a check of the service plugin to the next one: the two plugins and the agent together. */
module EndToEnd {
  import opened SupportedTypes
  import opened Translator
  import opened Hasher
  import opened Recency
  import opened RecencyLaws
  import opened ServiceHistory
  import opened AgentTypes
  import opened AgentProtocol
  import opened AgentSafety
  import opened AgentFreshIds
  import opened AgentUIs
  import opened AgentOutcomes
  import opened AgentMessages
  import opened AgentCancels
  import opened AgentGrounds
  import opened AgentReusedIds

  /** `check` of this triple would answer READY, with this verdict. */
  ghost predicate ReadyWith(types: PolicyTypes, calls: seq<Call>, key: RequestData, verdict: nat) {
    && Cached(Cache(types, calls), Hash(key))
    && LastDecision(types, calls, key).Some?
    && Gives(types, LastDecision(types, calls, key).value, verdict)
  }

  /** Calls of the plugin that neither forget nor revise a life-long decision for the triple, and
      name few enough others. */
  ghost predicate Undisturbed(types: PolicyTypes, key: RequestData, more: seq<Call>) {
    && Invalidated !in more
    && |KeysOf(more) - {key}| <= 98
    && forall call | call in more && call.Answered? && call.key == key ::
         LifeDecision(types, call.agentData).None?
  }

  /** What the plugin understands of a response of the user: 11 to 13 for a yes and 14 to 16 for a
      no, once, for the session and for life, and a plain denial when there was no answer. */
  predicate Understood(types: PolicyTypes, kind: UIResponseType, policyType: nat) {
    && (policyType == 11 <==> kind == URT_YES_ONCE)
    && (policyType == 12 <==> kind == URT_YES_SESSION)
    && (policyType == 13 <==> kind == URT_YES_LIFE)
    && (policyType == 14 <==> kind == URT_NO_ONCE)
    && (policyType == 15 <==> kind == URT_NO_SESSION)
    && (policyType == 16 <==> kind == URT_NO_LIFE)
    && (policyType == types.deny <==> kind == URT_TIMEOUT || kind == URT_ERROR)
  }

  /** Every payload the agent sends for a response of the user interface decodes, and into what the
      user said. */
  lemma AnswerDecodes(types: PolicyTypes, kind: UIResponseType)
    requires types.Valid()
    ensures var answer := DataToAnswer(types, Answer(kind));
      && answer.Policy? && Understood(types, kind, answer.policyType)
      && (11 <= answer.policyType <= 13 <==> IsYes(kind))
      && (14 <= answer.policyType <= 16 <==> IsNo(kind))
  {
    if kind == URT_ERROR || kind == URT_TIMEOUT {
      ErrorRoundTrip(types, 0);
    } else {
      AnswerRoundTrip(types, UIResponseToPolicyType(kind));
    }
  }

  /** What `update` returns for it: a plain allow or denial for a life-long answer, the type itself
      for any other, and a denial when there was no answer. */
  lemma UpdateReturns(types: PolicyTypes, kind: UIResponseType, verdict: nat)
    requires types.Valid() && DataToAnswer(types, Answer(kind)).Policy?
    requires Gives(types, DataToAnswer(types, Answer(kind)).policyType, verdict)
    ensures verdict == match kind
                       case URT_YES_ONCE => 11
                       case URT_YES_SESSION => 12
                       case URT_YES_LIFE => types.allow
                       case URT_NO_ONCE => 14
                       case URT_NO_SESSION => 15
                       case URT_NO_LIFE => types.deny
                       case URT_TIMEOUT => types.deny
                       case URT_ERROR => types.deny
  {
    AnswerDecodes(types, kind);
  }

  /** Whatever happened before, no answer to an action that the agent sends makes `update` fail. */
  lemma EverySentAnswerDecodes(types: PolicyTypes, s: State, i: nat)
    requires types.Valid() && Reachable(s)
    requires i < |s.desk.log.sent| && s.desk.log.sent[i].kind == RT_Action
    ensures DataToAnswer(types, s.desk.log.sent[i].data).Policy?
  {
    SentIsWellFormed(s, i);
    var kind :| Answer(kind) == s.desk.log.sent[i].data;
    AnswerDecodes(types, kind);
  }

  lemma {:induction false} DecisionLasts(types: PolicyTypes, calls: seq<Call>, key: RequestData,
                                         more: seq<Call>)
    requires Invalidated !in more
    requires forall call | call in more && call.Answered? && call.key == key ::
      LifeDecision(types, call.agentData).None?
    ensures LastDecision(types, calls + more, key) == LastDecision(types, calls, key)
  {
    if more == [] {
      assert calls + more == calls;
    } else {
      assert Init(calls + more) == calls + Init(more) && Last(calls + more) == Last(more);
      assert Last(more) in more;
      DecisionLasts(types, calls, key, Init(more));
    }
  }

  /** A life-long answer decides the checks that follow, any other leaves the cache as it was. */
  lemma AnswerDecides(types: PolicyTypes, calls: seq<Call>, key: RequestData, kind: UIResponseType,
                      more: seq<Call>)
    requires types.Valid() && Undisturbed(types, key, more)
    ensures var calls' := calls + [Answered(key, Answer(kind))];
      && (kind == URT_YES_LIFE ==> ReadyWith(types, calls' + more, key, types.allow))
      && (kind == URT_NO_LIFE ==> ReadyWith(types, calls' + more, key, types.deny))
      && (kind != URT_YES_LIFE && kind != URT_NO_LIFE ==> Cache(types, calls') == Cache(types, calls))
  {
    var data := Answer(kind);
    var calls' := calls + [Answered(key, data)];
    AnswerDecodes(types, kind);
    assert LastDecision(types, calls', key)
        == if LifeDecision(types, data).Some? then LifeDecision(types, data)
           else LastDecision(types, calls, key) by {
      assert Init(calls') == calls;
    }
    if kind == URT_YES_LIFE || kind == URT_NO_LIFE {
      DecisionStays(types, calls, key, data, more);
      DecisionLasts(types, calls', key, more);
    } else {
      OperationsSnoc(types, calls, Answered(key, data));
      assert Operations(types, calls) + [] == Operations(types, calls);
    }
  }

  /** Whatever ids the messages carry, a user interface shows the triple its request was made for. */
  lemma ShownAsChecked(key: RequestData, s: State, id: RequestId)
    requires Reachable(s) && id in s.desk.uis
    ensures s.desk.uis[id].origin < |s.pushed| && s.pushed[s.desk.uis[id].origin].id == id
    ensures s.pushed[s.desk.uis[id].origin].data == RequestToData(key) ==> s.desk.uis[id].shown == key
  {
    InvReachable(s);
    assert UIOf(s.desk.uis[id], id, s.pushed);
  }

  /** The whole way round. A request carries the data `check` produced for a triple; its user
      interface shows that triple; the user responds, and no older response for its id is on the
      way. Then however the agent runs on and whatever ids it meets, the answer it sends for this
      request, handed to `update`, settles the next checks of the triple: an allow for YES_LIFE, a
      denial for NO_LIFE, and nothing new for the rest. */
  lemma CheckAskUpdateCheck(types: PolicyTypes, calls: seq<Call>, key: RequestData, s: State,
                            id: RequestId, kind: UIResponseType, steps: seq<Step>, i: nat,
                            more: seq<Call>)
    requires types.Valid() && Undisturbed(types, key, more)
    requires Reachable(s) && Enabled(s, UIPost(id, kind))
    requires Undecided(s, id, s.desk.uis[id].origin)
    requires s.desk.uis[id].origin < |s.pushed| ==>
      s.pushed[s.desk.uis[id].origin].data == RequestToData(key)
    requires Allowed(Apply(s, UIPost(id, kind)), steps)
    ensures s.desk.uis[id].origin < |s.pushed| && s.desk.uis[id].shown == key
    ensures var sent := After(Apply(s, UIPost(id, kind)), steps).desk.log.sent;
      i < |sent| && Answers(sent[i], s.desk.uis[id].origin) ==>
        var calls' := calls + [Answered(key, sent[i].data)];
        var answer := DataToAnswer(types, sent[i].data);
        && answer.Policy? && Understood(types, kind, answer.policyType)
        && (kind == URT_YES_LIFE ==> ReadyWith(types, calls' + more, key, types.allow))
        && (kind == URT_NO_LIFE ==> ReadyWith(types, calls' + more, key, types.deny))
        && (kind != URT_YES_LIFE && kind != URT_NO_LIFE ==>
              Cache(types, calls') == Cache(types, calls))
  {
    hide Reachable, Allowed, After, Apply, Undecided, Cache, ReadyWith, Undisturbed;
    ShownAsChecked(key, s, id);
    TheAnswerIsTheUsers(s, id, kind, steps, i);
    AnswerDecodes(types, kind);
    AnswerDecides(types, calls, key, kind, more);
  }

  // ----------------------------------------------------------------------- consent

  /** Whatever ids the messages carry: if the user interface of a request did not start, its answer
      is the error word, and the plugin denies. */
  lemma FailedIsDenied(types: PolicyTypes, s: State, i: nat)
    requires types.Valid() && Reachable(s) && i < |s.desk.log.sent|
    requires Answers(s.desk.log.sent[i], s.desk.log.sent[i].serial)
    requires s.desk.log.sent[i].serial in s.desk.log.failed
    ensures s.desk.log.sent[i].data == "ERROR"
    ensures DataToAnswer(types, s.desk.log.sent[i].data) == Policy(types.deny)
  {
    GroundsReachable(s);
    assert Grounded(s.desk.log.sent[i], s.desk.log, s.pushed, s.posted);
    ErrorRoundTrip(types, 0);
  }

  /** Whatever ids the messages carry: every answer that the plugin understands as anything but a
      plain denial is what some user said to a request with the same id. An allow, for example,
      takes a user who said yes, and for that long. */
  lemma NothingMadeUp(types: PolicyTypes, s: State, i: nat) returns (n: nat)
    requires types.Valid() && Reachable(s) && i < |s.desk.log.sent|
    requires s.desk.log.sent[i].kind == RT_Action
    requires DataToAnswer(types, s.desk.log.sent[i].data) != Policy(types.deny)
    ensures n in s.posted && n < |s.pushed| && IsFor(s.pushed[n], RT_Action, s.desk.log.sent[i].id)
    ensures var answer := DataToAnswer(types, s.desk.log.sent[i].data);
      && answer.Policy? && Understood(types, s.posted[n], answer.policyType)
      && (11 <= answer.policyType <= 13 <==> IsYes(s.posted[n]))
  {
    var e := s.desk.log.sent[i];
    GroundsReachable(s);
    assert Grounded(e, s.desk.log, s.pushed, s.posted);
    ErrorRoundTrip(types, 0);
    n :| SaidBy(n, e, s.pushed, s.posted);
    AnswerDecodes(types, s.posted[n]);
  }

  /** With unused ids, or when nothing cancelled is asked again, it is what the user said to this
      very request: an answer that allows anything was a yes, for that long, by the user asked. */
  lemma AllowIsConsent(types: PolicyTypes, s: State, i: nat)
    requires types.Valid() && i < |s.desk.log.sent| && s.desk.log.sent[i].kind == RT_Action
    requires FreshReachable(s) || (Reachable(s) && NeverAskedAgain(s.received))
    requires DataToAnswer(types, s.desk.log.sent[i].data) != Policy(types.deny)
    ensures var n, answer := s.desk.log.sent[i].serial, DataToAnswer(types, s.desk.log.sent[i].data);
      && n in s.posted && answer.Policy? && Understood(types, s.posted[n], answer.policyType)
      && (11 <= answer.policyType <= 13 <==> IsYes(s.posted[n]))
  {
    var e := s.desk.log.sent[i];
    if FreshReachable(s) {
      AnswersAreNotCrossed(s, i);
    } else {
      AnswersStayWithRequests(s, i);
    }
    assert RightAnswer(e, s.desk.log, s.posted);
    ErrorRoundTrip(types, 0);
    AnswerDecodes(types, s.posted[e.serial]);
  }

  /** Otherwise consent can cross: for any two triples, and any messages that ask for the first,
      cancel it, and ask for the second with its id, the agent can come to send an answer for the
      second which makes `check` allow it for life, while the only thing any user ever responded
      to was the first. */
  lemma ConsentCanCross(types: PolicyTypes, calls: seq<Call>, messages: seq<Message>, i: nat, k: nat,
                        j: nat, a: RequestData, b: RequestData)
    returns (s: State)
    requires types.Valid() && AskedAgain(messages, i, k, j)
    requires messages[i].data == RequestToData(a) && messages[j].data == RequestToData(b)
    ensures Reachable(s) && s.received == messages
    ensures s.posted == map[Rank(messages, i) := URT_YES_LIFE] && Rank(messages, i) < Rank(messages, j)
    ensures s.desk.log.sent != []
    ensures var e := s.desk.log.sent[|s.desk.log.sent| - 1];
      Answers(e, Rank(messages, j)) && ReadyWith(types, calls + [Answered(b, e.data)], b, types.allow)
  {
    s := OldAnswerReachable(messages, i, k, j, URT_YES_LIFE);
    var calls' := calls + [Answered(b, Answer(URT_YES_LIFE))];
    assert KeysOf([]) - {b} == {};
    AnswerDecides(types, calls, b, URT_YES_LIFE, []);
    assert calls' + [] == calls';
  }
}
