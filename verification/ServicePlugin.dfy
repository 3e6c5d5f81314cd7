/** The plugin object itself (src/plugin/service/ServicePlugin.cpp, `AskUserPlugin`). */
module ServicePlugin {
  import opened SupportedTypes
  import opened Translator
  import opened Hasher
  import opened Recency
  import opened RecencyLaws
  import opened CapacityCache
  import opened ServiceHistory

  datatype PluginStatus = ANSWER_READY | ANSWER_NOTREADY | SUCCESS | ERROR

  class AskUserPlugin {
    const types: PolicyTypes
    const m_cache: CapacityCache<RequestData, PolicyResult>
    /** The calls served so far. */
    ghost var calls: seq<Call>

    ghost predicate Valid()
      reads this, m_cache, m_cache.m_keyUsage, m_cache.m_keyUsage.Repr
    {
      && m_cache.Valid() && this !in m_cache.m_keyUsage.Repr
      && types.Valid()
      && m_cache.m_capacity == CACHE_DEFAULT_CAPACITY
      && (forall key :: m_cache.m_keyHasher(key) == Hash(key))
      && m_cache.order == Cache(types, calls)
    }

    constructor (types: PolicyTypes)
      requires types.Valid()
      ensures Valid() && fresh(m_cache) && fresh(m_cache.m_keyUsage.Repr)
      ensures this.types == types && calls == []
    {
      this.types := types;
      m_cache := new CapacityCache(Hash);
      calls := [];
    }

    /** READY carries the verdict of the last decision for the triple; NOTREADY carries the
        encoded triple and the agent to ask. What the answer does not set keeps its value. */
    method Check(client: string, user: string, privilege: string,
                 result: PolicyResult, requiredAgent: string, pluginData: string)
      returns (status: PluginStatus, result': PolicyResult, requiredAgent': string,
               pluginData': string)
      requires Valid()
      modifies this, m_cache, m_cache.m_keyUsage.Repr
      ensures Valid() && fresh(m_cache.m_keyUsage.Repr - old(m_cache.m_keyUsage.Repr))
      ensures var key := RequestData(client, user, privilege);
        && calls == old(calls) + [Checked(key)]
        && status == (if Cached(Cache(types, old(calls)), Hash(key)) then ANSWER_READY
                      else ANSWER_NOTREADY)
        && (status == ANSWER_READY ==>
              && (|| (LastDecision(types, old(calls), key) == Some(ALLOW_PER_LIFE)
                      && result' == PolicyResult(types.allow))
                  || (LastDecision(types, old(calls), key) == Some(DENY_PER_LIFE)
                      && result' == PolicyResult(types.deny)))
              && (requiredAgent', pluginData') == (requiredAgent, pluginData))
        && (status == ANSWER_NOTREADY ==>
              (result', requiredAgent', pluginData') == (result, "AskUser", RequestToData(key)))
    {
      result', requiredAgent', pluginData' := result, requiredAgent, pluginData;
      var key := RequestData(client, user, privilege);
      CheckHistory(types, calls, key);
      var found;
      found, result' := m_cache.Get(key, result');
      calls := calls + [Checked(key)];
      if !found {
        pluginData' := RequestToData(key);
        requiredAgent' := AGENT_TYPE;
        return ANSWER_NOTREADY, result', requiredAgent', pluginData';
      }
      if result'.policyType == ALLOW_PER_LIFE {
        result' := PolicyResult(types.allow);
      } else {
        result' := PolicyResult(types.deny);
      }
      return ANSWER_READY, result', requiredAgent', pluginData';
    }

    /** An answer that does not decode changes nothing; any other is turned into a verdict, which
        is never a life-time type. */
    method Update(client: string, user: string, privilege: string, agentData: string,
                  result: PolicyResult)
      returns (status: PluginStatus, result': PolicyResult)
      requires Valid()
      modifies this, m_cache, m_cache.m_keyUsage.Repr
      ensures Valid() && fresh(m_cache.m_keyUsage.Repr - old(m_cache.m_keyUsage.Repr))
      ensures calls == old(calls) + [Answered(RequestData(client, user, privilege), agentData)]
      ensures match DataToAnswer(types, agentData)
        case TranslateError => status == ERROR && result' == result
        case Policy(p) =>
          && status == SUCCESS && result' == PolicyResult(result'.policyType)
          && Gives(types, p, result'.policyType)
      ensures status == SUCCESS ==>
        result'.policyType != ALLOW_PER_LIFE && result'.policyType != DENY_PER_LIFE
    {
      hide DataToAnswer, Cache, Updated;
      result' := result;
      var key := RequestData(client, user, privilege);
      var answer := DataToAnswer(types, agentData);
      ghost var before := calls;
      calls := calls + [Answered(key, agentData)];
      if answer.TranslateError? {
        AnswerForgotten(types, before, key, agentData);
        return ERROR, result';
      }
      var resultType := answer.policyType;
      result' := PolicyResult(resultType);
      if resultType == ALLOW_PER_LIFE {
        AnswerRemembered(types, before, key, agentData);
        var _ := m_cache.Update(key, PolicyResult(resultType));
        result' := PolicyResult(types.allow);
      } else if resultType == DENY_PER_LIFE {
        AnswerRemembered(types, before, key, agentData);
        var _ := m_cache.Update(key, PolicyResult(resultType));
        result' := PolicyResult(types.deny);
      } else {
        AnswerForgotten(types, before, key, agentData);
      }
      return SUCCESS, result';
    }

    method Invalidate()
      requires Valid()
      modifies this, m_cache, m_cache.m_keyUsage.Repr
      ensures Valid() && calls == old(calls) + [Invalidated]
      ensures m_cache.m_keyUsage.Repr == old(m_cache.m_keyUsage.Repr)
      ensures Cache(types, calls) == []
    {
      InvalidateHistory(types, calls);
      m_cache.Clear();
      calls := calls + [Invalidated];
    }
  }

  lemma RunSnoc(ops: seq<Op<PolicyResult>>, op: Op<PolicyResult>)
    ensures Run(CACHE_DEFAULT_CAPACITY, ops + [op])
         == Step(CACHE_DEFAULT_CAPACITY, Run(CACHE_DEFAULT_CAPACITY, ops), op)
  {
    assert Init(ops + [op]) == ops;
  }

  lemma CheckHistory(types: PolicyTypes, calls: seq<Call>, key: RequestData)
    ensures Cache(types, calls + [Checked(key)]) == Got(Cache(types, calls), Hash(key))
    ensures Cached(Cache(types, calls), Hash(key)) ==>
      && LastDecision(types, calls, key).Some?
      && PerLife(LastDecision(types, calls, key).value)
      && Lookup(Cache(types, calls), Hash(key))
      == Some(PolicyResult(LastDecision(types, calls, key).value))
  {
    OperationsSnoc(types, calls, Checked(key));
    RunSnoc(Operations(types, calls), Get(Hash(key)));
    if Cached(Cache(types, calls), Hash(key)) {
      CachedIsDecided(types, calls, key);
      DecisionIsForLife(types, calls, key);
    }
  }

  lemma AnswerRemembered(types: PolicyTypes, calls: seq<Call>, key: RequestData,
                         agentData: string)
    requires LifeDecision(types, agentData).Some?
    ensures Cache(types, calls + [Answered(key, agentData)])
      == Updated(CACHE_DEFAULT_CAPACITY, Cache(types, calls), Hash(key),
                 PolicyResult(LifeDecision(types, agentData).value))
  {
    OperationsSnoc(types, calls, Answered(key, agentData));
    RunSnoc(Operations(types, calls), Operation(types, Answered(key, agentData))[0]);
  }

  lemma AnswerForgotten(types: PolicyTypes, calls: seq<Call>, key: RequestData,
                        agentData: string)
    requires LifeDecision(types, agentData).None?
    ensures Cache(types, calls + [Answered(key, agentData)]) == Cache(types, calls)
  {
    OperationsSnoc(types, calls, Answered(key, agentData));
    assert Operations(types, calls) + [] == Operations(types, calls);
  }

  lemma InvalidateHistory(types: PolicyTypes, calls: seq<Call>)
    ensures Cache(types, calls + [Invalidated]) == []
  {
    OperationsSnoc(types, calls, Invalidated);
    RunSnoc(Operations(types, calls), Clear);
  }
}
