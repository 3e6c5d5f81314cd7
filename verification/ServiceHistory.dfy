/** What the service plugin may answer, told from the history of its calls alone
    (src/plugin/service/ServicePlugin.cpp). */
module ServiceHistory {
  import opened SupportedTypes
  import opened Translator
  import opened Hasher
  import opened Recency
  import opened RecencyLaws

  datatype PolicyResult = PolicyResult(policyType: nat, metadata: string := "")

  datatype Call =
    | Checked(key: RequestData)
    | Answered(key: RequestData, agentData: string)
    | Invalidated

  /** The life-long decision in an answer of the agent, if it is one. */
  function LifeDecision(types: PolicyTypes, agentData: string): Option<nat> {
    match DataToAnswer(types, agentData)
    case Policy(p) => if PerLife(p) then Some(p) else None
    case TranslateError => None
  }

  /** What a call does to the cache. */
  function Operation(types: PolicyTypes, call: Call): seq<Op<PolicyResult>> {
    match call
    case Checked(key) => [Get(Hash(key))]
    case Answered(key, agentData) =>
      (match LifeDecision(types, agentData)
       case Some(p) => [Update(Hash(key), PolicyResult(p))]
       case None => [])
    case Invalidated => [Clear]
  }

  function Operations(types: PolicyTypes, calls: seq<Call>): seq<Op<PolicyResult>> {
    if calls == [] then []
    else Operations(types, Init(calls)) + Operation(types, Last(calls))
  }

  ghost function Cache(types: PolicyTypes, calls: seq<Call>): Order<PolicyResult> {
    Run(CACHE_DEFAULT_CAPACITY, Operations(types, calls))
  }

  /** The most recent life-long decision for exactly this triple since the last `invalidate`,
      in an unbounded memory. */
  function LastDecision(types: PolicyTypes, calls: seq<Call>, key: RequestData): Option<nat> {
    if calls == [] || Last(calls) == Invalidated then None
    else if Last(calls).Answered? && Last(calls).key == key
            && LifeDecision(types, Last(calls).agentData).Some?
    then LifeDecision(types, Last(calls).agentData)
    else LastDecision(types, Init(calls), key)
  }

  /** The verdict Cynara is given for a policy type of the agent: a life-long one becomes a plain
      allow or a plain denial, any other is passed on. */
  predicate Gives(types: PolicyTypes, policyType: nat, verdict: nat) {
    && (policyType == ALLOW_PER_LIFE ==> verdict == types.allow)
    && (policyType == DENY_PER_LIFE ==> verdict == types.deny)
    && (policyType != ALLOW_PER_LIFE && policyType != DENY_PER_LIFE ==> verdict == policyType)
  }

  function Remembered(decision: Option<nat>): Option<PolicyResult> {
    match decision
    case Some(p) => Some(PolicyResult(p))
    case None => None
  }

  lemma OperationsSnoc(types: PolicyTypes, calls: seq<Call>, call: Call)
    ensures Operations(types, calls + [call]) == Operations(types, calls) + Operation(types, call)
  {
    assert Init(calls + [call]) == calls;
  }

  lemma {:induction false} OperationsConcat(types: PolicyTypes, calls: seq<Call>, more: seq<Call>)
    ensures Operations(types, calls + more) == Operations(types, calls) + Operations(types, more)
  {
    if more == [] {
      assert calls + more == calls;
    } else {
      hide Operation;
      assert Init(calls + more) == calls + Init(more) && Last(calls + more) == Last(more);
      OperationsConcat(types, calls, Init(more));
    }
  }

  lemma LastStoredSnoc(ops: seq<Op<PolicyResult>>, op: Op<PolicyResult>, key: string)
    ensures LastStored(ops + [op], key)
         == if op.Clear? then None
            else if op.Update? && op.key == key then Some(op.value) else LastStored(ops, key)
  {
    assert Init(ops + [op]) == ops;
  }

  /** Under the hashed keys an unbounded cache would hold exactly the last decisions. */
  lemma {:induction false} StoredIsDecided(types: PolicyTypes, calls: seq<Call>, key: RequestData)
    ensures LastStored(Operations(types, calls), Hash(key))
         == Remembered(LastDecision(types, calls, key))
  {
    if calls == [] {
    } else {
      var call := Last(calls);
      StoredIsDecided(types, Init(calls), key);
      if Operation(types, call) == [] {
        assert Operations(types, calls) == Operations(types, Init(calls));
      } else {
        LastStoredSnoc(Operations(types, Init(calls)), Operation(types, call)[0], Hash(key));
        if call.Answered? && Hash(call.key) == Hash(key) {
          HashInjective(call.key, key);
        }
      }
    }
  }

  /** Whatever the bounded cache still holds for a triple is the last decision made for it. */
  lemma CachedIsDecided(types: PolicyTypes, calls: seq<Call>, key: RequestData)
    requires Cached(Cache(types, calls), Hash(key))
    ensures LastDecision(types, calls, key).Some?
    ensures Lookup(Cache(types, calls), Hash(key)) == Remembered(LastDecision(types, calls, key))
  {
    CachedIsLastStored(CACHE_DEFAULT_CAPACITY, Operations(types, calls), Hash(key));
    StoredIsDecided(types, calls, key);
  }

  lemma {:induction false} DecisionIsForLife(types: PolicyTypes, calls: seq<Call>, key: RequestData)
    ensures LastDecision(types, calls, key).Some? ==> PerLife(LastDecision(types, calls, key).value)
  {
    if calls == [] {
    } else {
      DecisionIsForLife(types, Init(calls), key);
    }
  }

  /** No life-time type is ever given out, neither for a cached decision nor for any answer of
      the agent that decodes. */
  lemma VerdictNeverForLife(types: PolicyTypes, policyType: nat, verdict: nat)
    requires types.Valid() && Gives(types, policyType, verdict)
    ensures verdict != ALLOW_PER_LIFE && verdict != DENY_PER_LIFE
  {
  }

  // -------------------------------------------------------------------- residency

  function KeysOf(calls: seq<Call>): set<RequestData> {
    set call | call in calls && !call.Invalidated? :: call.key
  }

  function HashesOf(calls: seq<Call>): set<string> {
    set k | k in KeysOf(calls) :: Hash(k)
  }

  lemma {:induction false} NamedAreHashed(types: PolicyTypes, calls: seq<Call>)
    ensures Named(Operations(types, calls)) <= HashesOf(calls)
  {
    if calls == [] {
    } else {
      var rest, call := Init(calls), Last(calls);
      NamedAreHashed(types, rest);
      assert calls == rest + [call];
      assert KeysOf(rest) <= KeysOf(calls) && HashesOf(rest) <= HashesOf(calls);
      assert call in calls && (!call.Invalidated? ==> call.key in KeysOf(calls));
      forall op | op in Operations(types, calls) && !op.Clear?
        ensures op.key in HashesOf(calls)
      {
        if op in Operations(types, rest) {
          assert op.key in Named(Operations(types, rest));
          assert op.key in HashesOf(rest);
        } else {
          assert op in Operation(types, call) && op.key == Hash(call.key);
        }
      }
    }
  }

  lemma {:induction false} NoClear(types: PolicyTypes, calls: seq<Call>)
    requires Invalidated !in calls
    ensures Clear !in Operations(types, calls)
  {
    if calls == [] {
    } else {
      assert Last(calls) in calls;
      NoClear(types, Init(calls));
    }
  }

  lemma {:induction false} HashedSize(keys: set<RequestData>)
    ensures |set k | k in keys :: Hash(k)| <= |keys|
  {
    if keys == {} {
    } else {
      var k :| k in keys;
      HashedSize(keys - {k});
      var fewer := set j | j in keys - {k} :: Hash(j);
      assert (set j | j in keys :: Hash(j)) == fewer + {Hash(k)};
    }
  }

  /** A life-long decision is still known after any calls, `invalidate` excepted, that name at
      most 98 other triples. */
  lemma DecisionStays(types: PolicyTypes, calls: seq<Call>, key: RequestData, agentData: string,
                      more: seq<Call>)
    requires LifeDecision(types, agentData).Some?
    requires Invalidated !in more && |KeysOf(more) - {key}| <= 98
    ensures Cached(Cache(types, calls + [Answered(key, agentData)] + more), Hash(key))
  {
    var before := calls + [Answered(key, agentData)];
    var ops, op := Operations(types, calls), Operation(types, Answered(key, agentData))[0];
    var later := Operations(types, more);
    OperationsSnoc(types, calls, Answered(key, agentData));
    OperationsConcat(types, before, more);
    JustStored(ops, op);
    NamedAreHashed(types, more);
    NoClear(types, more);
    HashedSize(KeysOf(more) - {key});
    SubsetSize(Named(later) - {Hash(key)}, set k | k in KeysOf(more) - {key} :: Hash(k));
    Survives(CACHE_DEFAULT_CAPACITY, ops + [op], later, Hash(key));
  }

  lemma JustStored(ops: seq<Op<PolicyResult>>, op: Op<PolicyResult>)
    requires op.Update?
    ensures Cached(Run(CACHE_DEFAULT_CAPACITY, ops + [op]), op.key)
    ensures TouchedSince(CACHE_DEFAULT_CAPACITY, ops + [op], op.key) == {}
  {
    assert Init(ops + [op]) == ops;
    RunFits(CACHE_DEFAULT_CAPACITY, ops);
    StepTouched(CACHE_DEFAULT_CAPACITY, Run(CACHE_DEFAULT_CAPACITY, ops), op, op.key);
  }
}
