# The ask-user agent and its service plugin

Cynara asks a service plugin whether a client, for a user, may use a privilege. When the plugin has no
life-long decision cached, the question travels as a string to the ask-user agent, which shows a
notification, waits for a button, and sends an answer back as another string; the plugin turns that
answer into a verdict and remembers it if it was given for life. This project models both ends and the
two wire formats, and proves what they keep over whole runs.

## How the model is built

**The agent** is a transition system (`AgentProtocol`): the agent thread with what it has in hand, one
thread for each user interface, the talker thread, and SIGTERM, interleaved between any two accesses to
shared data. Any message may arrive at any time with any id, and `dismiss` succeeds or fails as the
threads happen to run. The modules `AgentQueue`, `AgentRegistry`, `AgentOwnership`, `AgentAnswers`,
`AgentUIs`, `AgentInbox` and `AgentReports` hold one invariant each; `AgentSafety`, `AgentOutcomes`,
`AgentGrounds` and `AgentProgress` hold the theorems about all runs, `AgentFreshIds`, `AgentMessages`, `AgentCancels` and
`AgentReusedIds` those that depend on how ids are used. The handlers
themselves are methods of the class `Agent` (`AgentDaemon`), with m_requests, m_UIs and both queues as
fields that the methods reassign, user interface and talker objects on the heap (`AgentThreads`), and
`Interleave` wherever another thread can act. Every method is proved to take the object along a run of
the transition system, so each theorem about runs holds of the object.

**The plugin** is a heap structure: `CapacityCache` links list nodes with `prev` and `next` and keeps a
map to node references. It is proved to refine a recency-ordered sequence (`Recency`), whose laws are in
`RecencyLaws`; `ServiceHistory` states them about the calls of the plugin, and `ServicePlugin` ties the
object to its history. `EndToEnd` joins the plugin, both formats and the runs of the agent.

## What the proofs show about the code

* `update` evicts before it looks the key up (src/plugin/service/CapacityCache.h:102-110). Updating a
  cached key in a full cache drops the least recently used entry all the same, and when that entry is
  the key itself the call reports that it did not exist. `GoneExactly`, `ExistedExactly` and `Survives`
  give the exact conditions; one consequence is that a cache of n entries keeps a touched key through
  n - 2 other keys, not n - 1.
* Ids are chosen by Cynara, and the agent forgets them too late or too early. When an Action comes in
  for an id whose user interface is still in m_UIs, `m_UIs.insert` keeps the old entry, the new one is
  destroyed with its thread running, and the program is terminated
  (src/agent/main/Agent.cpp:214-217). For any given messages this is excluded if and only if no two
  Actions among them share an id (`NeverTerminatedExactly`); `TerminatedExactly` names the step.
* When a cancelled user interface is gone but its response is still queued, and the id is asked for
  again, that response answers the new request (src/agent/main/Agent.cpp:184-202). For any given
  messages this is excluded if and only if they nowhere contain an Action, its cancellation and the
  same id again (`NeverCrossedExactly`). Otherwise consent for one triple can be remembered for life
  as an allow of another (`ConsentCanCross`). In a single state the rule is: the first response on the
  way for an id is the answer (`TheFirstResponseAnswers`). The counting laws do not depend on ids.
* A talker whose initialization fails never sets `m_threadFinished`
  (src/agent/main/CynaraTalker.cpp:115-120), so `finish` then always ends in `quick_exit`:
  `CleanExitNeedsTalker`.
* The plugin accepts a negative number as an answer and turns it into a large policy type
  (src/common/translator/Translator.cpp:75-80): `NegativeAnswer`. On blank request data the agent reads
  an uninitialized size (src/common/translator/Translator.cpp:36-41): `MalformedRequest`. Neither
  comes from the other end of the wire: `EverySentAnswerDecodes`, `RequestRoundTrip`.
* The comments at src/common/types/SupportedTypes.h:40 and :45 are true of the service plugin for every
  string an agent may send: `VerdictNeverForLife`, and the contracts of `Check` and `Update`.

## Model

| member | source | states |
|---|---|---|
| Translator.RequestRoundTrip | src/common/translator/Translator.cpp:34-50 | the parser returns the encoded triple whatever the contents are, whatever follows, and whatever the size variable held at first |
| Translator.RequestPrefixFree | src/common/translator/Translator.cpp:83-91 | no encoding is a prefix of the encoding of another triple |
| Translator.DataToRequest | src/common/translator/Translator.cpp:34-50 | the parsing loop, malformed data included, and that it inverts the encoding of any triple the data starts with |
| Translator.RequestLayout | src/common/translator/Translator.cpp:83-91 | the encoding holds client, user and privilege in this order, each right behind its length, and nothing else but separators |
| Translator.MalformedRequest | src/common/translator/Translator.cpp:35-48 | blank data yields three members of as many NULs as the uninitialized size says, and data that does not start with a number three empty members |
| Translator.AnswerRoundTrip | src/common/translator/Translator.cpp:52-81 | a number survives the trip exactly when it fits `PolicyType`, larger ones raise the error even beyond long long, and decimal text is never one of the error words |
| Translator.StollOfText | src/common/translator/Translator.cpp:68-74 | blanks before the number, a sign, and any text behind it change nothing but the sign, and the range is that of long long |
| Translator.NegativeAnswer | src/common/translator/Translator.cpp:75-80 | a negative answer passes the range check and comes out as a policy type counted down from the largest |
| Hasher.HashInjective | src/plugin/service/ServicePlugin.cpp:52-61 | no two triples share a cache key, even if they contain the separator or digits |
| CapacityCache.UsageList.MoveToFront | src/plugin/service/CapacityCache.h:75 | `splice` moves one node of the linked list to the front and keeps the order of the others |
| CapacityCache.UsageList.PopBack | src/plugin/service/CapacityCache.h:90 | `pop_back` unlinks the last node and no other |
| CapacityCache.CapacityCache.Get | src/plugin/service/CapacityCache.h:65-79 | a hit returns the stored value and makes the key the most recent, a miss changes nothing |
| CapacityCache.CapacityCache.Evict | src/plugin/service/CapacityCache.h:87-94 | exactly the least recently used entry leaves the list and the map, and there always is one |
| CapacityCache.CapacityCache.Update | src/plugin/service/CapacityCache.h:96-123 | on nodes and map: room is made first, then the key is stored as the most recent; reports whether it was still there |
| CapacityCache.CapacityCache.Clear | src/plugin/service/CapacityCache.h:81-85 | nothing is cached any more |
| RecencyLaws.RunFits | src/plugin/service/CapacityCache.h:96-123 | after any operations the keys are distinct and at most capacity many |
| RecencyLaws.StackDistance | src/plugin/service/CapacityCache.h:65-123 | the position of a cached key is the number of distinct other keys touched since it was |
| RecencyLaws.GoneExactly | src/plugin/service/CapacityCache.h:102-121 | a cached key is lost exactly by `clear`, or by an update of another key at distance capacity - 1 |
| RecencyLaws.ExistedExactly | src/plugin/service/CapacityCache.h:102-122 | `update` reports an existing key exactly when it is cached at a distance other than capacity - 1 |
| RecencyLaws.Survives | src/plugin/service/CapacityCache.h:87-122 | a touched key survives every run without `clear` that names at most capacity - 2 other keys |
| RecencyLaws.CachedIsLastStored | src/plugin/service/CapacityCache.h:65-123 | whatever was evicted, what is cached is the last value stored for the key since the last `clear` |
| ServiceHistory.CachedIsDecided | src/plugin/service/ServicePlugin.cpp:76-135 | the bounded cache under hashed keys is always part of the unbounded map of last decisions for exact triples |
| ServiceHistory.DecisionStays | src/plugin/service/ServicePlugin.cpp:104-121 | a life-long decision is still cached after any calls without `invalidate` that name at most 98 other triples |
| ServiceHistory.DecisionIsForLife | src/plugin/service/ServicePlugin.cpp:114-120 | only per-life types are ever remembered, for every answer string |
| ServicePlugin.AskUserPlugin.Check | src/plugin/service/ServicePlugin.cpp:76-102 | READY exactly when the triple is cached, with ALLOW or DENY as the last decision for it since `invalidate` was; otherwise the encoded triple and the agent "AskUser" to ask |
| ServicePlugin.AskUserPlugin.Update | src/plugin/service/ServicePlugin.cpp:104-131 | an answer that does not decode fails and changes nothing; ALLOW_PER_LIFE and DENY_PER_LIFE give ALLOW and DENY and are cached, any other type is returned unchanged and not cached; no per-life type is ever returned |
| ServicePlugin.AskUserPlugin.Invalidate | src/plugin/service/ServicePlugin.cpp:133-135 | nothing is cached any more |
| AgentQueue.QueueInvStep | src/agent/main/CynaraTalker.cpp:124-145 | every step keeps: what was handed over is the supported messages in order, then at most one RT_Close, and the queue holds what was not popped |
| AgentRegistry.RegistryInvStep | src/agent/main/Agent.cpp:153-250 | every step keeps m_requests equal to the user interfaces not being dismissed, the id in hand excepted |
| AgentSafety.RegistriesAgree | src/agent/main/Agent.cpp:153-250 | between two handlers the pending ids are exactly those of the user interfaces not being dismissed, for every outcome of `dismiss` |
| AgentSafety.NeverStranded | src/agent/main/Agent.cpp:174-228 | a pending request always has a thread that will report, or a response on the way |
| AgentSafety.AnsweredOrPending | src/agent/main/Agent.cpp:153-205 | in every reachable state and for every id, accepted requests equal answers sent, plus one if a request with the id is pending or just about to be registered |
| AgentSafety.AnsweredAtMostOnce | src/agent/main/Agent.cpp:153-205 | in every reachable state, termination included: no acceptance is answered twice, nothing is answered before it is accepted, and what is pending is not answered yet |
| AgentSafety.NoSecondAnswer | src/agent/main/Agent.cpp:156-162 | after a confirmed cancellation no answer is ever sent for the same request |
| AgentSafety.OneOwner | src/agent/main/Agent.cpp:73-182 | every Request object is in the queue, in hand, in m_requests or deleted, and in only one of these, once |
| AgentSafety.JoinedOnce | src/agent/main/Agent.cpp:207-250 | a UI thread is started and joined at most once, and its user interface is in m_UIs exactly in between |
| AgentSafety.CleanExit | src/agent/main/Agent.cpp:117-140 | a clean exit leaves nothing accepted unanswered, no thread unjoined, and every Request deleted exactly once |
| AgentSafety.NothingLeftToDelete | src/agent/main/Agent.cpp:129-137 | the last cleanup succeeds exactly when m_UIs ends empty, and then the loop over m_requests finds nothing |
| AgentSafety.CleanExitNeedsTalker | src/agent/main/CynaraTalker.cpp:115-120 | there is no clean exit unless the talker thread ended by itself, after handing over RT_Close as its last request |
| AgentSafety.CloseIsLast | src/agent/main/Agent.cpp:73-87 | when RT_Close is popped the queue is empty and every supported message received was popped before |
| AgentSafety.OneClose | src/agent/main/CynaraTalker.cpp:131-135 | at most one RT_Close is handed over, and nothing after it |
| AgentSafety.SentIsWellFormed | src/agent/main/Agent.cpp:161-199 | cancellations are confirmed without data, actions answered with a payload for some response, and nothing else is sent |
| AgentTypes.AnswerIsPayload | src/agent/main/Agent.cpp:252-269 | the payload for each response: "11" to "13" for yes and "14" to "16" for no, once, for the session and for life, and the two error words |
| AgentTypes.ButtonsMean | src/agent/ui/AskUINotificationBackend.cpp:230-247 | for any wait and any 32-bit button number: 4 to 6 and only these are a yes, 1 to 3 and only these a no, each for its duration, 0 a timeout, and the rest an error |
| AgentTypes.RequestsMirror | src/agent/main/CynaraTalker.cpp:45-55 | one request for each Action or Cancel message and for no other, in order, with its kind, id and data |
| AgentGrounds.AcceptedWasAsked | src/agent/main/Agent.cpp:153-182 | in every reachable state, what was accepted is an Action message received, with its id and data |
| AgentGrounds.UIWasAsked | src/agent/main/Agent.cpp:207-220 | every user interface belongs to an Action message received, with its id, and shows the triple encoded in its data |
| AgentGrounds.SentWasAsked | src/agent/main/Agent.cpp:156-199 | what is answered was an Action message, and a confirmed cancellation a later Cancel message with its id |
| AgentFreshIds.OneAnswerSource | src/agent/main/Agent.cpp:207-228 | with unused ids, each pending request has exactly one answer source: its thread has not reported, or one response is queued or in hand |
| AgentFreshIds.AnswersAreNotCrossed | src/agent/main/Agent.cpp:184-205 | with unused ids, every answer sent is what the user gave to that very request, or that its user interface did not start |
| AgentFreshIds.AcceptingExactly | src/agent/main/Agent.cpp:174-216 | when a user interface starts, the agent goes on and the answer for the id has exactly one source, if and only if the id is in neither m_UIs nor a response on the way |
| AgentMessages.DistinctIsFresh | src/agent/main/Agent.cpp:174-216 | in every run whose Action messages carry distinct ids, every id is unused when it is accepted, and the agent is never terminated |
| AgentCancels.AnswersStayWithRequests | src/agent/main/Agent.cpp:153-228 | in every run whose messages never ask again for what was cancelled, ids reused otherwise or not, every answer sent is what the user gave to that very request, or that its user interface did not start |
| AgentReusedIds.TerminationReachable | src/agent/main/Agent.cpp:214-217 | for any messages with two Actions that share an id, a run that receives exactly these and ends in termination |
| AgentReusedIds.OldAnswerReachable | src/agent/main/Agent.cpp:184-202 | for any messages that ask, cancel and ask again with one id, and any response, a run in which what the user said to the cancelled request is sent for the later one, whose user interface has reported nothing |
| AgentReusedIds.NeverTerminatedExactly | src/agent/main/Agent.cpp:207-220 | all runs for given messages are safe from termination if and only if no two of the Actions share an id |
| AgentReusedIds.NeverCrossedExactly | src/agent/main/Agent.cpp:184-205 | in all runs for given messages answers stay with the requests they were given for, if and only if the messages nowhere ask, cancel and ask again with one id |
| AgentOutcomes.FailedForGood | src/agent/main/Agent.cpp:174-178 | a request whose user interface failed to start never gets another one |
| AgentOutcomes.ReportsStand | src/agent/ui/AskUINotificationBackend.cpp:214-255 | in every run a thread reports at most once: what was reported for a request is never revised |
| AgentOutcomes.TheAnswerIsTheUsers | src/agent/main/Agent.cpp:184-228 | however the run goes on after the user responds, and whatever ids it uses, the only answer ever sent for the request is the payload for that response, provided no answer was sent and no response for the id of the open request was on the way |
| AgentOutcomes.TheFirstResponseAnswers | src/agent/main/Agent.cpp:94-205 | in every run, an open request is answered with the first response on the way for its id, or not as an action at all |
| AgentOutcomes.TheUsersAnswerExactly | src/agent/main/Agent.cpp:184-228 | the answer sent for an open request is the user's if and only if no response for the id was on the way before, or the first one calls for the same payload |
| AgentOutcomes.FreshIsUndecided | src/agent/main/Agent.cpp:207-228 | with unused ids no older response is ever in the way of a user who has not responded |
| AgentProgress.Progress | src/agent/main/Agent.cpp:71-111 | every step of the agent and UI threads brings a measure down; 3 per request, 2 per waiting thread and 1 per response fall with each item handled or posted |
| AgentProgress.BoundedWork | src/agent/main/Agent.cpp:71-111 | without new arrivals, the number of items handled and posted is bounded by that work |
| AgentProgress.NoEndlessRun | src/agent/main/Agent.cpp:64-112 | without new arrivals no run is endless |
| AgentProgress.NoWorkNothingPending | src/agent/main/Agent.cpp:71-111 | whenever that work is 0, nothing is pending and all that was accepted is answered |
| AgentProgress.StuckIsDone | src/agent/main/Agent.cpp:71-111 | where it ends, both queues are empty, nothing is pending and all that was accepted is answered |
| AgentProgress.ComesToRest | src/agent/main/Agent.cpp:60-140 | from every reachable state some run of the agent's own threads comes to such an end |
| AgentThreads.AskUINotificationBackend.Start | src/agent/ui/AskUINotificationBackend.cpp:77-94 | a thread runs exactly when there is a callback and a notification, and it shows the given triple |
| AgentThreads.AskUINotificationBackend.Report | src/agent/ui/AskUINotificationBackend.cpp:224-248 | which response each button number stands for, negative ones included, a timeout, or a failed wait; one callback |
| AgentThreads.AskUINotificationBackend.SetFinished | src/agent/ui/AskUINotificationBackend.cpp:255 | the thread is finished only after it has reported |
| AgentThreads.AskUINotificationBackend.Dismiss | src/agent/ui/AskUINotificationBackend.cpp:199-212 | succeeds exactly when the thread has finished, and then joins it; marks it as being dismissed in any case |
| AgentThreads.CynaraTalker.Initialize | src/agent/main/CynaraTalker.cpp:115-120 | a failure hands over RT_Close and leaves the thread unfinished for ever |
| AgentThreads.CynaraTalker.Receive | src/agent/main/CynaraTalker.cpp:137-142 | an Action message becomes an Action request and a Cancel message a Cancel request, with their id and data; any other message is dropped |
| AgentThreads.CynaraTalker.LoseConnection | src/agent/main/CynaraTalker.cpp:130-135 | the agent is told to close |
| AgentThreads.CynaraTalker.End | src/agent/main/CynaraTalker.cpp:154-161 | the connection is given up and the thread counts as finished |
| AgentThreads.CynaraTalker.Run | src/agent/main/CynaraTalker.cpp:105-162 | hands over one request for each Action or Cancel message, in order and of its kind, then one RT_Close, and nothing more |
| AgentThreads.CynaraTalker.SendResponse | src/agent/main/CynaraTalker.cpp:164-189 | exactly when there is a connection an RT_Action is put as an action and an RT_Cancel as a cancellation; RT_Close is never put |
| AgentThreads.CynaraTalker.Stop | src/agent/main/CynaraTalker.cpp:91-103 | succeeds exactly when the thread has finished |
| AgentDaemon.Agent.constructor | src/agent/main/Agent.cpp:46-48 | the object starts in the initial state |
| AgentDaemon.Agent.Stop | src/agent/main/Agent.h:48-50 | the stop flag is set and nothing else |
| AgentDaemon.Agent.TalkerReceives | src/agent/main/CynaraTalker.cpp:137-142 | a supported message, and no other, joins the end of the agent's queue as a request of its kind, and the agent thread's own data is left alone |
| AgentDaemon.Agent.UIReports | src/agent/ui/AskUINotificationBackend.cpp:224-248 | exactly one response joins the end of the agent's queue, for the right request, with what the button pressed means |
| AgentDaemon.Agent.DismissUI | src/agent/main/Agent.cpp:243-250 | one user interface is dismissed, and leaves m_UIs exactly if its thread has finished; requests and answers are left alone |
| AgentDaemon.Agent.CollectOne | src/agent/main/Agent.cpp:233-238 | one turn of the cleanup loop: the entry is erased exactly if it was being dismissed and its thread has finished |
| AgentDaemon.Agent.CleanupUIThreads | src/agent/main/Agent.cpp:230-241 | visits every user interface, other threads acting in between, and returns true exactly when m_UIs ends empty |
| AgentDaemon.Agent.StartUIForRequest | src/agent/main/Agent.cpp:207-220 | the user interface shows the decoded data and enters m_UIs if it started; terminates the program exactly when it started and the id is taken |
| AgentDaemon.Agent.ConfirmCancel | src/agent/main/Agent.cpp:157-161 | the pending request leaves m_requests and its cancellation is confirmed, once |
| AgentDaemon.Agent.Accept | src/agent/main/Agent.cpp:174-178 | the error word "ERROR" is sent exactly when the user interface did not start |
| AgentDaemon.Agent.ProcessCynaraRequest | src/agent/main/Agent.cpp:153-182 | a run of the model, other threads acting in between; what is sent and what is pending afterwards, for each kind of request and whether its id was pending; termination only for an id in m_UIs |
| AgentDaemon.Agent.ProcessUIResponse | src/agent/main/Agent.cpp:184-205 | a run of the model; a pending request gets exactly this response as its answer, written as the plugin expects it, a late response sends nothing |
| AgentDaemon.Agent.HandleRequest | src/agent/main/Agent.cpp:73-92 | RT_Close sets the stop flag and leaves the loop, every other request is processed; what is sent and pending either way |
| AgentDaemon.Agent.HandleResponse | src/agent/main/Agent.cpp:94-111 | the response at the head of the queue, if any, is settled and nothing else is sent; then the cleanup, then back to the test of the loop |
| AgentDaemon.Agent.Turn | src/agent/main/Agent.cpp:71-111 | one turn of the inner loop: the first request is served, then, unless the loop is left, the first response settled; a run of the model |
| AgentDaemon.Agent.Run | src/agent/main/Agent.cpp:60-115 | a run of the model that ends at `finish`, if it ends |
| AgentDaemon.Agent.Finish | src/agent/main/Agent.cpp:117-140 | a clean end found no request pending, leaves nothing unanswered, no user interface, and every Request deleted once; any other end is `quick_exit`, and nothing is sent on the way |
| EndToEnd.AnswerDecodes | src/agent/main/Agent.cpp:187-198 | every response of the user interface decodes in the plugin, into 11 to 13 for a yes and 14 to 16 for a no of the same duration, and into DENY exactly when there was no answer |
| EndToEnd.UpdateReturns | src/plugin/service/ServicePlugin.cpp:110-122 | what `update` returns for each response: ALLOW or DENY for a life-long one, 11, 12, 14 or 15 for the others, DENY for none |
| EndToEnd.FailedIsDenied | src/agent/main/Agent.cpp:174-178 | in every reachable state, the answer to a request whose user interface did not start is "ERROR", which the plugin takes as DENY |
| EndToEnd.NothingMadeUp | src/agent/main/Agent.cpp:184-205 | in every reachable state, whatever ids were used, an answer that is not a plain denial is what some user said to a request with the same id: an allowing one takes a yes of that duration |
| EndToEnd.EverySentAnswerDecodes | src/agent/main/Agent.cpp:174-199 | no answer to an action that the agent ever sends makes `update` fail |
| EndToEnd.ShownAsChecked | src/agent/main/Agent.cpp:207-214 | in every reachable state, whatever ids it met, the user is asked about the very triple that was checked |
| EndToEnd.AnswerDecides | src/plugin/service/ServicePlugin.cpp:76-131 | after YES_LIFE the next checks are READY with ALLOW, after NO_LIFE with DENY, and any other response leaves the cache as it was |
| EndToEnd.CheckAskUpdateCheck | src/plugin/service/ServicePlugin.cpp:76-131 | from check to check through any run of the agent, whatever ids it meets, provided no answer was sent and no older response for the id is on the way: the triple shown, the answer sent, and the verdict of the next checks |
| EndToEnd.AllowIsConsent | src/plugin/service/ServicePlugin.cpp:110-118 | with unused ids, or when nothing cancelled is asked again, an answer that is not a plain denial is what the user said to that very request: an allowing one was a yes of that duration |
| EndToEnd.ConsentCanCross | src/agent/main/Agent.cpp:184-202 | otherwise, for any two triples: consent given for the first can be sent for the second, and is then remembered for life as an allow of the second |

## Left out

- Run: follows at most `turns` turns of the loops, because the loops in the source need not end; the theorems about runs have no such bound.
- DataToRequest: signs and sizes wider than `size_t` in malformed data, and what the library does when a size cannot be allocated; data that starts with an encoding is not affected.
- Update: `PolicyType` is taken to be unsigned, to hold at least 16, and to be narrower than long long; the values of ALLOW and DENY are parameters outside 10 to 16. Cynara's own headers are not part of this model.
- SendResponse: what the Cynara library does with a response, and what it reports back, which the agent does not look at; "sent" means a call of `sendResponse`.
- Check: the other C++ exceptions, such as memory running out, that `check` and `update` turn into ERROR.
- CleanupUIThreads: the order in which a `std::map` is walked; the model allows any order.
- StartUIForRequest: creating the notification, its texts and privilege names, which may succeed or fail arbitrarily here; that the new thread may report before `m_UIs.insert` is not told apart from reporting just after it.
- The mutex and the condition variable: each access to shared data is one step of the model, and waking up without cause is a step that changes nothing.
- Times: the 10 ms of `dismiss` and `stop`, the 1000 ms of the loop and the timeout of the notification are arbitrary.
- Object identity: the number of a Request, and the request a Response stems from, are recorded for the proofs; no handler depends on them.
- Starting the talker with no request handler, which the agent never does.
- Signal masks, logging, main.cpp, systemd notification, packaging and the test client.
- ClientPlugin: stateless switches over a handful of constants.
