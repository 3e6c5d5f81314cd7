/** The two kinds of threads around the agent, as the objects that own them: the user interface
    (src/agent/ui/AskUINotificationBackend.cpp) and the talker (src/agent/main/CynaraTalker.cpp).
    Each method that a thread runs does what the thread does between two accesses to shared
    data. */
module AgentThreads {
  import opened Recency
  import opened Translator
  import opened AgentTypes
  import opened AgentProtocol

  class AskUINotificationBackend {
    var m_requestId: RequestId
    var m_dismissing: bool
    /** Whether `m_thread` is joinable. */
    var m_thread: bool
    /** Whether the thread has called back. */
    var m_reported: bool
    /** Whether `m_threadFinished` has its value. */
    var m_threadFinished: bool
    /** What the notification shows, and the request it was made for. */
    var m_shown: RequestData
    var m_origin: nat

    ghost function View(): UI
      reads this
    {
      UI(m_origin, m_shown,
         if m_threadFinished then Finished else if m_reported then Posted else Waiting,
         m_dismissing)
    }

    /** Started for this id and not yet joined. */
    ghost predicate Running(id: RequestId)
      reads this
    {
      m_thread && m_requestId == id && (m_threadFinished ==> m_reported)
    }

    constructor ()
      ensures !m_thread && !m_dismissing && !m_reported && !m_threadFinished
    {
      m_requestId, m_origin, m_shown := 0, 0, RequestData("", "", "");
      m_dismissing, m_thread, m_reported, m_threadFinished := false, false, false, false;
    }

    /** `created` is the outcome of creating the notification. */
    method Start(client: string, user: string, privilege: string, request: Request,
                 hasCallback: bool, created: bool)
      returns (ok: bool)
      requires !m_thread && !m_dismissing && !m_reported && !m_threadFinished
      modifies this
      ensures ok == (hasCallback && created) && m_thread == ok
      ensures ok ==> Running(request.id)
      ensures ok ==> View() == UI(request.serial, RequestData(client, user, privilege), Waiting, false)
    {
      if !hasCallback {
        return false;
      }
      if !created {
        return false;
      }
      m_requestId := request.id;
      m_origin, m_shown := request.serial, RequestData(client, user, privilege);
      m_thread := true;
      return true;
    }

    /** The thread, from waiting for the user to its one callback. */
    method Report(waited: bool, button: int) returns (response: UIResponseType)
      requires Running(m_requestId) && !m_reported
      requires -0x8000_0000 <= button < 0x8000_0000
      modifies this
      ensures response == ButtonResponse(waited, button) && Running(old(m_requestId))
      ensures ReportsPress(response, waited, button)
      ensures View() == old(View()).(phase := Posted)
    {
      response := URT_ERROR;
      if waited {
        if button != 0 {
          if AsUnsigned(button) <= |BUTTONS| {
            response := BUTTONS[button - 1];
          }
        } else {
          response := URT_TIMEOUT;
        }
      }
      m_reported := true;
    }

    /** The last statement of the thread. */
    method SetFinished()
      requires Running(m_requestId) && m_reported && !m_threadFinished
      modifies this
      ensures View() == old(View()).(phase := Finished) && Running(old(m_requestId))
    {
      m_threadFinished := true;
    }

    /** Succeeds exactly when the thread has finished, and then joins it. */
    method Dismiss() returns (joined: bool)
      requires Running(m_requestId)
      modifies this
      ensures joined == old(View().phase == Finished) && m_thread == !joined
      ensures !joined ==> Running(old(m_requestId))
      ensures View() == old(View()).(dismissing := true)
    {
      m_dismissing := true;
      if m_threadFinished {
        m_thread := false;
        return true;
      }
      return false;
    }
  }

  /** The calls of `sendResponse` behind a log of answers. */
  function Calls(sent: seq<Sent>): seq<(RequestType, RequestId, string)> {
    seq(|sent|, i requires 0 <= i < |sent| => (sent[i].kind, sent[i].id, sent[i].data))
  }

  class CynaraTalker {
    /** Whether `m_cynara` is a connection. */
    var m_cynara: bool
    var m_threadFinished: bool
    /** How many requests were allocated. */
    var m_allocated: nat
    /** The calls of `sendResponse` so far, and those that reached Cynara. */
    ghost var calls: seq<(RequestType, RequestId, string)>
    ghost var put: seq<(MessageType, RequestId, string)>
    /** How far the thread is. */
    var phase: Talker

    ghost predicate Valid()
      reads this
    {
      && m_cynara == (phase == Receiving || phase == Closing)
      && m_threadFinished == (phase == Done)
    }

    constructor ()
      ensures Valid() && phase == Starting && m_allocated == 0 && calls == [] && put == []
    {
      m_cynara, m_threadFinished, m_allocated := false, false, 0;
      calls, put, phase := [], [], Starting;
    }

    method Allocate(kind: RequestType, id: RequestId, data: string) returns (r: Request)
      modifies this`m_allocated
      ensures r == Request(kind, id, data, old(m_allocated)) && m_allocated == old(m_allocated) + 1
    {
      r := Request(kind, id, data, m_allocated);
      m_allocated := m_allocated + 1;
    }

    /** When initialization fails the agent is told to close, and the thread is never seen to
        finish. */
    method Initialize(ok: bool) returns (pushed: Option<Request>)
      requires Valid() && phase == Starting
      modifies this
      ensures Valid() && phase == (if ok then Receiving else Failed)
      ensures calls == old(calls) && put == old(put)
      ensures pushed == (if ok then None else Some(Request(RT_Close, 0, "", old(m_allocated))))
      ensures m_allocated == old(m_allocated) + (if ok then 0 else 1)
    {
      if !ok {
        phase := Failed;
        var close := Allocate(RT_Close, 0, "");
        return Some(close);
      }
      m_cynara := true;
      phase := Receiving;
      return None;
    }

    /** One message: a request, or nothing if its type is not supported. */
    method Receive(message: Message) returns (pushed: Option<Request>)
      requires Valid() && phase == Receiving
      modifies this`m_allocated
      ensures Valid()
      ensures pushed == if Supported(message)
        then Some(Request(AgentType(message.kind), message.id, message.data, old(m_allocated)))
        else None
      ensures m_allocated == old(m_allocated) + if Supported(message) then 1 else 0
      ensures pushed.Some? <==> message.kind == MSG_ACTION || message.kind == MSG_CANCEL
      ensures pushed.Some? ==> Mirrors(pushed.value, message)
    {
      if message.kind.MSG_OTHER? {
        return None;
      }
      var request := Allocate(AgentType(message.kind), message.id, message.data);
      return Some(request);
    }

    method LoseConnection() returns (close: Request)
      requires Valid() && phase == Receiving
      modifies this
      ensures Valid() && phase == Closing && calls == old(calls) && put == old(put)
      ensures close == Request(RT_Close, 0, "", old(m_allocated))
      ensures m_allocated == old(m_allocated) + 1
    {
      phase := Closing;
      close := Allocate(RT_Close, 0, "");
    }

    method End()
      requires Valid() && phase == Closing
      modifies this
      ensures Valid() && phase == Done && m_allocated == old(m_allocated)
      ensures calls == old(calls) && put == old(put)
    {
      m_cynara := false;
      m_threadFinished := true;
      phase := Done;
    }

    /** The whole thread, for the messages it receives before the connection is lost: it hands
        over the supported ones in order, then one RT_Close, and nothing more. */
    method Run(initialized: bool, messages: seq<Message>) returns (handed: seq<Request>)
      requires Valid() && phase == Starting && m_allocated == 0
      modifies this
      ensures Valid() && phase == (if initialized then Done else Failed)
      ensures var ordinary := if initialized then Requests(messages) else [];
        handed == ordinary + [Request(RT_Close, 0, "", |ordinary|)]
      ensures initialized ==> MirrorsAll(handed[..|handed| - 1], messages)
    {
      RequestsMirror(messages);
      var first := Initialize(initialized);
      if first.Some? {
        return [first.value];
      }
      handed := [];
      for i := 0 to |messages|
        invariant Valid() && phase == Receiving && m_allocated == |handed|
        invariant handed == Requests(messages[..i])
      {
        assert messages[..i + 1][..i] == messages[..i];
        var pushed := Receive(messages[i]);
        if pushed.Some? {
          handed := handed + [pushed.value];
        }
      }
      assert messages[..|messages|] == messages;
      var close := LoseConnection();
      handed := handed + [close];
      End();
    }

    /** `accepted` is what the library answers. Nothing is put without a connection, and RT_Close
        is never put. */
    method SendResponse(kind: RequestType, id: RequestId, data: string, accepted: bool)
      returns (ok: bool)
      requires Valid()
      modifies this`calls, this`put
      ensures Valid() && calls == old(calls) + [(kind, id, data)]
      ensures put == old(put) + if !m_cynara then []
                                else match kind
                                     case RT_Action => [(MSG_ACTION, id, data)]
                                     case RT_Cancel => [(MSG_CANCEL, id, data)]
                                     case RT_Close => []
      ensures ok == (m_cynara && kind != RT_Close && accepted)
    {
      calls := calls + [(kind, id, data)];
      if !m_cynara {
        return false;
      }
      if kind == RT_Close {
        return false;
      }
      put := put + [(CynaraType(kind), id, data)];
      return accepted;
    }

    /** Succeeds exactly when the thread has finished. */
    method Stop() returns (joined: bool)
      requires Valid()
      ensures joined == (phase == Done)
    {
      return m_threadFinished;
    }
  }
}
