/** What the threads of the agent pass to each other (src/agent/main/Request.h, Response.h,
    src/agent/ui/AskUIInterface.h), and the pure conversions between it and the outside. */
module AgentTypes {
  import opened SupportedTypes
  import opened Translator

  type RequestId = nat

  datatype RequestType = RT_Action | RT_Cancel | RT_Close

  datatype UIResponseType =
    | URT_NO_ONCE | URT_NO_SESSION | URT_NO_LIFE
    | URT_YES_ONCE | URT_YES_SESSION | URT_YES_LIFE
    | URT_TIMEOUT | URT_ERROR

  /** A `Request` object on the heap. `serial` is its identity: requests are numbered as they
      are allocated. */
  datatype Request = Request(kind: RequestType, id: RequestId, data: string, serial: nat)

  /** `origin` tells which request the posting thread was started for. No handler looks at it. */
  datatype Response = Response(id: RequestId, kind: UIResponseType, origin: nat)

  /** A call of `sendResponse`. `serial` tells which request it answers. */
  datatype Sent = Sent(kind: RequestType, id: RequestId, data: string, serial: nat)

  // ------------------------------------------------------------------- Cynara

  datatype MessageType = MSG_ACTION | MSG_CANCEL | MSG_OTHER(code: int)

  datatype Message = Message(kind: MessageType, id: RequestId, data: string)

  predicate Supported(message: Message) {
    !message.kind.MSG_OTHER?
  }

  /** `cynaraType2AgentType`; an unsupported type is an exception there. */
  function AgentType(kind: MessageType): RequestType
    requires !kind.MSG_OTHER?
  {
    if kind.MSG_ACTION? then RT_Action else RT_Cancel
  }

  /** `agentType2CynaraType`; RT_Close is an exception there. */
  function CynaraType(kind: RequestType): MessageType
    requires kind != RT_Close
  {
    if kind == RT_Action then MSG_ACTION else MSG_CANCEL
  }

  /** What a request must be to stand for a message. */
  predicate Mirrors(request: Request, message: Message) {
    && request.id == message.id && request.data == message.data
    && (request.kind == RT_Action <==> message.kind == MSG_ACTION)
    && (request.kind == RT_Cancel <==> message.kind == MSG_CANCEL)
  }

  /** How many messages are of a type the agent supports. */
  function SupportedCount(messages: seq<Message>): nat {
    if messages == [] then 0
    else
      var kind := messages[|messages| - 1].kind;
      SupportedCount(messages[..|messages| - 1])
      + if kind == MSG_ACTION || kind == MSG_CANCEL then 1 else 0
  }

  /** One request for each supported message, in order: the one for message m has as many requests
      before it as there are supported messages before m. */
  ghost predicate MirrorsAll(requests: seq<Request>, messages: seq<Message>) {
    && |requests| == SupportedCount(messages)
    && forall m | 0 <= m < |messages| && messages[m].kind in {MSG_ACTION, MSG_CANCEL} ::
         SupportedCount(messages[..m]) < |requests|
         && Mirrors(requests[SupportedCount(messages[..m])], messages[m])
  }

  /** The requests a talker allocates for the messages it receives: the supported ones, in
      order. */
  function Requests(messages: seq<Message>): seq<Request> {
    if messages == [] then []
    else
      var before := Requests(messages[..|messages| - 1]);
      var message := messages[|messages| - 1];
      if Supported(message)
      then before + [Request(AgentType(message.kind), message.id, message.data, |before|)]
      else before
  }

  lemma {:induction false} RequestsMirror(messages: seq<Message>)
    ensures MirrorsAll(Requests(messages), messages)
  {
    if messages == [] {
    } else {
      var before := messages[..|messages| - 1];
      RequestsMirror(before);
      forall m | 0 <= m < |messages| && messages[m].kind in {MSG_ACTION, MSG_CANCEL}
        ensures SupportedCount(messages[..m]) < |Requests(messages)|
        ensures Mirrors(Requests(messages)[SupportedCount(messages[..m])], messages[m])
      {
        if m < |before| {
          assert messages[m] == before[m] && messages[..m] == before[..m];
        }
      }
    }
  }

  // ---------------------------------------------------------------------- UI

  const BUTTONS: seq<UIResponseType> := [
    URT_NO_ONCE, URT_NO_SESSION, URT_NO_LIFE, URT_YES_ONCE, URT_YES_SESSION, URT_YES_LIFE
  ]

  /** `static_cast<unsigned int>` on a 32-bit `int`. */
  function AsUnsigned(n: int): int {
    if n < 0 then n + 0x1_0000_0000 else n
  }

  /** What the UI thread reports for the outcome of waiting for the notification: `waited` says
      that waiting did not fail. */
  function ButtonResponse(waited: bool, button: int): UIResponseType
    requires -0x8000_0000 <= button < 0x8000_0000
  {
    if !waited then URT_ERROR
    else if button == 0 then URT_TIMEOUT
    else if AsUnsigned(button) > |BUTTONS| then URT_ERROR
    else BUTTONS[button - 1]
  }

  predicate IsYes(kind: UIResponseType) {
    kind == URT_YES_ONCE || kind == URT_YES_SESSION || kind == URT_YES_LIFE
  }

  predicate IsNo(kind: UIResponseType) {
    kind == URT_NO_ONCE || kind == URT_NO_SESSION || kind == URT_NO_LIFE
  }

  /** What each button of the notification means: 1 to 3 deny and 4 to 6 allow, once, for the
      session and for life; no button in time is a timeout; the rest is an error. */
  predicate ReportsPress(kind: UIResponseType, waited: bool, button: int) {
    && (kind == URT_NO_ONCE <==> waited && button == 1)
    && (kind == URT_NO_SESSION <==> waited && button == 2)
    && (kind == URT_NO_LIFE <==> waited && button == 3)
    && (kind == URT_YES_ONCE <==> waited && button == 4)
    && (kind == URT_YES_SESSION <==> waited && button == 5)
    && (kind == URT_YES_LIFE <==> waited && button == 6)
    && (kind == URT_TIMEOUT <==> waited && button == 0)
    && (kind == URT_ERROR <==> !waited || button < 0 || button > 6)
  }

  lemma ButtonsMean(waited: bool, button: int)
    requires -0x8000_0000 <= button < 0x8000_0000
    ensures var kind := ButtonResponse(waited, button);
      && ReportsPress(kind, waited, button)
      && (IsYes(kind) <==> waited && 4 <= button <= 6)
      && (IsNo(kind) <==> waited && 1 <= button <= 3)
  {
  }

  // ------------------------------------------------------------------ answers

  /** What the service plugin is to be told, response by response: 11 to 13 allow and 14 to 16 deny,
      once, for the session and for life. */
  function Payload(kind: UIResponseType): string {
    match kind
    case URT_YES_ONCE => "11"
    case URT_YES_SESSION => "12"
    case URT_YES_LIFE => "13"
    case URT_NO_ONCE => "14"
    case URT_NO_SESSION => "15"
    case URT_NO_LIFE => "16"
    case URT_TIMEOUT => "TIMEOUT"
    case URT_ERROR => "ERROR"
  }

  function UIResponseToPolicyType(kind: UIResponseType): nat {
    match kind
    case URT_YES_ONCE => ALLOW_ONCE
    case URT_YES_SESSION => ALLOW_PER_SESSION
    case URT_YES_LIFE => ALLOW_PER_LIFE
    case URT_NO_ONCE => DENY_ONCE
    case URT_NO_SESSION => DENY_PER_SESSION
    case URT_NO_LIFE => DENY_PER_LIFE
    case _ => DENY_ONCE
  }

  /** The payload sent for a response of the user interface. */
  function Answer(kind: UIResponseType): string {
    if kind == URT_ERROR then AnswerToData(0, ERROR)
    else if kind == URT_TIMEOUT then AnswerToData(0, TIMEOUT)
    else AnswerToData(UIResponseToPolicyType(kind), NO_ERROR)
  }

  /** The payload sent when the user interface could not be started. */
  const START_FAILED := AnswerToData(0, ERROR)

  lemma AnswerIsPayload(kind: UIResponseType)
    ensures Answer(kind) == Payload(kind)
  {
  }

  lemma StartFailedIsError()
    ensures START_FAILED == "ERROR"
  {
  }
}
