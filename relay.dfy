/**
 * The relay endpoint (`handler`): it accepts a POSTed chat message,
 * forwards it to the upstream chat service, and answers with the reply the
 * service gives or, when the call fails, with a scripted fallback reply and
 * status 200.
 *
 * The upstream call is abstracted into its outcome (`Upstream`), the clock
 * into `now` and `Math.random` into a draw `u` with 0 <= u < 1. Admission
 * (`Admit`) is separate from completion (`Complete`), so a request that is
 * rejected is answered without any upstream call.
 */
module Relay {
  import opened Wrappers
  import opened Text
  import opened Draw

  /** The request as the handler reads it: the method and the two body fields (absent when undefined). */
  datatype Request = Request(httpMethod: string, message: Option<string>, conversationId: Option<string>)

  /** What the handler sends upstream: the conversation id and the message as the query. */
  datatype UpstreamCall = UpstreamCall(conversationId: string, query: string)

  /** One entry of the upstream `messages` array; `content` is absent when undefined. */
  datatype UpstreamMessage = UpstreamMessage(role: string, content: Option<string>)

  /** The parsed body of a successful upstream response. */
  datatype UpstreamData = UpstreamData(messages: Option<seq<UpstreamMessage>>, conversationId: Option<string>)

  /**
   * How the upstream call ends: an ok response with its parsed body, a
   * response with a non-ok status, or an exception (network failure, bad
   * JSON body).
   */
  datatype Upstream = Answered(data: UpstreamData) | Refused(status: int) | Thrown

  datatype Body =
    | ErrorBody(error: string)
    | ReplyBody(reply: string, conversationId: string)
    | FallbackBody(reply: string, conversationId: string)

  datatype Response = Response(status: int, body: Body)

  /** Whether the request is answered at once, or forwarded upstream. */
  datatype Admission = Reject(response: Response) | Forward(call: UpstreamCall)

  const MethodNotAllowed: string := "Method not allowed"
  const EmptyMessage: string := "消息内容不能为空"
  const Placeholder: string := "mm暂时想不到怎么回答呢..."
  const FallbackReplies: seq<string> := [
    "哎呀，网络好像有点调皮～不过mm还在这里陪你聊天呢 (´･ω･`)",
    "刚刚走神了一下下，能再说一次吗？我保证认真听！",
    "虽然连接有点小波动，但mm的陪伴不会断线哦～",
    "嗯...现在信号不太好，但我们的对话可以继续 💭"
  ]

  /** JavaScript truthiness of an optional string: present and non-empty. */
  predicate Truthy(s: Option<string>) {
    s.Some? && s.value != ""
  }

  /** The default conversation id: "conv_" followed by the clock in milliseconds. */
  function DefaultConversationId(now: nat): (id: string)
    ensures |id| > 5 && id[..5] == "conv_"
    ensures forall i :: 5 <= i < |id| ==> IsDigit(id[i])
    ensures ParseDecimal(id[5..]) == now
  {
    ParseDecimalInverts(now);
    "conv_" + Decimal(now)
  }

  /** Requests at different instants get different default ids. */
  lemma DefaultConversationIdsDiffer(t1: nat, t2: nat)
    requires t1 != t2
    ensures DefaultConversationId(t1) != DefaultConversationId(t2)
  {
  }

  /** A message that is missing or holds nothing but white space. */
  predicate Blank(message: Option<string>) {
    !Truthy(message) || Trim(message.value) == ""
  }

  /**
   * The checks made before any upstream call: anything but POST gets 405,
   * a blank message gets 400, and any other request is forwarded with its
   * message as sent and its conversation id, or a fresh one when it has none.
   */
  function Admit(req: Request, now: nat): (a: Admission)
    ensures a.Reject? <==> req.httpMethod != "POST" || Blank(req.message)
    ensures req.httpMethod != "POST" ==> a == Reject(Response(405, ErrorBody(MethodNotAllowed)))
    ensures req.httpMethod == "POST" && Blank(req.message) ==> a == Reject(Response(400, ErrorBody(EmptyMessage)))
    ensures a.Forward? ==> a.call.query == req.message.value && Trim(a.call.query) != ""
    ensures a.Forward? && req.conversationId.Some? ==> a.call.conversationId == req.conversationId.value
    ensures a.Forward? && req.conversationId.None? ==> a.call.conversationId == DefaultConversationId(now)
  {
    if req.httpMethod != "POST" then
      Reject(Response(405, ErrorBody(MethodNotAllowed)))
    else
      var conversationId := match req.conversationId
        case Some(id) => id
        case None => DefaultConversationId(now);
      if Blank(req.message) then
        Reject(Response(400, ErrorBody(EmptyMessage)))
      else
        Forward(UpstreamCall(conversationId, req.message.value))
  }

  /** `messages.find(msg => msg.role === 'assistant')`: the index of the first assistant entry. */
  function FindAssistant(messages: seq<UpstreamMessage>): (r: Option<nat>)
    ensures r.Some? ==> r.value < |messages| && messages[r.value].role == "assistant"
    ensures r.Some? ==> forall j :: 0 <= j < r.value ==> messages[j].role != "assistant"
    ensures r.None? ==> forall j :: 0 <= j < |messages| ==> messages[j].role != "assistant"
  {
    if messages == [] then None
    else if messages[0].role == "assistant" then Some(0)
    else match FindAssistant(messages[1..])
      case Some(i) => Some(i + 1)
      case None => None
  }

  /**
   * The reply taken from an ok upstream body: the content of the first
   * assistant entry when it is non-empty, and the placeholder otherwise,
   * even when a later assistant entry has content.
   */
  function ExtractReply(data: UpstreamData): (reply: string)
    ensures reply != ""
    ensures reply != Placeholder ==>
      data.messages.Some? && FindAssistant(data.messages.value).Some? &&
      Truthy(data.messages.value[FindAssistant(data.messages.value).value].content) &&
      reply == data.messages.value[FindAssistant(data.messages.value).value].content.value
    ensures (data.messages.Some? && FindAssistant(data.messages.value).Some? &&
             Truthy(data.messages.value[FindAssistant(data.messages.value).value].content)) ==>
      reply == data.messages.value[FindAssistant(data.messages.value).value].content.value
  {
    match data.messages
    case Some(messages) =>
      if |messages| > 0 then
        match FindAssistant(messages)
        case Some(i) => if Truthy(messages[i].content) then messages[i].content.value else Placeholder
        case None => Placeholder
      else Placeholder
    case None => Placeholder
  }

  /** The reply and id of a forwarded request, given how the upstream call ended. */
  function Complete(call: UpstreamCall, outcome: Upstream, u: real): (r: Response)
    requires 0.0 <= u < 1.0
    ensures r.status == 200
    ensures !outcome.Answered? <==> r.body.FallbackBody?
    ensures !outcome.Answered? ==>
      r.body.reply in FallbackReplies && r.body.conversationId == call.conversationId
    ensures outcome.Answered? ==>
      r.body.ReplyBody? &&
      r.body.reply == ExtractReply(outcome.data) &&
      r.body.conversationId ==
        (if Truthy(outcome.data.conversationId) then outcome.data.conversationId.value else call.conversationId)
  {
    match outcome
    case Answered(data) =>
      var reply := ExtractReply(data);
      var conversationId := if Truthy(data.conversationId) then data.conversationId.value else call.conversationId;
      Response(200, ReplyBody(reply, conversationId))
    case _ =>
      Response(200, FallbackBody(Pick(FallbackReplies, u), call.conversationId))
  }

  /** `handler`: admission, then completion of the forwarded call. */
  function Handle(req: Request, now: nat, outcome: Upstream, u: real): (r: Response)
    requires 0.0 <= u < 1.0
    ensures r.status == 405 <==> req.httpMethod != "POST"
    ensures r.status == 400 <==> req.httpMethod == "POST" && Blank(req.message)
    ensures r.status == 200 <==> req.httpMethod == "POST" && !Blank(req.message)
    ensures r.status != 200 ==> r.body.ErrorBody?
  {
    match Admit(req, now)
    case Reject(response) => response
    case Forward(call) => Complete(call, outcome, u)
  }

  /** A rejected request is answered the same whatever the upstream would have done: no call is made. */
  lemma RejectionIgnoresUpstream(req: Request, now: nat, o1: Upstream, o2: Upstream, u: real)
    requires 0.0 <= u < 1.0
    requires req.httpMethod != "POST" || Blank(req.message)
    ensures Handle(req, now, o1, u) == Handle(req, now, o2, u)
  {
  }

  /**
   * A failed upstream call (non-ok status or exception) on an accepted
   * request is answered with status 200, a fallback reply and the request's
   * own conversation id (or the fresh one).
   */
  lemma FailureFallsBack(req: Request, now: nat, outcome: Upstream, u: real)
    requires 0.0 <= u < 1.0
    requires req.httpMethod == "POST" && !Blank(req.message) && !outcome.Answered?
    ensures var r := Handle(req, now, outcome, u);
      && r.status == 200 && r.body.FallbackBody? && r.body.reply in FallbackReplies
      && r.body.conversationId ==
           (if req.conversationId.Some? then req.conversationId.value else DefaultConversationId(now))
  {
  }

  /**
   * Only the first assistant entry counts: with an empty first assistant
   * entry and a later one that has content, the placeholder is returned.
   */
  lemma FirstAssistantOnly(later: string)
    requires later != ""
    ensures ExtractReply(UpstreamData(Some([
      UpstreamMessage("assistant", Some("")),
      UpstreamMessage("assistant", Some(later))]), None)) == Placeholder
  {
    var ms := [UpstreamMessage("assistant", Some("")), UpstreamMessage("assistant", Some(later))];
    assert FindAssistant(ms) == Some(0);
  }
}
