/** The chatbot bridge: a visitor message taken off the chatbot queue is sent
    to the conversational engine; a successful answer becomes an outbound
    message to the visitor, after the conversation's cumulative chatbot
    counters have been advanced. */
module ChatbotEvents {
  import opened Wrappers
  import opened JavaText
  import opened Int32
  import opened Entities

  /** The fields of a chat message the bridge reads or writes (`kind` is the
      message's `type` attribute). */
  datatype ChatMessage = ChatMessage(
    calltype: JString,
    appid: JString,
    orgi: JString,
    aiid: JString,
    message: JString,
    touser: JString,
    agentserviceid: JString,
    msgtype: JString,
    userid: JString,
    kind: JString,
    channel: JString,
    expmsg: JString,
    contextid: JString,
    sessionid: JString,
    usession: JString,
    username: JString)

  /** A freshly constructed message: every field above unset. */
  function NewChatMessage(): ChatMessage {
    ChatMessage(None, None, None, None, None, None, None, None, None, None, None, None, None, None, None, None)
  }

  /** A configured chatbot: its display name and API credentials. */
  datatype Chatbot = Chatbot(name: JString, clientId: JString, secret: JString)

  /** The `data` object of an answer: the reply text, the `params` value as
      text when present, and the `logic_is_unexpected` flag when present. */
  datatype ReplyData = ReplyData(text: string, params: Option<string>, logicIsUnexpected: Option<bool>)

  /** A parsed answer: the response code and its data. */
  datatype BotResponse = BotResponse(rc: int, data: ReplyData)

  /** The two checked exceptions the chatbot client may raise. */
  datatype BotError = MalformedUrl | ChatbotFailure

  /** What the engine call does: raise, or return a result that may be null. */
  datatype BotCall = Threw(error: BotError) | Returned(result: Option<BotResponse>)

  /** How handling one queued message ends: a reply was published; the answer
      had a non-zero code; the engine returned null; the client raised (logged
      and swallowed by the listener); or a null was dereferenced (no chatbot
      for the message, or no message), which escapes the listener. */
  datatype ChatOutcome = Replied | UnexpectedCode | NoResult | Raised(error: BotError) | NullPointer

  /** Only a non-null answer with response code 0 is replied to. */
  function Dispatch(result: Option<BotResponse>): (r: Option<ReplyData>)
    ensures r.Some? <==> result.Some? && result.value.rc == 0
    ensures r.Some? ==> r.value == result.value.data
  {
    match result
    case None => None
    case Some(response) => if response.rc == 0 then Some(response.data) else None
  }

  /** `resp` is the reply to `request` built from the chatbot and the answer:
      an outbound message to the requesting visitor, in the request's
      organisation, session and channel, carrying the answer text (and the
      answer's parameters when there are any) under the chatbot's name. The
      application id is the fresh message's own, not the request's. */
  predicate IsReplyTo(resp: ChatMessage, request: ChatMessage, bot: Chatbot, data: ReplyData) {
    resp.calltype == Some(CALLTYPE_OUT) &&
    resp.appid == NewChatMessage().appid &&
    resp.orgi == request.orgi &&
    resp.aiid == request.aiid &&
    resp.message == Some(data.text) &&
    resp.touser == request.userid &&
    resp.agentserviceid == request.agentserviceid &&
    resp.msgtype == request.msgtype &&
    resp.userid == request.userid &&
    resp.kind == request.kind &&
    resp.channel == request.channel &&
    resp.expmsg == (if data.params.Some? then data.params else NewChatMessage().expmsg) &&
    resp.contextid == request.contextid &&
    resp.sessionid == request.sessionid &&
    resp.usession == request.usession &&
    resp.username == bot.name
  }

  /** The reply is fully determined by the request, the chatbot and the answer. */
  lemma ReplyIsDetermined(a: ChatMessage, b: ChatMessage, request: ChatMessage, bot: Chatbot, data: ReplyData)
    requires IsReplyTo(a, request, bot, data) && IsReplyTo(b, request, bot, data)
    ensures a == b
  {
  }

  /** The reply's construction, one setter at a time. */
  method BuildReply(request: ChatMessage, bot: Chatbot, data: ReplyData) returns (resp: ChatMessage)
    ensures IsReplyTo(resp, request, bot, data)
    ensures resp.touser == resp.userid == request.userid
  {
    resp := NewChatMessage();
    resp := resp.(calltype := Some(CALLTYPE_OUT));
    resp := resp.(appid := resp.appid);
    resp := resp.(orgi := request.orgi);
    resp := resp.(aiid := request.aiid);
    resp := resp.(message := Some(data.text));
    resp := resp.(touser := request.userid);
    resp := resp.(agentserviceid := request.agentserviceid);
    resp := resp.(msgtype := request.msgtype);
    resp := resp.(userid := request.userid);
    resp := resp.(kind := request.kind);
    resp := resp.(channel := request.channel);
    if data.params.Some? {
      resp := resp.(expmsg := data.params);
    }
    resp := resp.(contextid := request.contextid);
    resp := resp.(sessionid := request.sessionid);
    resp := resp.(usession := request.usession);
    resp := resp.(username := bot.name);
  }

  /** The counter invariant: logic errors are never negative and never more
      than the chatbot rounds. */
  predicate CountersConsistent(au: AgentUser) {
    0 <= au.chatbotlogicerror as int <= au.chatbotround as int
  }

  /** The conversation after one answer: one more chatbot round, and one more
      logic error exactly when the answer says its logic was unexpected; both
      are Java `int`s and wrap at the maximum. Nothing else changes. */
  function Bump(au: AgentUser, data: ReplyData): (r: AgentUser)
    ensures r.(chatbotround := au.chatbotround, chatbotlogicerror := au.chatbotlogicerror) == au
    ensures au.chatbotround as int < MAX ==> r.chatbotround as int == au.chatbotround as int + 1
    ensures data.logicIsUnexpected != Some(true) ==> r.chatbotlogicerror == au.chatbotlogicerror
    ensures data.logicIsUnexpected == Some(true) && au.chatbotlogicerror as int < MAX ==>
              r.chatbotlogicerror as int == au.chatbotlogicerror as int + 1
    ensures CountersConsistent(au) && au.chatbotround as int < MAX ==> CountersConsistent(r)
  {
    var p := au.(chatbotround := Inc(au.chatbotround));
    if data.logicIsUnexpected.Some? && data.logicIsUnexpected.value then p.(chatbotlogicerror := Inc(p.chatbotlogicerror))
    else p
  }

  /** At the `int` maximum the round counter wraps to the minimum, and the
      invariant no longer holds for an answer that is not flagged. */
  lemma RoundWrapBreaksConsistency(au: AgentUser, data: ReplyData)
    requires au.chatbotround as int == MAX && au.chatbotlogicerror == 0
    requires data.logicIsUnexpected != Some(true)
    ensures CountersConsistent(au) && !CountersConsistent(Bump(au, data))
  {
  }

  /** The conversation cached under `key`, if any, can take one more round
      without wrapping. */
  predicate RoundBelowMax(cache: map<(JString, JString), AgentUser>, key: (JString, JString)) {
    key in cache ==> cache[key].chatbotround as int < MAX
  }

  /** One persistence step, in the order performed: a conversation saved to
      the repository, or a reply saved and published to the visitor. */
  datatype Effect = SavedAgentUser(agentUser: AgentUser) | SavedAndPublished(message: ChatMessage)

  /** The bridge's state: the chatbot repository, the cached conversations
      keyed by visitor and organisation, and the writes and publications made. */
  class ChatbotSubscription {
    var chatbots: map<string, Chatbot>
    var cache: map<(JString, JString), AgentUser>
    var effects: seq<Effect>

    /** Every cached conversation keeps the counter invariant. */
    ghost predicate Valid()
      reads this
    {
      forall k :: k in cache ==> CountersConsistent(cache[k])
    }

    /** The counter step of `chat`: when the visitor's conversation is cached,
        advance its counters and save it; otherwise do nothing. */
    method UpdateAgentUserWithRespData(userid: JString, orgi: JString, data: ReplyData)
      modifies this
      ensures chatbots == old(chatbots)
      ensures (userid, orgi) !in old(cache) ==> cache == old(cache) && effects == old(effects)
      ensures (userid, orgi) in old(cache) ==>
                var p := Bump(old(cache)[(userid, orgi)], data);
                cache == old(cache)[(userid, orgi) := p] && effects == old(effects) + [SavedAgentUser(p)]
      ensures old(Valid()) && RoundBelowMax(old(cache), (userid, orgi)) ==> Valid()
    {
      if (userid, orgi) in cache {
        var p := Bump(cache[(userid, orgi)], data);
        cache := cache[(userid, orgi) := p];
        effects := effects + [SavedAgentUser(p)];
      }
    }

    /** What handling `request` does when the engine call behaves as `call`:
        nothing changes unless a reply is published, and a published reply
        comes after the counter save when the conversation is cached. */
    twostate predicate ChatStep(request: ChatMessage, call: BotCall, outcome: ChatOutcome)
      reads this
    {
      var bot := Find(old(chatbots), request.aiid);
      var key := (request.userid, request.orgi);
      chatbots == old(chatbots) &&
      (outcome != Replied ==> cache == old(cache) && effects == old(effects)) &&
      (bot.None? ==> outcome == NullPointer) &&
      (bot.Some? && call.Threw? ==> outcome == Raised(call.error)) &&
      (bot.Some? && call.Returned? && Dispatch(call.result).None? ==>
         outcome == (if call.result.None? then NoResult else UnexpectedCode)) &&
      (bot.Some? && call.Returned? && Dispatch(call.result).Some? ==>
         var data := Dispatch(call.result).value;
         var n := |old(effects)|;
         outcome == Replied &&
         n < |effects| && effects[..n] == old(effects) &&
         (if key in old(cache)
          then cache == old(cache)[key := Bump(old(cache)[key], data)] &&
               |effects| == n + 2 && effects[n] == SavedAgentUser(Bump(old(cache)[key], data))
          else cache == old(cache) && |effects| == n + 1) &&
         effects[|effects| - 1].SavedAndPublished? &&
         IsReplyTo(effects[|effects| - 1].message, request, bot.value, data))
    }

    /** `chat`: look up the message's chatbot, call the engine and, on a
        successful answer, advance the counters, then save and publish the
        reply. */
    method Chat(request: ChatMessage, call: BotCall) returns (outcome: ChatOutcome)
      modifies this
      ensures ChatStep(request, call, outcome)
      ensures old(Valid()) && RoundBelowMax(old(cache), (request.userid, request.orgi)) ==> Valid()
    {
      var c := Find(chatbots, request.aiid);
      if c.None? {
        return NullPointer;
      }
      match call
      case Threw(e) =>
        return Raised(e);
      case Returned(result) =>
        if result.None? {
          return NoResult;
        }
        if result.value.rc != 0 {
          return UnexpectedCode;
        }
        var data := result.value.data;
        var resp := BuildReply(request, c.value, data);
        UpdateAgentUserWithRespData(request.userid, request.orgi, data);
        effects := effects + [SavedAndPublished(resp)];
        return Replied;
    }

    /** `onMessage`: handle a deserialized queue message (`None`: the payload
        deserialized to null). The client's two checked exceptions are logged
        and swallowed; a null dereference escapes to the listener container. */
    method OnMessage(payload: Option<ChatMessage>, call: BotCall) returns (outcome: ChatOutcome, escaped: bool)
      modifies this
      ensures escaped <==> outcome == NullPointer
      ensures payload.None? ==> outcome == NullPointer && unchanged(this)
      ensures payload.Some? ==> ChatStep(payload.value, call, outcome)
      ensures outcome.Raised? ==>
                payload.Some? && call == Threw(outcome.error) && cache == old(cache) && effects == old(effects)
    ensures old(Valid()) && (payload.Some? ==> RoundBelowMax(old(cache), (payload.value.userid, payload.value.orgi))) ==>
              Valid()
    {
      if payload.None? {
        return NullPointer, true;
      }
      outcome := Chat(payload.value, call);
      escaped := outcome == NullPointer;
    }
  }
}
