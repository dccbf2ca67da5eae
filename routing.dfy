/**
 * The decision logic of `ChatConsumer` (chat/consumers.py): `Route` is
 * `receive_json`, which turns one decoded request from a client into at
 * most one event for the room group, stamped with the connection's own
 * user id; `Deliver` is the four group handlers, each of which decides on
 * its own whether an event reaches its client and in what shape.
 */
module Routing {
  import opened PyText
  import opened Json

  datatype Option<T> = None | Some(value: T)

  /** The exception a `receive_json` call ends with instead of returning. */
  datatype Error =
    | AttributeError  // `.get` on a request that is not an object, `.strip` on a message that is not a string
    | TypeError       // `sdp['type']` on a truthy `sdp` that is not an object
    | KeyError        // `sdp['type']` on an object without that key

  /** The events given to the channel layer's `group_send`. The layer hands
      `chat.message`, `sdp.offer`, `sdp.answer` and `ice.candidate` to the
      handlers `chat_message`, `sdp_offer`, `sdp_answer` and `ice_candidate`. */
  datatype GroupEvent =
    | ChatMessage(message: string)
    | SdpOffer(sdp: Value, sender: string)
    | SdpAnswer(sdp: Value, sender: string, receiver: Value)
    | IceCandidate(candidate: Value, sender: string)

  /** The objects the handlers give to `send_json`: `{message}`,
      `{sdp, sender, receiver}`, `{sdp, sender}` and `{candidate}`. */
  datatype Outbound =
    | ChatOut(message: string)
    | OfferOut(sdp: Value, sender: string, receiver: string)
    | AnswerOut(sdp: Value, sender: string)
    | CandidateOut(candidate: Value)

  /** The outcome of one `receive_json` call: nothing sent, one event sent
      to the room group, or an exception. */
  datatype Routed = NoEvent | Emit(event: GroupEvent) | Raise(error: Error)

  /** The request `type` values the consumer acts on. */
  const RequestTypes: set<Value> := {Str("chat"), Str("sdp"), Str("ice-candidate")}

  /** The request `type` each kind of event comes from. */
  function RequestTypeOf(e: GroupEvent): Value {
    match e
    case ChatMessage(_) => Str("chat")
    case SdpOffer(_, _) => Str("sdp")
    case SdpAnswer(_, _, _) => Str("sdp")
    case IceCandidate(_, _) => Str("ice-candidate")
  }

  /** The `chat` branch: a falsy message is dropped, a truthy one that is
      not a string has no `strip`, and a message that strips to nothing is
      dropped. */
  function RouteChat(message: Value): Routed {
    if !Truthy(message) then NoEvent
    else if !message.Str? then Raise(AttributeError)
    else
      var text := Strip(message.s);
      if text == [] then NoEvent else Emit(ChatMessage(text))
  }

  /** The `sdp` branch: `sdp['type']` is read only once both `sdp` and
      `sender` are truthy, and before `receiver` is looked at. */
  function RouteSdp(sdp: Value, sender: Value, receiver: Value, selfId: string): Routed {
    if !(Truthy(sdp) && Truthy(sender)) then NoEvent
    else if !sdp.Object? then Raise(TypeError)
    else if "type" !in sdp.fields then Raise(KeyError)
    else if sdp.fields["type"] == Str("offer") then Emit(SdpOffer(sdp, selfId))
    else if !Truthy(receiver) then NoEvent
    else Emit(SdpAnswer(sdp, selfId, receiver))
  }

  /** `receive_json(content)` of the connection whose user id is `selfId`. */
  function Route(content: Value, selfId: string): (r: Routed)
    ensures !content.Object? ==> r == Raise(AttributeError)
    ensures content.Object? && Get(content, "type") !in RequestTypes ==> r == NoEvent
    ensures r.Emit? ==> content.Object? && Get(content, "type") == RequestTypeOf(r.event)
    ensures r.Raise? && content.Object? ==> Get(content, "type") in {Str("chat"), Str("sdp")}
    ensures r.Emit? && r.event.ChatMessage? ==> r.event.message != [] && Trimmed(r.event.message)
    ensures r.Emit? && !r.event.ChatMessage? ==> r.event.sender == selfId
  {
    if !content.Object? then Raise(AttributeError)
    else
      var reqType := Get(content, "type");
      if reqType == Str("chat") then
        RouteChat(Get(content, "message"))
      else if reqType == Str("sdp") then
        RouteSdp(Get(content, "sdp"), Get(content, "sender"), Get(content, "receiver"), selfId)
      else if reqType == Str("ice-candidate") then
        Emit(IceCandidate(Get(content, "candidate"), selfId))
      else
        NoEvent
  }

  /** `o` carries the payload of `e` unchanged: the relay routes, it does
      not rewrite what the clients exchange. */
  predicate Forwards(e: GroupEvent, o: Outbound) {
    match e
    case ChatMessage(m) => o == ChatOut(m)
    case SdpOffer(sdp, sender) => o.OfferOut? && o.sdp == sdp && o.sender == sender
    case SdpAnswer(sdp, sender, _) => o == AnswerOut(sdp, sender)
    case IceCandidate(candidate, _) => o == CandidateOut(candidate)
  }

  /** The handler of the group member whose user id is `memberId`, run on
      event `e`: what it sends to its client, if anything. */
  function Deliver(e: GroupEvent, memberId: string): (r: Option<Outbound>)
    ensures r.Some? ==> Forwards(e, r.value)
    ensures r.Some? && r.value.OfferOut? ==> r.value.receiver == memberId != r.value.sender
  {
    match e
    case ChatMessage(m) =>
      Some(ChatOut(m))
    case SdpOffer(sdp, sender) =>
      if memberId != sender then Some(OfferOut(sdp, sender, memberId)) else None
    case SdpAnswer(sdp, sender, receiver) =>
      if receiver == Str(memberId) then Some(AnswerOut(sdp, sender)) else None
    case IceCandidate(candidate, sender) =>
      if sender != memberId then Some(CandidateOut(candidate)) else None
  }

  /** Of the user ids `ids` present in the room, those whose handler sends
      something for `e`: a chat message reaches every member, the sender
      included; an offer and an ICE candidate reach everyone but the
      sender; an answer reaches exactly the members named by its receiver,
      and nobody when no member has that id. */
  function Receivers(e: GroupEvent, ids: set<string>): (r: set<string>)
    ensures e.ChatMessage? ==> r == ids
    ensures e.SdpOffer? || e.IceCandidate? ==> r == ids - {e.sender}
    ensures e.SdpAnswer? ==> r == if e.receiver.Str? then ids * {e.receiver.s} else {}
  {
    set id | id in ids && Deliver(e, id).Some?
  }

  /** A `chat` request produces an event exactly when its message is a
      string with a non-whitespace character; the event then carries the
      stripped text. A truthy message that is not a string raises. */
  lemma ChatRequestRouting(content: Value, selfId: string)
    requires content.Object? && Get(content, "type") == Str("chat")
    ensures var r, message := Route(content, selfId), Get(content, "message");
      && (r.Emit? <==> message.Str? && !AllSpace(message.s))
      && (r.Emit? ==> r.event == ChatMessage(Strip(message.s)))
      && (r.Raise? <==> Truthy(message) && !message.Str?)
      && (r.Raise? ==> r.error == AttributeError)
  {
  }

  /** A chat message made of leading whitespace, a text `t` with no
      whitespace at either end, and trailing whitespace is relayed as `t`. */
  lemma ChatCarriesStrippedText(content: Value, selfId: string, lead: string, t: string, trail: string)
    requires content.Object? && Get(content, "type") == Str("chat")
    requires Get(content, "message") == Str(lead + t + trail)
    requires AllSpace(lead) && AllSpace(trail) && Trimmed(t) && t != []
    ensures Route(content, selfId) == Emit(ChatMessage(t))
  {
    var message := Get(content, "message");
    assert Strip(message.s) == t by {
      StripUnique(lead, t, trail);
    }
    assert RouteChat(message) == Emit(ChatMessage(t));
  }

  /** An `sdp` request: dropped when `sdp` or `sender` is falsy; otherwise
      `sdp['type']` raises when `sdp` is not an object with a `type` key;
      otherwise an offer is always relayed, and any other description only
      when `receiver` is truthy. Every event carries the client's `sdp`
      and the connection's own id as sender. */
  lemma SdpRequestRouting(content: Value, selfId: string)
    requires content.Object? && Get(content, "type") == Str("sdp")
    ensures var r, sdp, sender, receiver :=
      Route(content, selfId), Get(content, "sdp"), Get(content, "sender"), Get(content, "receiver");
      && (!Truthy(sdp) || !Truthy(sender) ==> r == NoEvent)
      && (r.Raise? <==> Truthy(sdp) && Truthy(sender) && !(sdp.Object? && "type" in sdp.fields))
      && (r.Raise? ==> r.error == if sdp.Object? then KeyError else TypeError)
      && (r.Emit? ==> r.event.sdp == sdp && r.event.sender == selfId)
      && (r.Emit? ==> (r.event.SdpOffer? <==> sdp.fields["type"] == Str("offer")))
      && (Truthy(sender) && sdp.Object? && "type" in sdp.fields && sdp.fields["type"] != Str("offer")
          ==> (r.Emit? <==> Truthy(receiver)) && (r.Emit? ==> r.event.receiver == receiver))
  {
  }

  /** An offer ignores the `sender` and `receiver` the client wrote: any
      truthy sender and any receiver give the same event, addressed from
      the connection's own id. */
  lemma OfferIgnoresClientAddressing(content: Value, selfId: string, sender: Value, receiver: Value)
    requires content.Object? && Get(content, "type") == Str("sdp")
    requires Get(content, "sdp").Object? && "type" in Get(content, "sdp").fields
    requires Get(content, "sdp").fields["type"] == Str("offer")
    requires Truthy(Get(content, "sender")) && Truthy(sender)
    ensures var other := Object(content.fields["sender" := sender]["receiver" := receiver]);
      && Route(other, selfId) == Route(content, selfId)
      && Route(content, selfId) == Emit(SdpOffer(Get(content, "sdp"), selfId))
  {
  }

  /** An `ice-candidate` request is always relayed, whatever its
      `candidate` (a missing one travels as `null`), from the connection's
      own id. */
  lemma IceRequestRouting(content: Value, selfId: string)
    requires content.Object? && Get(content, "type") == Str("ice-candidate")
    ensures Route(content, selfId) == Emit(IceCandidate(Get(content, "candidate"), selfId))
  {
  }
}
