/**
 * Clients of the consumer model that replay short conversations and check,
 * from the contracts alone, who receives what.
 */
module Scenarios {
  import opened PyText
  import opened Json
  import opened Routing
  import opened Consumers

  function ChatRequest(text: string): Value {
    Object(map["type" := Str("chat"), "message" := Str(text)])
  }

  function SdpRequest(sdp: Value, sender: string, receiver: string): Value {
    Object(map["type" := Str("sdp"), "sdp" := sdp, "sender" := Str(sender), "receiver" := Str(receiver)])
  }

  /** A chat request whose text is `t` between whitespace is relayed as `t`. */
  lemma ChatRouted(lead: string, t: string, trail: string, selfId: string)
    requires AllSpace(lead) && AllSpace(trail) && Trimmed(t) && t != []
    ensures Route(ChatRequest(lead + t + trail), selfId) == Emit(ChatMessage(t))
  {
    ChatCarriesStrippedText(ChatRequest(lead + t + trail), selfId, lead, t, trail);
  }

  /** A chat request whose text has no whitespace at either end is relayed unchanged. */
  lemma TrimmedChatRouted(t: string, selfId: string)
    requires Trimmed(t) && t != []
    ensures Route(ChatRequest(t), selfId) == Emit(ChatMessage(t))
  {
    assert [] + t + [] == t;
    ChatRouted([], t, [], selfId);
  }

  /** An offer is relayed from the connection's own id. */
  lemma OfferRouted(sdp: Value, sender: string, receiver: string, selfId: string)
    requires sdp.Object? && "type" in sdp.fields && sdp.fields["type"] == Str("offer")
    requires sender != []
    ensures Route(SdpRequest(sdp, sender, receiver), selfId) == Emit(SdpOffer(sdp, selfId))
  {
    SdpRequestRouting(SdpRequest(sdp, sender, receiver), selfId);
  }

  /** Any other description with a receiver is relayed to that receiver. */
  lemma AnswerRouted(sdp: Value, sender: string, receiver: string, selfId: string)
    requires sdp.Object? && "type" in sdp.fields && sdp.fields["type"] != Str("offer")
    requires sender != [] && receiver != []
    ensures Route(SdpRequest(sdp, sender, receiver), selfId) == Emit(SdpAnswer(sdp, selfId, Str(receiver)))
  {
    SdpRequestRouting(SdpRequest(sdp, sender, receiver), selfId);
  }

  /** A description without a `type` key raises `KeyError`, whatever the receiver. */
  lemma UntypedSdpRaises(sdp: Value, sender: string, receiver: string, selfId: string)
    requires sdp.Object? && sdp.fields != map[] && "type" !in sdp.fields
    requires sender != []
    ensures Route(SdpRequest(sdp, sender, receiver), selfId) == Raise(KeyError)
  {
    SdpRequestRouting(SdpRequest(sdp, sender, receiver), selfId);
  }

  /** Two connections with ids `idA` and `idB` join room `room` of a fresh
      channel layer. */
  method JoinPair(room: string, idA: string, idB: string) returns (layer: ChannelLayer, a: ChatConsumer, b: ChatConsumer)
    requires idA != "" && idB != ""
    ensures fresh(layer) && fresh(a) && fresh(b)
    ensures a.connected && a.userId == idA && a.roomGroupName == GroupName(room)
    ensures b.connected && b.userId == idB && b.roomGroupName == GroupName(room)
    ensures layer.Valid() && layer.Members(GroupName(room)) == {a, b}
    ensures a.sent == [Accept] && b.sent == [Accept]
  {
    layer := new ChannelLayer();
    a := new ChatConsumer(UrlRoute(room, idA));
    b := new ChatConsumer(UrlRoute(room, idB));
    a.Connect(layer);
    b.Connect(layer);
  }

  /** Room "alpha", A and B joined: A's offer with an empty receiver
      reaches B only, addressed to B. */
  method AlphaOffer() {
    var layer, a, b := JoinPair("alpha", "A", "B");

    var offer := Object(map["type" := Str("offer"), "sdp" := Str("v=0")]);
    OfferRouted(offer, "A", "", "A");
    var failure := a.ReceiveJson(layer, SdpRequest(offer, "A", ""));
    assert failure == None;
    assert a.sent == [Accept];
    assert b.sent == [Accept, Send(OfferOut(offer, "A", "B"))];
  }

  /** Room "alpha", A and B joined: B's answer addressed to A reaches A
      only. */
  method AlphaAnswer() {
    var layer, a, b := JoinPair("alpha", "A", "B");

    var answer := Object(map["type" := Str("answer"), "sdp" := Str("v=0")]);
    AnswerRouted(answer, "B", "A", "B");
    var failure := b.ReceiveJson(layer, SdpRequest(answer, "B", "A"));
    assert failure == None;
    assert a.sent == [Accept, Send(AnswerOut(answer, "B"))];
    assert b.sent == [Accept];
  }

  /** Room "alpha", A and B joined: A's chat reaches both, A included,
      since the handler does not filter the sender. */
  method AlphaChat(text: string)
    requires Trimmed(text) && text != []
  {
    var layer, a, b := JoinPair("alpha", "A", "B");

    TrimmedChatRouted(text, "A");
    var failure := a.ReceiveJson(layer, ChatRequest(text));
    assert a.sent == [Accept, Send(ChatOut(text))];
    assert b.sent == [Accept, Send(ChatOut(text))];
  }

  /** Room "alpha": after B leaves, A's answer addressed to B reaches
      nobody and raises nothing. */
  method AlphaAfterLeave() {
    var layer, a, b := JoinPair("alpha", "A", "B");
    b.Disconnect(layer);
    assert layer.Members(a.roomGroupName) == {a};

    var answer := Object(map["type" := Str("answer"), "sdp" := Str("v=0")]);
    AnswerRouted(answer, "A", "B", "A");
    assert Deliver(SdpAnswer(answer, "A", Str("B")), "A") == None;
    var failure := a.ReceiveJson(layer, SdpRequest(answer, "A", "B"));
    assert failure == None;
    assert a.sent == [Accept] && b.sent == [Accept];
  }

  /** Room "beta", A alone: its chat comes back to it, and a member of
      room "gamma" hears nothing. */
  method BetaChat(text: string)
    requires Trimmed(text) && text != []
  {
    var layer := new ChannelLayer();
    var a := new ChatConsumer(UrlRoute("beta", "A"));
    var c := new ChatConsumer(UrlRoute("gamma", "C"));
    a.Connect(layer);
    c.Connect(layer);
    GroupNameInjective("beta", "gamma");
    assert layer.Members(a.roomGroupName) == {a};

    TrimmedChatRouted(text, "A");
    var failure := a.ReceiveJson(layer, ChatRequest(text));
    assert a.sent == [Accept, Send(ChatOut(text))];
    assert c.sent == [Accept];
  }

  /** Room "beta", A alone: a request of an unknown type sends nothing. */
  method BetaUnknownType() {
    var layer := new ChannelLayer();
    var a := new ChatConsumer(UrlRoute("beta", "A"));
    a.Connect(layer);
    var failure := a.ReceiveJson(layer, Object(map["type" := Str("ping")]));
    assert failure == None && a.sent == [Accept];
  }

  /** Room "beta", A alone: a whitespace-only chat sends nothing. */
  method BetaBlankChat() {
    var layer := new ChannelLayer();
    var a := new ChatConsumer(UrlRoute("beta", "A"));
    a.Connect(layer);
    assert AllSpace(" \t ");
    ChatRequestRouting(ChatRequest(" \t "), "A");
    var failure := a.ReceiveJson(layer, ChatRequest(" \t "));
    assert failure == None && a.sent == [Accept];
  }

  /** Room "beta", A alone: an `sdp` without a `type` key raises and sends
      nothing. */
  method BetaUntypedSdp() {
    var layer := new ChannelLayer();
    var a := new ChatConsumer(UrlRoute("beta", "A"));
    a.Connect(layer);
    var untyped := Object(map["sdp" := Str("v=0")]);
    assert "sdp" in untyped.fields && "type" !in untyped.fields;
    UntypedSdpRaises(untyped, "A", "B", "A");
    var failure := a.ReceiveJson(layer, SdpRequest(untyped, "A", "B"));
    assert failure == Some(KeyError) && a.sent == [Accept];
  }

  /** A connection with an empty user id calls `close()`, yet it joins the
      group and calls `accept()`, and its handler still passes the room's
      chat to `send_json` after the close. */
  method EmptyUserId(text: string)
    requires Trimmed(text) && text != []
  {
    var layer := new ChannelLayer();
    var x := new ChatConsumer(UrlRoute("delta", ""));
    var d := new ChatConsumer(UrlRoute("delta", "D"));
    x.Connect(layer);
    assert x.sent == [Close, Accept];
    d.Connect(layer);
    assert x in layer.Members(d.roomGroupName);

    TrimmedChatRouted(text, "D");
    var failure := d.ReceiveJson(layer, ChatRequest(text));
    assert x.sent == [Close, Accept, Send(ChatOut(text))];
  }
}
