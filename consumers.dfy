/**
 * The stateful side of `ChatConsumer` (chat/consumers.py): one consumer
 * object per WebSocket connection, which `connect` places in the room
 * group `chat_<room_name>` and `disconnect` takes out of it, and the
 * channel layer's groups that `receive_json` broadcasts into.
 *
 * The channel layer is library code; here it is a map from group name to
 * the non-empty set of consumers in that group (an object's identity
 * stands for its `channel_name`), and `group_send` hands the event to the
 * handler of every member exactly once, with no scheduling in between.
 * What a consumer writes to its WebSocket is kept, in order, in `sent`.
 */
module Consumers {
  import opened Json
  import opened Routing

  /** One frame written to a connection's WebSocket: the handshake answer
      `accept()`, `close()`, or a `send_json` of a handler. */
  datatype Frame = Accept | Close | Send(msg: Outbound)

  /** The URL route keyword arguments `room_name` and `user_id` of the
      connection, taken from the path `ws/chat/<room_name>/<user_id>/`. */
  datatype UrlRoute = UrlRoute(roomName: string, userId: string)

  /** The frames a handler writes for `e` on the connection of `memberId`. */
  function HandlerFrames(e: GroupEvent, memberId: string): (fs: seq<Frame>)
    ensures |fs| <= 1
    ensures fs != [] <==> Deliver(e, memberId).Some?
    ensures fs != [] ==> fs == [Send(Deliver(e, memberId).value)]
  {
    match Deliver(e, memberId)
    case None => []
    case Some(o) => [Send(o)]
  }

  /** The frames a member with id `memberId` gets from one `receive_json`
      call that ended with `r`. */
  function RelayFrames(r: Routed, memberId: string): (fs: seq<Frame>)
    ensures |fs| <= 1
    ensures !r.Emit? ==> fs == []
  {
    if r.Emit? then HandlerFrames(r.event, memberId) else []
  }

  /** The group of room `roomName`: `f"chat_{room_name}"`. Distinct rooms
      have distinct groups (GroupNameInjective). */
  function GroupName(roomName: string): string {
    "chat_" + roomName
  }

  lemma GroupNameInjective(a: string, b: string)
    ensures GroupName(a) == GroupName(b) <==> a == b
  {
    if GroupName(a) == GroupName(b) {
      assert a == GroupName(a)[5..];
    }
  }

  class ChannelLayer {
    var groups: map<string, set<ChatConsumer>>

    /** A group that exists has at least one member. */
    ghost predicate Valid()
      reads this
    {
      forall g :: g in groups ==> groups[g] != {}
    }

    /** The members of group `g`; a group that does not exist has none. */
    function Members(g: string): set<ChatConsumer>
      reads this
    {
      if g in groups then groups[g] else {}
    }

    constructor ()
      ensures Valid() && groups == map[]
    {
      groups := map[];
    }

    /** `group_add(g, c)`: `c` joins group `g`, which is created if need be. */
    method GroupAdd(g: string, c: ChatConsumer)
      requires Valid()
      modifies this
      ensures Valid()
      ensures groups == old(groups)[g := old(Members(g)) + {c}]
    {
      groups := groups[g := Members(g) + {c}];
    }

    /** `group_discard(g, c)`: `c` leaves group `g`; a group left empty is
      removed, and discarding a non-member changes nothing. */
    method GroupDiscard(g: string, c: ChatConsumer)
      requires Valid()
      modifies this
      ensures Valid()
      ensures Members(g) == old(Members(g)) - {c}
      ensures groups == if Members(g) == {} then old(groups) - {g} else old(groups)[g := Members(g)]
    {
      var rest := Members(g) - {c};
      if rest == {} {
        groups := groups - {g};
      } else {
        groups := groups[g := rest];
      }
    }

    /** `group_send(g, e)`: the handler of every member of `g` runs once on
      `e` and writes what it sends to its own connection; no other
      connection and nothing else changes. */
    method GroupSend(g: string, e: GroupEvent)
      modifies Members(g)`sent
      ensures forall c :: c in Members(g) ==> c.sent == old(c.sent) + HandlerFrames(e, c.userId)
    {
      forall c | c in Members(g) {
        c.sent := c.sent + HandlerFrames(e, c.userId);
      }
    }
  }

  class ChatConsumer {
    /** The URL route the connection was opened with. */
    const scope: UrlRoute
    var roomName: string
    var userId: string
    var roomGroupName: string
    /** Everything written to this connection's WebSocket, oldest first. */
    var sent: seq<Frame>
    /** `connect` has run and `disconnect` has not, so the three
        attributes above are set and the connection is live. */
    ghost var connected: bool

    constructor (scope: UrlRoute)
      ensures this.scope == scope && sent == [] && !connected
    {
      this.scope := scope;
      roomName, userId, roomGroupName := "", "", "";
      sent := [];
      connected := false;
    }

    /** `connect()`: the connection joins the group of its room and is
      accepted. An empty user id makes it call `close()` first, and it
      still joins the group and calls `accept()`: the source does not
      return after `close()`. */
    method Connect(layer: ChannelLayer)
      requires layer.Valid()
      modifies this, layer
      ensures layer.Valid() && connected
      ensures roomName == scope.roomName && userId == scope.userId
      ensures roomGroupName == GroupName(scope.roomName)
      ensures sent == old(sent) + (if scope.userId == "" then [Close, Accept] else [Accept])
      ensures layer.groups == old(layer.groups)[roomGroupName := old(layer.Members(GroupName(scope.roomName))) + {this}]
    {
      roomName := scope.roomName;
      userId := scope.userId;
      roomGroupName := GroupName(roomName);
      connected := true;
      if userId == "" {
        sent := sent + [Close];
      }
      layer.GroupAdd(roomGroupName, this);
      sent := sent + [Accept];
    }

    /** `disconnect(code)`: the connection leaves the group of its room
      and is no longer live. */
    method Disconnect(layer: ChannelLayer)
      requires connected && layer.Valid()
      modifies this`connected, layer
      ensures layer.Valid() && !connected
      ensures layer.Members(roomGroupName) == old(layer.Members(roomGroupName)) - {this}
      ensures forall g :: g != roomGroupName ==> layer.Members(g) == old(layer.Members(g))
    {
      layer.GroupDiscard(roomGroupName, this);
      connected := false;
    }

    /** `receive_json(content)`: the request is routed with this
      connection's user id, and an emitted event is broadcast to the
      group of its room. Every member of the group, this connection
      included, gets at most one frame; an exception is returned as
      `failure` and nothing is sent. */
    method ReceiveJson(layer: ChannelLayer, content: Value) returns (failure: Option<Error>)
      requires connected
      modifies layer.Members(roomGroupName)`sent
      ensures failure.Some? <==> Route(content, userId).Raise?
      ensures failure.Some? ==> failure.value == Route(content, userId).error
      ensures forall c :: c in layer.Members(roomGroupName) ==>
        c.sent == old(c.sent) + RelayFrames(Route(content, userId), c.userId)
    {
      var r := Route(content, userId);
      match r {
        case NoEvent =>
          failure := None;
        case Raise(error) =>
          failure := Some(error);
        case Emit(event) =>
          layer.GroupSend(roomGroupName, event);
          failure := None;
      }
    }
  }
}
