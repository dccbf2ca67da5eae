# Signalling relay of a two-party video chat, in Dafny

This project models `ChatConsumer` in `chat/consumers.py`, the server side of a
browser video-chat application built on Django Channels. Every WebSocket
connection opened at `ws/chat/<room_name>/<user_id>/` gets one consumer. The
consumer joins the channel-layer group `chat_<room_name>` and relays JSON
requests from its client to the group:

- `chat`: a text message;
- `sdp`: an SDP offer or answer, used to negotiate the peer-to-peer media stream;
- `ice-candidate`: an ICE connectivity candidate.

`receive_json` turns each request into at most one group event. It stamps an
`sdp` or `ice-candidate` event with the connection's own `user_id`; a chat
event carries no sender. Each group member's handler then decides
on its own whether that event reaches its client, and in what shape.

The model has five modules:

- `PyText` (`text.dfy`): Python's `str.strip()`, whose result decides whether a chat message is relayed.
- `Json` (`json.dfy`): the decoded request, with Python truthiness and `dict.get`.
- `Routing` (`routing.dfy`): the pure decision logic. `Route` is `receive_json`. `Deliver` is the four handlers `chat_message`, `sdp_offer`, `sdp_answer` and `ice_candidate`. `Receivers` says which user ids of a room an event reaches.
- `Consumers` (`consumers.dfy`): the state. `ChatConsumer` is a class with the attributes that `connect` sets and a log of the frames written to its WebSocket. `ChannelLayer` is a class holding the groups that `connect` and `disconnect` change and that `group_send` fans out over.
- `Scenarios` (`scenarios.dfy`): client methods. They replay short conversations, such as offer, answer and chat in room "alpha", and check from the contracts alone who receives what.

Some of the relay's behaviour is easy to misread. The model follows the code:

- A chat message is echoed to its own sender, because `chat_message` has no sender filter (chat/consumers.py:88-90). The web client relies on this echo to show its own messages.
- Nothing rejects a second connection that uses a `user_id` already in the room.
- An ICE candidate has no receiver. It goes to every member except the sender.
- An offer ignores the `sender` and `receiver` written by the client. It carries the connection's own id, and each recipient sees its own id as `receiver`.
- A connection with an empty `user_id` calls `close()`. Because `connect` does not return after that call (chat/consumers.py:30-36), the consumer still joins the group and calls `accept()`. `ChatConsumer.Connect` reproduces this. The scenario `EmptyUserId` shows that the consumer still hands the room's chat to `send_json` after it has called `close()`. Whether any of it reaches the client is up to the server (see below).

## Model

| member | source | states |
|---|---|---|
| `PyText.TrimStart` | chat/consumers.py:46 | the left half of `strip()`: the result is a suffix of the input, everything cut off is whitespace, and the result does not start with whitespace |
| `PyText.TrimEnd` | chat/consumers.py:46 | the right half of `strip()`: the result is a prefix of the input, everything cut off is whitespace, and the result does not end with whitespace |
| `PyText.Strip` | chat/consumers.py:46-47 | `message.strip()` leaves whitespace at neither end, and it is empty exactly when the message is whitespace only, which is when no chat event is sent |
| `PyText.StripDecomposes` | chat/consumers.py:46 | the input is the stripped text with whitespace-only text before and after it |
| `PyText.StripUnique` | chat/consumers.py:46 | reference characterisation: whitespace, then a text `t` with whitespace at neither end, then whitespace, strips to `t` |
| `PyText.StripTrimmed` | chat/consumers.py:46 | a text with whitespace at neither end strips to itself |
| `PyText.StripIdempotent` | chat/consumers.py:46 | stripping twice is stripping once |
| `Routing.Route` | chat/consumers.py:41-86 | `receive_json`: a request that is not an object raises; a missing or unknown `type` sends nothing; an event's kind matches the request `type`; only `chat` and `sdp` requests can raise; a chat event carries non-empty text with whitespace at neither end; every other event carries the connection's own `user_id` as sender |
| `Routing.ChatRequestRouting` | chat/consumers.py:44-53 | a `chat` request emits an event exactly when `message` is a string with a non-whitespace character, and the event carries the stripped text; it raises `AttributeError` exactly when `message` is truthy but not a string; otherwise nothing is sent |
| `Routing.ChatCarriesStrippedText` | chat/consumers.py:44-53 | a chat message made of whitespace, a text `t` and whitespace is relayed as exactly `t` |
| `Routing.SdpRequestRouting` | chat/consumers.py:55-78 | an `sdp` request with falsy `sdp` or falsy `sender` sends nothing; otherwise it raises exactly when `sdp` is not an object with a `type` key (`KeyError` for an object, `TypeError` otherwise); every event carries the client's `sdp` and the connection's own id; an offer is relayed as an offer; any other type is relayed exactly when `receiver` is truthy, and the event carries that receiver |
| `Routing.OfferIgnoresClientAddressing` | chat/consumers.py:63-69 | for an offer, any truthy client `sender` and any `receiver` give the same event, stamped with the connection's own id |
| `Routing.IceRequestRouting` | chat/consumers.py:80-86 | an `ice-candidate` request always emits one event. The event carries the connection's own id and the `candidate` as given, or `null` when it is missing |
| `Routing.Deliver` | chat/consumers.py:88-106 | a handler forwards the event's payload unchanged (message, sdp and sender, or candidate); an offer reaches the recipient addressed to the recipient's own id, never to the sender |
| `Routing.Receivers` | chat/consumers.py:88-106 | who receives what: a chat message reaches every member, the sender included; an offer and an ICE candidate reach every member but the sender; an answer reaches exactly the members whose id equals its receiver, and nobody if no member has that id |
| `Consumers.HandlerFrames` | chat/consumers.py:88-106 | each handler writes at most one frame; it writes one exactly when the event is delivered to that member, and that frame is the `send_json` of the delivered message |
| `Consumers.RelayFrames` | chat/consumers.py:41-86 | one `receive_json` call gives each member at most one frame, and none when the call sent no event or raised |
| `Consumers.GroupNameInjective` | chat/consumers.py:28 | two rooms share a group `chat_<room_name>` exactly when their names are equal |
| `Consumers.ChannelLayer.GroupAdd` | chat/consumers.py:34 | `group_add` adds the connection to its room's group and leaves every other group as it was |
| `Consumers.ChannelLayer.GroupDiscard` | chat/consumers.py:39 | `group_discard` removes the connection from the group, deletes a group left empty, and does nothing for a non-member |
| `Consumers.ChannelLayer.GroupSend` | chat/consumers.py:49-52 | `group_send` runs the handler of every member of the group exactly once, and each member's log grows by what its handler sends |
| `Consumers.ChatConsumer.Connect` | chat/consumers.py:25-36 | `connect` sets `room_name`, `user_id` and `room_group_name = "chat_" + room_name`, and adds the connection to that group. It writes `Accept`, preceded by `Close` when `user_id` is empty |
| `Consumers.ChatConsumer.Disconnect` | chat/consumers.py:38-39 | `disconnect` removes the connection from its room's group and leaves every other group unchanged. The connection is no longer live, so it can receive no further request |
| `Consumers.ChatConsumer.ReceiveJson` | chat/consumers.py:41-86 | one request raises exactly when `Route` raises. Otherwise every member of the sender's group gets what its handler sends for the routed event, which is at most one frame. The sender is included whenever it is a member of the group |

## Left out

- The channel layer's internals are not modelled: asynchronous scheduling, the delivery order across members, capacity and group expiry. A group is a set of consumer objects, where object identity stands for `channel_name`, and `group_send` hands the event to each member's handler synchronously, exactly once.
- What Channels and the server do after `receive_json` raises is not modelled. This includes tearing the connection down and whether `disconnect` then runs. `ReceiveJson` returns the exception and sends nothing.
- Whether the server honours `accept()` after `close()` during the handshake is not modelled. A `close()` during the handshake rejects the connection, and the framework may then run `disconnect`. The model records the frames the consumer writes, in order; `sent` is what the consumer hands to the transport, not what the client receives.
- JSON decoding of WebSocket text frames, binary frames and the serialisation inside `send_json` are transport plumbing and are not modelled. JSON numbers are modelled as integers; fractions are not modelled.
- The close `code` that `disconnect` receives is not modelled, because the consumer never reads it.
- Consumers.ChatConsumer.Connect: the channel layer checks group names, and `Connect` does not model that check. Channels' `group_add` accepts only names made of ASCII letters, digits, `-`, `_` and `.`, and shorter than the library's length limit. It raises `TypeError` for any other name, so `connect` ends at chat/consumers.py:34 without calling `accept()`. The room name comes from the URL unchecked, so a room name with, say, a space would take this path. Here `Connect` admits every room name and always joins the group. Channels is library code outside this repository, and its exact rule depends on the installed version.
- The URL routing table that produces `room_name` and `user_id` (room/routing.py) is not part of this model. The model admits any strings, including empty ones. The line above covers the group-name check that the model does not make.
- chatapp/asgi.py (ASGI wiring and middleware) and the React front end (frontend/src/…) are not part of this model. The front end's own logic is left out with it:
  - the order in which it tests a response for `message`, then `sdp`, then `candidate`;
  - its offer/answer handling: it answers an offer and sends that answer to the offer's `sender` (the id the relay stamped), and applies an answer (frontend/src/utils/sdp.ts, frontend/src/pages/room.tsx);
  - dropping an SDP when it has no user id, and its blank-message check before sending.
