# Dispatch and streaming layer of a tensor-parallel LLaMA web server

`web.py` serves a sharded LLaMA model from several cooperating processes. Rank 0
(the leader) answers clients. For every request it broadcasts the positional list
`[text, 100028, 0.7, 1]` to the other ranks (the followers). It then iterates its
own generator's `probs_stream` with the same four arguments. The leader streams the
tokens back in one of two ways:

- as Server-Sent Events: one JSON data frame per token, then the `"<EOS>"` sentinel;
- over a WebSocket: one JSON text frame per token, then a close. After each send the server reads acknowledgments until at most ten frames are unacknowledged, so a client that never acknowledges receives eleven frames.

Each follower loops forever. It receives the next list and calls its generator's
`generate` with the four slots by position. It discards the result and swallows any failure.

This project models those three parts in Dafny:

- `py_values.dfy` (`PyValues`): the Python objects that cross the broadcast, and `Option`.
- `dispatch.dfy` (`Dispatch`): the command list, the arguments and engine method of each rank's call, and the follower's positional decode.
- `events.dfy` (`Events`): the generator's 5-tuples, the five-field record `{token, word, probability, place, top5}`, and the payloads.
- `sse.dfy` (`Sse`): the streamed HTTP endpoint and how a client reads its frames.
- `websocket.dfy` (`WebSocket`): the send/acknowledge counter loop as a trace of `Send`, `RecvAck` and `Close` events, and the handler.
- `follower.dfy` (`Follower`): the follower loop over a finite run of rounds.

The leader's token stream is a parameter, `engine: GenArgs -> Generation`. A `Generation`
is a finite sequence of token events plus a flag that says whether the generator raises
after the last event. An `EngineCall` records which engine method a rank calls
(`ProbsStream` on the leader, `Generate` on a follower) and with which `GenArgs`.
The WebSocket client is the list of text frames it sends before it disconnects.
The first frame is the prompt and the rest are acknowledgments. A read past the end of
that list raises, as a disconnect does. JSON serialisation is the constructor
`Payload.Json(record)`: it is injective and never equal to the sentinel `Text("<EOS>")`.

Details of the code the model keeps:

- `top_p` is the integer `1`.
- The follower swallows every failure and goes straight on to the next broadcast.
- A body without `"text"` raises before anything is broadcast; the model reports it as `Rejected`.
- The SSE endpoint passes on `"text"` whatever JSON value it is, so the model's `PyValue` covers every JSON value.

## Model

| member | source | states |
|---|---|---|
| Dispatch.BroadcastTuple | web.py:120 | The broadcast list has four slots. The prompt is in slot 0, and the other three are the constants `max_gen_len = 100028`, `temperature = 0.7` and `top_p = 1`. The same literal list appears at web.py:140. |
| Dispatch.Decode | web.py:165-170 | The follower's positional read works exactly when the list has at least four slots. Re-encoding the result gives back the first four slots. |
| Dispatch.LeaderCall | web.py:123-124 | The leader calls `probs_stream` with the prompt and the constants `max_gen_len = 100028`, `temperature = 0.7` and `top_p = 1`, and these arguments are exactly what its own broadcast list decodes to. The WebSocket endpoint repeats this `probs_stream` call at web.py:146-147. |
| Dispatch.FollowerCall | web.py:168-169 | A follower reads the received list by position and calls `generate` with its first four slots: re-encoding the call's arguments gives back exactly `config[0..3]`. |
| Dispatch.DecodeEncode | web.py:167-170 | Decoding encoded arguments recovers prompt, `max_gen_len`, temperature and `top_p` field for field. |
| Dispatch.EncodeInjective | web.py:120 | Two argument tuples that put the same list on the wire are the same. |
| Dispatch.BroadcastMatchesLeaderCall | web.py:120-124 | The list `[text, 100028, 0.7, 1]` is exactly the encoding of the leader's arguments `(text, 100028, 0.7, 1)`, and decoding it gives those arguments. The WebSocket endpoint repeats the same literals at web.py:140-147. |
| Events.ToRecord | web.py:127 | The record keeps the generator's 5-tuple whole: reading the five fields back gives the tuple. The WebSocket endpoint builds the same record at web.py:150. |
| Events.Serialize | web.py:127 | An event's payload is never the `"<EOS>"` sentinel. |
| Events.SerializeInjective | web.py:123-127 | Distinct generator 5-tuples produce distinct payloads, because the record keeps all five fields by position. |
| Events.RecordRoundTrip | web.py:123-127 | The five-field record and the generator's 5-tuple determine each other. |
| Events.DataFrames | web.py:123-127 | One payload per event, the i-th being the i-th event's record, and no sentinel among them. |
| Sse.GenerateStream | web.py:121-130 | The frames are the events' payloads in generation order, followed by exactly one `"<EOS>"`. That makes n + 1 frames, so an empty generation gives only `"<EOS>"`. If the generator raises, the stream stops before the sentinel. |
| Sse.Generate | web.py:118-133 | A body without `"text"` is rejected. Otherwise the broadcast list is `[text, 100028, 0.7, 1]` and decodes to the arguments of the leader's `probs_stream` call. The frames are that call's events followed by the sentinel exactly when the generator did not raise. |
| Sse.ReadStreamComplete | web.py:123-130 | A complete stream reads back as exactly the generated records in order. |
| Sse.ReadStreamCut | web.py:123-128 | A stream cut before the sentinel never reads as complete. |
| Sse.ReadStreamShape | web.py:127-130 | Whatever reads as complete is a run of data frames followed by one sentinel, and nothing else. |
| WebSocket.AcksDue | web.py:154-156 | The number of acks due after `sent` frames is at most `sent`. Once the drain after a send has read them, at most ten frames are unacknowledged, and exactly ten once more than ten frames are out. |
| WebSocket.SendAndDrain | web.py:150-156 | Sends one frame, then drains acks until `recv == max(0, send - 10)`. It reports the client gone exactly when the client has fewer acks left than that; then it has read all of them. The trace stays flow-controlled and the counters match it. |
| WebSocket.Stream | web.py:142-160 | Every event is sent once, in order, and no sentinel is sent. The trace is flow-controlled: an ack is read only when it is due, and every send and the close come when `recv == max(0, send - 10)`. When the session completes, `n` frames and `max(0, n - 10)` acks have been exchanged, and the socket is closed once, last. The client is gone exactly when it sends fewer than `n - 10` acks; then the session stops after send `acks + 11`, having read all of them. |
| WebSocket.GenerateWs | web.py:136-160 | With no prompt frame nothing is broadcast. Otherwise the broadcast list decodes to the arguments of the leader's `probs_stream` call, and the frames are a prefix of that call's events, in order, under flow control. The client is gone exactly when it sends fewer than `n - 10` acks after the prompt; then `|inbox| + 10` frames went out and all its acks were read. Otherwise all `n` frames and `max(0, n - 10)` acks were exchanged. The close comes last, exactly when the generator also ended normally. |
| WebSocket.FlowControlledHistory | web.py:152-156 | Read at every point of a flow-controlled trace: no prefix has read more acks than `max(0, send - 10)`, and the prefix before every send or close has read exactly that many. |
| WebSocket.FirstAckAfterWindow | web.py:152-156 | No acknowledgment is read before the eleventh frame has been sent. |
| WebSocket.GapBounded | web.py:152-156 | Before every send and before the close, `recv <= send <= recv + 10`. |
| Follower.Run | web.py:164-172 | The loop never exits early: every round yields exactly one iteration. In each round `generate` is called exactly when the broadcast delivers, with the arguments the delivered list encodes. A failure is swallowed exactly when the broadcast or the call raised. |
| Follower.IterationDetermined | web.py:164-172 | Nothing carries over between rounds: two iterations that meet the per-round behaviour for the same round are equal. |
| Follower.MirrorsLeader | web.py:165-170 | In a round that delivers the leader's list for `text`, the follower passes exactly the leader's arguments, in the same positions. It passes them to `generate`, not to the leader's `probs_stream`. |
| Follower.RunMirrorsLeader | web.py:164-172 | Over a run of such rounds, the follower passes the leader's arguments one round each and in order, regardless of which rounds failed. |

## Left out

- Process-group bootstrap, CUDA device selection and seeding (web.py:37-47): foreign calls into torch and fairscale.
- Checkpoint, parameter and tokenizer loading, and the world-size check (web.py:50-98): filesystem I/O and model construction.
- Argument parsing, the unused `Config` class, and routing and serving (web.py:27-34, web.py:110-117, web.py:162): framework plumbing.
- The model and the generator internals: the leader's token stream is a parameter that yields a finite sequence of 5-tuples and may raise after them.
- Follower.MirrorsLeader: the leader iterates `probs_stream` (web.py:123, web.py:146) and a follower calls `generate` (web.py:168). The model shows that both receive the same arguments in the same positions. Nothing here shows that the two methods run the same collective steps, because both are foreign code.
- JSON byte encoding: represented by an injective constructor. Request bodies that are not JSON objects are not modelled.
- The broadcast itself (`broadcast_object_list`, web.py:120, web.py:140, web.py:167) is foreign. On a follower it is assumed either to raise or to fill the four-slot buffer with the leader's four-slot list. A list of another length would be a mismatched collective, and that is not modelled.
- A broadcast failure on the leader (web.py:120, web.py:140) raises before any frame is sent. `Sse.Generate` and `WebSocket.GenerateWs` always broadcast successfully.
- Abandoned rounds on the leader: when the WebSocket client goes away (`ClientGone`), when an SSE client disconnects mid-stream, or when the leader's generator raises, the leader stops iterating `probs_stream` mid-round (web.py:123-128, web.py:146-156). The followers stay inside `generate` (web.py:168). The model records where the leader stops, but not what that does to the followers.
- `asyncio.sleep(0)` yields, cross-process broadcast timing, and concurrent connections on the leader. Two connections can broadcast concurrently because there is no mutex; the model is sequential and says nothing about that interleaving.
- The timing gap between the SSE endpoint's broadcast and its lazy generation. A client that leaves before the stream is iterated leaves the followers one round ahead; this is not modelled.
- An SSE client disconnect is not modelled: `Sse.GenerateStream` always produces the whole stream.
- WebSocket.Stream: a send to a socket the client has closed is assumed to succeed. The disconnect is seen only at the next acknowledgment read.
- WebSocket.Stream: a client that stays connected but never acknowledges makes the source block forever. The model has no such client, because every client eventually sends its acks or disconnects.
- The receive buffer `[None] * 4` (web.py:165): every successful broadcast overwrites it, and it is never read after a failed one, so the model does not keep it.
- Follower.Run: the `while True` loop is modelled over a finite run of rounds, which is every finite prefix of its execution.
- Floating-point values: temperature and probabilities are carried as exact reals and only passed through.
