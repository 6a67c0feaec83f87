/** The WebSocket endpoint: one JSON text frame per token event, with a
    flow-control window of ten unacknowledged frames, then a close. */
module WebSocket {
  import opened PyValues
  import opened Dispatch
  import opened Events

  /** After each send the server reads acknowledgments until at most this
      many frames are unacknowledged. The frame just sent comes first, so a
      client that never acknowledges receives one frame more than this. */
  const Window: nat := 10

  /** What the server does on the socket after reading the prompt. */
  datatype WsEvent = Send(payload: Payload) | RecvAck | Close

  /** How a session ends: the socket is closed after the last frame, the
      client went away while an acknowledgment was awaited, or the generator
      raised. Only the first closes the socket from the server side. */
  datatype Outcome = Closed | ClientGone | GenerationFailed

  /** Number of frames sent in a trace. */
  function Sends(t: seq<WsEvent>): nat
  {
    if |t| == 0 then 0
    else Sends(t[..|t| - 1]) + (if t[|t| - 1].Send? then 1 else 0)
  }

  /** Number of acknowledgments read in a trace. */
  function Acks(t: seq<WsEvent>): nat
  {
    if |t| == 0 then 0
    else Acks(t[..|t| - 1]) + (if t[|t| - 1].RecvAck? then 1 else 0)
  }

  /** The payloads sent in a trace, in order: what the client receives. */
  function SentPayloads(t: seq<WsEvent>): seq<Payload>
  {
    if |t| == 0 then []
    else SentPayloads(t[..|t| - 1]) + (if t[|t| - 1].Send? then [t[|t| - 1].payload] else [])
  }

  /** Acknowledgments the session has read once `sent` frames are out and
      the window has been restored: none for the first ten frames, then one
      per frame. */
  function AcksDue(sent: nat): (due: nat)
    ensures due <= sent
    ensures sent - due <= Window
    ensures sent > Window ==> sent - due == Window
  {
    if sent > Window then sent - Window else 0
  }

  /** The flow-control discipline, event by event: every acknowledgment is
      read only when it is due, and every send and the close happen only once
      the window has been restored (exactly the due acknowledgments read). */
  predicate FlowControlled(t: seq<WsEvent>)
  {
    if |t| == 0 then true
    else
      var h, e := t[..|t| - 1], t[|t| - 1];
      && FlowControlled(h)
      && (if e.RecvAck? then Acks(h) + 1 <= AcksDue(Sends(h)) else Acks(h) == AcksDue(Sends(h)))
  }

  /** No acknowledgment is read before it is due: at every point of the
      trace, reads lag the sends by at least the window (or there are none). */
  ghost predicate NoEarlyAck(t: seq<WsEvent>)
  {
    forall k :: 0 <= k <= |t| ==> Acks(t[..k]) <= AcksDue(Sends(t[..k]))
  }

  /** Whenever the server sends a frame or closes, the window has been
      restored: exactly the due acknowledgments have been read, so at most
      ten frames are unacknowledged. */
  ghost predicate WindowRestored(t: seq<WsEvent>)
  {
    forall k :: 0 <= k < |t| && !t[k].RecvAck? ==> Acks(t[..k]) == AcksDue(Sends(t[..k]))
  }

  /** Extending a trace by one event: the counters and the discipline step
      exactly as their definitions say. */
  lemma Append(t: seq<WsEvent>, e: WsEvent)
    ensures Sends(t + [e]) == Sends(t) + (if e.Send? then 1 else 0)
    ensures Acks(t + [e]) == Acks(t) + (if e.RecvAck? then 1 else 0)
    ensures SentPayloads(t + [e]) == SentPayloads(t) + (if e.Send? then [e.payload] else [])
    ensures FlowControlled(t + [e]) <==>
      FlowControlled(t) && (if e.RecvAck? then Acks(t) + 1 <= AcksDue(Sends(t)) else Acks(t) == AcksDue(Sends(t)))
  {
  }

  /** The discipline, read back at every point of the trace: no early
      acknowledgment anywhere, and the window restored at every send and at
      the close. */
  lemma {:induction false} FlowControlledHistory(t: seq<WsEvent>)
    requires FlowControlled(t)
    ensures NoEarlyAck(t) && WindowRestored(t)
  {
    if |t| == 0 {
      assert forall k :: 0 <= k <= 0 ==> t[..k] == [];
    } else {
      var h := t[..|t| - 1];
      FlowControlledHistory(h);
      assert t == h + [t[|t| - 1]];
      forall k | 0 <= k <= |t|
        ensures Acks(t[..k]) <= AcksDue(Sends(t[..k]))
      {
        if k <= |h| {
          assert t[..k] == h[..k];
        } else {
          assert t[..k] == t;
          assert Acks(h) <= AcksDue(Sends(h));
        }
      }
      forall k | 0 <= k < |t| && !t[k].RecvAck?
        ensures Acks(t[..k]) == AcksDue(Sends(t[..k]))
      {
        assert t[..k] == h[..k];
      }
    }
  }

  /** One turn of the streaming loop: send a frame and count it, then read
      and discard acknowledgments while more than ten frames are
      unacknowledged. `remaining` is the number of acknowledgments the client
      still sends; needing one more than that means the client is `gone`. */
  method SendAndDrain(trace: seq<WsEvent>, sendTokens: nat, recvTokens: nat, remaining: nat, frame: Payload)
    returns (trace': seq<WsEvent>, sendTokens': nat, recvTokens': nat, remaining': nat, gone: bool)
    requires Sends(trace) == sendTokens && Acks(trace) == recvTokens
    requires recvTokens == AcksDue(sendTokens)
    requires FlowControlled(trace)
    requires Close !in trace
    ensures sendTokens' == sendTokens + 1
    ensures Sends(trace') == sendTokens' && Acks(trace') == recvTokens'
    ensures FlowControlled(trace')
    ensures SentPayloads(trace') == SentPayloads(trace) + [frame]
    ensures Close !in trace'
    ensures remaining' + recvTokens' == remaining + recvTokens
    ensures gone <==> recvTokens + remaining < AcksDue(sendTokens')
    ensures gone ==> remaining' == 0
    ensures !gone ==> recvTokens' == AcksDue(sendTokens')
  {
    Append(trace, Send(frame));
    trace' := trace + [Send(frame)];
    sendTokens' := sendTokens + 1;
    recvTokens' := recvTokens;
    remaining' := remaining;
    while recvTokens' < sendTokens' - Window
      invariant recvTokens <= recvTokens' <= AcksDue(sendTokens')
      invariant remaining' + recvTokens' == remaining + recvTokens
      invariant Sends(trace') == sendTokens' && Acks(trace') == recvTokens'
      invariant FlowControlled(trace')
      invariant SentPayloads(trace') == SentPayloads(trace) + [frame]
      invariant Close !in trace'
    {
      if remaining' == 0 {
        return trace', sendTokens', recvTokens', remaining', true;
      }
      Append(trace', RecvAck);
      trace' := trace' + [RecvAck];
      recvTokens' := recvTokens' + 1;
      remaining' := remaining' - 1;
    }
    gone := false;
  }

  /** The streaming loop of the handler: for each event, send its frame and
      restore the window; close after the last event. `acks` is the number of
      acknowledgments the client sends before it disconnects; a read beyond
      them raises and ends the session without a close. */
  method Stream(g: Generation, acks: nat) returns (trace: seq<WsEvent>, sendTokens: nat, recvTokens: nat, outcome: Outcome)
    ensures Sends(trace) == sendTokens && Acks(trace) == recvTokens
    ensures FlowControlled(trace)
    ensures sendTokens <= |g.events| && SentPayloads(trace) == DataFrames(g.events[..sendTokens])
    ensures outcome == ClientGone <==> acks + Window < |g.events|
    ensures outcome == Closed <==> !g.raised && |g.events| <= acks + Window
    ensures outcome == ClientGone ==> sendTokens == acks + Window + 1 && recvTokens == acks
    ensures outcome != ClientGone ==> sendTokens == |g.events| && recvTokens == AcksDue(|g.events|)
    ensures Close in trace <==> outcome == Closed
    ensures outcome == Closed ==> |trace| > 0 && trace[|trace| - 1] == Close && Close !in trace[..|trace| - 1]
  {
    trace := [];
    sendTokens := 0;
    recvTokens := 0;
    var remaining: nat := acks;
    var i := 0;
    while i < |g.events|
      invariant 0 <= i <= |g.events|
      invariant sendTokens == i && recvTokens == AcksDue(i)
      invariant remaining + recvTokens == acks
      invariant Sends(trace) == sendTokens && Acks(trace) == recvTokens
      invariant FlowControlled(trace)
      invariant SentPayloads(trace) == DataFrames(g.events[..i])
      invariant Close !in trace
    {
      DataFramesAppend(g.events[..i], g.events[i]);
      assert g.events[..i + 1] == g.events[..i] + [g.events[i]];
      var gone;
      trace, sendTokens, recvTokens, remaining, gone := SendAndDrain(trace, sendTokens, recvTokens, remaining, Serialize(g.events[i]));
      if gone {
        outcome := ClientGone;
        return;
      }
      i := i + 1;
    }
    assert g.events[..i] == g.events;
    if g.raised {
      outcome := GenerationFailed;
      return;
    }
    Append(trace, Close);
    trace := trace + [Close];
    outcome := Closed;
  }

  /** The WebSocket handler: accept, read the prompt frame, broadcast the
      command list, then stream the leader's own generation. `inbox` holds
      the text frames the client sends before it disconnects: the prompt
      first, then acknowledgments whose content is discarded. */
  method GenerateWs(inbox: seq<string>, engine: GenArgs -> Generation)
    returns (broadcast: Option<seq<PyValue>>, call: Option<EngineCall>, trace: seq<WsEvent>, outcome: Outcome)
    ensures broadcast.Some? <==> |inbox| > 0
    ensures call.Some? <==> |inbox| > 0
    ensures broadcast.Some? ==> broadcast.value == BroadcastTuple(PyStr(inbox[0]))
    ensures call.Some? ==> call.value.entry == ProbsStream
    ensures broadcast.Some? && call.Some? ==> Decode(broadcast.value) == Some(call.value.args)
    ensures call.None? ==> trace == [] && outcome == ClientGone
    ensures FlowControlled(trace)
    ensures call.Some? ==>
      var g := engine(call.value.args);
      && Sends(trace) <= |g.events|
      && SentPayloads(trace) == DataFrames(g.events[..Sends(trace)])
      && (outcome == ClientGone <==> |inbox| - 1 + Window < |g.events|)
      && (outcome == Closed <==> !g.raised && |g.events| <= |inbox| - 1 + Window)
      && (outcome == ClientGone ==> Sends(trace) == |inbox| + Window && Acks(trace) == |inbox| - 1)
      && (outcome != ClientGone ==> Sends(trace) == |g.events| && Acks(trace) == AcksDue(|g.events|))
    ensures Close in trace <==> outcome == Closed
    ensures outcome == Closed ==> |trace| > 0 && trace[|trace| - 1] == Close && Close !in trace[..|trace| - 1]
  {
    if |inbox| == 0 {
      trace := [];
      return None, None, trace, ClientGone;
    }
    var text := PyStr(inbox[0]);
    broadcast := Some(BroadcastTuple(text));
    call := Some(LeaderCall(text));
    BroadcastMatchesLeaderCall(text);
    var sendTokens, recvTokens;
    trace, sendTokens, recvTokens, outcome := Stream(engine(call.value.args), |inbox| - 1);
  }

  /** No acknowledgment is read before the eleventh frame has been sent. */
  lemma FirstAckAfterWindow(t: seq<WsEvent>, k: nat)
    requires FlowControlled(t)
    requires k < |t| && t[k].RecvAck?
    ensures Sends(t[..k]) > Window
  {
    FlowControlledHistory(t);
    assert t[..k + 1] == t[..k] + [t[k]];
    Append(t[..k], t[k]);
  }

  /** Before every send and before the close, at most ten frames are
      unacknowledged, and acknowledgments never outnumber frames. */
  lemma GapBounded(t: seq<WsEvent>, k: nat)
    requires FlowControlled(t)
    requires k < |t| && !t[k].RecvAck?
    ensures Acks(t[..k]) <= Sends(t[..k]) <= Acks(t[..k]) + Window
  {
    FlowControlledHistory(t);
  }
}
