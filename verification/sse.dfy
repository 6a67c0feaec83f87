/** The streamed HTTP endpoint: one data frame per token event, then the
    `"<EOS>"` sentinel. */
module Sse {
  import opened PyValues
  import opened Dispatch
  import opened Events

  /** The endpoint's answer: an error for a body without `"text"`, or the
      list broadcast to the followers, the leader's own engine call and the
      data frames streamed back. */
  datatype Response =
    | Rejected
    | Streaming(broadcast: seq<PyValue>, call: EngineCall, frames: seq<Payload>)

  /** The inner stream generator: yields the payload of every event the
      generator produces, in order, then the sentinel. When the generator
      raises, the exception cuts the stream before the sentinel. */
  method GenerateStream(g: Generation) returns (frames: seq<Payload>)
    ensures |frames| == |g.events| + (if g.raised then 0 else 1)
    ensures frames[..|g.events|] == DataFrames(g.events)
    ensures forall i :: 0 <= i < |g.events| ==> frames[i] == Serialize(g.events[i])
    ensures Eos in frames <==> !g.raised
    ensures !g.raised ==> frames[|g.events|] == Eos
  {
    frames := [];
    var i := 0;
    while i < |g.events|
      invariant 0 <= i <= |g.events|
      invariant frames == DataFrames(g.events[..i])
    {
      DataFramesAppend(g.events[..i], g.events[i]);
      assert g.events[..i + 1] == g.events[..i] + [g.events[i]];
      frames := frames + [Serialize(g.events[i])];
      i := i + 1;
    }
    assert g.events[..i] == g.events;
    if g.raised {
      return;
    }
    frames := frames + [Eos];
    assert frames[..|g.events|] == DataFrames(g.events);
  }

  /** The POST handler: reads `"text"` from the JSON body, broadcasts the
      command list, then streams the leader's own generation. */
  method Generate(body: map<string, PyValue>, engine: GenArgs -> Generation) returns (response: Response)
    ensures response.Rejected? <==> "text" !in body
    ensures response.Streaming? ==> response.broadcast == BroadcastTuple(body["text"])
    ensures response.Streaming? ==> response.call.entry == ProbsStream
    ensures response.Streaming? ==> Decode(response.broadcast) == Some(response.call.args)
    ensures response.Streaming? ==>
      var g := engine(response.call.args);
      && |response.frames| == |g.events| + (if g.raised then 0 else 1)
      && (Eos in response.frames <==> !g.raised)
      && response.frames[..|g.events|] == DataFrames(g.events)
  {
    if "text" !in body {
      return Rejected;
    }
    var text := body["text"];
    var broadcast := BroadcastTuple(text);
    var call := LeaderCall(text);
    BroadcastMatchesLeaderCall(text);
    var frames := GenerateStream(engine(call.args));
    response := Streaming(broadcast, call, frames);
  }

  /** How a client reads the stream: data frames up to the sentinel, which
      must be the last frame. A stream cut before the sentinel, or text other
      than the sentinel, reads as `None`. */
  function ReadStream(frames: seq<Payload>): Option<seq<Record>>
  {
    if |frames| == 0 then None
    else match frames[0]
      case Text(s) => if frames[0] == Eos && |frames| == 1 then Some([]) else None
      case Json(r) =>
        match ReadStream(frames[1..])
        case Some(rs) => Some([r] + rs)
        case None => None
  }

  /** A complete stream reads back as exactly the generated records, in
      generation order; an empty generation reads back as no records. */
  lemma {:induction false} ReadStreamComplete(events: seq<TokenEvent>)
    ensures ReadStream(DataFrames(events) + [Eos]) == Some(Records(events))
  {
    var frames := DataFrames(events) + [Eos];
    if |events| == 0 {
      assert frames == [Eos];
    } else {
      assert frames[1..] == DataFrames(events[1..]) + [Eos];
      ReadStreamComplete(events[1..]);
      assert Records(events) == [ToRecord(events[0])] + Records(events[1..]);
    }
  }

  /** A stream cut before the sentinel never reads as complete. */
  lemma {:induction false} ReadStreamCut(events: seq<TokenEvent>)
    ensures ReadStream(DataFrames(events)) == None
  {
    if |events| > 0 {
      assert DataFrames(events)[1..] == DataFrames(events[1..]);
      ReadStreamCut(events[1..]);
    }
  }

  /** Conversely, whatever reads as complete is a run of data frames closed by
      exactly one sentinel. */
  lemma {:induction false} ReadStreamShape(frames: seq<Payload>, rs: seq<Record>)
    requires ReadStream(frames) == Some(rs)
    ensures |frames| == |rs| + 1
    ensures frames[|rs|] == Eos
    ensures forall i :: 0 <= i < |rs| ==> frames[i] == Json(rs[i])
  {
    if frames[0] != Eos {
      var rest :| ReadStream(frames[1..]) == Some(rest) && rs == [frames[0].record] + rest;
      ReadStreamShape(frames[1..], rest);
    }
  }
}
