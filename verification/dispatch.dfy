/** The leader/follower command: the fixed positional 4-tuple the leader
    broadcasts before every generation round, the arguments each rank hands
    to its generation engine, and which engine method each rank calls. */
module Dispatch {
  import opened PyValues

  /** The generation parameters hard-wired into both leader endpoints. */
  const MaxGenLen: int := 100028
  const Temperature: real := 0.7
  /** `top_p` is written as the integer literal `1`, not as a float. */
  const TopP: int := 1

  /** Number of slots in the broadcast list. */
  const Slots: nat := 4

  /** The arguments of one call into the generation engine, as Python values:
      the prompt positionally, then `max_gen_len`, `temperature`, `top_p`. */
  datatype GenArgs = GenArgs(prompt: PyValue, maxGenLen: PyValue, temperature: PyValue, topP: PyValue)

  /** The engine method a rank calls: the leader iterates the token stream
      `probs_stream`, a follower calls `generate` and discards its result. */
  datatype Entry = ProbsStream | Generate

  /** One call into the generation engine: which method, with which arguments. */
  datatype EngineCall = EngineCall(entry: Entry, args: GenArgs)

  /** The list the leader passes to the broadcast, `[text, 100028, 0.7, 1]`,
      written with its own literals as at the call site. Its last three slots
      are the endpoints' generation parameters. */
  function BroadcastTuple(text: PyValue): (t: seq<PyValue>)
    ensures |t| == Slots
    ensures t[0] == text
    ensures t[1..] == [PyInt(MaxGenLen), PyFloat(Temperature), PyInt(TopP)]
  {
    [text, PyInt(100028), PyFloat(0.7), PyInt(1)]
  }

  /** Lays arguments out positionally in a broadcast list. */
  function Encode(args: GenArgs): (t: seq<PyValue>)
    ensures |t| == Slots
  {
    [args.prompt, args.maxGenLen, args.temperature, args.topP]
  }

  /** The follower's positional read `config[0]` .. `config[3]`. Indexing a
      list shorter than four raises, which the model reports as `None`; extra
      slots are ignored, as Python ignores them. */
  function Decode(config: seq<PyValue>): (r: Option<GenArgs>)
    ensures r.Some? <==> |config| >= Slots
    ensures r.Some? ==> Encode(r.value) == config[..Slots]
  {
    if |config| < Slots then None
    else Some(GenArgs(config[0], config[1], config[2], config[3]))
  }

  /** The leader's own call, `probs_stream(text, max_gen_len=100028,
      temperature=0.7, top_p=1)`, written with its own literals as at the call
      site. Its arguments are exactly what the broadcast list decodes to. */
  function LeaderCall(text: PyValue): (c: EngineCall)
    ensures c.entry == ProbsStream
    ensures c.args == GenArgs(text, PyInt(MaxGenLen), PyFloat(Temperature), PyInt(TopP))
    ensures Decode(BroadcastTuple(text)) == Some(c.args)
  {
    EngineCall(ProbsStream, GenArgs(text, PyInt(100028), PyFloat(0.7), PyInt(1)))
  }

  /** A follower's call, `generate(config[0], max_gen_len=config[1],
      temperature=config[2], top_p=config[3])`: it reads the received list by
      position and passes its first four slots to `generate`. */
  function FollowerCall(config: seq<PyValue>): (c: EngineCall)
    requires |config| >= Slots
    ensures c.entry == Generate
    ensures Encode(c.args) == config[..Slots]
  {
    EngineCall(Generate, GenArgs(config[0], config[1], config[2], config[3]))
  }

  /** Decoding recovers every encoded argument field for field. */
  lemma DecodeEncode(args: GenArgs)
    ensures Decode(Encode(args)) == Some(args)
  {
  }

  /** Encoding is injective: two argument tuples that put the same list on
      the wire are the same. */
  lemma EncodeInjective(a: GenArgs, b: GenArgs)
    requires Encode(a) == Encode(b)
    ensures a == b
  {
  }

  /** The broadcast list and the leader's own arguments agree slot for slot:
      a follower that decodes the list passes exactly the leader's arguments,
      in the same positions. */
  lemma BroadcastMatchesLeaderCall(text: PyValue)
    ensures Encode(LeaderCall(text).args) == BroadcastTuple(text)
    ensures Decode(BroadcastTuple(text)) == Some(LeaderCall(text).args)
  {
  }
}
