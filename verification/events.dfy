/** Token events, the five-field record both transports send for each of
    them, and the payloads a client receives. */
module Events {
  import opened PyValues

  /** One alternative among the top candidates of a generation step. */
  datatype Alternative = Alternative(word: string, probability: real)

  /** What the generator yields for one token, positionally:
      (token id, decoded word, probability, place among the candidates, top 5). */
  type TokenEvent = (int, string, real, int, seq<Alternative>)

  /** The generator's output for one call: the events it yields, in order,
      and whether it raises after the last of them instead of ending. */
  datatype Generation = Generation(events: seq<TokenEvent>, raised: bool)

  /** The JSON object `{token, word, probability, place, top5}`. */
  datatype Record = Record(token: int, word: string, probability: real, place: int, top5: seq<Alternative>)

  /** A text payload: the JSON text of a record, or any other text. The JSON
      serialisation is left abstract; the `Json` constructor stands for it and
      is injective by construction. */
  datatype Payload = Json(record: Record) | Text(text: string)

  /** The end-of-stream sentinel of the streamed HTTP response. */
  const Eos: Payload := Text("<EOS>")

  /** Unpacks a token event into the record, field by field, by position. */
  function ToRecord(e: TokenEvent): (r: Record)
    ensures FromRecord(r) == e
  {
    Record(e.0, e.1, e.2, e.3, e.4)
  }

  /** The inverse of `ToRecord`. */
  function FromRecord(r: Record): TokenEvent
  {
    (r.token, r.word, r.probability, r.place, r.top5)
  }

  /** The payload sent for one event on either transport. */
  function Serialize(e: TokenEvent): (p: Payload)
    ensures p != Eos
  {
    Json(ToRecord(e))
  }

  /** The record taken from an event keeps every one of its five fields, so
      the event can be read back from it. */
  lemma RecordRoundTrip(e: TokenEvent, r: Record)
    ensures FromRecord(ToRecord(e)) == e
    ensures ToRecord(FromRecord(r)) == r
  {
  }

  /** Distinct events never produce the same payload. */
  lemma SerializeInjective(a: TokenEvent, b: TokenEvent)
    requires Serialize(a) == Serialize(b)
    ensures a == b
  {
  }

  /** The payloads for a sequence of events, one per event, in order. */
  function DataFrames(events: seq<TokenEvent>): (frames: seq<Payload>)
    ensures |frames| == |events|
    ensures forall i :: 0 <= i < |events| ==> frames[i] == Serialize(events[i])
    ensures Eos !in frames
  {
    if |events| == 0 then []
    else [Serialize(events[0])] + DataFrames(events[1..])
  }

  /** The records a client reads, one per event, in generation order. */
  function Records(events: seq<TokenEvent>): (rs: seq<Record>)
    ensures |rs| == |events|
  {
    seq(|events|, i requires 0 <= i < |events| => ToRecord(events[i]))
  }

  /** Appending an event appends its payload. */
  lemma DataFramesAppend(events: seq<TokenEvent>, e: TokenEvent)
    ensures DataFrames(events + [e]) == DataFrames(events) + [Serialize(e)]
  {
  }
}
