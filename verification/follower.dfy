/** The loop every non-leader rank runs: wait for the next command list,
    call the engine's `generate` with the arguments it decodes from it,
    swallow any failure, repeat. */
module Follower {
  import opened PyValues
  import opened Dispatch

  /** A list as the broadcast leaves it in the four-slot receive buffer. */
  type Delivered = s: seq<PyValue> | |s| == Slots witness [PyNone, PyNone, PyNone, PyNone]

  /** What one round looks like from a follower: the list the broadcast
      delivers (`None` when the broadcast raises), and whether the follower's
      own generation call raises. */
  datatype Round = Round(delivered: Option<Delivered>, generationRaises: bool)

  /** What one iteration did: the engine call it made, if it got that far,
      and whether a failure was swallowed. */
  datatype Iteration = Iteration(call: Option<EngineCall>, swallowed: bool)

  /** What one iteration must do, stated per round: it calls `generate`
      exactly when the broadcast delivers, with the arguments the delivered
      list encodes, and a failure is swallowed exactly when the broadcast or
      the call raised. */
  ghost predicate IterationSpec(r: Round, it: Iteration)
  {
    && (it.call.Some? <==> r.delivered.Some?)
    && (it.call.Some? ==> it.call.value.entry == Generate && Encode(it.call.value.args) == r.delivered.value)
    && (it.swallowed <==> it.call.None? || r.generationRaises)
  }

  /** The `while True` loop over a finite run of rounds. The loop has no exit:
      every round is processed, whatever failed before it. */
  method Run(rounds: seq<Round>) returns (log: seq<Iteration>)
    ensures |log| == |rounds|
    ensures forall i :: 0 <= i < |rounds| ==> IterationSpec(rounds[i], log[i])
  {
    log := [];
    var i := 0;
    while i < |rounds|
      invariant 0 <= i <= |rounds|
      invariant |log| == i
      invariant forall j :: 0 <= j < i ==> IterationSpec(rounds[j], log[j])
    {
      var it: Iteration;
      match rounds[i].delivered {
        case None =>
          it := Iteration(None, true);
        case Some(config) =>
          it := Iteration(Some(FollowerCall(config)), rounds[i].generationRaises);
      }
      log := log + [it];
      i := i + 1;
    }
  }

  /** Nothing carries over between rounds: what an iteration does is
      determined by its own round alone. */
  lemma IterationDetermined(r: Round, a: Iteration, b: Iteration)
    requires IterationSpec(r, a) && IterationSpec(r, b)
    ensures a == b
  {
  }

  /** Lock-step of arguments: in a round where the leader's list for `text`
      arrives, the follower passes exactly the leader's arguments, in the same
      positions, whether or not earlier rounds failed. It passes them to
      `generate`, while the leader passes them to `probs_stream`. */
  lemma MirrorsLeader(text: PyValue, raises: bool, it: Iteration)
    requires IterationSpec(Round(Some(BroadcastTuple(text)), raises), it)
    ensures it.call.Some? && it.call.value.args == LeaderCall(text).args
    ensures it.call.value.entry == Generate != LeaderCall(text).entry
    ensures it.swallowed == raises
  {
    BroadcastMatchesLeaderCall(text);
    EncodeInjective(it.call.value.args, LeaderCall(text).args);
  }

  /** Over a run of rounds that each deliver the leader's list, the follower
      passes the leader's arguments in the same order, one round each. */
  lemma RunMirrorsLeader(texts: seq<PyValue>, rounds: seq<Round>, log: seq<Iteration>)
    requires |rounds| == |texts| == |log|
    requires forall i :: 0 <= i < |rounds| ==> rounds[i].delivered == Some(BroadcastTuple(texts[i]))
    requires forall i :: 0 <= i < |rounds| ==> IterationSpec(rounds[i], log[i])
    ensures forall i :: 0 <= i < |log| ==> log[i].call.Some? && log[i].call.value.args == LeaderCall(texts[i]).args
  {
    forall i | 0 <= i < |log|
      ensures log[i].call.Some? && log[i].call.value.args == LeaderCall(texts[i]).args
    {
      assert rounds[i] == Round(Some(BroadcastTuple(texts[i])), rounds[i].generationRaises);
      MirrorsLeader(texts[i], rounds[i].generationRaises, log[i]);
    }
  }
}
