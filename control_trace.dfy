/**
 What a node goes through between blocks: the control thread calls setters
 in some order, and the renderer calls `updateGain()` once at the end of
 every block.  A trace is such a sequence of calls, applied in order.

 The lemmas here state, for every trace, the promises that the header's
 members make together: the MIDI filter invariant survives any sequence of
 permitted setter calls, a gain shadow advances only at a block end and
 then to the latest target, and each setter's value survives until the
 next call of that same setter.
 */
module ControlTrace {
  import opened NodeSpec

  /** One call on a node, by the control thread or at a block end. */
  datatype Call =
    | SetKeyRangeCall(low: int32, high: int32)
    | SetKeyRangeOfCall(range: KeyRange)
    | SetTransposeOffsetCall(value: int32)
    | SetLatencySamplesCall(latency: int32)
    | SetGainCall(gain: real)
    | SetInputGainCall(inputGain: real)
    | BlockEnd

  /** The arguments meet the assertions of the member called. */
  predicate Permitted(c: Call) {
    match c
    case SetKeyRangeCall(low, high) => IsKeyRange(low, high)
    case SetKeyRangeOfCall(range) => IsKeyRange(range.start, range.end)
    case SetTransposeOffsetCall(value) => IsTransposeOffset(value)
    case _ => true
  }

  predicate AllPermitted(calls: seq<Call>) {
    forall i :: 0 <= i < |calls| ==> Permitted(calls[i])
  }

  /** The effect of one call; `setKeyRange (range)` forwards to `setKeyRange (start, end)`. */
  function Step(s: NodeState, c: Call): NodeState
    requires Permitted(c)
  {
    match c
    case SetKeyRangeCall(low, high) => SetKeyRange(s, low, high)
    case SetKeyRangeOfCall(range) => SetKeyRange(s, range.start, range.end)
    case SetTransposeOffsetCall(value) => SetTransposeOffset(s, value)
    case SetLatencySamplesCall(latency) => SetLatencySamples(s, latency)
    case SetGainCall(f) => SetGain(s, f)
    case SetInputGainCall(f) => SetInputGain(s, f)
    case BlockEnd => UpdateGain(s)
  }

  /** The state after the calls, first call first. */
  function Run(s: NodeState, calls: seq<Call>): NodeState
    requires AllPermitted(calls)
    decreases |calls|
  {
    if calls == [] then s else Run(Step(s, calls[0]), calls[1..])
  }

  /** The gain target after the calls: the last `setGain` argument, or `g` if none. */
  function LatestGain(calls: seq<Call>, g: real): real
    decreases |calls|
  {
    if calls == [] then g
    else LatestGain(calls[1..], if calls[0].SetGainCall? then calls[0].gain else g)
  }

  /** The input-gain target after the calls: the last `setInputGain` argument, or `g` if none. */
  function LatestInputGain(calls: seq<Call>, g: real): real
    decreases |calls|
  {
    if calls == [] then g
    else LatestInputGain(calls[1..], if calls[0].SetInputGainCall? then calls[0].inputGain else g)
  }

  /** The transpose offset after the calls: the last one set, or `v` if none. */
  function LatestTransposeOffset(calls: seq<Call>, v: int32): int32
    decreases |calls|
  {
    if calls == [] then v
    else LatestTransposeOffset(calls[1..], if calls[0].SetTransposeOffsetCall? then calls[0].value else v)
  }

  /** The latency after the calls: the last one set, or `n` if none. */
  function LatestLatencySamples(calls: seq<Call>, n: int32): int32
    decreases |calls|
  {
    if calls == [] then n
    else LatestLatencySamples(calls[1..], if calls[0].SetLatencySamplesCall? then calls[0].latency else n)
  }

  /** The key range after the calls: the last one set, by either overload, or `k` if none. */
  function LatestKeyRange(calls: seq<Call>, k: KeyRange): KeyRange
    decreases |calls|
  {
    if calls == [] then k
    else
      var k' := match calls[0]
        case SetKeyRangeCall(low, high) => KeyRange(low, high)
        case SetKeyRangeOfCall(range) => KeyRange(range.start, range.end)
        case _ => k;
      LatestKeyRange(calls[1..], k')
  }

  predicate HasBlockEnd(calls: seq<Call>) {
    exists i :: 0 <= i < |calls| && calls[i].BlockEnd?
  }

  /** Any permitted sequence of calls keeps `0 <= low <= high < 128` and the transpose bound. */
  lemma {:induction false} RunPreservesValid(s: NodeState, calls: seq<Call>)
    requires s.Valid() && AllPermitted(calls)
    ensures Run(s, calls).Valid()
    decreases |calls|
  {
    if calls != [] {
      RunPreservesValid(Step(s, calls[0]), calls[1..]);
    }
  }

  /** Every state a node reaches from construction satisfies the filter invariant. */
  lemma ReachableIsValid(gain: real, lastGain: real, inputGain: real, lastInputGain: real, calls: seq<Call>)
    requires AllPermitted(calls)
    ensures Run(Initial(gain, lastGain, inputGain, lastInputGain), calls).Valid()
  {
    RunPreservesValid(Initial(gain, lastGain, inputGain, lastInputGain), calls);
  }

  /** Running `a` then `b` is running `a + b`. */
  lemma {:induction false} RunAppend(s: NodeState, a: seq<Call>, b: seq<Call>)
    requires AllPermitted(a) && AllPermitted(b)
    ensures AllPermitted(a + b)
    ensures Run(s, a + b) == Run(Run(s, a), b)
    decreases |a|
  {
    assert AllPermitted(a + b) by {
      forall i | 0 <= i < |a + b| ensures Permitted((a + b)[i]) {
        if i < |a| { assert (a + b)[i] == a[i]; } else { assert (a + b)[i] == b[i - |a|]; }
      }
    }
    if a == [] {
      assert a + b == b;
    } else {
      assert (a + b)[1..] == a[1..] + b;
      RunAppend(Step(s, a[0]), a[1..], b);
    }
  }

  /**
   Between two block ends the gain shadows stay where they are, however
   many setters are called: only `updateGain()` moves them.
   */
  lemma {:induction false} ShadowsHoldWithinBlock(s: NodeState, calls: seq<Call>)
    requires AllPermitted(calls) && !HasBlockEnd(calls)
    ensures Run(s, calls).lastGain == s.lastGain
    ensures Run(s, calls).lastInputGain == s.lastInputGain
    decreases |calls|
  {
    if calls != [] {
      assert !calls[0].BlockEnd?;
      ShadowsHoldWithinBlock(Step(s, calls[0]), calls[1..]);
    }
  }

  /** Only the latest `setGain` of a sequence is observed as the target. */
  lemma {:induction false} LatestGainWins(s: NodeState, calls: seq<Call>)
    requires AllPermitted(calls)
    ensures Run(s, calls).gain == LatestGain(calls, s.gain)
    decreases |calls|
  {
    if calls != [] {
      LatestGainWins(Step(s, calls[0]), calls[1..]);
    }
  }

  /** Only the latest `setInputGain` of a sequence is observed as the input-gain target. */
  lemma {:induction false} LatestInputGainWins(s: NodeState, calls: seq<Call>)
    requires AllPermitted(calls)
    ensures Run(s, calls).inputGain == LatestInputGain(calls, s.inputGain)
    decreases |calls|
  {
    if calls != [] {
      LatestInputGainWins(Step(s, calls[0]), calls[1..]);
    }
  }

  /**
   A block in which the control thread called setters: during the block the
   shadows are still the values of the previous block end, and after the
   block end each is the latest target set.
   */
  lemma BlockEndSnapsToLatestGain(s: NodeState, calls: seq<Call>)
    requires AllPermitted(calls) && !HasBlockEnd(calls)
    ensures Run(s, calls).lastGain == s.lastGain
    ensures Run(s, calls).lastInputGain == s.lastInputGain
    ensures AllPermitted(calls + [BlockEnd])
    ensures Run(s, calls + [BlockEnd]).lastGain == LatestGain(calls, s.gain)
    ensures Run(s, calls + [BlockEnd]).lastInputGain == LatestInputGain(calls, s.inputGain)
    ensures Run(s, calls + [BlockEnd]).GainsSettled()
  {
    ShadowsHoldWithinBlock(s, calls);
    LatestGainWins(s, calls);
    LatestInputGainWins(s, calls);
    RunAppend(s, calls, [BlockEnd]);
  }

  /** The key range read back after any calls is the last range set. */
  lemma {:induction false} LatestKeyRangeWins(s: NodeState, calls: seq<Call>)
    requires AllPermitted(calls)
    ensures Run(s, calls).GetKeyRange() == LatestKeyRange(calls, s.GetKeyRange())
    decreases |calls|
  {
    if calls != [] {
      LatestKeyRangeWins(Step(s, calls[0]), calls[1..]);
    }
  }

  /** The transpose offset read back after any calls is the last one set. */
  lemma {:induction false} LatestTransposeOffsetWins(s: NodeState, calls: seq<Call>)
    requires AllPermitted(calls)
    ensures Run(s, calls).transposeOffset == LatestTransposeOffset(calls, s.transposeOffset)
    decreases |calls|
  {
    if calls != [] {
      LatestTransposeOffsetWins(Step(s, calls[0]), calls[1..]);
    }
  }

  /** The latency read back after any calls is the last one set. */
  lemma {:induction false} LatestLatencySamplesWins(s: NodeState, calls: seq<Call>)
    requires AllPermitted(calls)
    ensures Run(s, calls).latencySamples == LatestLatencySamples(calls, s.latencySamples)
    decreases |calls|
  {
    if calls != [] {
      LatestLatencySamplesWins(Step(s, calls[0]), calls[1..]);
    }
  }

  /**
   None of the modelled calls touches the enabled counter or the meters:
   enablement and metering change only through members outside this model.
   */
  lemma {:induction false} CallsLeaveEnablementAndMeters(s: NodeState, calls: seq<Call>)
    requires AllPermitted(calls)
    ensures Run(s, calls).enabled == s.enabled
    ensures Run(s, calls).inRms == s.inRms && Run(s, calls).outRms == s.outRms
    decreases |calls|
  {
    if calls != [] {
      CallsLeaveEnablementAndMeters(Step(s, calls[0]), calls[1..]);
    }
  }

  /**
   `setGain (x)` on a fresh node, then a block end: `getLastGain() == getGain() == x`,
   whatever gains the constructor set.
   */
  lemma FreshNodeGainAfterOneBlock(x: real, gain: real, lastGain: real, inputGain: real, lastInputGain: real)
    ensures AllPermitted([SetGainCall(x), BlockEnd])
    ensures Run(Initial(gain, lastGain, inputGain, lastInputGain), [SetGainCall(x), BlockEnd]).gain == x
    ensures Run(Initial(gain, lastGain, inputGain, lastInputGain), [SetGainCall(x), BlockEnd]).lastGain == x
  {
    var calls := [SetGainCall(x), BlockEnd];
    var s0 := Initial(gain, lastGain, inputGain, lastInputGain);
    assert calls[1..] == [BlockEnd];
    assert calls[1..][1..] == [];
    var s1 := SetGain(s0, x);
    assert Run(s0, calls) == Run(s1, [BlockEnd]);
    assert Run(s1, [BlockEnd]) == Run(UpdateGain(s1), []);
  }
}
