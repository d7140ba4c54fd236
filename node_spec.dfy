/**
 The abstract per-node runtime state of a graph node (src/engine/GraphNode.h)
 and the effect of each inline operation on it, as pure functions.

 The class `Element.GraphNode` updates its fields in place; each of its
 methods promises that its new abstract value is the function below applied
 to the old one.  Gains are C++ floats that the header only copies and
 compares, so they are modelled as `real`.
 */
module NodeSpec {

  /** C++ `int` on the platforms the engine targets. */
  newtype int32 = x: int | -0x8000_0000 <= x < 0x8000_0000

  /** JUCE `uint32`, the type of a node id. */
  newtype uint32 = x: int | 0 <= x < 0x1_0000_0000

  /** Number of MIDI keys: a key number is in [0, NumKeys). */
  const NumKeys: int32 := 128

  /** Largest transpose offset, in semitones, either way. */
  const MaxTranspose: int32 := 24

  /** The `Range<int>` returned by `getKeyRange`. */
  datatype KeyRange = KeyRange(start: int32, end: int32)

  /** `isPositiveAndBelow (key, 128)`. */
  predicate IsKey(key: int32) {
    0 <= key < NumKeys
  }

  /** The three assertions of `setKeyRange (low, high)`. */
  predicate IsKeyRange(low: int32, high: int32) {
    low <= high && IsKey(low) && IsKey(high)
  }

  /** The assertion of `setTransposeOffset`. */
  predicate IsTransposeOffset(value: int32) {
    -MaxTranspose <= value <= MaxTranspose
  }

  /**
   Everything an inline member of the node reads or writes.  `enabled` is
   the raw atomic counter; `inRms`/`outRms` are the per-channel meters.
   */
  datatype NodeState = NodeState(
    enabled: int32,
    latencySamples: int32,
    gain: real,
    lastGain: real,
    inputGain: real,
    lastInputGain: real,
    inRms: seq<real>,
    outRms: seq<real>,
    keyRangeLow: int32,
    keyRangeHigh: int32,
    transposeOffset: int32)
  {
    /** The MIDI filter invariant the setters' assertions keep. */
    predicate Valid() {
      IsKeyRange(keyRangeLow, keyRangeHigh) && IsTransposeOffset(transposeOffset)
    }

    /** `isEnabled()`: the counter is exactly one. */
    predicate IsEnabled() {
      enabled == 1
    }

    /** `getKeyRange()`. */
    function GetKeyRange(): KeyRange {
      KeyRange(keyRangeLow, keyRangeHigh)
    }

    /** No ramp is pending: both shadows have caught up with their targets. */
    predicate GainsSettled() {
      lastGain == gain && lastInputGain == inputGain
    }
  }

  /**
   The state of a node just constructed: the header's field initialisers
   (enabled 1, latency 0, key range 0..127, transpose 0) and meter arrays
   that are empty until the node is prepared.  The gains are whatever the
   constructor body sets; that body is not in the header, so they are
   parameters here.
   */
  function Initial(gain: real, lastGain: real, inputGain: real, lastInputGain: real): (s: NodeState)
    ensures s.Valid() && s.IsEnabled()
    ensures s.GetKeyRange() == KeyRange(0, NumKeys - 1)
    ensures s.transposeOffset == 0 && s.latencySamples == 0
    ensures s.gain == gain && s.lastGain == lastGain
    ensures s.inputGain == inputGain && s.lastInputGain == lastInputGain
    ensures s.inRms == [] && s.outRms == []
  {
    NodeState(1, 0, gain, lastGain, inputGain, lastInputGain, [], [], 0, 127, 0)
  }

  /**
   `updateGain()`: each shadow is overwritten only when it differs from its
   target.  Its contract says the conditional writes amount to snapping both
   shadows, and that nothing but the two shadows changes.
   */
  function UpdateGain(s: NodeState): (r: NodeState)
    ensures r.GainsSettled()
    ensures r.gain == s.gain && r.inputGain == s.inputGain
    ensures r.(lastGain := s.lastGain, lastInputGain := s.lastInputGain) == s
  {
    var s' := if s.lastGain != s.gain then s.(lastGain := s.gain) else s;
    if s'.lastInputGain != s'.inputGain then s'.(lastInputGain := s'.inputGain) else s'
  }

  /** A settled node is a fixed point of `updateGain()`, and only a settled one. */
  lemma UpdateGainFixedPoint(s: NodeState)
    ensures UpdateGain(s) == s <==> s.GainsSettled()
  {
  }

  /** `updateGain()` twice is `updateGain()` once. */
  lemma UpdateGainIdempotent(s: NodeState)
    ensures UpdateGain(UpdateGain(s)) == UpdateGain(s)
  {
  }

  /** `setGain (f)`: a store of the new target; the shadow is left behind. */
  function SetGain(s: NodeState, f: real): (r: NodeState)
    ensures r.gain == f && r.lastGain == s.lastGain
    ensures r.(gain := s.gain) == s
  {
    s.(gain := f)
  }

  /** `setInputGain (f)`: a store of the new input-gain target. */
  function SetInputGain(s: NodeState, f: real): (r: NodeState)
    ensures r.inputGain == f && r.lastInputGain == s.lastInputGain
    ensures r.(inputGain := s.inputGain) == s
  {
    s.(inputGain := f)
  }

  /**
   `setKeyRange (low, high)`: the key range reads back as exactly
   `(low, high)`, the filter invariant is kept, and nothing else changes.
   */
  function SetKeyRange(s: NodeState, low: int32, high: int32): (r: NodeState)
    requires IsKeyRange(low, high)
    ensures r.GetKeyRange() == KeyRange(low, high)
    ensures s.Valid() ==> r.Valid()
    ensures r.(keyRangeLow := s.keyRangeLow, keyRangeHigh := s.keyRangeHigh) == s
  {
    s.(keyRangeLow := low, keyRangeHigh := high)
  }

  /** Setting the range just read back changes nothing. */
  lemma SetKeyRangeToCurrent(s: NodeState)
    requires s.Valid()
    ensures SetKeyRange(s, s.keyRangeLow, s.keyRangeHigh) == s
  {
  }

  /**
   `setTransposeOffset (value)`: the offset reads back as `value`, the
   invariant is kept, and the key range and everything else are unchanged.
   */
  function SetTransposeOffset(s: NodeState, value: int32): (r: NodeState)
    requires IsTransposeOffset(value)
    ensures r.transposeOffset == value
    ensures r.GetKeyRange() == s.GetKeyRange()
    ensures s.Valid() ==> r.Valid()
    ensures r.(transposeOffset := s.transposeOffset) == s
  {
    s.(transposeOffset := value)
  }

  /**
   `setLatencySamples (latency)`: written only when it differs; either
   way the latency reads back as `latency` and nothing else changes.
   */
  function SetLatencySamples(s: NodeState, latency: int32): (r: NodeState)
    ensures r.latencySamples == latency
    ensures r.(latencySamples := s.latencySamples) == s
  {
    if s.latencySamples != latency then s.(latencySamples := latency) else s
  }

  /** Setting the latency to what it already is leaves the state as it was. */
  lemma SetLatencySamplesUnchanged(s: NodeState)
    ensures SetLatencySamples(s, s.latencySamples) == s
  {
  }
}
