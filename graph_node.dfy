/**
 The node class of the engine (src/engine/GraphNode.h): its per-node
 runtime fields and the inline members that read and write them.

 Each setter changes only `this` and promises that the node's abstract
 value `State()` afterwards is the matching `NodeSpec` function of its
 value before; getters are functions that read `this`.
 */
module Element {
  import opened NodeSpec

  class GraphNode {
    /** The id the owning graph assigned; it never changes. */
    const nodeId: uint32

    var enabled: int32
    var latencySamples: int32
    var gain: real
    var lastGain: real
    var inputGain: real
    var lastInputGain: real
    var inRms: seq<real>
    var outRms: seq<real>
    var keyRangeLow: int32
    var keyRangeHigh: int32
    var transposeOffset: int32

    /** The abstract value of the node. */
    ghost function State(): NodeState
      reads this
    {
      NodeState(enabled, latencySamples, gain, lastGain, inputGain, lastInputGain,
                inRms, outRms, keyRangeLow, keyRangeHigh, transposeOffset)
    }

    /** The object invariant: the MIDI filter state is in range. */
    ghost predicate Valid()
      reads this
    {
      State().Valid()
    }

    /**
     A node as the header's initialisers leave it: enabled, no latency, the
     full key range, no transpose and no meters yet.  The gains are left to
     the constructor body, which is not in the header, so nothing is
     promised about their values.
     */
    constructor (id: uint32)
      ensures nodeId == id
      ensures State() == Initial(gain, lastGain, inputGain, lastInputGain)
      ensures Valid() && IsEnabled()
      ensures GetKeyRange() == KeyRange(0, 127) && GetTransposeOffset() == 0
    {
      nodeId := id;
      enabled := 1;
      latencySamples := 0;
      inRms, outRms := [], [];
      keyRangeLow := 0;
      keyRangeHigh := 127;
      transposeOffset := 0;
    }

    /** `getLatencySamples()`. */
    function GetLatencySamples(): (r: int32)
      reads this
      ensures r == State().latencySamples
    {
      latencySamples
    }

    /** `setLatencySamples (latency)`: the field is written only when it differs. */
    method SetLatencySamples(latency: int32)
      requires Valid()
      modifies this
      ensures Valid()
      ensures GetLatencySamples() == latency
      ensures State() == NodeSpec.SetLatencySamples(old(State()), latency)
    {
      if latencySamples != latency {
        latencySamples := latency;
      }
    }

    /** `setGain (f)`: stores the new target; the shadow keeps the old one. */
    method SetGain(f: real)
      requires Valid()
      modifies this
      ensures Valid()
      ensures GetGain() == f && GetLastGain() == old(GetLastGain())
      ensures State() == NodeSpec.SetGain(old(State()), f)
    {
      gain := f;
    }

    /** `setInputGain (f)`: stores the new input-gain target. */
    method SetInputGain(f: real)
      requires Valid()
      modifies this
      ensures Valid()
      ensures GetInputGain() == f && GetLastInputGain() == old(GetLastInputGain())
      ensures State() == NodeSpec.SetInputGain(old(State()), f)
    {
      inputGain := f;
    }

    /** `getInputGain()`. */
    function GetInputGain(): (r: real)
      reads this
      ensures r == State().inputGain
    {
      inputGain
    }

    /** `getGain()`. */
    function GetGain(): (r: real)
      reads this
      ensures r == State().gain
    {
      gain
    }

    /** `getLastGain()`. */
    function GetLastGain(): (r: real)
      reads this
      ensures r == State().lastGain
    {
      lastGain
    }

    /** `getLastInputGain()`. */
    function GetLastInputGain(): (r: real)
      reads this
      ensures r == State().lastInputGain
    {
      lastInputGain
    }

    /**
     `updateGain()`, called once per render block: each shadow is written
     only when it differs from its target, which leaves both shadows equal
     to the targets and the targets as they were.
     */
    method UpdateGain()
      requires Valid()
      modifies this
      ensures Valid()
      ensures GetLastGain() == GetGain() == old(GetGain())
      ensures GetLastInputGain() == GetInputGain() == old(GetInputGain())
      ensures State() == NodeSpec.UpdateGain(old(State()))
    {
      if lastGain != gain {
        lastGain := gain;
      }
      if lastInputGain != inputGain {
        lastInputGain := inputGain;
      }
    }

    /**
     `getInputRMS (chan)`: the level of an input channel, 0.0 past the last
     one.  A negative channel would index before the array's start, so
     callers must not pass one.
     */
    function GetInputRms(chan: int32): (r: real)
      reads this
      requires chan >= 0
      ensures chan as int < |inRms| ==> r == inRms[chan]
      ensures chan as int >= |inRms| ==> r == 0.0
      ensures r == 0.0 || r in inRms
    {
      if chan as int < |inRms| then inRms[chan] else 0.0
    }

    /** `getOutputRMS (chan)`: the level of an output channel, 0.0 past the last one. */
    function GetOutputRms(chan: int32): (r: real)
      reads this
      requires chan >= 0
      ensures chan as int < |outRms| ==> r == outRms[chan]
      ensures chan as int >= |outRms| ==> r == 0.0
      ensures r == 0.0 || r in outRms
    {
      if chan as int < |outRms| then outRms[chan] else 0.0
    }

    /** `isEnabled()`: true exactly when the enabled counter is one. */
    function IsEnabled(): (r: bool)
      reads this
      ensures r <==> State().IsEnabled()
    {
      enabled == 1
    }

    /**
     `setKeyRange (low, high)`: both keys in [0, 128) and `low <= high` are
     asserted by the source; the range then reads back as `(low, high)` and
     no other field changes.
     */
    method SetKeyRange(low: int32, high: int32)
      requires Valid()
      requires IsKeyRange(low, high)
      modifies this
      ensures Valid()
      ensures GetKeyRange() == KeyRange(low, high)
      ensures State() == NodeSpec.SetKeyRange(old(State()), low, high)
    {
      keyRangeLow := low;
      keyRangeHigh := high;
    }

    /** `setKeyRange (range)`: forwards to `setKeyRange (range.getStart(), range.getEnd())`. */
    method SetKeyRangeOf(range: KeyRange)
      requires Valid()
      requires IsKeyRange(range.start, range.end)
      modifies this
      ensures Valid()
      ensures GetKeyRange() == range
      ensures State() == NodeSpec.SetKeyRange(old(State()), range.start, range.end)
    {
      SetKeyRange(range.start, range.end);
    }

    /** `getKeyRange()`: on a valid node, a range of keys with start <= end. */
    function GetKeyRange(): (r: KeyRange)
      reads this
      ensures r == State().GetKeyRange()
      ensures Valid() ==> IsKeyRange(r.start, r.end)
    {
      KeyRange(keyRangeLow, keyRangeHigh)
    }

    /**
     `setTransposeOffset (value)`: the source asserts -24 <= value <= 24;
     the offset then reads back as `value` and the key range is untouched.
     */
    method SetTransposeOffset(value: int32)
      requires Valid()
      requires IsTransposeOffset(value)
      modifies this
      ensures Valid()
      ensures GetTransposeOffset() == value
      ensures GetKeyRange() == old(GetKeyRange())
      ensures State() == NodeSpec.SetTransposeOffset(old(State()), value)
    {
      transposeOffset := value;
    }

    /** `getTransposeOffset()`: on a valid node, within [-24, 24]. */
    function GetTransposeOffset(): (r: int32)
      reads this
      ensures r == State().transposeOffset
      ensures Valid() ==> IsTransposeOffset(r)
    {
      transposeOffset
    }
  }

  /**
   A control-thread session on a fresh node: calls through the class and
   the values its getters then return.
   */
  method FreshNodeSession(id: uint32, x: real, y: real)
  {
    var node := new GraphNode(id);
    var shadow := node.GetLastGain();
    node.SetGain(x);
    node.SetKeyRange(36, 60);
    node.SetTransposeOffset(-12);
    assert node.GetLastGain() == shadow && node.GetGain() == x;
    node.SetGain(y);
    node.UpdateGain();
    assert node.GetLastGain() == node.GetGain() == y;
    node.UpdateGain();
    assert node.GetLastGain() == y;
    assert node.GetKeyRange() == KeyRange(36, 60) && node.GetTransposeOffset() == -12;
    assert node.IsEnabled() && node.GetInputRms(0) == 0.0;
  }
}
