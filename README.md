# GraphNode runtime state

A Dafny model of the per-node runtime state of Element's audio/MIDI graph
engine: the inline members of `GraphNode` in `src/engine/GraphNode.h`. A
node holds a gain and an input gain, each with a "last" shadow that
`updateGain()` brings up to date once per render block. It also holds a
MIDI key range and transpose offset, whose setters assert their ranges, a
latency in samples, an enabled counter, and per-channel input/output meters
whose getters read 0.0 past the last channel.

Files:

- `node_spec.dfy` (module `NodeSpec`): the node's abstract value
  `NodeState` and the effect of every inline member on it, as pure
  functions whose contracts state round-trips and "nothing else changes".
- `control_trace.dfy` (module `ControlTrace`): any sequence of control-thread
  setter calls and block-end `updateGain()` calls, with lemmas by induction
  over the sequence. The filter invariant survives the whole sequence. A
  gain shadow moves only at a block end, and then to the latest target. The
  key range, transpose offset, latency and both gain targets read back are
  the last ones set.
- `graph_node.dfy` (module `Element`): the class `GraphNode` with the
  header's fields. Its setters `modifies this` and promise that `State()`
  afterwards is the matching `NodeSpec` function of the old `State()`. Its
  getters are functions that read `this`. `Valid()` is the key-range and
  transpose invariant. `FreshNodeSession` is a client of the class.

Modelling choices:

- C++ `int` is the newtype `int32` and `uint32` is `uint32`. No member does
  arithmetic on them, so no wrap-around arises.
- Gains are `real`. The header only copies and compares them.
- A `jassert` becomes a `requires`. Release builds compile the assertions
  out, and such a build would then store an out-of-range value unchecked.
- The header gives the four gain fields no initialiser, and the constructor
  body is in `GraphNode.cpp`. The model's constructor therefore promises
  nothing about the gains, and `NodeSpec.Initial` takes them as parameters.
- The meter arrays start empty. They are sized and written only by members
  whose bodies are not in the header (`prepare`, `unprepare`,
  `setInputRMS`/`setOutputRMS` and the friend classes), so the model reads
  the meters and never writes them.
- `getInputRMS`/`getOutputRMS` compare a signed channel with the array size
  and then index the array. A negative channel would read before the array,
  so the model requires `chan >= 0`.
- `setGain`/`setInputGain` are only declared in the header; their bodies
  are in `GraphNode.cpp`, which is not part of this model. They are modelled
  as plain stores of the new target, which is what the getters and
  `updateGain()` presuppose.

## Model

| member | source | states |
|---|---|---|
| `NodeSpec.Initial` | src/engine/GraphNode.h:173-190 | a new node is enabled, has latency 0, key range (0, 127), transpose 0, the given gains and no meters, and satisfies the filter invariant |
| `NodeSpec.UpdateGain` | src/engine/GraphNode.h:96-102 | the two conditional writes leave both shadows equal to their targets; the targets and every other field are unchanged |
| `NodeSpec.UpdateGainFixedPoint` | src/engine/GraphNode.h:96-102 | `updateGain()` changes nothing exactly when both shadows already equal their targets |
| `NodeSpec.UpdateGainIdempotent` | src/engine/GraphNode.h:96-102 | a second `updateGain()` changes no field |
| `NodeSpec.SetGain` | src/engine/GraphNode.h:85-86 | the gain target becomes `f`; the shadow and every other field are unchanged |
| `NodeSpec.SetInputGain` | src/engine/GraphNode.h:82-83 | the input-gain target becomes `f`; its shadow and every other field are unchanged |
| `NodeSpec.SetKeyRange` | src/engine/GraphNode.h:126-132 | given `0 <= low <= high < 128`, the key range reads back as `(low, high)`, the invariant is kept and no other field changes |
| `NodeSpec.SetKeyRangeToCurrent` | src/engine/GraphNode.h:126-136 | setting the key range just read back leaves the node unchanged |
| `NodeSpec.SetTransposeOffset` | src/engine/GraphNode.h:138-142 | given `-24 <= value <= 24`, the offset reads back as `value`, the key range is unchanged, the invariant is kept, and no other field changes |
| `NodeSpec.SetLatencySamples` | src/engine/GraphNode.h:79-80 | whether or not the write happens, the latency reads back as `latency` and no other field changes |
| `NodeSpec.SetLatencySamplesUnchanged` | src/engine/GraphNode.h:79-80 | setting the current latency leaves the node unchanged |
| `ControlTrace.RunPreservesValid` | src/engine/GraphNode.h:126-142 | every sequence of permitted setter calls and block ends keeps `0 <= low <= high < 128` and `-24 <= transpose <= 24` |
| `ControlTrace.ReachableIsValid` | src/engine/GraphNode.h:126-190 | every state reached from a freshly constructed node by permitted calls satisfies the filter invariant |
| `ControlTrace.ShadowsHoldWithinBlock` | src/engine/GraphNode.h:82-102 | with no block end among the calls, both gain shadows keep their values whatever setters run |
| `ControlTrace.LatestInputGainWins` | src/engine/GraphNode.h:82-88 | after any calls the input-gain target is the argument of the last `setInputGain`, or the old target if there was none |
| `ControlTrace.LatestTransposeOffsetWins` | src/engine/GraphNode.h:138-144 | after any calls the transpose offset read back is the last one set, or the old offset if there was none |
| `ControlTrace.LatestLatencySamplesWins` | src/engine/GraphNode.h:76-80 | after any calls the latency read back is the last one set, or the old latency if there was none |
| `ControlTrace.LatestGainWins` | src/engine/GraphNode.h:85-89 | after any calls the gain target is the argument of the last `setGain`, or the old target if there was none |
| `ControlTrace.BlockEndSnapsToLatestGain` | src/engine/GraphNode.h:82-102 | within a block both shadows keep the previous block's values; after the block end each equals the latest target set for it and both pairs are settled |
| `ControlTrace.LatestKeyRangeWins` | src/engine/GraphNode.h:126-136 | after any calls the key range is the last one set by either `setKeyRange` overload, or the old range if there was none |
| `ControlTrace.CallsLeaveEnablementAndMeters` | src/engine/GraphNode.h:77-144 | no modelled setter or `updateGain()` changes the enabled counter or either meter array |
| `ControlTrace.FreshNodeGainAfterOneBlock` | src/engine/GraphNode.h:85-102 | `setGain (x)` on a new node followed by a block end gives `getGain() == getLastGain() == x`, whatever gains the node started with |
| `Element.GraphNode.constructor` | src/engine/GraphNode.h:173-190 | a new node keeps its id, has the `Initial` state for its own gains, is enabled and valid, with key range (0, 127) and transpose 0 |
| `Element.GraphNode.GetLatencySamples` | src/engine/GraphNode.h:76-77 | returns the node's stored latency |
| `Element.GraphNode.SetLatencySamples` | src/engine/GraphNode.h:79-80 | keeps `Valid()`; writes only when the value differs; afterwards `GetLatencySamples() == latency` and the state is `NodeSpec.SetLatencySamples` of the old one |
| `Element.GraphNode.SetGain` | src/engine/GraphNode.h:85-86 | keeps `Valid()`; afterwards `GetGain() == f`, `GetLastGain()` is unchanged, and nothing else changes |
| `Element.GraphNode.SetInputGain` | src/engine/GraphNode.h:82-83 | keeps `Valid()`; afterwards `GetInputGain() == f`, `GetLastInputGain()` is unchanged, and nothing else changes |
| `Element.GraphNode.GetInputGain` | src/engine/GraphNode.h:88 | returns the input-gain target |
| `Element.GraphNode.GetGain` | src/engine/GraphNode.h:89 | returns the gain target |
| `Element.GraphNode.GetLastGain` | src/engine/GraphNode.h:90 | returns the gain shadow |
| `Element.GraphNode.GetLastInputGain` | src/engine/GraphNode.h:91 | returns the input-gain shadow |
| `Element.GraphNode.UpdateGain` | src/engine/GraphNode.h:96-102 | keeps `Valid()`; afterwards each shadow equals its unchanged target, and the state is `NodeSpec.UpdateGain` of the old one |
| `Element.GraphNode.GetInputRms` | src/engine/GraphNode.h:114 | for `chan >= 0`, the input level of a channel below the meter count, else 0.0; so always 0.0 or a stored level |
| `Element.GraphNode.GetOutputRms` | src/engine/GraphNode.h:116 | for `chan >= 0`, the output level of a channel below the meter count, else 0.0; so always 0.0 or a stored level |
| `Element.GraphNode.IsEnabled` | src/engine/GraphNode.h:123-124 | true exactly when the enabled counter is 1 |
| `Element.GraphNode.SetKeyRange` | src/engine/GraphNode.h:126-132 | given `0 <= low <= high < 128`, keeps `Valid()`, `GetKeyRange()` returns `(low, high)`, and no other field changes |
| `Element.GraphNode.SetKeyRangeOf` | src/engine/GraphNode.h:134 | has the same effect as `SetKeyRange (range.start, range.end)` |
| `Element.GraphNode.GetKeyRange` | src/engine/GraphNode.h:136 | returns `(keyRangeLow, keyRangeHigh)`; on a valid node a range with `0 <= start <= end < 128` |
| `Element.GraphNode.SetTransposeOffset` | src/engine/GraphNode.h:138-142 | given `-24 <= value <= 24`, keeps `Valid()`, `GetTransposeOffset()` returns `value`, and the key range and all else are unchanged |
| `Element.GraphNode.GetTransposeOffset` | src/engine/GraphNode.h:144 | returns the offset; on a valid node within [-24, 24] |

## Left out

- `setEnabled`, the `EnablementUpdater` async notification and the `enablementChanged` signal (GraphNode.h:121, 156, 194-200): the body of `setEnabled` is in `GraphNode.cpp`, which is not part of this model, and its purpose is cross-thread delivery. The enabled counter is therefore only read (`IsEnabled`).
- `setMidiChannels`/`getMidiChannels` and the property lock (GraphNode.h:146-154): the store goes through `MidiChannels::setChannels`, a library type that is not part of this model. The lock only matters under concurrency.
- The port queries, `createPorts`, `prepare`/`unprepare`, `setParentGraph`, `setInputRMS`/`setOutputRMS`, `connectAudioTo`, `getPluginDescription`, `isSuspended`/`suspendProcessing`, `isAudioIONode`/`isMidiIONode`, `getParentGraph` and the graph-kind queries (GraphNode.h:31-71, 106-107, 111, 113, 115, 118, 160, 177-180): they are only declared in the header, with their bodies in `GraphNode.cpp`, which is not part of this model. The meter arrays are sized and written only by such members, so the model reads meters but never writes them.
- `processor<T>()`, `getAudioProcessor`, ownership of the wrapped `AudioProcessor`, reference counting, `metadata` and `pluginState` (GraphNode.h:10, 20-29, 104, 162, 170-172, 206; `getMetadata` at :104 only returns the opaque property tree): these rest on foreign JUCE types and RTTI.
- `render` and `wantsMidiPipe` (GraphNode.h:93-94): the base class does nothing in them.
- The atomicity of the `Atomic<>` fields: the model is sequential, and each call is one step.
- Float semantics: gains are `real`, so a NaN gain, which would make `updateGain()` write on every block, is not modelled.
- NodeSpec.SetGain: modelled as a plain store of the new target, because its body in `GraphNode.cpp` is not part of this model.
- NodeSpec.SetInputGain: modelled as a plain store of the new target, because its body in `GraphNode.cpp` is not part of this model.
- Element.GraphNode.SetGain: modelled as a plain store of the new target, because its body in `GraphNode.cpp` is not part of this model.
- Element.GraphNode.SetInputGain: modelled as a plain store of the new target, because its body in `GraphNode.cpp` is not part of this model.
- Element.GraphNode.constructor: promises nothing about the four gains, because the header gives them no initialiser and the constructor body in `GraphNode.cpp` is not part of this model.
