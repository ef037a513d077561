# Simulcast call: layer layouts, SSRC assignment and live reconfiguration

A Dafny model of the deterministic core of the interactive simulcast call test
of the video engine (`vie_autotest_simulcast.cc`). The test sends one camera
source as three simulcast layers and loops the packets back to three receive
channels, one per layer. The model covers three parts of it:

- **Layer layouts** (module `Codec`). The three builders overwrite fields of the
  send codec record:
  - `InitialSingleStreamSettings`: no layers, 1200x800.
  - `SetSimulcastSettings`: three layers of 320x180, 640x360 and 1280x720 at
    100, 500 and 1200 kbps, each inheriting the record's `qpMax`.
  - `RuntimeSingleStreamSettings`: the three simulcast layers with every bitrate
    ceiling cleared, and a top-level resolution of 1200x800.

  The class `VideoCodec` holds the record as the program does: plain fields and
  a fixed-size array of layers, updated in place. Each of its methods is proved
  equal to a function on record values. The lemmas about those functions give
  the exact constants, qp inheritance, idempotence and the round trip.
- **SSRC assignment and the SSRC-to-receive-channel map** (module `Engine`).
  The media engine is seen from outside. The calls made to it
  (`SetSendCodec`, `SetLocalSSRC`) are recorded as a trace. Its return codes
  are inputs. SSRC `idx+1` goes to layer `idx`, in layer order. At setup, the
  map sends SSRC `idx+1` to receive channel `idx`.
- **Setup and the live command loop** (module `Reconfig` on values, class
  `Session.SimulcastSession` in place). The state is:
  - the codec record;
  - the simulcast mode and the number of streams;
  - the SSRC filter last given to the transport;
  - the map handed to the transport (a null pointer in relay-one mode);
  - the engine-call trace.

  Each command line does one of four things:
  - `0` toggles simulcast;
  - `1`..`3` sets the filter (relay-one mode only);
  - any other value is rejected and changes nothing;
  - an empty line ends the loop.

  The loop invariant holds throughout:
  - the stream count is 1 or 3, matching the mode;
  - a simulcast record is a fixed point of the simulcast layout;
  - in relay-one mode the filter is in 1..3, and in any other mode it is never
    set;
  - the map is null exactly in relay-one mode.

  Two toggles from simulcast give back the very same record.

Points where the code's behaviour is easy to misread:
- When the engine refuses the codec during a toggle, the code has already
  flipped the mode and rewritten the record. It then aborts the test; nothing is
  rolled back (`Reconfig.ToggleFailureIsFatal`).
- A selected SSRC is checked against the fixed range 1..3, not against the
  current number of streams (`Reconfig.SelectionNotBoundedByStreamCount`).
- Only an empty line (or the end of input) ends the loop. Any other non-zero
  value outside 1..3 is reported as invalid, and the loop goes on.
- The channel map has one entry per stream configured at setup. In relay-one
  mode the transport gets a null pointer instead of a map.

## Model

| member | source | states |
|---|---|---|
| `Codec.InitialSingleStream` | video_engine/test/auto_test/source/vie_autotest_simulcast.cc:35-39 | The initial single-stream layout as a function on records; it keeps the layer array, so a usable record stays usable. `Codec.InitialSingleStreamLayout` states the layout. |
| `Codec.Simulcast` | video_engine/test/auto_test/source/vie_autotest_simulcast.cc:41-63 | The simulcast layout as a function on records; the layer array keeps its size. `Codec.SimulcastLayout` states the layout. |
| `Codec.RuntimeSingleStream` | video_engine/test/auto_test/source/vie_autotest_simulcast.cc:65-73 | The runtime single-stream layout as a function on records; the layer array keeps its size. `Codec.RuntimeSingleStreamLayout` states the layout. |
| `Codec.SimulcastLayout` | video_engine/test/auto_test/source/vie_autotest_simulcast.cc:41-63 | The simulcast layout is 1280x720 with 3 streams. Layers 0/1/2 are 320x180, 640x360 and 1280x720, at 100/500/1200 kbps, with 0 temporal layers and the record's `qpMax`. `qpMax`, `startBitrate` and any further array entries are unchanged. |
| `Codec.SimulcastLayersInheritQp` | video_engine/test/auto_test/source/vie_autotest_simulcast.cc:45-62 | Every configured layer's `qpMax` equals the top-level `qpMax`. The top layer has the record's own resolution. |
| `Codec.SimulcastIdempotent` | video_engine/test/auto_test/source/vie_autotest_simulcast.cc:41-63 | Applying the simulcast layout twice equals applying it once. |
| `Codec.RuntimeSingleStreamLayout` | video_engine/test/auto_test/source/vie_autotest_simulcast.cc:65-73 | The runtime single-stream layout is 1200x800 and keeps 3 layers. Each layer is the simulcast layer with `maxBitrate` 0. `qpMax`, `startBitrate`, the array's size and further entries are unchanged. |
| `Codec.SimulcastAfterRuntimeSingle` | video_engine/test/auto_test/source/vie_autotest_simulcast.cc:41-73 | Applying the simulcast layout after the runtime single-stream layout gives exactly the simulcast layout of the original record, bitrate ceilings included. |
| `Codec.InitialSingleStreamLayout` | video_engine/test/auto_test/source/vie_autotest_simulcast.cc:35-39 | The initial single-stream layout has 0 simulcast streams and is 1200x800. Every other field, the layer array included, is unchanged. |
| `Codec.WithStartRate` | video_engine/test/auto_test/source/vie_autotest_simulcast.cc:411-415 | A non-zero start rate becomes `startBitrate`; zero keeps the old value. No other field changes. |
| `Codec.SimulcastIgnoresStartRate` | video_engine/test/auto_test/source/vie_autotest_simulcast.cc:398-415 | A start rate applied after the simulcast layout leaves the record a fixed point of that layout. |
| `Codec.VideoCodec.InitialSingleStreamSettings` | video_engine/test/auto_test/source/vie_autotest_simulcast.cc:35-39 | The in-place record afterwards equals `InitialSingleStream` of the record before. |
| `Codec.VideoCodec.SetSimulcastSettings` | video_engine/test/auto_test/source/vie_autotest_simulcast.cc:41-63 | The in-place record, layer array included, afterwards equals `Simulcast` of the record before. |
| `Codec.VideoCodec.RuntimeSingleStreamSettings` | video_engine/test/auto_test/source/vie_autotest_simulcast.cc:65-73 | The in-place record afterwards equals `RuntimeSingleStream` of the record before. |
| `Engine.SsrcCalls` | video_engine/test/auto_test/source/vie_autotest_simulcast.cc:435-441 | An assignment loop over n streams makes exactly n `SetLocalSSRC` calls. Call i gives SSRC i+1 to layer i. |
| `Engine.FirstFailure` | video_engine/test/auto_test/source/vie_autotest_simulcast.cc:443-448 | The loop stops at the first call that returns -1, or runs to the end. Every earlier call succeeded. |
| `Engine.FirstFailureIsFirst` | video_engine/test/auto_test/source/vie_autotest_simulcast.cc:566-571 | The stopping index is unique: one where all earlier calls succeeded and this one failed (or the end) is it. |
| `Engine.SsrcChannelMap` | video_engine/test/auto_test/source/vie_autotest_simulcast.cc:434-449 | The map's keys are exactly 1..n. SSRC i+1 maps to `receive_channels[i]`. |
| `Engine.ChannelMapCoversAssignedSsrcs` | video_engine/test/auto_test/source/vie_autotest_simulcast.cc:435-442 | Every SSRC given to the engine at setup is a key of the map. It leads to the receive channel of the layer it was assigned to. |
| `Engine.ChannelMapInjective` | video_engine/test/auto_test/source/vie_autotest_simulcast.cc:434-449 | With distinct receive channels, no two SSRCs share a channel. |
| `Reconfig.Configure` | video_engine/test/auto_test/source/vie_autotest_simulcast.cc:395-415 | Choosing the layout gives the chosen mode with 3 streams in simulcast and 1 otherwise, a usable record of the same size, and no filter, map or engine call yet. `Reconfig.StartEstablishesInv` states the record. |
| `Reconfig.Start` | video_engine/test/auto_test/source/vie_autotest_simulcast.cc:395-485 | Setup never ends the loop before it starts. The mode is the chosen one, with 3 streams in simulcast and 1 otherwise. |
| `Reconfig.Announce` | video_engine/test/auto_test/source/vie_autotest_simulcast.cc:417-485 | The record is sent to the engine first, exactly as laid out; later calls are only appended after it. The record, the mode and the stream count stay as they are. The step never ends the loop normally. |
| `Reconfig.Toggle` | video_engine/test/auto_test/source/vie_autotest_simulcast.cc:542-575 | A toggle flips the mode and sets the stream count to match it. The record becomes the runtime single-stream layout (from simulcast) or the simulcast layout (from single stream), whatever the engine replies. The loop goes on iff `SetSendCodec` returns 0 and no `SetLocalSSRC` returns -1; otherwise the test aborts with the filter untouched. It never ends the loop normally, keeps the map and only appends to the engine trace. |
| `Reconfig.Step` | video_engine/test/auto_test/source/vie_autotest_simulcast.cc:539-588 | A step stops exactly on an empty line, leaving the state alone. Only a toggle can abort. The map is kept and the trace only grows. |
| `Reconfig.Run` | video_engine/test/auto_test/source/vie_autotest_simulcast.cc:532-589 | The loop always ends, by an empty line, end of input or an abort. It keeps the map and only appends to the trace. |
| `Reconfig.StartEstablishesInv` | video_engine/test/auto_test/source/vie_autotest_simulcast.cc:395-485 | Setup succeeds iff `SetSendCodec` does not return -1 and no `SetLocalSSRC` does. The codec is the chosen layout with the start rate. On success: the trace is the codec send then SSRCs 1..n to layers 0..n-1; the map is null in relay-one mode, otherwise SSRC i+1 goes to `receive_channels[i]`; the filter is n in relay-one mode and unset otherwise; the loop invariant holds. |
| `Reconfig.ThumbnailChannel` | video_engine/test/auto_test/source/vie_autotest_simulcast.cc:326-329 | The thumbnail window renders `receive_channels[0]` in relay-all mode and the send channel otherwise. `Reconfig.ThumbnailShowsFirstSsrc` states what that channel carries. |
| `Reconfig.ThumbnailShowsFirstSsrc` | video_engine/test/auto_test/source/vie_autotest_simulcast.cc:326-329 | The thumbnail channel is chosen by `Reconfig.ThumbnailChannel`. In relay-all mode it is the channel to which a successful setup's map routes SSRC 1, the SSRC assigned to layer 0. In any other mode it is the send channel. |
| `Reconfig.StepPreservesInv` | video_engine/test/auto_test/source/vie_autotest_simulcast.cc:539-588 | Every command keeps the loop invariant, whatever its outcome: stream count in {1,3} matching the mode, a simulcast record a fixed point, the filter in 1..3 in relay-one mode and unset otherwise, the map null exactly in relay-one mode. |
| `Reconfig.ToggleFromSimulcast` | video_engine/test/auto_test/source/vie_autotest_simulcast.cc:545-575 | Toggling from simulcast sends the runtime single-stream layout. It leaves 1 stream and assigns SSRC 1 to layer 0. In relay-one mode the filter becomes 1. |
| `Reconfig.ToggleFromSingle` | video_engine/test/auto_test/source/vie_autotest_simulcast.cc:549-575 | Toggling from single stream sends the simulcast layout. It gives 3 streams and assigns SSRCs 1, 2, 3 to layers 0, 1, 2 in order. In relay-one mode the filter becomes 3. |
| `Reconfig.ToggleFailureIsFatal` | video_engine/test/auto_test/source/vie_autotest_simulcast.cc:554-558 | If `SetSendCodec` returns non-zero, the test aborts. The mode stays flipped and the new layout stays in place; the filter is untouched. |
| `Reconfig.DoubleToggleRoundTrip` | video_engine/test/auto_test/source/vie_autotest_simulcast.cc:542-575 | Two toggles from simulcast return the identical codec record, with simulcast mode and 3 streams. The filter is 3 in relay-one mode. The trace shows both layouts sent, each followed by its SSRC assignments. |
| `Reconfig.SelectSetsFilter` | video_engine/test/auto_test/source/vie_autotest_simulcast.cc:576-580 | A command 1..3 sets the filter to that value in relay-one mode and changes nothing in other modes. |
| `Reconfig.SelectionNotBoundedByStreamCount` | video_engine/test/auto_test/source/vie_autotest_simulcast.cc:576-580 | With one stream in relay-one mode, command 3 still sets the filter to 3, above the stream count. |
| `Reconfig.InvalidLineChangesNothing` | video_engine/test/auto_test/source/vie_autotest_simulcast.cc:581-584 | A non-empty line whose value is neither 0 nor 1..3 leaves the whole state unchanged, and the loop goes on. |
| `Reconfig.RunPreservesInv` | video_engine/test/auto_test/source/vie_autotest_simulcast.cc:532-589 | The loop invariant holds when the command loop ends, however it ends. |
| `Reconfig.RelayAllNeverSetsFilter` | video_engine/test/auto_test/source/vie_autotest_simulcast.cc:573-580 | Outside relay-one mode, no sequence of commands changes the SSRC filter. |
| `Reconfig.EmptyLineEndsLoop` | video_engine/test/auto_test/source/vie_autotest_simulcast.cc:585-589 | Lines after the first empty line are never read: the loop's result does not depend on them. |
| `Session.SimulcastSession.constructor` | video_engine/test/auto_test/source/vie_autotest_simulcast.cc:395-396 | Before setup the session is in simulcast mode with 1 stream. There is no filter, no map and no engine call yet. |
| `Session.SimulcastSession.Start` | video_engine/test/auto_test/source/vie_autotest_simulcast.cc:395-485 | In-place setup leaves the state and outcome that `Reconfig.Start` gives for the record before. |
| `Session.SimulcastSession.Configure` | video_engine/test/auto_test/source/vie_autotest_simulcast.cc:395-415 | Choosing the layout and applying the start rate in place gives `Reconfig.Configure` of the record before. |
| `Session.SimulcastSession.Announce` | video_engine/test/auto_test/source/vie_autotest_simulcast.cc:417-485 | Sending the codec, assigning SSRCs, handing the map to the transport and setting the filter give `Reconfig.Announce` of the state before. |
| `Session.SimulcastSession.AssignSsrcsAndMap` | video_engine/test/auto_test/source/vie_autotest_simulcast.cc:434-449 | The setup loop succeeds iff no `SetLocalSSRC` returns -1. It appends SSRC calls 1..n (up to the failing one). On success it returns the map from SSRC i+1 to `receive_channels[i]`. |
| `Session.SimulcastSession.AssignLocalSsrcs` | video_engine/test/auto_test/source/vie_autotest_simulcast.cc:559-572 | The toggle's loop succeeds iff no `SetLocalSSRC` returns -1. It appends SSRC calls 1..n, or up to and including the failing one. |
| `Session.SimulcastSession.HandleLine` | video_engine/test/auto_test/source/vie_autotest_simulcast.cc:539-588 | One pass of the loop body, done in place, leaves the state and outcome of `Reconfig.Step`. |
| `Session.SimulcastSession.CommandLoop` | video_engine/test/auto_test/source/vie_autotest_simulcast.cc:532-589 | The in-place command loop leaves the state and outcome of `Reconfig.Run`. |
| `Session.SimulcastCall` | video_engine/test/auto_test/source/vie_autotest_simulcast.cc:395-589 | A whole call, starting in simulcast mode as the program does, ends in exactly the state and outcome of `Reconfig.Start` followed, if setup succeeded, by `Reconfig.Run` over the command lines: codec record, mode, stream count, filter, map and trace. It never ends with Continue, and the stream count always matches the mode (3 in simulcast, 1 otherwise). If it ends normally: in relay-one mode the filter is in 1..3; otherwise the filter was never set and the transport holds the 3-entry map from setup. In relay-all mode that map routes SSRC 1 to the session's thumbnail channel. The session holds the given relay mode, channels and codec record. |

## Left out

- Engine creation, tracing and interface acquisition and release (lines 87-127 and 595-709), channel creation (140-157) and deletion, and the whole teardown. These are calls into the video engine, whose code is not part of this model.
- Capture devices (162-239), RTCP, REMB and key-frame settings (244-298), rendering (303-343, apart from the thumbnail choice), transport registration, packet loss and network delay (456-481), and start/stop of send and receive. These are engine calls whose failures are assumed not to happen; a failure of one of them would abort the test before the modelled step that follows it.
- Codec enumeration and receive codecs (356-393). The VP8 codec record found there is a parameter of the model.
- `GetInterface` failures between the modelled steps (for example `ViENetwork::GetInterface` at 426-432). Only the return codes of `SetSendCodec` and `SetLocalSSRC` are modelled, as inputs.
- The transport's per-packet filtering and routing by SSRC. `tb_external_transport` is not part of this model, so only the filter value and the map handed to it are stored.
- Console I/O. A command line is an optional integer: `None` for an empty line (end of input reads as one), otherwise its `atoi` value, 0 for non-numeric text. The relay mode and the start rate are the integers `scanf` and `atoi` yield. Printed messages such as "Invalid SSRC" are not modelled.
- The receive channel `videoChannel2` (511-525), created twice under the same name. It is never used by the modelled state.
- `simulcast_mode` is fixed to true at line 395. Setup takes the starting mode as a parameter, so that the single-stream branch (line 402) is modelled too; `Session.SimulcastCall` passes true, as the program does.
- Concurrency: packet delivery on the transport's thread is not modelled, as its code is not part of this model.
- The fields of the codec record that the call neither reads nor writes (codec type, payload name and type, the top-level `maxBitrate` and `minBitrate`, `maxFramerate`, the codec-specific settings) are omitted from `CodecValue`. `SetSendCodec` is recorded with the modelled fields only.
- Codec.WithStartRate: does not model the width of `startBitrate`, because `common_types.h` is not part of this model. A negative `atoi` value is stored as is, where the unsigned field of the record would wrap it. All record fields are unbounded integers for the same reason.
