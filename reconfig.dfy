/**
  The call's state machine on values: setup of the layer layout, SSRCs, channel
  map and filter, then the live command loop that toggles simulcast and selects
  the relayed SSRC. The class in module Session performs the same steps in place
  and is proved to agree with these functions.
*/
module Reconfig {
  import opened Options
  import opened Codec
  import opened Engine

  /** Values of the relay mode the operator types in at startup. */
  const kRelayOneStream := 1
  const kRelayAllStreams := 2

  /** Largest SSRC the operator may select: the selection is checked against this
      fixed bound, not against the current number of streams. */
  const kMaxSelectableSsrc := 3

  /** Return codes of the engine calls one step makes: SetSendCodec, then the
      SetLocalSSRC calls of the assignment loop in order. */
  datatype Replies = Replies(sendCodec: int, localSsrc: seq<int>)

  /** One command line: `None` is an empty line (or end of input), `Some(v)` a
      non-empty line whose `atoi` value is `v` (0 for non-numeric text); with the
      engine's replies to the calls the command makes. */
  datatype Turn = Turn(line: Option<int>, engine: Replies)

  /** How a step ends: go on reading commands, leave the loop, or abort the test. */
  datatype Outcome = Continue | Stop | Fatal

  /** The call state the command loop works on. `ssrcFilter` is the value last passed
      to the transport's SetSSRCFilter (`None`: never set); `channelMap` is the map
      handed to the transport (`None`: a null pointer); `calls` is the trace of
      engine calls. */
  datatype SessionState = SessionState(
    codec: CodecValue,
    simulcastMode: bool,
    numStreams: int,
    ssrcFilter: Option<int>,
    channelMap: Option<map<int, int>>,
    calls: seq<EngineCall>)

  datatype StepResult = StepResult(state: SessionState, outcome: Outcome)

  /** Trace `later` is trace `earlier` with calls appended. */
  predicate Extends(later: seq<EngineCall>, earlier: seq<EngineCall>) {
    |earlier| <= |later| && later[..|earlier|] == earlier
  }

  /** Number of streams sent in the given mode. */
  function StreamsFor(simulcastMode: bool): int {
    if simulcastMode then kNumStreams else 1
  }

  /** Setup's layout choice (lines 395-404) and start rate (lines 406-415): the
      codec record, mode and stream count before anything is sent. The program fixes
      `initialSimulcast` to true. */
  function Configure(c0: CodecValue, initialSimulcast: bool, startRate: int): (r: SessionState)
    requires WellFormed(c0)
    ensures WellFormed(r.codec) && |r.codec.simulcastStream| == |c0.simulcastStream|
    ensures r.simulcastMode == initialSimulcast && r.numStreams == StreamsFor(initialSimulcast)
    ensures r.ssrcFilter == None && r.channelMap == None && r.calls == []
  {
    var laid := if initialSimulcast then Simulcast(c0) else InitialSingleStream(c0);
    var n := if initialSimulcast then laid.numberOfSimulcastStreams else 1;
    SessionState(WithStartRate(laid, startRate), initialSimulcast, n, None, None, [])
  }

  /** The rest of setup: send the codec, assign SSRCs 1..n to layers 0..n-1 while
      building the channel map, hand the map (or a null pointer in relay-one mode)
      to the transport and set the initial SSRC filter. */
  function Announce(s: SessionState, relayMode: int, receiveChannels: seq<int>, e: Replies): (r: StepResult)
    requires s.numStreams <= |receiveChannels|
    ensures r.outcome != Stop
    ensures r.state.codec == s.codec && r.state.simulcastMode == s.simulcastMode
    ensures r.state.numStreams == s.numStreams
    ensures Extends(r.state.calls, s.calls + [SetSendCodec(s.codec)])
  {
    var n := s.numStreams;
    var sent := s.calls + [SetSendCodec(s.codec)];
    if e.sendCodec == -1 then StepResult(s.(calls := sent), Fatal)
    else
      var k := FirstFailure(e.localSsrc, n);
      if k < n then StepResult(s.(calls := sent + SsrcCalls(k + 1)), Fatal)
      else
        StepResult(
          s.(calls := sent + SsrcCalls(n),
             channelMap := if relayMode == kRelayOneStream then None
                           else Some(SsrcChannelMap(receiveChannels, n)),
             ssrcFilter := if relayMode == kRelayOneStream then Some(n) else s.ssrcFilter),
          Continue)
  }

  /** Setup from choosing the layout to setting the initial SSRC filter. */
  function Start(c0: CodecValue, relayMode: int, receiveChannels: seq<int>,
                 initialSimulcast: bool, startRate: int, e: Replies): (r: StepResult)
    requires WellFormed(c0)
    requires |receiveChannels| == kNumStreams
    ensures |r.state.codec.simulcastStream| == |c0.simulcastStream|
    ensures r.outcome != Stop
    ensures r.state.simulcastMode == initialSimulcast
    ensures r.state.numStreams == StreamsFor(initialSimulcast)
  {
    Announce(Configure(c0, initialSimulcast, startRate), relayMode, receiveChannels, e)
  }

  /** Command 0: switch between simulcast and the runtime single-stream layout. The
      mode is flipped before the codec is sent; a failed send ends the test with
      the new layout and mode in place. */
  function Toggle(s: SessionState, relayMode: int, e: Replies): (r: StepResult)
    requires WellFormed(s.codec)
    ensures |r.state.codec.simulcastStream| == |s.codec.simulcastStream|
    ensures r.outcome != Stop && r.state.simulcastMode == !s.simulcastMode
    ensures r.state.numStreams == StreamsFor(r.state.simulcastMode)
    ensures r.state.codec == (if s.simulcastMode then RuntimeSingleStream(s.codec) else Simulcast(s.codec))
    ensures r.outcome == Continue <==> e.sendCodec == 0 && SsrcRepliesOk(e, StreamsFor(!s.simulcastMode))
    ensures r.outcome == Fatal ==> r.state.ssrcFilter == s.ssrcFilter
    ensures r.state.channelMap == s.channelMap && Extends(r.state.calls, s.calls)
  {
    var codec := if s.simulcastMode then RuntimeSingleStream(s.codec) else Simulcast(s.codec);
    var n := if s.simulcastMode then 1 else codec.numberOfSimulcastStreams;
    var s1 := s.(codec := codec, numStreams := n, simulcastMode := !s.simulcastMode,
                 calls := s.calls + [SetSendCodec(codec)]);
    if e.sendCodec != 0 then StepResult(s1, Fatal)
    else
      var k := FirstFailure(e.localSsrc, n);
      if k < n then StepResult(s1.(calls := s1.calls + SsrcCalls(k + 1)), Fatal)
      else
        var s2 := s1.(calls := s1.calls + SsrcCalls(n));
        StepResult(if relayMode == kRelayOneStream then s2.(ssrcFilter := Some(n)) else s2, Continue)
  }

  /** One pass of the command loop's body. */
  function Step(s: SessionState, relayMode: int, t: Turn): (r: StepResult)
    requires WellFormed(s.codec)
    ensures |r.state.codec.simulcastStream| == |s.codec.simulcastStream|
    ensures r.outcome == Stop <==> t.line == None
    ensures r.outcome == Stop ==> r.state == s
    ensures r.outcome == Fatal ==> t.line == Some(0)
    ensures r.state.channelMap == s.channelMap && Extends(r.state.calls, s.calls)
  {
    match t.line
    case None => StepResult(s, Stop)
    case Some(v) =>
      if v == 0 then Toggle(s, relayMode, t.engine)
      else if 0 < v <= kMaxSelectableSsrc then
        StepResult(if relayMode == kRelayOneStream then s.(ssrcFilter := Some(v)) else s, Continue)
      else
        StepResult(s, Continue) // "Invalid SSRC"
  }

  /** The command loop: steps until a step does not continue; running out of input
      reads as an empty line. */
  function Run(s: SessionState, relayMode: int, turns: seq<Turn>): (r: StepResult)
    requires WellFormed(s.codec)
    ensures |r.state.codec.simulcastStream| == |s.codec.simulcastStream|
    ensures r.outcome != Continue
    ensures r.state.channelMap == s.channelMap && Extends(r.state.calls, s.calls)
    decreases |turns|
  {
    if turns == [] then StepResult(s, Stop)
    else
      var r := Step(s, relayMode, turns[0]);
      if r.outcome == Continue then Run(r.state, relayMode, turns[1..]) else r
  }

  /** What holds of the call state throughout the command loop. */
  predicate Inv(s: SessionState, relayMode: int) {
    && WellFormed(s.codec)
    && s.numStreams == StreamsFor(s.simulcastMode)
    && (s.simulcastMode ==> Simulcast(s.codec) == s.codec)
    && (relayMode == kRelayOneStream ==>
          s.ssrcFilter.Some? && 1 <= s.ssrcFilter.value <= kMaxSelectableSsrc)
    && (relayMode != kRelayOneStream ==> s.ssrcFilter == None)
    && (s.channelMap == None <==> relayMode == kRelayOneStream)
  }

  /** All SetLocalSSRC replies of a loop over `n` layers succeed. */
  predicate SsrcRepliesOk(e: Replies, n: int) {
    FirstFailure(e.localSsrc, n) == Iterations(n)
  }

  // ---------------------------------------------------------------------------
  // Setup
  // ---------------------------------------------------------------------------

  /** Setup succeeds exactly when the engine accepts the codec and every SSRC. It
      then sends the chosen layout (with the start rate), assigns SSRCs 1..n to
      layers 0..n-1, hands the transport either no map (relay one) or the map from
      SSRC i+1 to receive channel i, sets the filter to n in relay-one mode only, and
      establishes the loop invariant. */
  lemma StartEstablishesInv(c0: CodecValue, relayMode: int, receiveChannels: seq<int>,
                            initialSimulcast: bool, startRate: int, e: Replies)
    requires WellFormed(c0)
    requires |receiveChannels| == kNumStreams
    ensures var r := Start(c0, relayMode, receiveChannels, initialSimulcast, startRate, e);
      var n := StreamsFor(initialSimulcast);
      var laid := if initialSimulcast then Simulcast(c0) else InitialSingleStream(c0);
      && (r.outcome == Continue <==> e.sendCodec != -1 && SsrcRepliesOk(e, n))
      && r.state.codec == WithStartRate(laid, startRate)
      && (r.outcome == Continue ==>
            && Inv(r.state, relayMode)
            && r.state.calls == [SetSendCodec(r.state.codec)] + SsrcCalls(n)
            && r.state.channelMap == (if relayMode == kRelayOneStream then None
                                      else Some(SsrcChannelMap(receiveChannels, n)))
            && r.state.ssrcFilter == (if relayMode == kRelayOneStream then Some(n) else None))
  {
  }

  /** The channel rendered in the thumbnail window (lines 326-329), chosen before
      setup: the first receive channel in relay-all mode, the send channel otherwise. */
  function ThumbnailChannel(relayMode: int, videoChannel: int, receiveChannels: seq<int>): int
    requires |receiveChannels| == kNumStreams
  {
    if relayMode == kRelayAllStreams then receiveChannels[0] else videoChannel
  }

  /** The thumbnail shows the lowest layer: in relay-all mode its channel is the one
      the map set up by a successful setup routes SSRC 1 (layer 0) to; in any other
      mode it is the send channel itself, which sends every layer. */
  lemma ThumbnailShowsFirstSsrc(c0: CodecValue, relayMode: int, videoChannel: int,
                                receiveChannels: seq<int>, initialSimulcast: bool,
                                startRate: int, e: Replies)
    requires WellFormed(c0)
    requires |receiveChannels| == kNumStreams
    ensures relayMode != kRelayAllStreams ==>
              ThumbnailChannel(relayMode, videoChannel, receiveChannels) == videoChannel
    ensures var r := Start(c0, relayMode, receiveChannels, initialSimulcast, startRate, e);
      relayMode == kRelayAllStreams && r.outcome == Continue ==>
        && r.state.channelMap.Some? && 1 in r.state.channelMap.value
        && r.state.channelMap.value[1] == ThumbnailChannel(relayMode, videoChannel, receiveChannels)
        && r.state.calls[1] == SetLocalSsrc(1, 0)
  {
  }

  // ---------------------------------------------------------------------------
  // One command
  // ---------------------------------------------------------------------------

  /** Every step keeps the invariant, whatever its outcome. */
  lemma StepPreservesInv(s: SessionState, relayMode: int, t: Turn)
    requires Inv(s, relayMode)
    ensures Inv(Step(s, relayMode, t).state, relayMode)
  {
  }

  /** Toggle from simulcast: the runtime single-stream layout is sent, one stream
      remains and SSRC 1 goes to layer 0; in relay-one mode the filter follows the
      stream count. */
  lemma ToggleFromSimulcast(s: SessionState, relayMode: int, e: Replies)
    requires Inv(s, relayMode) && s.simulcastMode
    requires e.sendCodec == 0 && SsrcRepliesOk(e, 1)
    ensures var r := Step(s, relayMode, Turn(Some(0), e));
      && r.outcome == Continue
      && r.state.codec == RuntimeSingleStream(s.codec)
      && !r.state.simulcastMode && r.state.numStreams == 1
      && r.state.calls == s.calls + [SetSendCodec(r.state.codec), SetLocalSsrc(1, 0)]
      && r.state.ssrcFilter == (if relayMode == kRelayOneStream then Some(1) else s.ssrcFilter)
      && r.state.channelMap == s.channelMap
  {
  }

  /** Toggle from single stream: the simulcast layout is sent, three streams and
      SSRCs 1, 2, 3 go to layers 0, 1, 2 in order; in relay-one mode the filter
      follows the stream count. */
  lemma ToggleFromSingle(s: SessionState, relayMode: int, e: Replies)
    requires Inv(s, relayMode) && !s.simulcastMode
    requires e.sendCodec == 0 && SsrcRepliesOk(e, kNumStreams)
    ensures var r := Step(s, relayMode, Turn(Some(0), e));
      && r.outcome == Continue
      && r.state.codec == Simulcast(s.codec)
      && r.state.simulcastMode && r.state.numStreams == 3
      && r.state.calls == s.calls + [SetSendCodec(r.state.codec),
                                     SetLocalSsrc(1, 0), SetLocalSsrc(2, 1), SetLocalSsrc(3, 2)]
      && r.state.ssrcFilter == (if relayMode == kRelayOneStream then Some(3) else s.ssrcFilter)
      && r.state.channelMap == s.channelMap
  {
  }

  /** A toggle whose codec the engine refuses ends the test; the new layout and the
      flipped mode stay in place, nothing is rolled back. */
  lemma ToggleFailureIsFatal(s: SessionState, relayMode: int, e: Replies)
    requires WellFormed(s.codec)
    requires e.sendCodec != 0
    ensures var r := Step(s, relayMode, Turn(Some(0), e));
      && r.outcome == Fatal
      && r.state.simulcastMode == !s.simulcastMode
      && r.state.codec == (if s.simulcastMode then RuntimeSingleStream(s.codec) else Simulcast(s.codec))
      && r.state.ssrcFilter == s.ssrcFilter
  {
  }

  /** Toggling twice from simulcast gives back the very same codec record, mode and
      stream count; the trace shows both layouts sent with their SSRC assignments. */
  lemma DoubleToggleRoundTrip(s: SessionState, relayMode: int, e1: Replies, e2: Replies)
    requires Inv(s, relayMode) && s.simulcastMode
    requires e1.sendCodec == 0 && SsrcRepliesOk(e1, 1)
    requires e2.sendCodec == 0 && SsrcRepliesOk(e2, kNumStreams)
    ensures var r1 := Step(s, relayMode, Turn(Some(0), e1));
      var r2 := Step(r1.state, relayMode, Turn(Some(0), e2));
      && r2.outcome == Continue
      && r2.state.codec == s.codec
      && r2.state.simulcastMode && r2.state.numStreams == 3
      && r2.state.ssrcFilter == (if relayMode == kRelayOneStream then Some(3) else s.ssrcFilter)
      && r2.state.channelMap == s.channelMap
      && r2.state.calls == s.calls + [SetSendCodec(RuntimeSingleStream(s.codec))] + SsrcCalls(1)
                                   + [SetSendCodec(s.codec)] + SsrcCalls(3)
  {
  }

  /** A command 1..3 sets the filter to that value in relay-one mode and is ignored
      otherwise; nothing else changes. */
  lemma SelectSetsFilter(s: SessionState, relayMode: int, v: int, e: Replies)
    requires WellFormed(s.codec)
    requires 1 <= v <= 3
    ensures var r := Step(s, relayMode, Turn(Some(v), e));
      && r.outcome == Continue
      && r.state == s.(ssrcFilter := if relayMode == kRelayOneStream then Some(v) else s.ssrcFilter)
  {
  }

  /** The selection is not bounded by the current stream count: with a single stream,
      SSRC 3 can still be selected and becomes the filter. */
  lemma SelectionNotBoundedByStreamCount(s: SessionState, e: Replies)
    requires Inv(s, kRelayOneStream) && !s.simulcastMode
    ensures var r := Step(s, kRelayOneStream, Turn(Some(3), e));
      && r.outcome == Continue
      && r.state.numStreams == 1
      && r.state.ssrcFilter == Some(3)
      && r.state.ssrcFilter.value > r.state.numStreams
  {
  }

  /** A non-empty line whose value is neither 0 nor 1..3 changes nothing and the
      loop goes on. */
  lemma InvalidLineChangesNothing(s: SessionState, relayMode: int, v: int, e: Replies)
    requires WellFormed(s.codec)
    requires v != 0 && !(1 <= v <= 3)
    ensures Step(s, relayMode, Turn(Some(v), e)) == StepResult(s, Continue)
  {
  }

  // ---------------------------------------------------------------------------
  // The whole command loop
  // ---------------------------------------------------------------------------

  /** The loop keeps the invariant, whichever way it ends. */
  lemma {:induction false} RunPreservesInv(s: SessionState, relayMode: int, turns: seq<Turn>)
    requires Inv(s, relayMode)
    ensures Inv(Run(s, relayMode, turns).state, relayMode)
    decreases |turns|
  {
    if turns != [] {
      var r := Step(s, relayMode, turns[0]);
      StepPreservesInv(s, relayMode, turns[0]);
      if r.outcome == Continue {
        RunPreservesInv(r.state, relayMode, turns[1..]);
      }
    }
  }

  /** Outside relay-one mode the loop never sets the SSRC filter. */
  lemma {:induction false} RelayAllNeverSetsFilter(s: SessionState, relayMode: int, turns: seq<Turn>)
    requires WellFormed(s.codec)
    requires relayMode != kRelayOneStream
    ensures Run(s, relayMode, turns).state.ssrcFilter == s.ssrcFilter
    decreases |turns|
  {
    if turns != [] {
      var r := Step(s, relayMode, turns[0]);
      if r.outcome == Continue {
        RelayAllNeverSetsFilter(r.state, relayMode, turns[1..]);
      }
    }
  }

  /** Lines after the first empty line are never read. */
  lemma {:induction false} EmptyLineEndsLoop(s: SessionState, relayMode: int,
                                             before: seq<Turn>, e: Replies, after: seq<Turn>)
    requires WellFormed(s.codec)
    ensures Run(s, relayMode, before + [Turn(None, e)] + after)
         == Run(s, relayMode, before + [Turn(None, e)])
    decreases |before|
  {
    var stop := [Turn(None, e)];
    if before == [] {
      assert (before + stop + after)[0] == Turn(None, e);
      assert (before + stop)[0] == Turn(None, e);
    } else {
      var r := Step(s, relayMode, before[0]);
      assert (before + stop + after)[0] == before[0];
      assert (before + stop)[0] == before[0];
      if r.outcome == Continue {
        assert (before + stop + after)[1..] == before[1..] + stop + after;
        assert (before + stop)[1..] == before[1..] + stop;
        EmptyLineEndsLoop(r.state, relayMode, before[1..], e, after);
      }
    }
  }
}
