/**
  The simulcast call as the program runs it: a codec record updated in place, the
  mode and stream count, the transport's channel map and SSRC filter, and the
  trace of engine calls, changed step by step by setup and by the command loop.
  Each method is proved to do what the functions of module Reconfig say.
*/
module Session {
  import opened Options
  import opened Codec
  import opened Engine
  import opened Reconfig

  class SimulcastSession {
    /** The relay mode chosen at startup (kRelayOneStream or kRelayAllStreams). */
    const relayMode: int
    /** The send channel and its receive channels, one per layer. */
    const videoChannel: int
    const receiveChannels: seq<int>
    /** The send codec record. */
    const codec: VideoCodec

    var simulcastMode: bool
    var numStreams: int
    /** The value last passed to the transport's SetSSRCFilter; `None` before any. */
    var ssrcFilter: Option<int>
    /** The map handed to the transport; `None` for a null pointer or before setup. */
    var channelMap: Option<map<int, int>>
    /** Trace of the engine calls made so far. */
    var calls: seq<EngineCall>

    ghost predicate Valid()
      reads this, codec
    {
      codec.Valid() && |receiveChannels| == kNumStreams
    }

    /** The call state as a value. */
    function State(): SessionState
      reads this, codec, codec.simulcastStream
    {
      SessionState(codec.Value(), simulcastMode, numStreams, ssrcFilter, channelMap, calls)
    }

    /** The state just before setup chooses the layout. */
    constructor (relayMode: int, videoChannel: int, receiveChannels: seq<int>, codec: VideoCodec)
      requires codec.Valid() && |receiveChannels| == kNumStreams
      ensures Valid()
      ensures this.relayMode == relayMode && this.videoChannel == videoChannel
      ensures this.receiveChannels == receiveChannels && this.codec == codec
      ensures simulcastMode && numStreams == 1
      ensures ssrcFilter == None && channelMap == None && calls == []
    {
      this.relayMode := relayMode;
      this.videoChannel := videoChannel;
      this.receiveChannels := receiveChannels;
      this.codec := codec;
      simulcastMode := true;
      numStreams := 1;
      ssrcFilter := None;
      channelMap := None;
      calls := [];
    }

    /** The channel rendered in the thumbnail window. */
    function Thumbnail(): int
      requires Valid()
      reads this, codec
    {
      ThumbnailChannel(relayMode, videoChannel, receiveChannels)
    }

    /** Setup: lay out the codec and apply the start rate, then send the codec,
        assign the SSRCs while filling the channel map, hand the map to the
        transport and set the initial filter. */
    method Start(initialSimulcast: bool, startRate: int, e: Replies) returns (o: Outcome)
      requires Valid()
      requires ssrcFilter == None && channelMap == None && calls == []
      modifies this, codec, codec.simulcastStream
      ensures Valid()
      ensures StepResult(State(), o)
           == Reconfig.Start(old(codec.Value()), relayMode, receiveChannels, initialSimulcast, startRate, e)
    {
      Configure(initialSimulcast, startRate);
      o := Announce(e);
    }

    /** Lines 395-415: choose the layout, then apply a non-zero start rate. */
    method Configure(initialSimulcast: bool, startRate: int)
      requires Valid()
      requires ssrcFilter == None && channelMap == None && calls == []
      modifies this`simulcastMode, this`numStreams, codec, codec.simulcastStream
      ensures Valid()
      ensures State() == Reconfig.Configure(old(codec.Value()), initialSimulcast, startRate)
    {
      simulcastMode := initialSimulcast;
      numStreams := 1;
      if simulcastMode {
        codec.SetSimulcastSettings();
        numStreams := codec.numberOfSimulcastStreams;
      } else {
        codec.InitialSingleStreamSettings();
        numStreams := 1;
      }
      if startRate != 0 {
        codec.startBitrate := startRate;
      }
    }

    /** Lines 417-485 without the engine plumbing: send the codec, assign SSRCs and
        fill the channel map, hand it to the transport, set the initial filter. */
    method Announce(e: Replies) returns (o: Outcome)
      requires Valid() && numStreams <= kNumStreams
      modifies this`calls, this`channelMap, this`ssrcFilter
      ensures StepResult(State(), o) == Reconfig.Announce(old(State()), relayMode, receiveChannels, e)
    {
      calls := calls + [SetSendCodec(codec.Value())];
      if e.sendCodec == -1 {
        o := Fatal;
        return;
      }
      var ok, m := AssignSsrcsAndMap(e);
      if !ok {
        o := Fatal;
        return;
      }
      channelMap := Some(m);
      if relayMode == kRelayOneStream {
        channelMap := None;
      }
      if relayMode == kRelayOneStream {
        ssrcFilter := Some(numStreams);
      }
      o := Continue;
    }

    /** The SetLocalSSRC loop of setup: SSRC idx+1 to layer idx for every stream,
        entering receive channel idx under key idx+1 of the channel map, stopping at
        the first error. */
    method AssignSsrcsAndMap(e: Replies) returns (ok: bool, m: map<int, int>)
      requires Valid() && numStreams <= kNumStreams
      modifies this`calls
      ensures ok == SsrcRepliesOk(e, numStreams)
      ensures calls == old(calls) + SsrcCalls(if ok then numStreams else FirstFailure(e.localSsrc, numStreams) + 1)
      ensures ok ==> m == SsrcChannelMap(receiveChannels, numStreams)
    {
      m := map[];
      var idx := 0;
      while idx < numStreams
        invariant 0 <= idx <= Iterations(numStreams)
        invariant calls == old(calls) + SsrcCalls(idx)
        invariant m == SsrcChannelMap(receiveChannels, idx)
        invariant forall j :: 0 <= j < idx ==> LocalSsrcReply(e.localSsrc, j) != -1
      {
        calls := calls + [SetLocalSsrc(idx + 1, idx)];
        m := m[idx + 1 := receiveChannels[idx]];
        if LocalSsrcReply(e.localSsrc, idx) == -1 {
          FirstFailureIsFirst(e.localSsrc, numStreams, idx);
          return false, m;
        }
        idx := idx + 1;
      }
      FirstFailureIsFirst(e.localSsrc, numStreams, idx);
      return true, m;
    }

    /** The SetLocalSSRC loop of a toggle: SSRC idx+1 to layer idx for every stream,
        stopping at the first error. */
    method AssignLocalSsrcs(e: Replies) returns (ok: bool)
      modifies this`calls
      ensures ok == SsrcRepliesOk(e, numStreams)
      ensures calls == old(calls) + SsrcCalls(if ok then numStreams else FirstFailure(e.localSsrc, numStreams) + 1)
    {
      var idx := 0;
      while idx < numStreams
        invariant 0 <= idx <= Iterations(numStreams)
        invariant calls == old(calls) + SsrcCalls(idx)
        invariant forall j :: 0 <= j < idx ==> LocalSsrcReply(e.localSsrc, j) != -1
      {
        calls := calls + [SetLocalSsrc(idx + 1, idx)];
        if LocalSsrcReply(e.localSsrc, idx) == -1 {
          FirstFailureIsFirst(e.localSsrc, numStreams, idx);
          return false;
        }
        idx := idx + 1;
      }
      FirstFailureIsFirst(e.localSsrc, numStreams, idx);
      return true;
    }

    /** One pass of the command loop's body. */
    method HandleLine(t: Turn) returns (o: Outcome)
      requires Valid()
      modifies this, codec, codec.simulcastStream
      ensures Valid()
      ensures StepResult(State(), o) == Step(old(State()), relayMode, t)
    {
      match t.line
      case None =>
        o := Stop;
      case Some(ssrc) =>
        if ssrc == 0 {
          if simulcastMode {
            codec.RuntimeSingleStreamSettings();
            numStreams := 1;
          } else {
            codec.SetSimulcastSettings();
            numStreams := codec.numberOfSimulcastStreams;
          }
          simulcastMode := !simulcastMode;
          calls := calls + [SetSendCodec(codec.Value())];
          if t.engine.sendCodec != 0 {
            o := Fatal;
            return;
          }
          var ok := AssignLocalSsrcs(t.engine);
          if !ok {
            o := Fatal;
            return;
          }
          if relayMode == kRelayOneStream {
            ssrcFilter := Some(numStreams);
          }
          o := Continue;
        } else if 0 < ssrc < 4 {
          if relayMode == kRelayOneStream {
            ssrcFilter := Some(ssrc);
          }
          o := Continue;
        } else {
          o := Continue; // "Invalid SSRC"
        }
    }

    /** The command loop: handle lines until an empty line, the end of input or a
        fatal engine error. */
    method CommandLoop(turns: seq<Turn>) returns (o: Outcome)
      requires Valid()
      modifies this, codec, codec.simulcastStream
      ensures Valid()
      ensures StepResult(State(), o) == Run(old(State()), relayMode, turns)
    {
      var i := 0;
      while i < |turns|
        invariant 0 <= i <= |turns|
        invariant Valid()
        invariant Run(State(), relayMode, turns[i..]) == Run(old(State()), relayMode, turns)
      {
        assert turns[i..][0] == turns[i];
        assert turns[i..][1..] == turns[i + 1..];
        o := HandleLine(turns[i]);
        if o != Continue {
          return;
        }
        i := i + 1;
      }
      o := Stop;
    }
  }

  /** A whole call from setup to the end of the command loop, for the program's
      fixed choice of starting in simulcast mode. In relay-one mode the filter is in
      1..3 at the end; otherwise it was never set; the map handed to the transport
      never changes after setup. */
  method SimulcastCall(relayMode: int, videoChannel: int, receiveChannels: seq<int>,
                       codec: VideoCodec, startRate: int, setup: Replies, turns: seq<Turn>)
    returns (o: Outcome, session: SimulcastSession)
    requires codec.Valid() && |receiveChannels| == kNumStreams
    modifies codec, codec.simulcastStream
    ensures session.codec == codec && session.Valid()
    ensures session.relayMode == relayMode && session.videoChannel == videoChannel
    ensures session.receiveChannels == receiveChannels
    ensures o != Continue
    ensures var r := Reconfig.Start(old(codec.Value()), relayMode, receiveChannels, true, startRate, setup);
      StepResult(session.State(), o) == (if r.outcome != Continue then r else Run(r.state, relayMode, turns))
    ensures session.numStreams == StreamsFor(session.simulcastMode)
    ensures o == Stop && relayMode == kRelayOneStream ==>
              session.ssrcFilter.Some? && 1 <= session.ssrcFilter.value <= 3
    ensures o == Stop && relayMode != kRelayOneStream ==>
              session.ssrcFilter == None
              && session.channelMap == Some(SsrcChannelMap(receiveChannels, kNumStreams))
    ensures o == Stop && relayMode == kRelayAllStreams ==>
              && session.channelMap.Some? && 1 in session.channelMap.value
              && session.channelMap.value[1] == session.Thumbnail()
  {
    session := new SimulcastSession(relayMode, videoChannel, receiveChannels, codec);
    ghost var c0 := codec.Value();
    o := session.Start(true, startRate, setup);
    StartEstablishesInv(c0, relayMode, receiveChannels, true, startRate, setup);
    if o != Continue {
      return;
    }
    ghost var s0 := session.State();
    o := session.CommandLoop(turns);
    RunPreservesInv(s0, relayMode, turns);
  }
}
