/**
  The send codec record of the simulcast call and the three builders that lay out
  its simulcast layers: InitialSingleStreamSettings, SetSimulcastSettings and
  RuntimeSingleStreamSettings.

  The builders are stated twice: as functions on a value (`CodecValue`), which the
  session's state machine uses, and as methods of the class `VideoCodec`, which
  overwrite fields in place as the program does and are proved to agree with the
  functions.
*/
module Codec {

  /** Number of simulcast layers the call configures (kNumStreams). */
  const kNumStreams := 3

  /** Top-level resolution written for single-stream operation. */
  const kSingleWidth := 1200
  const kSingleHeight := 800

  /** Top-level resolution written for simulcast operation (that of the top layer). */
  const kSimulcastWidth := 1280
  const kSimulcastHeight := 720

  /** One entry of the codec's simulcastStream array. */
  datatype SimulcastStream = SimulcastStream(
    width: int,
    height: int,
    numberOfTemporalLayers: int,
    maxBitrate: int,
    qpMax: int)

  /** The fields of the codec record that the call reads or writes. */
  datatype CodecValue = CodecValue(
    width: int,
    height: int,
    startBitrate: int,
    qpMax: int,
    numberOfSimulcastStreams: int,
    simulcastStream: seq<SimulcastStream>)

  /** The record's fixed-size layer array has room for every layer the call uses. */
  predicate WellFormed(c: CodecValue) {
    |c.simulcastStream| >= kNumStreams
  }

  /** Layer `i` (0, 1 or 2) of the simulcast layout, inheriting the codec's qp ceiling `qp`. */
  function SimulcastLayer(i: int, qp: int): SimulcastStream
    requires 0 <= i < kNumStreams
  {
    if i == 0 then SimulcastStream(320, 180, 0, 100, qp)
    else if i == 1 then SimulcastStream(640, 360, 0, 500, qp)
    else SimulcastStream(1280, 720, 0, 1200, qp)
  }

  /** InitialSingleStreamSettings: no simulcast layers, 1200x800. */
  function InitialSingleStream(c: CodecValue): (r: CodecValue)
    ensures WellFormed(r) == WellFormed(c)
  {
    c.(numberOfSimulcastStreams := 0, width := kSingleWidth, height := kSingleHeight)
  }

  /** SetSimulcastSettings: three layers, each inheriting the top-level qpMax. */
  function Simulcast(c: CodecValue): (r: CodecValue)
    requires WellFormed(c)
    ensures WellFormed(r) && |r.simulcastStream| == |c.simulcastStream|
  {
    var qp := c.qpMax;
    c.(width := kSimulcastWidth,
       height := kSimulcastHeight,
       numberOfSimulcastStreams := kNumStreams,
       simulcastStream := c.simulcastStream[0 := SimulcastLayer(0, qp)]
                                           [1 := SimulcastLayer(1, qp)]
                                           [2 := SimulcastLayer(2, qp)])
  }

  /** RuntimeSingleStreamSettings: the simulcast layout at 1200x800 with every layer's bitrate ceiling cleared. */
  function RuntimeSingleStream(c: CodecValue): (r: CodecValue)
    requires WellFormed(c)
    ensures WellFormed(r) && |r.simulcastStream| == |c.simulcastStream|
  {
    var s := Simulcast(c);
    var l := s.simulcastStream;
    s.(width := kSingleWidth,
       height := kSingleHeight,
       numberOfSimulcastStreams := kNumStreams,
       simulcastStream := l[0 := l[0].(maxBitrate := 0)]
                           [1 := l[1].(maxBitrate := 0)]
                           [2 := l[2].(maxBitrate := 0)])
  }

  /** The start-rate prompt: a non-zero answer replaces startBitrate, zero keeps it. */
  function WithStartRate(c: CodecValue, startRate: int): (r: CodecValue)
    ensures r.startBitrate == (if startRate != 0 then startRate else c.startBitrate)
    ensures r.(startBitrate := c.startBitrate) == c
  {
    if startRate != 0 then c.(startBitrate := startRate) else c
  }

  // ---------------------------------------------------------------------------
  // Properties of the layouts
  // ---------------------------------------------------------------------------

  /** The simulcast layout: 1280x720 on top, layers 320x180/100, 640x360/500 and
      1280x720/1200 kbps without temporal layers, each with the codec's own qpMax;
      startBitrate, qpMax and any further layer entries are left alone. */
  lemma SimulcastLayout(c: CodecValue)
    requires WellFormed(c)
    ensures var r := Simulcast(c);
      && r.width == 1280 && r.height == 720
      && r.numberOfSimulcastStreams == 3
      && r.simulcastStream[0] == SimulcastStream(320, 180, 0, 100, c.qpMax)
      && r.simulcastStream[1] == SimulcastStream(640, 360, 0, 500, c.qpMax)
      && r.simulcastStream[2] == SimulcastStream(1280, 720, 0, 1200, c.qpMax)
      && r.qpMax == c.qpMax && r.startBitrate == c.startBitrate
      && |r.simulcastStream| == |c.simulcastStream|
      && (forall i :: kNumStreams <= i < |c.simulcastStream| ==> r.simulcastStream[i] == c.simulcastStream[i])
  {
  }

  /** Every configured layer's qp ceiling is the codec's top-level one, and the top
      layer has the same resolution as the codec itself. */
  lemma SimulcastLayersInheritQp(c: CodecValue)
    requires WellFormed(c)
    ensures var r := Simulcast(c);
      && (forall i :: 0 <= i < r.numberOfSimulcastStreams ==> r.simulcastStream[i].qpMax == r.qpMax)
      && r.simulcastStream[r.numberOfSimulcastStreams - 1].width == r.width
      && r.simulcastStream[r.numberOfSimulcastStreams - 1].height == r.height
  {
  }

  /** Applying the simulcast layout a second time changes nothing. */
  lemma SimulcastIdempotent(c: CodecValue)
    requires WellFormed(c)
    ensures Simulcast(Simulcast(c)) == Simulcast(c)
  {
  }

  /** The simulcast layout does not depend on startBitrate and leaves it alone, so a
      start rate set after the layout keeps the record a simulcast layout. */
  lemma SimulcastIgnoresStartRate(c: CodecValue, startRate: int)
    requires WellFormed(c)
    ensures Simulcast(WithStartRate(Simulcast(c), startRate)) == WithStartRate(Simulcast(c), startRate)
  {
  }

  /** The runtime single-stream layout keeps three layers with the simulcast
      resolutions, temporal-layer counts and qpMax, clears every bitrate ceiling and
      sets the top level to 1200x800; nothing else changes. */
  lemma RuntimeSingleStreamLayout(c: CodecValue)
    requires WellFormed(c)
    ensures var r := RuntimeSingleStream(c);
      && r.width == 1200 && r.height == 800
      && r.numberOfSimulcastStreams == 3
      && (forall i :: 0 <= i < kNumStreams ==>
            r.simulcastStream[i] == Simulcast(c).simulcastStream[i].(maxBitrate := 0))
      && r.qpMax == c.qpMax && r.startBitrate == c.startBitrate
      && |r.simulcastStream| == |c.simulcastStream|
      && (forall i :: kNumStreams <= i < |c.simulcastStream| ==> r.simulcastStream[i] == c.simulcastStream[i])
  {
  }

  /** InitialSingleStreamSettings sets no layers and 1200x800, and touches nothing else. */
  lemma InitialSingleStreamLayout(c: CodecValue)
    ensures var r := InitialSingleStream(c);
      && r.numberOfSimulcastStreams == 0
      && r.width == 1200 && r.height == 800
      && r.startBitrate == c.startBitrate && r.qpMax == c.qpMax
      && r.simulcastStream == c.simulcastStream
  {
  }

  /** Going back to simulcast after the runtime single-stream layout restores exactly
      the simulcast layout of the original record, bitrate ceilings included. */
  lemma SimulcastAfterRuntimeSingle(c: CodecValue)
    requires WellFormed(c)
    ensures Simulcast(RuntimeSingleStream(c)) == Simulcast(c)
  {
  }

  // ---------------------------------------------------------------------------
  // The record as the program holds it: a struct updated in place through a pointer
  // ---------------------------------------------------------------------------

  class VideoCodec {
    var width: int
    var height: int
    var startBitrate: int
    var qpMax: int
    var numberOfSimulcastStreams: int
    /** The record's fixed-size layer array. */
    const simulcastStream: array<SimulcastStream>

    ghost predicate Valid()
      reads this
    {
      simulcastStream.Length >= kNumStreams
    }

    /** The record's current contents. */
    function Value(): (v: CodecValue)
      reads this, simulcastStream
      ensures |v.simulcastStream| == simulcastStream.Length
    {
      CodecValue(width, height, startBitrate, qpMax, numberOfSimulcastStreams, simulcastStream[..])
    }

    constructor (v: CodecValue)
      requires WellFormed(v)
      ensures Valid() && fresh(simulcastStream)
      ensures Value() == v
    {
      width, height := v.width, v.height;
      startBitrate, qpMax := v.startBitrate, v.qpMax;
      numberOfSimulcastStreams := v.numberOfSimulcastStreams;
      simulcastStream := new SimulcastStream[|v.simulcastStream|](i requires 0 <= i < |v.simulcastStream| => v.simulcastStream[i]);
      new;
      assert simulcastStream[..] == v.simulcastStream;
    }

    method InitialSingleStreamSettings()
      modifies this
      ensures Value() == InitialSingleStream(old(Value()))
    {
      numberOfSimulcastStreams := 0;
      width := 1200;
      height := 800;
    }

    method SetSimulcastSettings()
      requires Valid()
      modifies this, simulcastStream
      ensures Value() == Simulcast(old(Value()))
    {
      width := 1280;
      height := 720;
      numberOfSimulcastStreams := kNumStreams;
      simulcastStream[0] := simulcastStream[0].(width := 320, height := 180,
        numberOfTemporalLayers := 0, maxBitrate := 100, qpMax := qpMax);
      simulcastStream[1] := simulcastStream[1].(width := 640, height := 360,
        numberOfTemporalLayers := 0, maxBitrate := 500, qpMax := qpMax);
      simulcastStream[2] := simulcastStream[2].(width := 1280, height := 720,
        numberOfTemporalLayers := 0, maxBitrate := 1200, qpMax := qpMax);
      assert simulcastStream[..] == Simulcast(old(Value())).simulcastStream;
    }

    method RuntimeSingleStreamSettings()
      requires Valid()
      modifies this, simulcastStream
      ensures Value() == RuntimeSingleStream(old(Value()))
    {
      SetSimulcastSettings();
      width := 1200;
      height := 800;
      numberOfSimulcastStreams := kNumStreams;
      simulcastStream[0] := simulcastStream[0].(maxBitrate := 0);
      simulcastStream[1] := simulcastStream[1].(maxBitrate := 0);
      simulcastStream[2] := simulcastStream[2].(maxBitrate := 0);
      assert simulcastStream[..] == RuntimeSingleStream(old(Value())).simulcastStream;
    }
  }
}
