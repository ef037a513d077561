/**
  The collaborators the call drives, seen from outside: the calls made to the
  media engine are recorded as a trace, and the engine's return codes are given
  as inputs. Also the SSRC assignments and the SSRC-to-receive-channel map.
*/
module Engine {
  import opened Codec

  /** A call made to the media engine. */
  datatype EngineCall =
    | SetSendCodec(codec: CodecValue)         // ViECodec::SetSendCodec on the send channel
    | SetLocalSsrc(ssrc: int, simulcastIdx: int) // ViERTP_RTCP::SetLocalSSRC(channel, ssrc, normal, idx)

  /** The number of iterations of `for (idx = 0; idx < n; idx++)`. */
  function Iterations(n: int): nat {
    if n <= 0 then 0 else n
  }

  /** The SetLocalSSRC calls of one assignment loop over `n` layers: SSRC `idx + 1`
      goes to layer `idx`, in layer order. */
  function SsrcCalls(n: int): (r: seq<EngineCall>)
    ensures |r| == Iterations(n)
    ensures forall i :: 0 <= i < |r| ==> r[i] == SetLocalSsrc(i + 1, i)
    decreases Iterations(n)
  {
    if n <= 0 then [] else SsrcCalls(n - 1) + [SetLocalSsrc(n, n - 1)]
  }

  /** The engine's return code for the `i`-th SetLocalSSRC call of a loop; calls
      beyond the supplied codes succeed. */
  function LocalSsrcReply(replies: seq<int>, i: int): int {
    if 0 <= i < |replies| then replies[i] else 0
  }

  /** The loop index at which an assignment loop over `n` layers stops on an error
      return (-1), or the iteration count when every call succeeds. */
  function FirstFailure(replies: seq<int>, n: int): (k: nat)
    ensures k <= Iterations(n)
    ensures forall j :: 0 <= j < k ==> LocalSsrcReply(replies, j) != -1
    ensures k < Iterations(n) ==> LocalSsrcReply(replies, k) == -1
    decreases Iterations(n)
  {
    if n <= 0 then 0
    else
      var k := FirstFailure(replies, n - 1);
      if k < n - 1 then k
      else if LocalSsrcReply(replies, n - 1) == -1 then n - 1
      else n
  }

  /** A loop stops at `k` exactly when every earlier call succeeded and call `k`
      failed (or `k` is the end of the loop). */
  lemma FirstFailureIsFirst(replies: seq<int>, n: int, k: nat)
    requires k <= Iterations(n)
    requires forall j :: 0 <= j < k ==> LocalSsrcReply(replies, j) != -1
    requires k < Iterations(n) ==> LocalSsrcReply(replies, k) == -1
    ensures FirstFailure(replies, n) == k
  {
  }

  /** The SSRC-to-receive-channel map built at setup for `n` layers: SSRC `idx + 1`
      is routed to `receiveChannels[idx]`. */
  function SsrcChannelMap(receiveChannels: seq<int>, n: int): (m: map<int, int>)
    requires n <= |receiveChannels|
    ensures forall ssrc :: ssrc in m <==> 1 <= ssrc <= n
    ensures forall i :: 0 <= i < n ==> (i + 1) in m && m[i + 1] == receiveChannels[i]
    decreases Iterations(n)
  {
    if n <= 0 then map[] else SsrcChannelMap(receiveChannels, n - 1)[n := receiveChannels[n - 1]]
  }

  /** Every SSRC the assignment loop hands to the engine is a key of the map, routed
      to the receive channel of the layer it was assigned to. */
  lemma ChannelMapCoversAssignedSsrcs(receiveChannels: seq<int>, n: int)
    requires n <= |receiveChannels|
    ensures var m := SsrcChannelMap(receiveChannels, n);
      forall call :: call in SsrcCalls(n) ==>
        call.SetLocalSsrc? && call.ssrc in m && 0 <= call.simulcastIdx < n &&
        m[call.ssrc] == receiveChannels[call.simulcastIdx]
  {
  }

  /** With pairwise distinct receive channels, no two SSRCs share a channel. */
  lemma ChannelMapInjective(receiveChannels: seq<int>, n: int)
    requires n <= |receiveChannels|
    requires forall i, j :: 0 <= i < j < |receiveChannels| ==> receiveChannels[i] != receiveChannels[j]
    ensures var m := SsrcChannelMap(receiveChannels, n);
      forall a, b :: a in m && b in m && a != b ==> m[a] != m[b]
  {
    var m := SsrcChannelMap(receiveChannels, n);
    forall a, b | a in m && b in m && a != b
      ensures m[a] != m[b]
    {
      assert m[a] == receiveChannels[a - 1] && m[b] == receiveChannels[b - 1];
      if a < b {
        assert receiveChannels[a - 1] != receiveChannels[b - 1];
      } else {
        assert receiveChannels[b - 1] != receiveChannels[a - 1];
      }
    }
  }
}
