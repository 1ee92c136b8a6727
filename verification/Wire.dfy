/** `src/proto/sv2/wire.rs`: the channel id of a channel-scoped payload, read and
    rewritten in place. */
module Wire {
  import opened Bytes
  import opened Options

  /** A channel id is a u32. */
  const U32: nat := 0x1_0000_0000

  /** What `read_channel_id` finds in a payload; `None` for a payload too short to hold one. */
  function ChannelIdOf(payload: seq<byte>): Option<nat> {
    if |payload| < 4 then None else Some(LeValue(payload[..4]))
  }

  /** The payload after its channel id was overwritten; a short payload is left alone. */
  function Rewritten(payload: seq<byte>, id: nat): (r: seq<byte>)
    ensures |r| == |payload|
  {
    if |payload| < 4 then payload else LeBytes(id, 4) + payload[4..]
  }

  method ReadChannelId(payload: array<byte>) returns (id: Option<nat>)
    ensures id == ChannelIdOf(payload[..])
    ensures id.None? <==> payload.Length < 4
  {
    if payload.Length < 4 {
      return None;
    }
    assert payload[..][..4] == payload[..4] == [payload[0], payload[1], payload[2], payload[3]];
    var s := [payload[0], payload[1], payload[2], payload[3]];
    id := Some(LeValue(s));
  }

  method RewriteChannelId(payload: array<byte>, id: nat)
    modifies payload
    ensures payload[..] == Rewritten(old(payload[..]), id)
  {
    if payload.Length < 4 {
      return;
    }
    var le := LeBytes(id, 4);
    for i := 0 to 4
      invariant payload[..i] == le[..i]
      invariant payload[4..] == old(payload[4..])
    {
      payload[i] := le[i];
    }
    assert payload[..] == payload[..4] + payload[4..];
  }

  /** A rewrite names exactly the requested u32 id and touches no later byte. */
  lemma RewriteNamesId(payload: seq<byte>, id: nat)
    requires |payload| >= 4 && id < U32
    ensures ChannelIdOf(Rewritten(payload, id)) == Some(id)
    ensures Rewritten(payload, id)[4..] == payload[4..]
  {
    assert Rewritten(payload, id)[..4] == LeBytes(id, 4);
    DecodeEncode(id, 4);
    assert Pow256(4) == U32 by { assert Pow256(1) == 256; assert Pow256(2) == 65536; }
  }

  /** Rewriting towards the pool and back towards the miner restores the original bytes,
      whatever ids were used in between; a short frame comes back untouched as well. */
  lemma RewriteRoundTrip(payload: seq<byte>, up: nat)
    ensures |payload| >= 4 ==>
      Rewritten(Rewritten(payload, up), ChannelIdOf(payload).value) == payload
    ensures |payload| < 4 ==> ChannelIdOf(payload).None? && Rewritten(payload, up) == payload
  {
    if |payload| >= 4 {
      EncodeDecode(payload[..4]);
      assert Rewritten(payload, up)[4..] == payload[4..];
      assert payload[..4] + payload[4..] == payload;
    }
  }
}
