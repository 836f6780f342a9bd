// From the node's bytes to a work item (util/util.go, Reverse; miner.go,
// onSoloWork).
module WorkSource {
  import opened Words
  import opened Header

  function Reversed(b: seq<Byte>): (r: seq<Byte>)
    ensures |r| == |b|
  {
    if b == [] then [] else Reversed(b[1..]) + [b[0]]
  }

  lemma {:induction false} ReversedAt(b: seq<Byte>, k: nat)
    requires k < |b|
    ensures Reversed(b)[|b| - 1 - k] == b[k]
  {
    if k > 0 {
      ReversedAt(b[1..], k - 1);
    }
  }

  // Reading bytes backwards as big-endian is reading them as little-endian, which
  // is how the node means its target.
  lemma {:induction false} ReversedIsBigEndian(b: seq<Byte>)
    ensures BigEndian(Reversed(b)) == LittleEndian(b)
  {
    if b != [] {
      ReversedIsBigEndian(b[1..]);
      var r := Reversed(b);
      assert r[..|r| - 1] == Reversed(b[1..]);
    }
  }

  method Reverse(src: array<Byte>) returns (dst: array<Byte>)
    ensures fresh(dst) && dst[..] == Reversed(src[..])
  {
    dst := new Byte[src.Length];
    var i := src.Length;
    while i > 0
      invariant 0 <= i <= src.Length
      invariant forall k :: 0 <= k < src.Length - i ==> dst[k] == src[src.Length - 1 - k]
    {
      dst[src.Length - i] := src[i - 1];
      i := i - 1;
    }
    forall k | 0 <= k < src.Length
      ensures dst[..][k] == Reversed(src[..])[k]
    {
      ReversedAt(src[..], src.Length - 1 - k);
    }
  }

  // The node's data, cut or zero-filled to 192 bytes, with the time they carry.
  method OnSoloWork(data: array<Byte>, target: array<Byte>, now: Word) returns (w: Work)
    ensures |w.data| == 192 && forall k :: 0 <= k < 192 ==> w.data[k] == if k < data.Length then data[k] else 0
    ensures w.target == LittleEndian(target[..])
    ensures w.jobTime == FromBytes(w.data[136..140]) && w.timeReceived == now
  {
    hide LittleEndian, BigEndian, FromBytes;
    var reversed := Reverse(target);
    ReversedIsBigEndian(target[..]);
    var bigTarget := BigEndian(reversed[..]);
    var workData := new Byte[DATA_LEN](_ => 0);
    for i := 0 to if data.Length < DATA_LEN then data.Length else DATA_LEN
      invariant forall k :: 0 <= k < DATA_LEN ==> workData[k] == if k < i then data[k] else 0
    {
      workData[i] := data[i];
    }
    var whole := workData[..];
    var timestamp := Get(whole, Offset(TIMESTAMP_WORD));
    w := Work(whole, bigTarget, timestamp, now);
  }
}
