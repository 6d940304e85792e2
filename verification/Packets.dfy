/** The packet that travels between the two endpoints, and the byte stream that
    a sequence of data frames carries. */
module Packets {
  import opened Tcp

  newtype byte = x: int | 0 <= x < 256

  datatype Option<+T> = None | Some(value: T)

  /** The fields of a packet that the protocol decides on. dataOffset is 0 on the
      wire; the receiver advances it while a packet is read piecewise. */
  datatype Packet = Packet(
    fromNonce: string,
    destNonce: string,
    event: TcpEvent,
    fromState: TcpState,
    seqNum: int,
    ackNum: int,
    msgCap: int,
    bytesCap: int,
    cumul: int,
    data: seq<byte>,
    dataOffset: nat)

  /** The part of a data packet that is fixed when it is first sent: retries
      restamp the rest. account names the ByteAccount of the Write the packet
      belongs to, cliAcked says whether that Write waits for this packet. */
  datatype Frame = Frame(seqNum: int, data: seq<byte>, cumul: int, account: Option<nat>, cliAcked: bool)

  /** All payload bytes of the frames, in order. */
  function Stream(frames: seq<Frame>): seq<byte> {
    if frames == [] then [] else Stream(frames[..|frames| - 1]) + frames[|frames| - 1].data
  }

  /** Frame i carries the byte count of frames 0 to i. */
  ghost predicate CumulAt(frames: seq<Frame>, i: nat)
    requires i < |frames|
  {
    frames[i].cumul == |Stream(frames[..i + 1])|
  }

  /** Frame i has number i and the right byte count. */
  ghost predicate WellNumbered(frames: seq<Frame>) {
    && (forall i :: 0 <= i < |frames| ==> frames[i].seqNum == i)
    && (forall i :: 0 <= i < |frames| ==> CumulAt(frames, i))
  }

  /** The packet carries exactly this frame. */
  predicate Carries(p: Packet, f: Frame) {
    p.event == EventData && p.seqNum == f.seqNum && p.data == f.data && p.cumul == f.cumul
  }

  lemma {:induction false} StreamConcat(a: seq<Frame>, b: seq<Frame>)
    ensures Stream(a + b) == Stream(a) + Stream(b)
  {
    if b == [] {
      assert a + b == a;
    } else {
      assert (a + b)[..|a + b| - 1] == a + b[..|b| - 1];
      StreamConcat(a, b[..|b| - 1]);
    }
  }

  lemma StreamPrefix(frames: seq<Frame>, i: nat)
    requires i <= |frames|
    ensures Stream(frames[..i]) <= Stream(frames)
    ensures |Stream(frames[..i])| <= |Stream(frames)|
  {
    assert frames == frames[..i] + frames[i..];
    StreamConcat(frames[..i], frames[i..]);
  }

  lemma StreamMonotone(frames: seq<Frame>, i: nat, j: nat)
    requires i <= j <= |frames|
    ensures Stream(frames[..i]) <= Stream(frames[..j])
    ensures |Stream(frames[..i])| <= |Stream(frames[..j])|
  {
    assert frames[..j][..i] == frames[..i];
    StreamPrefix(frames[..j], i);
  }

  lemma StreamStep(frames: seq<Frame>, i: nat)
    requires i < |frames|
    ensures Stream(frames[..i + 1]) == Stream(frames[..i]) + frames[i].data
  {
    assert frames[..i + 1][..i] == frames[..i];
  }

  lemma StreamOne(f: Frame)
    ensures Stream([f]) == f.data
  {
    assert Stream([f]) == Stream([f][..0]) + f.data;
  }

  lemma StreamCons(history: seq<Frame>, lo: nat, hi: nat)
    requires lo < hi <= |history|
    ensures Stream(history[lo..hi]) == history[lo].data + Stream(history[lo + 1..hi])
  {
    assert history[lo..hi] == [history[lo]] + history[lo + 1..hi];
    StreamConcat([history[lo]], history[lo + 1..hi]);
    StreamOne(history[lo]);
  }

  lemma Reassociate(a: seq<byte>, b: seq<byte>, c: seq<byte>)
    ensures (a + b) + c == a + (b + c)
  {
  }
}
