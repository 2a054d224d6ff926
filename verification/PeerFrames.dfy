/** The length-prefixed frame in which nodes send Raft messages to each other
    (src/runtime.rs): four bytes of length, most significant first, then the payload.
    One connection carries one frame. */
module PeerFrames {
  import opened Basics

  type Octets = seq<nat>

  /** `bytes.len() as u32` keeps the low 32 bits of the length. */
  const LIMIT: nat := 0x1_0000_0000

  function BigEndian(n: nat): Octets
    requires n < LIMIT
  {
    [n / 0x100_0000, n / 0x1_0000 % 0x100, n / 0x100 % 0x100, n % 0x100]
  }

  function FromBigEndian(b: Octets): nat
    requires |b| == 4
  {
    b[0] * 0x100_0000 + b[1] * 0x1_0000 + b[2] * 0x100 + b[3]
  }

  function Send(payload: Octets): Octets {
    BigEndian(|payload| % LIMIT) + payload
  }

  /** Reads exactly the announced number of bytes, and fails when the stream ends early. */
  function Receive(s: Octets): Option<Octets> {
    if |s| < 4 then None
    else
      var len := FromBigEndian(s[..4]);
      if |s| < 4 + len then None else Some(s[4..4 + len])
  }

  lemma LengthSurvives(n: nat)
    requires n < LIMIT
    ensures FromBigEndian(BigEndian(n)) == n
  {
    var high := n / 0x100 / 0x100;
    assert n / 0x1_0000 == high && n / 0x100_0000 == high / 0x100;
  }

  /** A payload arrives as it was sent exactly when its length fits in 32 bits; a longer
      one arrives cut to the low 32 bits of its length. */
  lemma FrameRoundTrip(payload: Octets)
    ensures Receive(Send(payload)) == Some(payload[..|payload| % LIMIT])
    ensures Receive(Send(payload)) == Some(payload) <==> |payload| < LIMIT
  {
    var n := |payload| % LIMIT;
    LengthSurvives(n);
    var s := Send(payload);
    assert s[..4] == BigEndian(n);
    assert s[4..4 + n] == payload[..n];
    if |payload| < LIMIT {
      assert payload[..n] == payload;
    }
  }

  /** On the wire: the length in four bytes, the most significant first, then the payload. */
  lemma FrameLayout(payload: Octets)
    requires |payload| < LIMIT
    ensures var (s, n) := (Send(payload), |payload|);
            && |s| == 4 + n && s[4..] == payload
            && s[0] == n / 0x100_0000 && s[1] == n / 0x1_0000 % 0x100 && s[2] == n / 0x100 % 0x100 && s[3] == n % 0x100
            && forall i :: 0 <= i < 4 ==> s[i] < 0x100
  {
  }

  lemma ReceivedAfterHeader(header: Octets, rest: Octets)
    requires |header| == 4
    ensures var len := FromBigEndian(header);
            Receive(header + rest) == if |rest| < len then None else Some(rest[..len])
  {
    assert (header + rest)[..4] == header;
    var len := FromBigEndian(header);
    if len <= |rest| {
      assert (header + rest)[4..4 + len] == rest[..len];
    }
  }

  lemma HeaderOf(payload: Octets) returns (header: Octets)
    requires |payload| < LIMIT
    ensures |header| == 4 && FromBigEndian(header) == |payload| && Send(payload) == header + payload
  {
    header := BigEndian(|payload|);
    LengthSurvives(|payload|);
  }

  /** A frame that was cut short is refused wherever it was cut. */
  lemma CutFramesAreRefused(payload: Octets, n: nat)
    requires |payload| < LIMIT && n < |Send(payload)|
    ensures Receive(Send(payload)[..n]) == None
  {
    var header := HeaderOf(payload);
    if n >= 4 {
      ReceivedAfterHeader(header, payload[..n - 4]);
      TakeWithin(header, payload, n);
    }
  }

  lemma TakeWithin(header: Octets, payload: Octets, n: nat)
    requires |header| <= n <= |header + payload|
    ensures (header + payload)[..n] == header + payload[..n - |header|]
  {
  }

  /** Bytes that follow a whole frame are not looked at. */
  lemma LaterBytesAreIgnored(payload: Octets, more: Octets)
    requires |payload| < LIMIT
    ensures Receive(Send(payload) + more) == Some(payload)
  {
    var header := HeaderOf(payload);
    ReceivedAfterHeader(header, payload + more);
    Regroup(header, payload, more);
    TakeOfSum(payload, more);
  }
}
