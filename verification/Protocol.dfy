/** Length-prefixed packets over a byte stream that arrives in pieces of any size. */
module Protocol {
  import opened Bytes

  const MAX_HEADER := 65535
  const MAX_PAYLOAD := 20 * 1024 * 1024

  /** A JSON object; `fields` stands for everything but the payload size. */
  datatype Header = Header(fields: string, payloadSize: int)

  /** Bytes that are not JSON text, JSON that is not an object, or a header. */
  datatype Decoded = Garbage | NotAnObject | Object(header: Header)

  datatype Codec = Codec(encode: Header -> Data, decode: Data -> Decoded)

  ghost predicate Faithful(c: Codec) {
    forall h :: c.decode(c.encode(h)) == Object(h)
  }

  datatype Packet = Packet(header: Header, payload: Data)

  datatype Received =
    | Got(packet: Packet)
    | Closed       // ConnectionError
    | Violation    // ValueError

  function BigEndian(n: nat): (r: Data)
    requires n < 0x1_0000_0000
    ensures |r| == 4 && Number(r) == n
  {
    var upper := n / 256;
    var top := upper / 256;
    [top / 256, top % 256, upper % 256, n % 256]
  }

  function Number(prefix: Data): nat
    requires |prefix| == 4
  {
    var a: int, b: int, c: int, d: int := prefix[0], prefix[1], prefix[2], prefix[3];
    a * 0x100_0000 + b * 0x1_0000 + c * 256 + d
  }

  /** The header as sent: its payload size is always that of the payload. */
  function Stamped(p: Packet): Header {
    p.header.(payloadSize := |p.payload|)
  }

  predicate Packable(c: Codec, p: Packet) {
    |c.encode(Stamped(p))| < 0x1_0000_0000
  }

  function Frame(c: Codec, p: Packet): Data
    requires Packable(c, p)
  {
    BigEndian(|c.encode(Stamped(p))|) + c.encode(Stamped(p)) + p.payload
  }

  /** What one `receive_packet` makes of a stream, and what it leaves unread. */
  function Receive(c: Codec, stream: Data): (r: (Received, Data))
    ensures |r.1| <= |stream| && (r.0.Got? ==> |r.1| < |stream|)
  {
    if |stream| < 4 then
      (Closed, [])
    else
      var n, rest := Number(stream[..4]), stream[4..];
      if n > MAX_HEADER then
        (Violation, rest)
      else if n == 0 then
        (Closed, rest)
      else if |rest| < n then
        (Closed, [])
      else
        match c.decode(rest[..n])
        case Object(h) => ReceivePayload(h, rest[n..])
        case _ => (Violation, rest[n..])
  }

  function ReceivePayload(h: Header, rest: Data): (Received, Data) {
    if h.payloadSize > MAX_PAYLOAD then
      (Violation, rest)
    else if h.payloadSize <= 0 then
      (Got(Packet(h, [])), rest)
    else if |rest| < h.payloadSize then
      (Closed, [])
    else
      (Got(Packet(h, rest[..h.payloadSize])), rest[h.payloadSize..])
  }

  predicate InLimits(c: Codec, p: Packet) {
    1 <= |c.encode(Stamped(p))| <= MAX_HEADER && |p.payload| <= MAX_PAYLOAD
  }

  function OnWire(p: Packet): Packet {
    Packet(Stamped(p), p.payload)
  }

  /** A packet arrives, and the read stops on its last byte, exactly when it is within the limits;
      the sender checks neither of them. */
  lemma FrameRoundTrip(c: Codec, p: Packet, tail: Data)
    requires Faithful(c) && Packable(c, p)
    ensures Receive(c, Frame(c, p) + tail) == (Got(OnWire(p)), tail) <==> InLimits(c, p)
    ensures Receive(c, Frame(c, p) + tail).0.Got? <==> InLimits(c, p)
  {
    var text := c.encode(Stamped(p));
    var stream := Frame(c, p) + tail;
    assert stream[..4] == BigEndian(|text|);
    assert stream[4..] == text + (p.payload + tail);
    assert (text + (p.payload + tail))[..|text|] == text;
    assert (text + (p.payload + tail))[|text|..] == p.payload + tail;
    assert (p.payload + tail)[..|p.payload|] == p.payload;
    assert (p.payload + tail)[|p.payload|..] == tail;
  }

  /** How a packet outside the limits fails: an empty header reads as a closed connection, a header or a
      payload that is too long as a violation. */
  lemma OverLimitFrame(c: Codec, p: Packet, tail: Data)
    requires Faithful(c) && Packable(c, p) && !InLimits(c, p)
    ensures Receive(c, Frame(c, p) + tail).0 == if c.encode(Stamped(p)) == [] then Closed else Violation
  {
    var text := c.encode(Stamped(p));
    var stream := Frame(c, p) + tail;
    assert stream[..4] == BigEndian(|text|);
    assert stream[4..] == text + (p.payload + tail);
    assert (text + (p.payload + tail))[..|text|] == text;
  }

  /** A frame whose header text came from somewhere else: text that is no JSON object is a violation; an
      object that announces no payload, or a negative one, is a packet without one. */
  lemma ForeignFrame(c: Codec, text: Data, tail: Data)
    requires 1 <= |text| <= MAX_HEADER
    ensures var got := Receive(c, BigEndian(|text|) + text + tail);
            match c.decode(text)
            case Object(h) => h.payloadSize <= 0 ==> got == (Got(Packet(h, [])), tail)
            case _ => got == (Violation, tail)
  {
    var stream := BigEndian(|text|) + text + tail;
    assert stream[..4] == BigEndian(|text|);
    assert stream[4..] == text + tail;
    assert (text + tail)[..|text|] == text && (text + tail)[|text|..] == tail;
  }

  /** A stream cut inside a packet reads as a closed connection, never as a packet. */
  lemma CutFrame(c: Codec, p: Packet, length: nat)
    requires Faithful(c) && Packable(c, p) && InLimits(c, p) && length < |Frame(c, p)|
    ensures Receive(c, Frame(c, p)[..length]) == (Closed, [])
  {
    var text := c.encode(Stamped(p));
    var cut := Frame(c, p)[..length];
    if length >= 4 {
      assert cut[..4] == BigEndian(|text|);
      assert cut[4..] == Frame(c, p)[4..][..length - 4];
      assert Frame(c, p)[4..] == text + p.payload;
      if length >= 4 + |text| {
        assert cut[4..][..|text|] == text;
      }
    }
  }

  predicate AllInLimits(c: Codec, packets: seq<Packet>) {
    forall i :: 0 <= i < |packets| ==> InLimits(c, packets[i])
  }

  function FrameAll(c: Codec, packets: seq<Packet>): Data
    requires AllInLimits(c, packets)
  {
    if packets == [] then [] else Frame(c, packets[0]) + FrameAll(c, packets[1..])
  }

  function OnWireAll(packets: seq<Packet>): (r: seq<Packet>)
    ensures |r| == |packets|
  {
    seq(|packets|, i requires 0 <= i < |packets| => OnWire(packets[i]))
  }

  /** A connection handler's loop: packets until the first failure, and that failure. */
  function Drain(c: Codec, stream: Data): (seq<Packet>, Received)
    decreases |stream|
  {
    var (first, rest) := Receive(c, stream);
    if first.Got? then
      var (more, last) := Drain(c, rest);
      ([first.packet] + more, last)
    else
      ([], first)
  }

  /** What a handler still gets after `last`, from what is unread. */
  function Rest(c: Codec, last: Received, unread: Data): (seq<Packet>, Received) {
    if last.Got? then ([last.packet] + Drain(c, unread).0, Drain(c, unread).1) else ([], last)
  }

  lemma {:induction false} DrainAfter(c: Codec, packets: seq<Packet>, tail: Data)
    requires Faithful(c) && AllInLimits(c, packets)
    ensures Drain(c, FrameAll(c, packets) + tail) == (OnWireAll(packets) + Drain(c, tail).0, Drain(c, tail).1)
    decreases |packets|
  {
    if packets == [] {
      assert FrameAll(c, packets) + tail == tail;
      assert OnWireAll(packets) + Drain(c, tail).0 == Drain(c, tail).0;
    } else {
      var rest := FrameAll(c, packets[1..]) + tail;
      assert FrameAll(c, packets) + tail == Frame(c, packets[0]) + rest;
      FrameRoundTrip(c, packets[0], rest);
      DrainAfter(c, packets[1..], tail);
      OneThenMore(c, packets, Drain(c, tail).0);
    }
  }

  lemma OneThenMore(c: Codec, packets: seq<Packet>, more: seq<Packet>)
    requires packets != []
    ensures OnWireAll(packets) + more == [OnWire(packets[0])] + (OnWireAll(packets[1..]) + more)
  {}

  lemma StreamRoundTrip(c: Codec, packets: seq<Packet>)
    requires Faithful(c) && AllInLimits(c, packets)
    ensures Drain(c, FrameAll(c, packets)) == (OnWireAll(packets), Closed)
  {
    DrainAfter(c, packets, []);
    assert FrameAll(c, packets) + [] == FrameAll(c, packets);
    assert OnWireAll(packets) + Drain(c, []).0 == OnWireAll(packets);
  }

  /** A stream that ends early yields the packets that were complete by then, and then an error. */
  lemma {:induction false} CutStream(c: Codec, packets: seq<Packet>, length: nat) returns (k: nat)
    requires Faithful(c) && AllInLimits(c, packets) && length <= |FrameAll(c, packets)|
    ensures k <= |packets|
    ensures |FrameAll(c, packets[..k])| <= length
    ensures k < |packets| ==> length < |FrameAll(c, packets[..k])| + |Frame(c, packets[k])|
    ensures Drain(c, FrameAll(c, packets)[..length]) == (OnWireAll(packets[..k]), Closed)
    decreases |packets|
  {
    if packets == [] {
      k := 0;
    } else if length < |Frame(c, packets[0])| {
      k := 0;
      assert FrameAll(c, packets)[..length] == Frame(c, packets[0])[..length];
      CutFrame(c, packets[0], length);
    } else {
      var first, rest := Frame(c, packets[0]), FrameAll(c, packets[1..]);
      var j := CutStream(c, packets[1..], length - |first|);
      k := j + 1;
      CutLater(c, packets, length, j);
    }
  }

  lemma CutLater(c: Codec, packets: seq<Packet>, length: nat, j: nat)
    requires Faithful(c) && AllInLimits(c, packets) && j < |packets|
    requires |Frame(c, packets[0])| <= length <= |FrameAll(c, packets)|
    ensures FrameAll(c, packets[..j + 1]) == Frame(c, packets[0]) + FrameAll(c, packets[1..][..j])
    ensures var rest := FrameAll(c, packets[1..])[..length - |Frame(c, packets[0])|];
            Drain(c, rest) == (OnWireAll(packets[1..][..j]), Closed) ==>
              Drain(c, FrameAll(c, packets)[..length]) == (OnWireAll(packets[..j + 1]), Closed)
  {
    var first := Frame(c, packets[0]);
    var rest := FrameAll(c, packets[1..])[..length - |first|];
    assert packets[..j + 1][1..] == packets[1..][..j];
    assert FrameAll(c, packets)[..length] == first + rest;
    FrameRoundTrip(c, packets[0], rest);
    assert OnWireAll(packets[..j + 1]) == [OnWire(packets[0])] + OnWireAll(packets[1..][..j]);
  }

  /** The header dictionary a caller hands to `send_packet`. */
  class HeaderDict {
    var header: Header

    constructor (header: Header)
      ensures this.header == header
    {
      this.header := header;
    }
  }

  class Socket {
    var incoming: Data  // everything the peer sends until it closes
    var outgoing: Data

    constructor (incoming: Data)
      ensures this.incoming == incoming && outgoing == []
    {
      this.incoming, outgoing := incoming, [];
    }

    /** The network decides how much of what was asked for arrives at once. */
    method Recv(n: nat) returns (piece: Data)
      modifies this`incoming
      ensures |piece| <= n && old(incoming) == piece + incoming
      ensures n > 0 && old(incoming) != [] ==> piece != []
    {
      if n == 0 || incoming == [] {
        return [];
      }
      var k: nat :| 1 <= k <= n && k <= |incoming|;
      piece, incoming := incoming[..k], incoming[k..];
    }

    method RecvAll(n: nat) returns (data: Data)
      modifies this`incoming
      ensures n <= |old(incoming)| ==> data == old(incoming)[..n] && incoming == old(incoming)[n..]
      ensures n > |old(incoming)| ==> data == [] && incoming == []
    {
      data := [];
      while |data| < n
        invariant |data| <= n && old(incoming) == data + incoming
        decreases n - |data|
      {
        var piece := Recv(n - |data|);
        if piece == [] {
          return [];
        }
        data := data + piece;
      }
    }

    method ReceivePacket(c: Codec) returns (r: Received)
      modifies this`incoming
      ensures (r, incoming) == Receive(c, old(incoming))
    {
      var prefix := RecvAll(4);
      if prefix == [] {
        return Closed;
      }
      var n := Number(prefix);
      if n > MAX_HEADER {
        return Violation;
      }
      var text := RecvAll(n);
      if text == [] {
        return Closed;
      }
      var decoded := c.decode(text);
      if !decoded.Object? {
        return Violation;
      }
      var size := decoded.header.payloadSize;
      if size > MAX_PAYLOAD {
        return Violation;
      }
      var payload: Data := [];
      if size > 0 {
        payload := RecvAll(size);
        if payload == [] {
          return Closed;
        }
      }
      r := Got(Packet(decoded.header, payload));
    }

    /** Serve one connection to its end, whatever pieces its bytes come in. */
    method DrainPackets(c: Codec) returns (packets: seq<Packet>, last: Received)
      modifies this`incoming
      ensures (packets, last) == Drain(c, old(incoming))
    {
      hide Receive;
      packets := [];
      last := ReceivePacket(c);
      assert packets + Rest(c, last, incoming).0 == Rest(c, last, incoming).0;
      while last.Got?
        invariant Drain(c, old(incoming)) == (packets + Rest(c, last, incoming).0, Rest(c, last, incoming).1)
        decreases |incoming| + if last.Got? then 1 else 0
      {
        assert packets + ([last.packet] + Drain(c, incoming).0) == packets + [last.packet] + Drain(c, incoming).0;
        packets := packets + [last.packet];
        last := ReceivePacket(c);
      }
      assert packets == packets + [];
    }

    /** The payload size is written into the caller's header before it is encoded. A header too
        long for its length prefix sends nothing. */
    method SendPacket(c: Codec, dict: HeaderDict, payload: Data) returns (sent: bool)
      modifies this`outgoing, dict
      ensures dict.header == Stamped(Packet(old(dict.header), payload))
      ensures sent <==> Packable(c, Packet(old(dict.header), payload))
      ensures outgoing == if sent then old(outgoing) + Frame(c, Packet(old(dict.header), payload)) else old(outgoing)
    {
      dict.header := dict.header.(payloadSize := |payload|);
      var text := c.encode(dict.header);
      sent := |text| < 0x1_0000_0000;
      if sent {
        outgoing := outgoing + (BigEndian(|text|) + text + payload);
      }
    }
  }
}
