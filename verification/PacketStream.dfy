/** `ase_io_buffered_stream` and `packet_read` on top of it: packets out of bytes that arrive in pieces. */
module PacketStream {
  import opened Bytes
  import opened CompactFormat
  import opened CompactProofs
  import opened CompactDeserializer

  /** The bytes of the pieces, in order. */
  function Joined(pieces: seq<seq<byte>>): seq<byte> {
    if pieces == [] then [] else pieces[0] + Joined(pieces[1..])
  }

  /** The packet at the front of a byte stream, or none if the stream ends first, or an exception. */
  datatype Front = NoPacket | Packet1(v: Value, n: nat) | BadPacket(e: Error, n: nat)

  function FrontOf(b: seq<byte>): Front {
    match GetLength(b)
    case Undetermined => NoPacket
    case Length(n) =>
      if n > |b| then NoPacket
      else
        match DecValue(b[..n], 0, n)
        case Ok(v, _) => Packet1(v, n)
        case Throw(e) => BadPacket(e, n)
  }

  /** Bytes that arrive later do not change the packet at the front. */
  lemma FrontStable(b: seq<byte>, t: seq<byte>)
    requires !FrontOf(b).NoPacket?
    ensures FrontOf(b + t) == FrontOf(b)
  {
    LengthStable(b, t);
    var n := GetLength(b).n;
    assert (b + t)[..n] == b[..n];
  }

  datatype ReadResult = Read(v: Value) | Failed(e: Error) | Closed

  class Stream {
    var readBuffer: seq<byte>
    var pending: seq<seq<byte>>
    var open: bool

    /** All the bytes that were received or are still to come, and not consumed. */
    ghost function Unread(): seq<byte>
      reads this
    {
      readBuffer + Joined(pending)
    }

    constructor (pieces: seq<seq<byte>>)
      ensures Unread() == Joined(pieces) && pending == pieces && readBuffer == [] && open
    {
      readBuffer, pending, open := [], pieces, true;
      new;
      assert [] + Joined(pieces) == Joined(pieces);
    }

    /** `read_more`: one piece of what the peer has sent, however long; an empty read closes the stream. */
    method ReadMore()
      requires open
      modifies this
      ensures open <==> old(pending) != [] && old(pending)[0] != []
      ensures open ==> pending == old(pending)[1..] && readBuffer == old(readBuffer) + old(pending)[0]
      ensures open ==> Unread() == old(Unread())
      ensures !open ==> readBuffer == [] && pending == old(pending)
    {
      if pending == [] || pending[0] == [] {
        open := false;
        readBuffer := [];
        return;
      }
      assert readBuffer + (pending[0] + Joined(pending[1..])) == (readBuffer + pending[0]) + Joined(pending[1..]);
      readBuffer := readBuffer + pending[0];
      pending := pending[1..];
    }

    /** `readbuf_consume`. */
    method Consume(n: nat)
      requires n <= |readBuffer|
      modifies this`readBuffer
      ensures readBuffer == old(readBuffer)[n..] && Unread() == old(Unread())[n..]
    {
      assert (readBuffer + Joined(pending))[n..] == readBuffer[n..] + Joined(pending);
      readBuffer := readBuffer[n..];
    }

    /** `packet_read`: the result depends on the bytes only, not on how they were cut into pieces. */
    method PacketRead() returns (r: ReadResult)
      requires open && forall i :: 0 <= i < |pending| ==> pending[i] != []
      modifies this
      ensures forall i :: 0 <= i < |pending| ==> pending[i] != []
      ensures match FrontOf(old(Unread()))
        case NoPacket => r == Closed && !open
        case Packet1(v, n) => r == Read(v) && open && Unread() == old(Unread())[n..]
        case BadPacket(e, _) => r == Failed(e) && open && Unread() == old(Unread())
    {
      while true
        invariant open && Unread() == old(Unread())
        invariant forall i :: 0 <= i < |pending| ==> pending[i] != []
        decreases |pending|
      {
        match GetLength(readBuffer) {
          case Length(n) =>
            if n <= |readBuffer| {
              FrontStable(readBuffer, Joined(pending));
              r := Deliver(n);
              return;
            }
          case Undetermined =>
        }
        if pending == [] {
          assert readBuffer + [] == readBuffer;
        }
        ReadMore();
        if !open {
          return Closed;
        }
      }
    }

    /** The packet is decoded in place and consumed, unless decoding throws. */
    method Deliver(n: nat) returns (r: ReadResult)
      requires GetLength(readBuffer) == Length(n) && n <= |readBuffer|
      modifies this`readBuffer
      ensures match FrontOf(old(readBuffer))
        case NoPacket => false
        case Packet1(v, m) => r == Read(v) && Unread() == old(Unread())[m..]
        case BadPacket(e, _) => r == Failed(e) && Unread() == old(Unread())
    {
      var d := DeserializeValue(readBuffer[..n], 0, n);
      match d {
        case Throw(e) => r := Failed(e);
        case Ok(v, _) =>
          Consume(n);
          r := Read(v);
      }
    }
  }

  // ---------------------------------------------------------------- whole sessions

  /** The encoded packets of a session, in order. */
  function Session(packets: seq<seq<Value>>): seq<byte> {
    if packets == [] then [] else Packet(packets[0]) + Session(packets[1..])
  }

  ghost predicate Sendable(vs: seq<Value>) {
    |EncItems(vs)| < LIMIT && forall i :: 0 <= i < |vs| ==> WellFormed(vs[i])
  }

  /** A packet followed by anything is read as that packet and leaves what followed. */
  lemma PacketInFront(vs: seq<Value>, t: seq<byte>)
    requires Sendable(vs)
    ensures FrontOf(Packet(vs) + t) == Packet1(Arr(NormItems(vs)), |Packet(vs)|)
    ensures (Packet(vs) + t)[|Packet(vs)|..] == t
  {
    var p := Packet(vs);
    PacketLength(vs, t);
    PacketRoundTrip(vs, []);
    assert p + [] == p && (p + t)[..|p|] == p;
  }

  /** `n` successive reads of a byte stream, as `PacketRead` specifies them; nothing if one of them fails. */
  function ReadMany(b: seq<byte>, n: nat): seq<Value>
    decreases n
  {
    if n == 0 then []
    else
      match FrontOf(b)
      case Packet1(v, k) => FrontFits(b); [v] + ReadMany(b[k..], n - 1)
      case _ => []
  }

  lemma FrontFits(b: seq<byte>)
    ensures FrontOf(b).Packet1? ==> FrontOf(b).n <= |b|
  {
  }

  function Received(packets: seq<seq<Value>>): seq<Value> {
    if packets == [] then [] else [Arr(NormItems(packets[0]))] + Received(packets[1..])
  }

  /** Any session of packets, followed by anything, is read back packet by packet, in order. */
  lemma {:induction false} SessionRoundTrip(packets: seq<seq<Value>>, t: seq<byte>)
    requires forall i :: 0 <= i < |packets| ==> Sendable(packets[i])
    ensures ReadMany(Session(packets) + t, |packets|) == Received(packets)
  {
    if packets != [] {
      SessionNext(packets, t);
      SessionRoundTrip(packets[1..], t);
    }
  }

  /** The next packets of a session off a stream, one `PacketRead` each: the values are those sent, and what followed
      them is left, however the bytes arrived. */
  method ReadPackets(s: Stream, n: nat, ghost packets: seq<seq<Value>>, ghost t: seq<byte>) returns (vs: seq<Value>)
    requires n == |packets| && forall i :: 0 <= i < n ==> Sendable(packets[i])
    requires s.open && (forall i :: 0 <= i < |s.pending| ==> s.pending[i] != [])
    requires s.Unread() == Session(packets) + t
    modifies s
    ensures vs == Received(packets) && s.open && s.Unread() == t
  {
    vs := [];
    assert packets[0..] == packets && [] + Received(packets) == Received(packets);
    for i := 0 to n
      invariant s.open && (forall i :: 0 <= i < |s.pending| ==> s.pending[i] != [])
      invariant s.Unread() == Session(packets[i..]) + t
      invariant vs + Received(packets[i..]) == Received(packets)
    {
      SessionNext(packets[i..], t);
      assert packets[i..][1..] == packets[i + 1..];
      var r := s.PacketRead();
      assert r == Read(Arr(NormItems(packets[i])));
      vs := vs + [r.v];
    }
    assert packets[n..] == [] && vs + [] == vs;
    assert [] + t == t;
  }

  lemma SessionNext(packets: seq<seq<Value>>, t: seq<byte>)
    requires packets != [] && Sendable(packets[0])
    ensures var b, rest := Session(packets) + t, Session(packets[1..]) + t;
      && FrontOf(b) == Packet1(Arr(NormItems(packets[0])), |Packet(packets[0])|)
      && |Packet(packets[0])| <= |b| && b[|Packet(packets[0])|..] == rest
    ensures Received(packets) == [Arr(NormItems(packets[0]))] + Received(packets[1..])
  {
    var rest := Session(packets[1..]) + t;
    assert Session(packets) + t == Packet(packets[0]) + rest;
    PacketInFront(packets[0], rest);
  }

  /** From a new stream on. */
  method ReadSession(pieces: seq<seq<byte>>, n: nat, ghost packets: seq<seq<Value>>, ghost t: seq<byte>)
    returns (s: Stream, vs: seq<Value>)
    requires n == |packets| && forall i :: 0 <= i < n ==> Sendable(packets[i])
    requires (forall i :: 0 <= i < |pieces| ==> pieces[i] != []) && Joined(pieces) == Session(packets) + t
    ensures vs == Received(packets) && s.open && s.Unread() == t
  {
    s := new Stream(pieces);
    vs := ReadPackets(s, n, packets, t);
  }
}
