// Length-prefixed frames over a byte stream: a four-byte big-endian length and a body.
// The body format is an abstract codec.
module Frame {
  import opened Errors
  import opened Bytes

  const MAX_FRAME_LEN: nat := 16 * 1024 * 1024

  datatype FrameError = Closed | TooLarge(len: nat, max: nat) | Io | Decode

  datatype Framed<+T> = Good(value: T) | Bad(error: FrameError)

  datatype Codec<!T> = Codec(encode: T -> Option<Octets>, decode: Octets -> Option<T>)

  // Decoding gives back whatever was encoded.
  ghost predicate RoundTrips<T(!new)>(c: Codec<T>) {
    forall v :: c.encode(v).Some? ==> c.decode(c.encode(v).value) == Some(v)
  }

  // ---- the length prefix ----------------------------------------------------------------

  function ToBe32(n: nat): (b: Octets)
    requires n < 0x1_0000_0000
    ensures |b| == 4
  {
    [(n / 0x100_0000) as Byte, (n / 0x1_0000 % 0x100) as Byte, (n / 0x100 % 0x100) as Byte, (n % 0x100) as Byte]
  }

  function FromBe32(b: Octets): (n: nat)
    requires |b| == 4
    ensures n < 0x1_0000_0000
  {
    b[0] as nat * 0x100_0000 + b[1] as nat * 0x1_0000 + b[2] as nat * 0x100 + b[3] as nat
  }

  lemma Be32RoundTrip(n: nat)
    requires n < 0x1_0000_0000
    ensures FromBe32(ToBe32(n)) == n
  {
    var high := n / 0x100;
    assert n == high * 0x100 + n % 0x100;
    assert n / 0x1_0000 == high / 0x100 && high == high / 0x100 * 0x100 + high % 0x100;
    var top := high / 0x100;
    assert n / 0x100_0000 == top / 0x100 && top == top / 0x100 * 0x100 + top % 0x100;
  }

  // The prefix is big-endian: the first byte weighs most.
  lemma PrefixIsBigEndian(n: nat)
    requires n < 0x1_0000_0000
    ensures var b := ToBe32(n);
            n == ((b[0] as nat * 0x100 + b[1] as nat) * 0x100 + b[2] as nat) * 0x100 + b[3] as nat
    ensures var b := ToBe32(n); FromBe32(b) == n
  {
    Be32RoundTrip(n);
  }

  // ---- specification ----------------------------------------------------------------------

  // What the transport does once the bytes run out.
  datatype End = Eof | Fault

  // Reads one frame; also what is left unread.
  function Read<T>(c: Codec<T>, input: Octets, end: End): (Framed<T>, Octets) {
    if |input| < 4 then (Bad(if end.Eof? then Closed else Io), [])
    else
      var len := FromBe32(input[..4]);
      if len > MAX_FRAME_LEN then (Bad(TooLarge(len, MAX_FRAME_LEN)), input[4..])
      else if |input| - 4 < len then (Bad(Io), [])
      else
        var v := c.decode(input[4..4 + len]);
        (if v.Some? then Good(v.value) else Bad(Decode), input[4 + len..])
  }

  // The bytes of one frame, if the value can be sent at all.
  function Encoded<T>(c: Codec<T>, v: T): (f: Framed<Octets>)
    ensures f.Good? ==> |f.value| >= 4
  {
    var body := c.encode(v);
    if body.None? then Bad(Decode)
    else if |body.value| > MAX_FRAME_LEN then Bad(TooLarge(|body.value|, MAX_FRAME_LEN))
    else Good(ToBe32(|body.value|) + body.value)
  }

  // How much of `bytes` a peer takes that accepts only `room` more (None: any amount).
  function Accepted(room: Option<nat>, bytes: Octets): Octets {
    if room.Some? && room.value < |bytes| then bytes[..room.value] else bytes
  }

  function RoomAfter(room: Option<nat>, bytes: Octets): Option<nat> {
    if room.None? then None else if room.value < |bytes| then Some(0) else Some(room.value - |bytes|)
  }

  // What a write sends, and whether it succeeds.
  function Write<T>(c: Codec<T>, v: T, room: Option<nat>): (Octets, Framed<()>) {
    var f := Encoded(c, v);
    if f.Bad? then ([], Bad(f.error))
    else (Accepted(room, f.value), if Accepted(room, f.value) == f.value then Good(()) else Bad(Io))
  }

  predicate Fits<T>(c: Codec<T>, v: T) {
    Encoded(c, v).Good?
  }

  // What fits in a frame: a body of at most 16 MiB.
  lemma FitsIff<T>(c: Codec<T>, v: T)
    ensures Fits(c, v) <==> c.encode(v).Some? && |c.encode(v).value| <= 16_777_216
  {}

  // ---- the stream -------------------------------------------------------------------------

  class Stream {
    var incoming: Octets
    var outgoing: Octets
    var room: Option<nat>
    const end: End

    constructor (incoming: Octets, end: End, room: Option<nat>)
      ensures this.incoming == incoming && this.end == end && this.room == room && outgoing == []
    {
      this.incoming := incoming;
      this.end := end;
      this.room := room;
      this.outgoing := [];
    }

    // Fills a buffer of n bytes or fails, in which case everything left is consumed.
    method ReadExact(n: nat) returns (buffer: Framed<Octets>)
      modifies this`incoming
      ensures n <= |old(incoming)| ==> buffer == Good(old(incoming)[..n]) && incoming == old(incoming)[n..]
      ensures n > |old(incoming)| ==> buffer == Bad(if end.Eof? then Closed else Io) && incoming == []
    {
      if n <= |incoming| {
        buffer := Good(incoming[..n]);
        incoming := incoming[n..];
      } else {
        buffer := Bad(if end.Eof? then Closed else Io);
        incoming := [];
      }
    }

    method WriteAll(bytes: Octets) returns (r: Framed<()>)
      modifies this`outgoing, this`room
      ensures outgoing == old(outgoing) + Accepted(old(room), bytes) && room == RoomAfter(old(room), bytes)
      ensures r == if Accepted(old(room), bytes) == bytes then Good(()) else Bad(Io)
    {
      var sent := Accepted(room, bytes);
      outgoing := outgoing + sent;
      room := RoomAfter(room, bytes);
      r := if |sent| == |bytes| then Good(()) else Bad(Io);
    }

    method ReadFrame<T>(c: Codec<T>) returns (r: Framed<T>)
      modifies this`incoming
      ensures (r, incoming) == Read(c, old(incoming), end)
    {
      var header := ReadExact(4);
      if header.Bad? {
        return Bad(header.error);
      }
      var len := FromBe32(header.value);
      if len > MAX_FRAME_LEN {
        return Bad(TooLarge(len, MAX_FRAME_LEN));
      }
      ghost var rest := incoming;
      var body := ReadExact(len);
      if body.Bad? {
        return Bad(Io);  // a truncated body is a fault even at end of file
      }
      assert body.value == old(incoming)[4..4 + len] && incoming == old(incoming)[4 + len..];
      var v := c.decode(body.value);
      return if v.Some? then Good(v.value) else Bad(Decode);
    }

    method WriteFrame<T>(c: Codec<T>, v: T) returns (r: Framed<()>)
      modifies this`outgoing, this`room
      ensures outgoing == old(outgoing) + Write(c, v, old(room)).0 && r == Write(c, v, old(room)).1
      ensures room == if Fits(c, v) then RoomAfter(old(room), Encoded(c, v).value) else old(room)
    {
      var body := c.encode(v);
      if body.None? {
        return Bad(Decode);
      }
      var len := |body.value|;
      if len > MAX_FRAME_LEN {
        return Bad(TooLarge(len, MAX_FRAME_LEN));
      }
      SplitWrite(room, ToBe32(len), body.value);
      r := WriteAll(ToBe32(len));
      if r.Bad? {
        return;
      }
      r := WriteAll(body.value);
    }
  }

  // A prefix and a body written one after the other go out as one frame would.
  lemma SplitWrite(room: Option<nat>, a: Octets, b: Octets)
    ensures Accepted(room, a) != a ==>
              && Accepted(room, a + b) == Accepted(room, a) && Accepted(room, a + b) != a + b
              && RoomAfter(room, a + b) == RoomAfter(room, a)
    ensures Accepted(room, a) == a ==>
              && Accepted(room, a + b) == a + Accepted(RoomAfter(room, a), b)
              && (Accepted(room, a + b) == a + b <==> Accepted(RoomAfter(room, a), b) == b)
              && RoomAfter(room, a + b) == RoomAfter(RoomAfter(room, a), b)
  {
    if room.Some? && room.value < |a| {
      assert (a + b)[..room.value] == a[..room.value];
      assert |a[..room.value]| < |a|;
    } else if room.Some? && room.value < |a + b| {
      assert (a + b)[..room.value] == a + b[..room.value - |a|];
      assert |b[..room.value - |a|]| < |b| && |(a + b)[..room.value]| < |a + b|;
    }
  }

  // ---- properties ---------------------------------------------------------------------------

  // A frame read back gives the value, and exactly the bytes after it are left.
  lemma ReadOfEncoded<T(!new)>(c: Codec<T>, v: T, rest: Octets, end: End)
    requires RoundTrips(c) && Fits(c, v)
    ensures Read(c, Encoded(c, v).value + rest, end) == (Good(v), rest)
  {
    var body := c.encode(v).value;
    var input := Encoded(c, v).value + rest;
    Be32RoundTrip(|body|);
    assert input[..4] == ToBe32(|body|);
    assert input[4..4 + |body|] == body && input[4 + |body|..] == rest;
  }

  // Which inputs fail, how, and how much they use up. A header cut short after one to
  // three bytes reads exactly like an empty stream.
  lemma ReadFailsExactly<T>(c: Codec<T>, input: Octets, end: End)
    ensures var (r, rest) := Read(c, input, end);
            && (r == Bad(Closed) <==> |input| < 4 && end == Eof)
            && (r.Bad? && r.error.TooLarge? <==> |input| >= 4 && FromBe32(input[..4]) > MAX_FRAME_LEN)
            && (r == Bad(Io) <==>
                  (|input| < 4 && end == Fault)
                  || (|input| >= 4 && |input| - 4 < FromBe32(input[..4]) <= MAX_FRAME_LEN))
            && (r == Bad(Decode) ==> input == input[..4] + input[4..|input| - |rest|] + rest
                                      && c.decode(input[4..|input| - |rest|]) == None)
            && (r.Good? ==> |input| == 4 + FromBe32(input[..4]) + |rest|
                            && c.decode(input[4..|input| - |rest|]) == Some(r.value))
            && (r.Bad? && r.error.TooLarge? ==> rest == input[4..])
  {
    if |input| >= 4 && |input| - 4 >= FromBe32(input[..4]) {
      var len := FromBe32(input[..4]);
      assert |input[4 + len..]| == |input| - 4 - len;
      assert input == input[..4] + input[4..4 + len] + input[4 + len..];
    }
  }
}
