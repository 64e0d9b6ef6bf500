/** The framing of `_CDPConnection`: RFC 6455, sections 5.2 to 5.5. */
module WebSocket {
  import opened Bytes
  import opened Processes

  type Opcode = o: int | 0 <= o < 16

  const CONTINUATION: Opcode := 0
  const TEXT: Opcode := 1
  const CLOSE: Opcode := 8
  const PING: Opcode := 9
  const PONG: Opcode := 10
  const MAX_PAYLOAD := 16 * 1024 * 1024

  /** A mask is absent or has four bytes. */
  datatype Frame = Frame(final: bool, opcode: Opcode, mask: seq<Byte>, payload: seq<Byte>) {
    predicate Valid() {
      (mask == [] || |mask| == 4) && |payload| < Capacity(8)
    }
  }

  function Masked(mask: seq<Byte>, payload: seq<Byte>): (s: seq<Byte>)
    requires mask == [] || |mask| == 4
    ensures |s| == |payload|
  {
    if mask == [] then payload else seq(|payload|, i requires 0 <= i < |payload| => Xor(payload[i], mask[i % 4]))
  }

  lemma MaskedTwice(mask: seq<Byte>, payload: seq<Byte>)
    requires mask == [] || |mask| == 4
    ensures Masked(mask, Masked(mask, payload)) == payload
  {
    if mask != [] {
      forall i | 0 <= i < |payload|
        ensures Masked(mask, Masked(mask, payload))[i] == payload[i]
      {
        XorTwice(payload[i], mask[i % 4]);
      }
    }
  }

  function LengthCode(length: nat): (code: nat)
    ensures code < 128
  {
    if length < 126 then length else if length <= 0xFFFF then 126 else 127
  }

  /** How many bytes of extended length follow a code. */
  function ExtendedWidth(code: nat): nat {
    if code == 126 then 2 else if code == 127 then 8 else 0
  }

  function Header(f: Frame): seq<Byte>
  {
    var code := LengthCode(|f.payload|);
    [(if f.final then 128 else 0) + f.opcode, (if f.mask != [] then 128 else 0) + code]
    + BigEndian(|f.payload|, ExtendedWidth(code))
  }

  function Encode(f: Frame): seq<Byte>
    requires f.Valid()
  {
    Header(f) + f.mask + Masked(f.mask, f.payload)
  }

  function EncodeAll(frames: seq<Frame>): seq<Byte>
    requires forall f | f in frames :: f.Valid()
  {
    if frames == [] then [] else Encode(frames[0]) + EncodeAll(frames[1..])
  }

  // ----- Reading one frame -----

  datatype Parse = Parsed(frame: Frame, rest: seq<Byte>) | Exceeded | Ended

  function ParseBody(final: bool, opcode: Opcode, masked: bool, length: nat, s: seq<Byte>): Parse {
    var start := if masked then 4 else 0;
    if length > MAX_PAYLOAD then Exceeded
    else if |s| < start + length then Ended
    else
      Parsed(Frame(final, opcode, s[..start], Masked(s[..start], s[start..start + length])), s[start + length..])
  }

  /** The first frame of a stream; the reserved bits are ignored. */
  function ParseFrame(s: seq<Byte>): Parse {
    if |s| < 2 then Ended
    else
      var code := s[1] % 128;
      var width := ExtendedWidth(code);
      if |s| < 2 + width then Ended
      else
        var length := if width == 0 then code else FromBigEndian(s[2..2 + width]);
        ParseBody(s[0] >= 128, s[0] % 16, s[1] >= 128, length, s[2 + width..])
  }

  lemma HeaderRoundTrip(f: Frame, body: seq<Byte>)
    requires f.Valid()
    ensures ParseFrame(Header(f) + body) == ParseBody(f.final, f.opcode, f.mask != [], |f.payload|, body)
  {
    var s, code := Header(f) + body, LengthCode(|f.payload|);
    var width := ExtendedWidth(code);
    assert s[2..2 + width] == BigEndian(|f.payload|, width);
    assert s[2 + width..] == body;
    assert s[1] % 128 == code && s[0] % 16 == f.opcode by {
      assert s[1] == code || s[1] == 128 + code;
      assert s[0] == f.opcode || s[0] == 128 + f.opcode;
    }
    Capacities();
    if width != 0 {
      BigEndianRoundTrip(|f.payload|, width);
    }
  }

  /** A frame is read back from exactly its bytes, or refused when it is over the bound. */
  lemma FrameRoundTrip(f: Frame, rest: seq<Byte>)
    requires f.Valid()
    ensures ParseFrame(Encode(f) + rest) == if |f.payload| <= MAX_PAYLOAD then Parsed(f, rest) else Exceeded
  {
    var body := f.mask + Masked(f.mask, f.payload) + rest;
    assert Encode(f) + rest == Header(f) + body;
    HeaderRoundTrip(f, body);
    BodyRoundTrip(f, rest);
  }

  lemma BodyRoundTrip(f: Frame, rest: seq<Byte>)
    requires f.Valid()
    ensures var body := f.mask + Masked(f.mask, f.payload) + rest;
            ParseBody(f.final, f.opcode, f.mask != [], |f.payload|, body)
            == if |f.payload| <= MAX_PAYLOAD then Parsed(f, rest) else Exceeded
  {
    var body, start := f.mask + Masked(f.mask, f.payload) + rest, |f.mask|;
    assert body[..start] == f.mask;
    assert body[start..start + |f.payload|] == Masked(f.mask, f.payload);
    assert body[start + |f.payload|..] == rest;
    MaskedTwice(f.mask, f.payload);
  }

  /** No bytes that read as this frame are fewer: the length is in its shortest form. */
  lemma EncodeIsShortest(s: seq<Byte>)
    requires ParseFrame(s).Parsed?
    ensures ParseFrame(s).frame.Valid()
    ensures |Encode(ParseFrame(s).frame)| + |ParseFrame(s).rest| <= |s|
  {
    Capacities();
  }

  // ----- Reading a message -----

  datatype Failing = ClosedUnexpectedly | BoundExceeded | ClosedByPeer | InvalidText

  datatype Message =
    | Message(text: seq<Byte>, rest: seq<Byte>, pings: seq<seq<Byte>>)
    | Broken(failure: Failing, pings: seq<seq<Byte>>)

  /** What the frames of a stream amount to: the payloads joined, and the pings met on the way. */
  function ReadMessage(s: seq<Byte>, fragments: seq<Byte>, pings: seq<seq<Byte>>): Message
    decreases |s|
  {
    match ParseFrame(s)
    case Ended => Broken(ClosedUnexpectedly, pings)
    case Exceeded => Broken(BoundExceeded, pings)
    case Parsed(f, rest) =>
      if f.opcode == CLOSE then Broken(ClosedByPeer, pings)
      else if f.opcode == PING then ReadMessage(rest, fragments, pings + [f.payload])
      else if f.opcode != CONTINUATION && f.opcode != TEXT then ReadMessage(rest, fragments, pings)
      else if f.final then Message(fragments + f.payload, rest, pings)
      else ReadMessage(rest, fragments + f.payload, pings)
  }

  predicate IsData(f: Frame) {
    f.opcode == CONTINUATION || f.opcode == TEXT
  }

  /** Fragments, the last of them final, with any frames but a close between. */
  predicate IsMessage(frames: seq<Frame>) {
    && (forall f | f in frames :: f.Valid() && |f.payload| <= MAX_PAYLOAD && f.opcode != CLOSE)
    && frames != []
    && (forall i | 0 <= i < |frames| && IsData(frames[i]) :: frames[i].final <==> i == |frames| - 1)
    && IsData(frames[|frames| - 1])
  }

  function Payloads(frames: seq<Frame>): seq<Byte> {
    if frames == [] then [] else (if IsData(frames[0]) then frames[0].payload else []) + Payloads(frames[1..])
  }

  function Pings(frames: seq<Frame>): seq<seq<Byte>> {
    if frames == [] then [] else (if frames[0].opcode == PING then [frames[0].payload] else []) + Pings(frames[1..])
  }

  function Joined(f: Frame, fragments: seq<Byte>): seq<Byte> {
    if IsData(f) then fragments + f.payload else fragments
  }

  function Met(f: Frame, pings: seq<seq<Byte>>): seq<seq<Byte>> {
    if f.opcode == PING then pings + [f.payload] else pings
  }

  lemma FrameIsRead(f: Frame, later: seq<Byte>, fragments: seq<Byte>, pings: seq<seq<Byte>>)
    requires f.Valid() && |f.payload| <= MAX_PAYLOAD && f.opcode != CLOSE
    ensures ReadMessage(Encode(f) + later, fragments, pings)
            == if IsData(f) && f.final then Message(Joined(f, fragments), later, Met(f, pings))
               else ReadMessage(later, Joined(f, fragments), Met(f, pings))
  {
    FrameRoundTrip(f, later);
  }

  lemma FirstBytes(frames: seq<Frame>, rest: seq<Byte>)
    requires frames != [] && forall f | f in frames :: f.Valid()
    ensures forall f | f in frames[1..] :: f.Valid()
    ensures EncodeAll(frames) + rest == Encode(frames[0]) + (EncodeAll(frames[1..]) + rest)
  {
    assert forall f | f in frames[1..] :: f in frames;
    AppendAssociates(Encode(frames[0]), EncodeAll(frames[1..]), rest);
  }

  lemma FirstPayloads(frames: seq<Frame>, fragments: seq<Byte>, pings: seq<seq<Byte>>)
    requires frames != []
    ensures Joined(frames[0], fragments) + Payloads(frames[1..]) == fragments + Payloads(frames)
    ensures Met(frames[0], pings) + Pings(frames[1..]) == pings + Pings(frames)
  {
    var f, payloads, later := frames[0], Payloads(frames[1..]), Pings(frames[1..]);
    AppendNothing(fragments);
    AppendNothing(pings);
    AppendAssociates(fragments, if IsData(f) then f.payload else [], payloads);
    AppendAssociates(pings, if f.opcode == PING then [f.payload] else [], later);
  }

  lemma LaterFrames(frames: seq<Frame>)
    requires IsMessage(frames) && |frames| > 1
    ensures IsMessage(frames[1..]) && !(IsData(frames[0]) && frames[0].final)
  {
    assert forall f | f in frames[1..] :: f in frames;
  }

  /** The fragments of a message are joined and its pings met in order; nothing after it is read. */
  lemma {:induction false} MessageIsRead(frames: seq<Frame>, rest: seq<Byte>, fragments: seq<Byte>,
                                         pings: seq<seq<Byte>>)
    requires IsMessage(frames)
    ensures ReadMessage(EncodeAll(frames) + rest, fragments, pings)
            == Message(fragments + Payloads(frames), rest, pings + Pings(frames))
    decreases |frames|
  {
    var f, later := frames[0], EncodeAll(frames[1..]) + rest;
    FirstBytes(frames, rest);
    FirstPayloads(frames, fragments, pings);
    FrameIsRead(f, later, fragments, pings);
    if |frames| == 1 {
      assert later == rest && Payloads(frames[1..]) == [] && Pings(frames[1..]) == [];
    } else {
      LaterFrames(frames);
      MessageIsRead(frames[1..], rest, Joined(f, fragments), Met(f, pings));
    }
  }

  // ----- The bound -----

  predicate EndsMessage(f: Frame) {
    IsData(f) && f.final
  }

  predicate Readable(frames: seq<Frame>) {
    forall f | f in frames :: f.Valid() && f.opcode != CLOSE
  }

  /** A frame over the bound comes before the message has ended. */
  predicate Oversized(frames: seq<Frame>) {
    exists i | 0 <= i < |frames| ::
      |frames[i].payload| > MAX_PAYLOAD && forall j | 0 <= j < i :: !EndsMessage(frames[j])
  }

  lemma OversizedFirst(frames: seq<Frame>)
    requires frames != []
    ensures Oversized(frames) <==>
            |frames[0].payload| > MAX_PAYLOAD || (!EndsMessage(frames[0]) && Oversized(frames[1..]))
  {
    if |frames[0].payload| > MAX_PAYLOAD {
      assert Oversized(frames);
    } else if Oversized(frames) {
      var i :| 0 <= i < |frames| && |frames[i].payload| > MAX_PAYLOAD
               && forall j | 0 <= j < i :: !EndsMessage(frames[j]);
      assert frames[1..][i - 1] == frames[i] && !EndsMessage(frames[0]);
      assert forall j | 0 <= j < i - 1 :: frames[1..][j] == frames[j + 1];
    }
  }

  predicate HasEnd(frames: seq<Frame>) {
    exists f | f in frames :: EndsMessage(f)
  }

  predicate IsRefusal(message: Message) {
    message.Broken? && message.failure == BoundExceeded
  }

  lemma RefusedAtOnce(f: Frame, later: seq<Byte>, fragments: seq<Byte>, pings: seq<seq<Byte>>)
    requires f.Valid() && |f.payload| > MAX_PAYLOAD
    ensures ReadMessage(Encode(f) + later, fragments, pings) == Broken(BoundExceeded, pings)
  {
    FrameRoundTrip(f, later);
  }

  /** Of frames without a close, read to the end of their message or of the stream: they are refused exactly for a
      frame over the bound, not for a message over it. */
  lemma {:induction false} RefusedIffOversized(frames: seq<Frame>, rest: seq<Byte>, fragments: seq<Byte>,
                                               pings: seq<seq<Byte>>)
    requires Readable(frames) && (rest == [] || HasEnd(frames))
    ensures IsRefusal(ReadMessage(EncodeAll(frames) + rest, fragments, pings)) <==> Oversized(frames)
    decreases |frames|
  {
    if frames == [] {
      assert EncodeAll(frames) + rest == [];
    } else {
      var f, later := frames[0], EncodeAll(frames[1..]) + rest;
      FirstBytes(frames, rest);
      OversizedFirst(frames);
      if |f.payload| > MAX_PAYLOAD {
        RefusedAtOnce(f, later, fragments, pings);
      } else {
        FrameIsRead(f, later, fragments, pings);
        if !EndsMessage(f) {
          LaterReadable(frames, rest);
          RefusedIffOversized(frames[1..], rest, Joined(f, fragments), Met(f, pings));
        }
      }
    }
  }

  lemma LaterReadable(frames: seq<Frame>, rest: seq<Byte>)
    requires frames != [] && Readable(frames) && (rest == [] || HasEnd(frames)) && !EndsMessage(frames[0])
    ensures Readable(frames[1..]) && (rest == [] || HasEnd(frames[1..]))
  {
    assert forall f | f in frames[1..] :: f in frames;
    assert frames == [frames[0]] + frames[1..];
  }

  function Fragments(frames: seq<Frame>): nat {
    if frames == [] then 0 else (if IsData(frames[0]) then 1 else 0) + Fragments(frames[1..])
  }

  lemma {:induction false} TextIsBounded(frames: seq<Frame>)
    requires forall f | f in frames :: |f.payload| <= MAX_PAYLOAD
    ensures |Payloads(frames)| <= Fragments(frames) * MAX_PAYLOAD
  {
    if frames != [] {
      assert forall f | f in frames[1..] :: f in frames;
      assert frames[0] in frames;
      TextIsBounded(frames[1..]);
    }
  }

  lemma Prepends(f: Frame, frames: seq<Frame>)
    requires IsMessage(frames) && f.Valid() && |f.payload| <= MAX_PAYLOAD && f.opcode != CLOSE && !EndsMessage(f)
    ensures IsMessage([f] + frames) && Payloads([f] + frames) == Joined(f, []) + Payloads(frames)
    ensures Fragments([f] + frames) == (if IsData(f) then 1 else 0) + Fragments(frames)
  {
    var whole := [f] + frames;
    assert whole[1..] == frames;
    assert forall i | 0 < i < |whole| :: whole[i] == frames[i - 1];
    if IsData(f) {
      AppendNothing(f.payload);
      assert [] + f.payload == f.payload;
    }
  }

  function Zeros(n: nat): (s: seq<Byte>)
    ensures |s| == n
  {
    seq(n, i => 0)
  }

  /** A message of n fragments: the first of the given length, the others of one byte. */
  function Fragmented(n: nat, first: nat): seq<Frame>
    requires n > 0
  {
    if n == 1 then [Frame(true, CONTINUATION, [], Zeros(first))]
    else [Frame(false, TEXT, [], Zeros(first))] + Fragmented(n - 1, 1)
  }

  lemma {:induction false} FragmentedIsMessage(n: nat, first: nat)
    requires n > 0 && first <= MAX_PAYLOAD
    ensures IsMessage(Fragmented(n, first)) && Fragments(Fragmented(n, first)) == n
    ensures |Payloads(Fragmented(n, first))| == first + n - 1
  {
    Capacities();
    if n == 1 {
      var frames := Fragmented(1, first);
      assert frames[1..] == [] && Payloads(frames) == Zeros(first) + [];
    } else {
      FragmentedIsMessage(n - 1, 1);
      Prepends(Frame(false, TEXT, [], Zeros(first)), Fragmented(n - 1, 1));
    }
  }

  predicate WithinBound(message: Message) {
    message.Message? ==> |message.text| <= MAX_PAYLOAD
  }

  lemma OneFragmentIsWithinBound(frames: seq<Frame>)
    requires IsMessage(frames) && Fragments(frames) == 1
    ensures WithinBound(ReadMessage(EncodeAll(frames), [], []))
  {
    TextIsBounded(frames);
    WholeMessageIsRead(frames);
  }

  lemma MoreFragmentsExceed(n: nat)
    requires n > 1
    ensures IsMessage(Fragmented(n, MAX_PAYLOAD)) && Fragments(Fragmented(n, MAX_PAYLOAD)) == n
    ensures !WithinBound(ReadMessage(EncodeAll(Fragmented(n, MAX_PAYLOAD)), [], []))
  {
    FragmentedIsMessage(n, MAX_PAYLOAD);
    WholeMessageIsRead(Fragmented(n, MAX_PAYLOAD));
  }

  /** That text read is within the bound is sure exactly of messages in one fragment. */
  lemma TextWithinBoundIff(n: nat)
    requires n > 0
    ensures n == 1 <==>
            forall frames | IsMessage(frames) && Fragments(frames) == n ::
              WithinBound(ReadMessage(EncodeAll(frames), [], []))
  {
    if n == 1 {
      forall frames | IsMessage(frames) && Fragments(frames) == n
        ensures WithinBound(ReadMessage(EncodeAll(frames), [], []))
      {
        OneFragmentIsWithinBound(frames);
      }
    } else {
      MoreFragmentsExceed(n);
    }
  }

  lemma WholeMessageIsRead(frames: seq<Frame>)
    requires IsMessage(frames)
    ensures ReadMessage(EncodeAll(frames), [], []) == Message(Payloads(frames), [], Pings(frames))
  {
    AppendNothing(EncodeAll(frames));
    assert [] + Payloads(frames) == Payloads(frames) && [] + Pings(frames) == Pings(frames);
    MessageIsRead(frames, [], [], []);
  }

  lemma TwoFragments(p: seq<Byte>, q: seq<Byte>)
    ensures var frames := [Frame(false, TEXT, [], p), Frame(true, CONTINUATION, [], q)];
            Payloads(frames) == p + q && Pings(frames) == []
  {
    var first, last := Frame(false, TEXT, [], p), Frame(true, CONTINUATION, [], q);
    assert [first, last][1..] == [last] && [last][1..] == [];
    assert Payloads([last]) == q + [] == q && Payloads([first, last]) == p + Payloads([last]);
    assert Pings([last]) == [] && Pings([first, last]) == [] + Pings([last]);
  }

  /** A message twice as long as the bound is read. */
  lemma BoundIsPerFrame(p: seq<Byte>, q: seq<Byte>, rest: seq<Byte>)
    requires |p| == |q| == MAX_PAYLOAD
    ensures var frames := [Frame(false, TEXT, [], p), Frame(true, CONTINUATION, [], q)];
            IsMessage(frames) && ReadMessage(EncodeAll(frames) + rest, [], []) == Message(p + q, rest, [])
  {
    Capacities();
    var frames := [Frame(false, TEXT, [], p), Frame(true, CONTINUATION, [], q)];
    assert IsMessage(frames);
    TwoFragments(p, q);
    assert [] + (p + q) == p + q;
    MessageIsRead(frames, rest, [], []);
  }

  // ----- The connection -----

  /** What the peer has sent and not been read, and what was written, call by call. */
  class Socket {
    var incoming: seq<Byte>
    var written: seq<seq<Byte>>

    /** `recv`: some of what is there, never more than asked for; nothing only at the end of the stream. */
    method Receive(size: nat) returns (chunk: seq<Byte>)
      requires size > 0
      modifies this`incoming
      ensures |chunk| <= size && (chunk == [] <==> old(incoming) == []) && old(incoming) == chunk + incoming
    {
      var n: nat :| n <= size && n <= |incoming| && (n == 0 <==> incoming == []) by {
        assert incoming != [] ==> 1 <= size && 1 <= |incoming|;
      }
      chunk, incoming := incoming[..n], incoming[n..];
    }

    method SendAll(bytes: seq<Byte>)
      modifies this`written
      ensures written == old(written) + [bytes]
    {
      written := written + [bytes];
    }
  }

  /** One whole masked frame, as section 5.3 wants it of a client. */
  ghost predicate IsClientFrame(bytes: seq<Byte>, opcode: Opcode, payload: seq<Byte>) {
    exists mask: seq<Byte> :: |mask| == 4 && |payload| < Capacity(8)
      && bytes == Encode(Frame(true, opcode, mask, payload))
  }

  /** `calls` are one pong for each of these pings, in order. */
  ghost predicate ArePongs(calls: seq<seq<Byte>>, pings: seq<seq<Byte>>) {
    |calls| == |pings| && forall i | 0 <= i < |pings| :: IsClientFrame(calls[i], PONG, pings[i])
  }

  datatype Received = Text(text: string) | Failed(failure: Failing)

  class Connection {
    const socket: Socket
    /** `bytes.decode("utf-8")`; None is its error. */
    const decode: seq<Byte> -> Option<string>

    constructor (socket: Socket, decode: seq<Byte> -> Option<string>)
      ensures this.socket == socket && this.decode == decode
    {
      this.socket, this.decode := socket, decode;
    }

    method ReadExact(size: nat) returns (payload: Option<seq<Byte>>)
      modifies socket`incoming
      ensures if |old(socket.incoming)| < size then payload == None && socket.incoming == []
              else payload == Some(old(socket.incoming)[..size]) && socket.incoming == old(socket.incoming)[size..]
    {
      var read: seq<Byte> := [];
      while |read| < size
        invariant |read| <= size && old(socket.incoming) == read + socket.incoming
        decreases size - |read|
      {
        var chunk := socket.Receive(size - |read|);
        if chunk == [] {
          return None;
        }
        read := read + chunk;
      }
      return Some(read);
    }

    method SendFrame(payload: seq<Byte>, opcode: Opcode)
      requires |payload| < Capacity(8)
      modifies socket`written
      ensures |socket.written| == |old(socket.written)| + 1 && old(socket.written) < socket.written
      ensures IsClientFrame(socket.written[|old(socket.written)|], opcode, payload)
    {
      var mask: seq<Byte> :| |mask| == 4 by {
        assert |[0, 0, 0, 0]| == 4;
      }
      var length := |payload|;
      var header: seq<Byte> := [128 + opcode];
      Capacities();
      if length < 126 {
        header := header + [128 + length];
      } else if length <= 0xFFFF {
        header := header + [128 + 126];
        header := header + BigEndian(length, 2);
      } else {
        header := header + [128 + 127];
        header := header + BigEndian(length, 8);
      }
      var frame := Frame(true, opcode, mask, payload);
      assert header == Header(frame);
      socket.SendAll(header + mask + Masked(mask, payload));
    }

    /** The frame at the head of what is incoming, and whether all of it was there. */
    method ReadFrame() returns (parse: Parse)
      modifies socket`incoming
      ensures parse == ParseFrame(old(socket.incoming))
      ensures parse.Parsed? ==> socket.incoming == parse.rest
    {
      ghost var s := socket.incoming;
      var head := ReadExact(2);
      if head.None? {
        return Ended;
      }
      var first, second := head.value[0], head.value[1];
      var length: nat := second % 128;
      var width := ExtendedWidth(length);
      if width != 0 {
        var extended := ReadExact(width);
        if extended.None? {
          return Ended;
        }
        assert extended.value == s[2..2 + width];
        length := FromBigEndian(extended.value);
      }
      assert socket.incoming == s[2 + width..];
      parse := ReadBody(first >= 128, first % 16, second >= 128, length);
    }

    method ReadBody(final: bool, opcode: Opcode, masked: bool, length: nat) returns (parse: Parse)
      modifies socket`incoming
      ensures parse == ParseBody(final, opcode, masked, length, old(socket.incoming))
      ensures parse.Parsed? ==> socket.incoming == parse.rest
    {
      ghost var s := socket.incoming;
      if length > MAX_PAYLOAD {
        return Exceeded;
      }
      var mask: seq<Byte> := [];
      if masked {
        var read := ReadExact(4);
        if read.None? {
          return Ended;
        }
        mask := read.value;
      }
      assert mask == s[..|mask|] && socket.incoming == s[|mask|..];
      var payload := ReadExact(length);
      if payload.None? {
        return Ended;
      }
      assert payload.value == s[|mask|..|mask| + length] && socket.incoming == s[|mask| + length..];
      return Parsed(Frame(final, opcode, mask, Masked(mask, payload.value)), socket.incoming);
    }

    /** The next message, as its frames amount to it; each ping on the way is answered with its own payload. */
    method ReceiveText() returns (received: Received)
      modifies socket
      ensures old(socket.written) <= socket.written
      ensures ArePongs(socket.written[|old(socket.written)|..], ReadMessage(old(socket.incoming), [], []).pings)
      ensures match ReadMessage(old(socket.incoming), [], [])
              case Broken(failure, _) => received == Failed(failure)
              case Message(text, rest, _) =>
                socket.incoming == rest
                && received == if decode(text).Some? then Text(decode(text).value) else Failed(InvalidText)
    {
      var fragments: seq<Byte> := [];
      ghost var pings: seq<seq<Byte>> := [];
      while true
        invariant ReadMessage(old(socket.incoming), [], []) == ReadMessage(socket.incoming, fragments, pings)
        invariant old(socket.written) <= socket.written
        invariant ArePongs(socket.written[|old(socket.written)|..], pings)
        decreases |socket.incoming|
      {
        var parse := ReadFrame();
        if parse.Ended? {
          return Failed(ClosedUnexpectedly);
        }
        if parse.Exceeded? {
          return Failed(BoundExceeded);
        }
        var f := parse.frame;
        if f.opcode == CLOSE {
          return Failed(ClosedByPeer);
        }
        if f.opcode == PING {
          AnswerPing(f.payload, |old(socket.written)|, pings);
          pings := pings + [f.payload];
          continue;
        }
        if f.opcode != CONTINUATION && f.opcode != TEXT {
          continue;
        }
        fragments := fragments + f.payload;
        if f.final {
          var text := decode(fragments);
          return if text.Some? then Text(text.value) else Failed(InvalidText);
        }
      }
    }

    method AnswerPing(payload: seq<Byte>, ghost start: nat, ghost pings: seq<seq<Byte>>)
      requires |payload| <= MAX_PAYLOAD
      requires start <= |socket.written| && ArePongs(socket.written[start..], pings)
      modifies socket`written
      ensures old(socket.written) <= socket.written && ArePongs(socket.written[start..], pings + [payload])
    {
      ghost var before := socket.written;
      Capacities();
      SendFrame(payload, PONG);
      assert socket.written[start..] == before[start..] + [socket.written[|before|]];
    }
  }
}
