/**
 The DERP wire format: frames of a type byte, a big-endian 32-bit length and a
 payload, as they are written, and as the client's receive loop reads them
 either in place in its buffer or by copying.
 */
module DerpWire {
  import opened Common
  import DerpServer

  const NONCE_LEN := 24
  const MAX_INFO_LEN := 0x10_0000
  const MAX_PACKET_SIZE := 0x1_0000
  const MAX_RECV_FRAME := 0x10_0000
  const MAX_WRITE_FRAME := 10 * 0x10_0000

  const FRAME_SERVER_INFO: Byte := 0x03
  const FRAME_SEND_PACKET: Byte := 0x04
  const FRAME_RECV_PACKET: Byte := 0x05
  const FRAME_KEEP_ALIVE: Byte := 0x06
  const FRAME_PEER_GONE: Byte := 0x08
  const FRAME_PEER_PRESENT: Byte := 0x09
  const FRAME_FORWARD_PACKET: Byte := 0x0a
  const FRAME_PING: Byte := 0x12

  datatype Error = Truncated | TooLarge | BadServerInfo | Short

  // ---------------------------------------------------------------------
  // Integers and frames
  // ---------------------------------------------------------------------

  const U32 := 0x1_0000_0000

  function BigEndian(v: nat): (b: seq<Byte>)
    requires v < U32
    ensures |b| == 4
  {
    [v / 0x100_0000, v / 0x1_0000 % 0x100, v / 0x100 % 0x100, v % 0x100]
  }

  function FromBigEndian(b: seq<Byte>): (v: nat)
    requires |b| == 4
    ensures v < U32
  {
    (((b[0] as int) * 0x100 + b[1]) * 0x100 + b[2]) * 0x100 + b[3]
  }

  lemma BigEndianRoundTrip(v: nat)
    requires v < U32
    ensures FromBigEndian(BigEndian(v)) == v
  {
    assert v == v / 0x100 * 0x100 + v % 0x100;
    assert v / 0x100 == v / 0x1_0000 * 0x100 + v / 0x100 % 0x100;
    assert v / 0x1_0000 == v / 0x100_0000 * 0x100 + v / 0x1_0000 % 0x100;
  }

  lemma BytesRoundTrip(b: seq<Byte>)
    requires |b| == 4
    ensures BigEndian(FromBigEndian(b)) == b
  {
    var v := FromBigEndian(b);
    var hi := ((b[0] as int) * 0x100 + b[1]) * 0x100 + b[2];
    assert v == hi * 0x100 + b[3] && v / 0x100 == hi;
    assert hi / 0x100 == (b[0] as int) * 0x100 + b[1];
    assert v / 0x1_0000 == hi / 0x100 && v / 0x100_0000 == b[0];
  }

  /** The most significant byte comes first. */
  lemma BigEndianIs(v: nat)
    requires v < U32
    ensures var b := BigEndian(v); v == b[0] as int * 0x100_0000 + b[1] as int * 0x1_0000 + b[2] as int * 0x100 + b[3] as int
  {
    BigEndianRoundTrip(v);
  }

  datatype Frame = Frame(t: Byte, payload: seq<Byte>)

  function Header(t: Byte, len: nat): (b: seq<Byte>)
    requires len < U32
    ensures |b| == 5
  {
    [t] + BigEndian(len)
  }

  function Encode(f: Frame): seq<Byte>
    requires |f.payload| < U32
  {
    Header(f.t, |f.payload|) + f.payload
  }

  ghost predicate AllFit(fs: seq<Frame>, max: nat) {
    forall i :: 0 <= i < |fs| ==> |fs[i].payload| <= max
  }

  function EncodeAll(fs: seq<Frame>): seq<Byte>
    requires AllFit(fs, MAX_RECV_FRAME)
  {
    if fs == [] then [] else Encode(fs[0]) + EncodeAll(fs[1..])
  }

  // ---------------------------------------------------------------------
  // Buffered streams
  // ---------------------------------------------------------------------

  /** A buffered reader: the bytes still to come, up to the end of the stream. */
  class Reader {
    const size: nat
    var data: seq<Byte>

    constructor (size: nat, data: seq<Byte>)
      ensures this.size == size && this.data == data
    {
      this.size, this.data := size, data;
    }

    method ReadByte() returns (r: Result<Byte, Error>)
      modifies this
      ensures old(data) == [] ==> r == Err(Truncated) && data == []
      ensures old(data) != [] ==> r == Ok(old(data)[0]) && data == old(data)[1..]
    {
      if data == [] {
        return Err(Truncated);
      }
      r := Ok(data[0]);
      data := data[1..];
    }

    /** Reads n bytes, or consumes what there is. */
    method ReadFull(n: nat) returns (r: Result<seq<Byte>, Error>)
      modifies this
      ensures n <= |old(data)| ==> r == Ok(old(data)[..n]) && data == old(data)[n..]
      ensures n > |old(data)| ==> r == Err(Truncated) && data == []
    {
      if n > |data| {
        data := [];
        return Err(Truncated);
      }
      r := Ok(data[..n]);
      data := data[n..];
    }

    /** Looks at n bytes in the buffer without consuming them. */
    method Peek(n: nat) returns (r: Result<seq<Byte>, Error>)
      requires n <= size
      ensures r == if n <= |data| then Ok(data[..n]) else Err(Truncated)
    {
      r := if n <= |data| then Ok(data[..n]) else Err(Truncated);
    }

    method Discard(n: nat)
      requires n <= |data|
      modifies this
      ensures data == old(data)[n..]
    {
      data := data[n..];
    }
  }

  class Writer {
    var out: seq<Byte>

    constructor ()
      ensures out == []
    {
      out := [];
    }

    method WriteByte(b: Byte)
      modifies this
      ensures out == old(out) + [b]
    {
      out := out + [b];
    }

    method Write(bs: seq<Byte>)
      modifies this
      ensures out == old(out) + bs
    {
      out := out + bs;
    }
  }

  // ---------------------------------------------------------------------
  // Writing and reading frames
  // ---------------------------------------------------------------------

  method WriteUint32(bw: Writer, v: nat)
    requires v < U32
    modifies bw
    ensures bw.out == old(bw.out) + BigEndian(v)
  {
    var b := BigEndian(v);
    for i := 0 to 4
      invariant bw.out == old(bw.out) + b[..i]
    {
      bw.WriteByte(b[i]);
    }
  }

  method ReadUint32(br: Reader) returns (r: Result<nat, Error>)
    modifies br
    ensures |old(br.data)| >= 4 ==> r == Ok(FromBigEndian(old(br.data)[..4])) && br.data == old(br.data)[4..]
    ensures |old(br.data)| < 4 ==> r == Err(Truncated)
  {
    var b: seq<Byte> := [];
    for i := 0 to 4
      invariant i <= |old(br.data)| && b == old(br.data)[..i] && br.data == old(br.data)[i..]
    {
      var c := br.ReadByte();
      if c.Err? {
        return Err(c.error);
      }
      b := b + [c.value];
    }
    r := Ok(FromBigEndian(b));
  }

  method WriteFrameHeader(bw: Writer, t: Byte, frameLen: nat)
    requires frameLen < U32
    modifies bw
    ensures bw.out == old(bw.out) + Header(t, frameLen)
  {
    bw.WriteByte(t);
    WriteUint32(bw, frameLen);
  }

  /** Writes one frame, unless it is unreasonably large. */
  method WriteFrame(bw: Writer, t: Byte, b: seq<Byte>) returns (ok: bool)
    modifies bw
    ensures ok <==> |b| <= MAX_WRITE_FRAME
    ensures bw.out == if ok then old(bw.out) + Encode(Frame(t, b)) else old(bw.out)
  {
    if |b| > MAX_WRITE_FRAME {
      return false;
    }
    WriteFrameHeader(bw, t, |b|);
    bw.Write(b);
    ok := true;
  }

  function HeaderLen(s: seq<Byte>): nat
    requires |s| >= 5
  {
    FromBigEndian(s[1..5])
  }

  method ReadFrameHeader(br: Reader) returns (r: Result<(Byte, nat), Error>)
    modifies br
    ensures |old(br.data)| >= 5 ==> r == Ok((old(br.data)[0], HeaderLen(old(br.data)))) && br.data == old(br.data)[5..]
    ensures |old(br.data)| < 5 ==> r == Err(Truncated)
  {
    var tb := br.ReadByte();
    if tb.Err? {
      return Err(tb.error);
    }
    var n := ReadUint32(br);
    if n.Err? {
      return Err(n.error);
    }
    assert old(br.data)[1..][..4] == old(br.data)[1..5];
    r := Ok((tb.value, n.value));
  }

  /**
   Reads one frame of at most maxSize into a buffer of bufLen bytes. A longer
   frame that is allowed is still consumed whole; `short` says bytes of it were
   thrown away.
   */
  method ReadFrame(br: Reader, maxSize: nat, bufLen: nat) returns (r: Result<(Byte, nat, seq<Byte>), Error>, short: bool)
    modifies br
    ensures var s := old(br.data);
            if |s| < 5 then r == Err(Truncated)
            else if HeaderLen(s) > maxSize then r == Err(TooLarge) && br.data == s[5..]
            else if |s| < 5 + HeaderLen(s) then r == Err(Truncated)
            else
              var n := HeaderLen(s);
              && r == Ok((s[0], n, s[5..5 + if n <= bufLen then n else bufLen]))
              && br.data == s[5 + n..] && short == (n > bufLen)
  {
    short := false;
    var h := ReadFrameHeader(br);
    if h.Err? {
      return Err(h.error), false;
    }
    var frameLen := h.value.1;
    if frameLen > maxSize {
      return Err(TooLarge), false;
    }
    var n := if frameLen <= bufLen then frameLen else bufLen;
    var b := br.ReadFull(n);
    if b.Err? {
      return Err(b.error), false;
    }
    var remain := frameLen - n;
    if remain > 0 {
      var skipped := br.ReadFull(remain);
      if skipped.Err? {
        return Err(skipped.error), false;
      }
      short := true;
    }
    assert br.data == old(br.data)[5 + frameLen..];
    assert b.value == old(br.data)[5..5 + n];
    r := Ok((h.value.0, frameLen, b.value));
  }

  /** The header and body of an encoded frame. */
  lemma HeaderOfEncoded(f: Frame, rest: seq<Byte>)
    requires |f.payload| < U32
    ensures var s := Encode(f) + rest;
            && |s| >= 5 + |f.payload| && s[0] == f.t && HeaderLen(s) == |f.payload|
            && s[5..] == f.payload + rest && s[5..5 + |f.payload|] == f.payload && s[5 + |f.payload|..] == rest
  {
    var s := Encode(f) + rest;
    assert s[1..5] == BigEndian(|f.payload|);
    BigEndianRoundTrip(|f.payload|);
  }

  // ---------------------------------------------------------------------
  // Messages
  // ---------------------------------------------------------------------

  datatype Msg =
    | ServerInfo
    | KeepAlive
    | PeerGone(key: seq<Byte>)
    | PeerPresent(key: seq<Byte>)
    | Packet(source: seq<Byte>, data: seq<Byte>)
    | Ping(ping: seq<Byte>)

  /** What one frame means to the receiver: nothing, a message, or the end of the connection. */
  datatype Meaning = Ignored | Means(m: Msg) | Fatal

  /** `opens` says whether the sealed box of a server-info frame opens to valid content. */
  function Decode(f: Frame, opens: seq<Byte> -> bool): Meaning {
    var b := f.payload;
    if f.t == FRAME_SERVER_INFO then
      if NONCE_LEN <= |b| <= NONCE_LEN + MAX_INFO_LEN && opens(b) then Means(ServerInfo) else Fatal
    else if f.t == FRAME_KEEP_ALIVE then Means(KeepAlive)
    else if f.t == FRAME_PEER_GONE then if |b| < KEY_LEN then Ignored else Means(PeerGone(b[..KEY_LEN]))
    else if f.t == FRAME_PEER_PRESENT then if |b| < KEY_LEN then Ignored else Means(PeerPresent(b[..KEY_LEN]))
    else if f.t == FRAME_RECV_PACKET then if |b| < KEY_LEN then Ignored else Means(Packet(b[..KEY_LEN], b[KEY_LEN..]))
    else if f.t == FRAME_PING then if |b| < 8 then Ignored else Means(Ping(b[..8]))
    else Ignored
  }

  /** The first frame of a stream. */
  function FirstFrame(s: seq<Byte>): (r: Result<Frame, Error>)
    ensures r.Ok? ==> |s| >= 5 + |r.value.payload|
  {
    if |s| < 5 then Err(Truncated)
    else if HeaderLen(s) > MAX_RECV_FRAME then Err(TooLarge)
    else if |s| < 5 + HeaderLen(s) then Err(Truncated)
    else Ok(Frame(s[0], s[5..5 + HeaderLen(s)]))
  }

  /** The simple parser: the next message of a stream and what follows it. */
  function NextMessage(s: seq<Byte>, opens: seq<Byte> -> bool): (r: Result<(Msg, seq<Byte>), Error>)
    ensures r.Ok? ==> |r.value.1| < |s|
    decreases |s|
  {
    match FirstFrame(s)
    case Err(e) => Err(e)
    case Ok(f) =>
      match Decode(f, opens)
      case Means(m) => Ok((m, s[5 + |f.payload|..]))
      case Fatal => Err(BadServerInfo)
      case Ignored => NextMessage(s[5 + |f.payload|..], opens)
  }

  // ---------------------------------------------------------------------
  // The client
  // ---------------------------------------------------------------------

  class Client {
    const br: Reader
    const opens: seq<Byte> -> bool
    var peeked: nat
    var readErr: Option<Error>

    ghost predicate Valid()
      reads this, br
    {
      readErr.None? ==> peeked <= |br.data|
    }

    /** The bytes the next receive starts from. */
    ghost function Remaining(): seq<Byte>
      requires Valid() && readErr.None?
      reads this, br
    {
      br.data[peeked..]
    }

    constructor (br: Reader, opens: seq<Byte> -> bool)
      ensures Valid() && readErr.None? && Remaining() == br.data && this.br == br && this.opens == opens
    {
      this.br, this.opens, peeked, readErr := br, opens, 0, None;
    }

    /**
     One pass of the receive loop up to the frame: discards what the last pass
     peeked at, then peeks at a frame that fits the buffer or copies one that
     does not. Either way it is the first frame of what remains.
     */
    method NextFrame() returns (r: Result<Frame, Error>)
      requires Valid() && readErr.None?
      modifies this, br
      ensures readErr.None? && r == FirstFrame(old(Remaining()))
      ensures r.Ok? ==> Valid() && Remaining() == old(Remaining())[5 + |r.value.payload|..]
    {
      ghost var s := Remaining();
      if peeked != 0 {
        br.Discard(peeked);
        peeked := 0;
      }
      assert br.data == s;
      var h := ReadFrameHeader(br);
      if h.Err? {
        return Err(h.error);
      }
      var (t, n) := h.value;
      if n > MAX_RECV_FRAME {
        return Err(TooLarge);
      }
      var b: Result<seq<Byte>, Error>;
      assert br.data == s[5..];
      if n <= br.size {
        b := br.Peek(n);
        peeked := n;
      } else {
        b := br.ReadFull(n);
      }
      if b.Err? {
        return Err(b.error);
      }
      assert b.value == s[5..5 + n] && br.data[peeked..] == s[5 + n..];
      r := Ok(Frame(t, b.value));
    }

    /**
     Receives one message. Whatever the size of the reader's buffer, it is the
     next message of the simple parser; the first error is kept and returned
     ever after.
     */
    method Recv() returns (r: Result<Msg, Error>)
      requires Valid()
      modifies this, br
      ensures Valid()
      ensures old(readErr).Some? ==> r == Err(old(readErr).value) && readErr == old(readErr) && br.data == old(br.data)
      ensures old(readErr).None? ==>
                match NextMessage(old(Remaining()), opens)
                case Ok((m, rest)) => r == Ok(m) && readErr.None? && Remaining() == rest
                case Err(e) => r == Err(e) && readErr == Some(e)
    {
      if readErr.Some? {
        return Err(readErr.value);
      }
      while true
        invariant Valid() && readErr.None?
        invariant NextMessage(Remaining(), opens) == NextMessage(old(Remaining()), opens)
        decreases |Remaining()|
      {
        var f := NextFrame();
        if f.Err? {
          readErr := Some(f.error);
          return Err(f.error);
        }
        match Decode(f.value, opens) {
          case Ignored =>
          case Means(m) => return Ok(m);
          case Fatal =>
            readErr := Some(BadServerInfo);
            return Err(BadServerInfo);
        }
      }
    }

    /** Receives until the first error. */
    method RecvAll() returns (ms: seq<Msg>, e: Error)
      requires Valid() && readErr.None?
      modifies this, br
      ensures Valid() && readErr == Some(e)
      ensures (ms, e) == AllMessages(old(Remaining()), opens)
    {
      ms := [];
      assert ms + AllMessages(Remaining(), opens).0 == AllMessages(Remaining(), opens).0;
      while true
        invariant Valid() && readErr.None?
        invariant AllMessages(old(Remaining()), opens) ==
                  (ms + AllMessages(Remaining(), opens).0, AllMessages(Remaining(), opens).1)
        decreases |Remaining()|
      {
        ghost var s := Remaining();
        var r := Recv();
        if r.Err? {
          assert ms + [] == ms;
          return ms, r.error;
        }
        assert AllMessages(s, opens) == ([r.value] + AllMessages(Remaining(), opens).0, AllMessages(Remaining(), opens).1);
        assert ms + ([r.value] + AllMessages(Remaining(), opens).0) == (ms + [r.value]) + AllMessages(Remaining(), opens).0;
        ms := ms + [r.value];
      }
    }
  }

  /** All the messages of a stream, and the error that ends it. */
  function AllMessages(s: seq<Byte>, opens: seq<Byte> -> bool): (seq<Msg>, Error)
    decreases |s|
  {
    match NextMessage(s, opens)
    case Err(e) => ([], e)
    case Ok((m, rest)) => var (ms, e) := AllMessages(rest, opens); ([m] + ms, e)
  }

  // ---------------------------------------------------------------------
  // Main results
  // ---------------------------------------------------------------------

  /** The known, long-enough frames in order, as messages, up to the first fatal one. */
  function Decoded(fs: seq<Frame>, opens: seq<Byte> -> bool): (seq<Msg>, Error) {
    if fs == [] then ([], Truncated)
    else
      match Decode(fs[0], opens)
      case Ignored => Decoded(fs[1..], opens)
      case Fatal => ([], BadServerInfo)
      case Means(m) => var (ms, e) := Decoded(fs[1..], opens); ([m] + ms, e)
  }

  /** Any frames written are received as exactly their messages, in order, and then the stream ends. */
  lemma {:induction false} FramesArrive(fs: seq<Frame>, opens: seq<Byte> -> bool)
    requires AllFit(fs, MAX_RECV_FRAME)
    ensures AllMessages(EncodeAll(fs), opens) == Decoded(fs, opens)
  {
    if fs != [] {
      var s, rest := EncodeAll(fs), EncodeAll(fs[1..]);
      HeaderOfEncoded(fs[0], rest);
      FramesArrive(fs[1..], opens);
      assert FirstFrame(s) == Ok(fs[0]) && s[5 + |fs[0].payload|..] == rest;
    }
  }

  /** A message that fits the format. A server-info message is sealed, and not among these. */
  predicate Sendable(m: Msg) {
    match m
    case ServerInfo => false
    case KeepAlive => true
    case PeerGone(key) => |key| == KEY_LEN
    case PeerPresent(key) => |key| == KEY_LEN
    case Packet(source, data) => |source| == KEY_LEN && KEY_LEN + |data| <= MAX_RECV_FRAME
    case Ping(ping) => |ping| == 8
  }

  /** The frame that is written for a message. */
  function FrameOf(m: Msg): (f: Frame)
    requires Sendable(m)
    ensures |f.payload| <= MAX_RECV_FRAME
  {
    match m
    case KeepAlive => Frame(FRAME_KEEP_ALIVE, [])
    case PeerGone(key) => Frame(FRAME_PEER_GONE, key)
    case PeerPresent(key) => Frame(FRAME_PEER_PRESENT, key)
    case Packet(source, data) => Frame(FRAME_RECV_PACKET, source + data)
    case Ping(ping) => Frame(FRAME_PING, ping)
  }

  lemma DecodeFrameOf(m: Msg, opens: seq<Byte> -> bool)
    requires Sendable(m)
    ensures Decode(FrameOf(m), opens) == Means(m)
  {
  }

  ghost predicate AllSendable(ms: seq<Msg>) { forall i :: 0 <= i < |ms| ==> Sendable(ms[i]) }

  function FramesOf(ms: seq<Msg>): (fs: seq<Frame>)
    requires AllSendable(ms)
    ensures |fs| == |ms| && forall i :: 0 <= i < |ms| ==> fs[i] == FrameOf(ms[i])
  {
    seq(|ms|, i requires 0 <= i < |ms| => FrameOf(ms[i]))
  }

  lemma {:induction false} MessagesDecode(ms: seq<Msg>, opens: seq<Byte> -> bool)
    requires AllSendable(ms)
    ensures Decoded(FramesOf(ms), opens) == (ms, Truncated)
  {
    if ms != [] {
      MessagesDecode(ms[1..], opens);
      assert FramesOf(ms)[1..] == FramesOf(ms[1..]);
      DecodeFrameOf(ms[0], opens);
      assert ms == [ms[0]] + ms[1..];
    }
  }

  /** Any messages written are received, in order, and then the stream ends. */
  lemma MessagesArrive(ms: seq<Msg>, opens: seq<Byte> -> bool)
    requires AllSendable(ms)
    ensures AllFit(FramesOf(ms), MAX_RECV_FRAME)
    ensures AllMessages(EncodeAll(FramesOf(ms)), opens) == (ms, Truncated)
  {
    FramesArrive(FramesOf(ms), opens);
    MessagesDecode(ms, opens);
  }

  /** The shortest payload that a frame of this type is understood with; None for a type that is not known. */
  function Needed(t: Byte): Option<nat> {
    if t == FRAME_SERVER_INFO then Some(NONCE_LEN)
    else if t == FRAME_KEEP_ALIVE then Some(0)
    else if t == FRAME_PEER_GONE || t == FRAME_PEER_PRESENT || t == FRAME_RECV_PACKET then Some(KEY_LEN)
    else if t == FRAME_PING then Some(8)
    else None
  }

  /**
   What any frame gives: one of unknown type or too short is skipped; a bad
   server-info frame ends the connection; any other gives a message whose own
   frame has its type and begins its payload, for a packet all of it.
   */
  lemma DecodeExactly(f: Frame, opens: seq<Byte> -> bool)
    requires |f.payload| <= MAX_RECV_FRAME
    ensures var info := f.t == FRAME_SERVER_INFO;
            var known := Needed(f.t).Some? && |f.payload| >= Needed(f.t).value;
            match Decode(f, opens)
            case Ignored => !info && !known
            case Fatal => info && !(known && |f.payload| <= NONCE_LEN + MAX_INFO_LEN && opens(f.payload))
            case Means(m) =>
              && known && (m.ServerInfo? <==> info) && (info ==> |f.payload| <= NONCE_LEN + MAX_INFO_LEN && opens(f.payload))
              && (!info ==> Sendable(m) && FrameOf(m).t == f.t && FrameOf(m).payload <= f.payload)
              && (m.Packet? ==> FrameOf(m).payload == f.payload)
  {
  }

  /** A frame over one MiB is refused, whatever it holds. */
  lemma OversizeIsRefused(f: Frame, rest: seq<Byte>)
    requires MAX_RECV_FRAME < |f.payload| < U32
    ensures FirstFrame(Encode(f) + rest) == Err(TooLarge)
  {
    HeaderOfEncoded(f, rest);
  }

  /** A stream that breaks off inside a frame ends in an error. */
  lemma TruncationIsNoticed(f: Frame, n: nat)
    requires |f.payload| <= MAX_RECV_FRAME && n < |Encode(f)|
    ensures FirstFrame(Encode(f)[..n]) == Err(Truncated)
  {
    HeaderOfEncoded(f, []);
    var s := Encode(f);
    assert s + [] == s;
    if n >= 5 { assert s[..n][1..5] == s[1..5]; }
  }

  /** The 32 bytes of each key. */
  type KeyBytes = f: DerpServer.Key -> seq<Byte> | forall k :: |f(k)| == KEY_LEN
    ghost witness k => seq(KEY_LEN, _ => 0)

  /** A mesh update as it is written to a watcher. */
  function UpdateFrame(u: DerpServer.PeerChange, bytes: KeyBytes): Frame {
    Frame(if u.present then FRAME_PEER_PRESENT else FRAME_PEER_GONE, bytes(u.peer))
  }

  function UpdateMsg(u: DerpServer.PeerChange, bytes: KeyBytes): Msg {
    if u.present then PeerPresent(bytes(u.peer)) else PeerGone(bytes(u.peer))
  }

  function UpdateFrames(us: seq<DerpServer.PeerChange>, bytes: KeyBytes): (fs: seq<Frame>)
    ensures |fs| == |us| && forall i :: 0 <= i < |us| ==> fs[i] == UpdateFrame(us[i], bytes)
  {
    seq(|us|, i requires 0 <= i < |us| => UpdateFrame(us[i], bytes))
  }

  function UpdateMsgs(us: seq<DerpServer.PeerChange>, bytes: KeyBytes): (ms: seq<Msg>)
    ensures |ms| == |us| && forall i :: 0 <= i < |us| ==> ms[i] == UpdateMsg(us[i], bytes)
  {
    seq(|us|, i requires 0 <= i < |us| => UpdateMsg(us[i], bytes))
  }

  /** A watcher receives the mesh updates that the relay wrote to it, one message each, in order. */
  lemma MeshUpdatesArrive(us: seq<DerpServer.PeerChange>, bytes: KeyBytes, opens: seq<Byte> -> bool)
    ensures AllFit(UpdateFrames(us, bytes), MAX_RECV_FRAME)
    ensures AllMessages(EncodeAll(UpdateFrames(us, bytes)), opens) == (UpdateMsgs(us, bytes), Truncated)
  {
    FramesArrive(UpdateFrames(us, bytes), opens);
    UpdatesDecode(us, bytes, opens);
  }

  lemma {:induction false} UpdatesDecode(us: seq<DerpServer.PeerChange>, bytes: KeyBytes, opens: seq<Byte> -> bool)
    ensures Decoded(UpdateFrames(us, bytes), opens) == (UpdateMsgs(us, bytes), Truncated)
  {
    if us != [] {
      UpdatesDecode(us[1..], bytes, opens);
      assert UpdateFrames(us, bytes)[1..] == UpdateFrames(us[1..], bytes);
      assert UpdateMsgs(us, bytes) == [UpdateMsg(us[0], bytes)] + UpdateMsgs(us[1..], bytes);
      var key := bytes(us[0].peer);
      assert key[..KEY_LEN] == key;
    }
  }

  // ---------------------------------------------------------------------
  // Sending packets through the server
  // ---------------------------------------------------------------------

  /** The client's send: a frame of the destination and the packet, unless the packet is too big. */
  method Send(bw: Writer, dst: seq<Byte>, pkt: seq<Byte>) returns (ok: bool)
    requires |dst| == KEY_LEN
    modifies bw
    ensures ok <==> |pkt| <= MAX_PACKET_SIZE
    ensures bw.out == if ok then old(bw.out) + Encode(Frame(FRAME_SEND_PACKET, dst + pkt)) else old(bw.out)
  {
    if |pkt| > MAX_PACKET_SIZE {
      return false;
    }
    WriteFrameHeader(bw, FRAME_SEND_PACKET, |dst| + |pkt|);
    bw.Write(dst);
    bw.Write(pkt);
    ok := true;
  }

  /** A mesh client's forward: the source before the destination. */
  method ForwardPacket(bw: Writer, src: seq<Byte>, dst: seq<Byte>, pkt: seq<Byte>) returns (ok: bool)
    requires |src| == KEY_LEN && |dst| == KEY_LEN
    modifies bw
    ensures ok <==> |pkt| <= MAX_PACKET_SIZE
    ensures bw.out == if ok then old(bw.out) + Encode(Frame(FRAME_FORWARD_PACKET, src + dst + pkt)) else old(bw.out)
  {
    if |pkt| > MAX_PACKET_SIZE {
      return false;
    }
    WriteFrameHeader(bw, FRAME_FORWARD_PACKET, 2 * KEY_LEN + |pkt|);
    bw.Write(src);
    bw.Write(dst);
    bw.Write(pkt);
    ok := true;
  }

  method ReadPublicKey(br: Reader) returns (r: Result<seq<Byte>, Error>)
    modifies br
    ensures |old(br.data)| >= KEY_LEN ==> r == Ok(old(br.data)[..KEY_LEN]) && br.data == old(br.data)[KEY_LEN..]
    ensures |old(br.data)| < KEY_LEN ==> r == Err(Truncated)
  {
    var key: seq<Byte> := [];
    for i := 0 to KEY_LEN
      invariant i <= |old(br.data)| && key == old(br.data)[..i] && br.data == old(br.data)[i..]
    {
      var b := br.ReadByte();
      if b.Err? {
        return Err(b.error);
      }
      key := key + [b.value];
    }
    r := Ok(key);
  }

  /** What the server makes of the body of a send frame. */
  function ParseSend(s: seq<Byte>, frameLen: nat): Result<(seq<Byte>, seq<Byte>), Error> {
    if frameLen < KEY_LEN then Err(Short)
    else if |s| < KEY_LEN then Err(Truncated)
    else if frameLen - KEY_LEN > MAX_PACKET_SIZE then Err(TooLarge)
    else if |s| < frameLen then Err(Truncated)
    else Ok((s[..KEY_LEN], s[KEY_LEN..frameLen]))
  }

  method RecvPacket(br: Reader, frameLen: nat) returns (r: Result<(seq<Byte>, seq<Byte>), Error>)
    modifies br
    ensures r == ParseSend(old(br.data), frameLen)
    ensures r.Ok? ==> br.data == old(br.data)[frameLen..]
  {
    if frameLen < KEY_LEN {
      return Err(Short);
    }
    var dst := ReadPublicKey(br);
    if dst.Err? {
      return Err(dst.error);
    }
    var packetLen := frameLen - KEY_LEN;
    if packetLen > MAX_PACKET_SIZE {
      return Err(TooLarge);
    }
    ghost var s := old(br.data);
    assert frameLen <= |s| ==> s[KEY_LEN..][..packetLen] == s[KEY_LEN..frameLen] && s[KEY_LEN..][packetLen..] == s[frameLen..];
    var contents := br.ReadFull(packetLen);
    if contents.Err? {
      return Err(contents.error);
    }
    r := Ok((dst.value, contents.value));
  }

  /** The server reads back exactly the destination and packet a client sent, and nothing of what follows. */
  method SendThenReceive(dst: seq<Byte>, pkt: seq<Byte>, rest: seq<Byte>, size: nat) returns (dst2: seq<Byte>, pkt2: seq<Byte>, left: seq<Byte>)
    requires |dst| == KEY_LEN && |pkt| <= MAX_PACKET_SIZE
    ensures dst2 == dst && pkt2 == pkt && left == rest
  {
    var bw := new Writer();
    var ok := Send(bw, dst, pkt);
    var f := Frame(FRAME_SEND_PACKET, dst + pkt);
    HeaderOfEncoded(f, rest);
    var br := new Reader(size, bw.out + rest);
    assert br.data == Encode(f) + rest;
    var h := ReadFrameHeader(br);
    var r := RecvPacket(br, h.value.1);
    dst2, pkt2, left := r.value.0, r.value.1, br.data;
  }

  /** Whether and how a send frame is read: the key, then a packet of at most 64 KiB, all of it there. */
  lemma ParseSendExactly(s: seq<Byte>, frameLen: nat)
    ensures var r := ParseSend(s, frameLen);
            && (r.Ok? <==> KEY_LEN <= frameLen <= KEY_LEN + MAX_PACKET_SIZE && frameLen <= |s|)
            && (r.Ok? ==> |r.value.0| == KEY_LEN && r.value.0 + r.value.1 == s[..frameLen])
            && (r.Err? ==> (r.error.Short? <==> frameLen < KEY_LEN) && (r.error.TooLarge? ==> frameLen > KEY_LEN + MAX_PACKET_SIZE))
  {
  }

  /** The body of a forward frame: two keys, then a packet of at most 64 KiB. */
  method RecvForwardPacket(br: Reader, frameLen: nat) returns (r: Result<(seq<Byte>, seq<Byte>, seq<Byte>), Error>)
    modifies br
    ensures r.Ok? <==> 2 * KEY_LEN <= frameLen <= 2 * KEY_LEN + MAX_PACKET_SIZE && frameLen <= |old(br.data)|
    ensures r.Ok? ==> |r.value.0| == KEY_LEN && |r.value.1| == KEY_LEN
    ensures r.Ok? ==> r.value.0 + r.value.1 + r.value.2 == old(br.data)[..frameLen] && br.data == old(br.data)[frameLen..]
  {
    if frameLen < 2 * KEY_LEN {
      return Err(Short);
    }
    ghost var s := br.data;
    var src := br.ReadFull(KEY_LEN);
    if src.Err? {
      return Err(src.error);
    }
    var dst := br.ReadFull(KEY_LEN);
    if dst.Err? {
      return Err(dst.error);
    }
    assert br.data == s[2 * KEY_LEN..];
    var packetLen := frameLen - 2 * KEY_LEN;
    if packetLen > MAX_PACKET_SIZE {
      return Err(TooLarge);
    }
    var contents := br.ReadFull(packetLen);
    if contents.Err? {
      return Err(contents.error);
    }
    assert src.value + dst.value + contents.value == s[..frameLen];
    r := Ok((src.value, dst.value, contents.value));
  }

  /** Another relay reads back exactly what a mesh client forwarded, and nothing of what follows. */
  method ForwardThenReceive(src: seq<Byte>, dst: seq<Byte>, pkt: seq<Byte>, rest: seq<Byte>, size: nat)
    returns (src2: seq<Byte>, dst2: seq<Byte>, pkt2: seq<Byte>, left: seq<Byte>)
    requires |src| == KEY_LEN && |dst| == KEY_LEN && |pkt| <= MAX_PACKET_SIZE
    ensures src2 == src && dst2 == dst && pkt2 == pkt && left == rest
  {
    var bw := new Writer();
    var ok := ForwardPacket(bw, src, dst, pkt);
    var f := Frame(FRAME_FORWARD_PACKET, src + dst + pkt);
    HeaderOfEncoded(f, rest);
    var br := new Reader(size, bw.out + rest);
    assert br.data == Encode(f) + rest;
    var h := ReadFrameHeader(br);
    assert br.data == f.payload + rest;
    var r := RecvForwardPacket(br, h.value.1);
    ThreeParts(r.value.0, r.value.1, r.value.2, src, dst, pkt);
    src2, dst2, pkt2, left := r.value.0, r.value.1, r.value.2, br.data;
  }

  lemma ThreeParts(a: seq<Byte>, b: seq<Byte>, c: seq<Byte>, x: seq<Byte>, y: seq<Byte>, z: seq<Byte>)
    requires a + b + c == x + y + z && |a| == |x| && |b| == |y|
    ensures a == x && b == y && c == z
  {
    var s := a + b + c;
    assert a == s[..|a|] && b == s[|a|..|a| + |b|] && c == s[|a| + |b|..];
    assert x == s[..|a|] && y == s[|a|..|a| + |b|] && z == s[|a| + |b|..];
  }

  /** The relay's write to the receiver: the source, unless it is the zero key, and the packet. */
  method SendPacket(bw: Writer, src: seq<Byte>, contents: seq<Byte>)
    requires |src| == KEY_LEN && |contents| <= MAX_PACKET_SIZE
    modifies bw
    ensures (exists i :: 0 <= i < KEY_LEN && src[i] != 0) ==> bw.out == old(bw.out) + Encode(FrameOf(Packet(src, contents)))
    ensures (forall i :: 0 <= i < KEY_LEN ==> src[i] == 0) ==> bw.out == old(bw.out) + Encode(Frame(FRAME_RECV_PACKET, contents))
  {
    var withKey := exists i :: 0 <= i < KEY_LEN && src[i] != 0;
    var pktLen := |contents|;
    if withKey {
      pktLen := pktLen + |src|;
    }
    WriteFrameHeader(bw, FRAME_RECV_PACKET, pktLen);
    if withKey {
      bw.Write(src);
    }
    bw.Write(contents);
  }

  /** From client to client: what one sends is what the other receives, with the sender's key. */
  method PacketIsRelayed(src: seq<Byte>, dst: seq<Byte>, pkt: seq<Byte>, size: nat, size2: nat, opens: seq<Byte> -> bool)
    returns (to: seq<Byte>, r: Result<Msg, Error>)
    requires |src| == KEY_LEN && |dst| == KEY_LEN && |pkt| <= MAX_PACKET_SIZE && exists i :: 0 <= i < KEY_LEN && src[i] != 0
    ensures to == dst && r == Ok(Packet(src, pkt))
  {
    var dst2, pkt2, left := SendThenReceive(dst, pkt, [], size);
    to := dst2;
    var bw := new Writer();
    SendPacket(bw, src, pkt2);
    var m := Packet(src, pkt);
    assert [m][1..] == [] && FramesOf([m])[1..] == [];
    assert bw.out == EncodeAll(FramesOf([m])) by { assert Encode(FrameOf(m)) + [] == Encode(FrameOf(m)); }
    MessagesArrive([m], opens);
    var br := new Reader(size2, bw.out);
    var c := new Client(br, opens);
    r := c.Recv();
  }
}
