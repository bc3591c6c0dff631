/** Protocol frames: magic, version, message type, length, reserved word, payload, checksum. */
module Protocol {
  import opened Enums
  import opened Wire
  import opened Crc

  const MAGIC: seq<byte> := [0x41, 0x48, 0x46, 0x31]
  const VERSION: byte := 1
  const MESSAGE_TYPES: nat := 15
  const MAX_PAYLOAD: nat := 0x10_0000
  const HEADER_SIZE: nat := 14
  const CRC_SIZE: nat := 4

  type MessageType = n: nat | n < MESSAGE_TYPES

  datatype Frame = Frame(kind: MessageType, payload: seq<byte>)

  datatype FrameError = BadMagic | BadVersion | BadType | Oversized | CrcMismatch

  datatype DecodeResult =
    | Decoded(frame: Frame, consumed: nat)
    | NeedMore
    | Malformed(error: FrameError)

  // ---- Encoding ----

  function Header(f: Frame): (h: seq<byte>)
    requires |f.payload| <= MAX_PAYLOAD
    ensures |h| == HEADER_SIZE
  {
    MAGIC + [VERSION] + PutLE(f.kind, 1) + PutLE(|f.payload|, 4) + [0, 0, 0, 0]
  }

  function Encode(f: Frame): (bs: seq<byte>)
    requires |f.payload| <= MAX_PAYLOAD
    ensures |bs| == HEADER_SIZE + |f.payload| + CRC_SIZE
  {
    Header(f) + f.payload + StoreWord(Checksum(Header(f) + f.payload))
  }

  method EncodeFrame(f: Frame) returns (bs: Option<seq<byte>>)
    ensures bs == if |f.payload| > MAX_PAYLOAD then None else Some(Encode(f))
  {
    if |f.payload| > MAX_PAYLOAD {
      return None;
    }
    var frame := MAGIC;
    frame := frame + [VERSION];
    frame := frame + PutLE(f.kind, 1);
    frame := frame + PutLE(|f.payload|, 4);
    frame := frame + [0, 0, 0, 0];
    frame := frame + f.payload;
    var crc := Crc32(frame);
    return Some(frame + StoreWord(crc));
  }

  // ---- Decoding ----

  function PayloadLength(buffer: seq<byte>): nat
    requires |buffer| >= HEADER_SIZE
  {
    GetLE(buffer[6..10])
  }

  function Total(buffer: seq<byte>): nat
    requires |buffer| >= HEADER_SIZE
  {
    HEADER_SIZE + PayloadLength(buffer) + CRC_SIZE
  }

  function Decode(buffer: seq<byte>): DecodeResult {
    if |buffer| < HEADER_SIZE then NeedMore
    else if buffer[..4] != MAGIC then Malformed(BadMagic)
    else if buffer[4] != VERSION then Malformed(BadVersion)
    else if GetLE(buffer[5..6]) >= MESSAGE_TYPES then Malformed(BadType)
    else if PayloadLength(buffer) > MAX_PAYLOAD then Malformed(Oversized)
    else if |buffer| < Total(buffer) then NeedMore
    else if !Sealed(buffer[..Total(buffer)]) then Malformed(CrcMismatch)
    else Decoded(Frame(GetLE(buffer[5..6]), buffer[HEADER_SIZE..HEADER_SIZE + PayloadLength(buffer)]), Total(buffer))
  }

  method DecodeFrame(buffer: seq<byte>) returns (r: DecodeResult)
    ensures r == Decode(buffer)
    ensures r.Decoded? ==> r.consumed <= |buffer|
  {
    if |buffer| < HEADER_SIZE {
      return NeedMore;
    }
    if buffer[..4] != MAGIC {
      return Malformed(BadMagic);
    }
    if buffer[4] != VERSION {
      return Malformed(BadVersion);
    }
    var kind := GetLE(buffer[5..6]);
    if kind >= MESSAGE_TYPES {
      return Malformed(BadType);
    }
    var len := GetLE(buffer[6..10]);
    if len > MAX_PAYLOAD {
      return Malformed(Oversized);
    }
    var total := HEADER_SIZE + len + CRC_SIZE;
    if |buffer| < total {
      return NeedMore;
    }
    var expected := LoadWord(buffer[total - CRC_SIZE..total]);
    var actual := Crc32(buffer[..total - CRC_SIZE]);
    assert buffer[..total][..total - CRC_SIZE] == buffer[..total - CRC_SIZE];
    assert buffer[..total][total - CRC_SIZE..] == buffer[total - CRC_SIZE..total];
    if expected != actual {
      return Malformed(CrcMismatch);
    }
    return Decoded(Frame(kind, buffer[HEADER_SIZE..HEADER_SIZE + len]), total);
  }

  /** Which outcome a buffer has: the checks come in this order. */
  lemma OutcomesExactly(b: seq<byte>)
    ensures |b| < 14 ==> Decode(b) == NeedMore
    ensures |b| >= 14 ==>
      var len := GetLE(b[6..10]);
      var magic, version, kind, small :=
        b[..4] == [0x41, 0x48, 0x46, 0x31], b[4] == 1, GetLE(b[5..6]) < 15, len <= 0x10_0000;
      var whole := magic && version && kind && small && |b| >= 18 + len;
      && (Decode(b) == Malformed(BadMagic) <==> !magic)
      && (Decode(b) == Malformed(BadVersion) <==> magic && !version)
      && (Decode(b) == Malformed(BadType) <==> magic && version && !kind)
      && (Decode(b) == Malformed(Oversized) <==> magic && version && kind && !small)
      && (Decode(b) == NeedMore <==> magic && version && kind && small && !whole)
      && (Decode(b) == Malformed(CrcMismatch) <==> whole && !Sealed(b[..18 + len]))
      && (Decode(b).Decoded? <==> whole && Sealed(b[..18 + len]))
      && (Decode(b).Decoded? ==>
            && Decode(b).consumed == 18 + len
            && Decode(b).frame.kind == GetLE(b[5..6]) && Decode(b).frame.payload == b[14..14 + len])
  {
    hide GetLE, Sealed;
  }

  // ---- Frames are a prefix-free code ----

  lemma HeaderFields(f: Frame, rest: seq<byte>)
    requires |f.payload| <= MAX_PAYLOAD
    ensures var b := Header(f) + rest;
      b[..4] == MAGIC && b[4] == VERSION && GetLE(b[5..6]) == f.kind && PayloadLength(b) == |f.payload|
  {
    hide PutLE, GetLE;
    var b := Header(f) + rest;
    assert b[5..6] == PutLE(f.kind, 1);
    assert b[6..10] == PutLE(|f.payload|, 4);
    SmallRoundTrip(f.kind, |f.payload|);
  }

  lemma SmallRoundTrip(k: nat, n: nat)
    requires k < 256 && n <= MAX_PAYLOAD
    ensures GetLE(PutLE(k, 1)) == k && GetLE(PutLE(n, 4)) == n
  {
    LittleEndianRoundTrip(k, 1);
    LittleEndianRoundTrip(n, 4);
  }

  /** Whatever follows a frame, decoding gives the frame back and consumes exactly it. */
  lemma FrameRoundTrip(f: Frame, rest: seq<byte>)
    requires |f.payload| <= MAX_PAYLOAD
    ensures Decode(Encode(f) + rest) == Decoded(f, |Encode(f)|)
  {
    hide Sealed, Header, Checksum, StoreWord, GetLE;
    var frame, buffer := Encode(f), Encode(f) + rest;
    var tail := StoreWord(Checksum(Header(f) + f.payload));
    assert buffer == Header(f) + (f.payload + tail + rest);
    HeaderFields(f, f.payload + tail + rest);
    assert buffer[..|frame|] == frame;
    SealedIsSealed(Header(f) + f.payload);
    assert buffer[HEADER_SIZE..HEADER_SIZE + |f.payload|] == f.payload;
  }

  /** Every proper prefix of a frame asks for more and consumes nothing. */
  lemma ProperPrefixNeedsMore(f: Frame, k: nat)
    requires |f.payload| <= MAX_PAYLOAD
    requires k < |Encode(f)|
    ensures Decode(Encode(f)[..k]) == NeedMore
  {
    hide Sealed, Header, Checksum, StoreWord, GetLE;
    if k >= HEADER_SIZE {
      var prefix := Encode(f)[..k];
      assert prefix == Header(f) + prefix[HEADER_SIZE..] by {
        assert Encode(f)[..HEADER_SIZE] == Header(f);
      }
      HeaderFields(f, prefix[HEADER_SIZE..]);
    }
  }

  // ---- Streams ----

  predicate Sendable(fs: seq<Frame>) {
    forall i :: 0 <= i < |fs| ==> |fs[i].payload| <= MAX_PAYLOAD
  }

  function EncodeAll(fs: seq<Frame>): seq<byte>
    requires Sendable(fs)
  {
    if fs == [] then [] else Encode(fs[0]) + EncodeAll(fs[1..])
  }

  /** Take frames off the front of a buffer until one is incomplete or malformed. */
  function DecodeAll(buffer: seq<byte>): (seq<Frame>, seq<byte>)
    decreases |buffer|
  {
    var r := Decode(buffer);
    if r.Decoded? then
      var later := DecodeAll(buffer[r.consumed..]);
      ([r.frame] + later.0, later.1)
    else ([], buffer)
  }

  /** A stream of frames, cut anywhere, decodes to the frames that are complete and leaves
      the begun one untouched. */
  lemma {:induction false} StreamRoundTrip(fs: seq<Frame>, next: Frame, k: nat)
    requires Sendable(fs) && |next.payload| <= MAX_PAYLOAD
    requires k < |Encode(next)|
    ensures DecodeAll(EncodeAll(fs) + Encode(next)[..k]) == (fs, Encode(next)[..k])
    decreases |fs|
  {
    hide Decode, Encode;
    var partial := Encode(next)[..k];
    if fs == [] {
      assert EncodeAll(fs) + partial == partial;
      ProperPrefixNeedsMore(next, k);
    } else {
      var rest := EncodeAll(fs[1..]) + partial;
      assert EncodeAll(fs) + partial == Encode(fs[0]) + rest;
      FrameRoundTrip(fs[0], rest);
      assert (Encode(fs[0]) + rest)[|Encode(fs[0])|..] == rest;
      StreamRoundTrip(fs[1..], next, k);
      assert [fs[0]] + fs[1..] == fs;
    }
  }

  /** Two buffers that both decode to frames of one length, and differ only inside four
      consecutive bytes of them, carry the same frame. */
  lemma FrameCorruptionDetected(b: seq<byte>, c: seq<byte>, i: nat)
    requires Decode(b).Decoded? && Decode(c).Decoded? && Decode(b).consumed == Decode(c).consumed
    requires var n := Decode(b).consumed;
      i + 4 <= n <= |b| && n <= |c| && b[..i] == c[..i] && b[i + 4..n] == c[i + 4..n]
    ensures Decode(b).frame == Decode(c).frame
  {
    hide Sealed, GetLE;
    var n := Decode(b).consumed;
    var f, g := b[..n], c[..n];
    assert f[..i] == b[..i] && g[..i] == c[..i];
    assert f[i + 4..] == b[i + 4..n] && g[i + 4..] == c[i + 4..n];
    BurstIsDetected(f, g, i);
    var len := PayloadLength(b);
    SliceOfPrefix(b, n, 5, 6);
    SliceOfPrefix(c, n, 5, 6);
    SliceOfPrefix(b, n, 6, 10);
    SliceOfPrefix(c, n, 6, 10);
    SliceOfPrefix(b, n, HEADER_SIZE, HEADER_SIZE + len);
    SliceOfPrefix(c, n, HEADER_SIZE, HEADER_SIZE + len);
  }

  lemma SliceOfPrefix(s: seq<byte>, n: nat, lo: nat, hi: nat)
    requires lo <= hi <= n <= |s|
    ensures s[..n][lo..hi] == s[lo..hi]
  {
  }
}
