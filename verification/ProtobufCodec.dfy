/** muduo/net/protobuf/ProtobufCodecLite.cc: length-prefixed, tagged and checksummed
    frames over the byte buffer. Serialization itself is a parameter. */
module ProtobufCodec {
  import opened Bytes
  import opened Incremental
  import opened NetBuffer

  const HEADER_LEN: nat := 4
  const CHECKSUM_LEN: nat := 4
  const MAX_MESSAGE_LEN: nat := 64 * 1024 * 1024
  const ADLER_BASE: nat := 65521

  datatype ErrorCode = InvalidLength | CheckSumError | UnknownMessageType | ParseError

  /** A codec for messages of type M. `raw`, when present, sees each whole frame first
      and returns false to keep it from being parsed. */
  datatype Codec<!M> = Codec(
    tag: bytes,
    serialize: M -> bytes,
    deserialize: bytes -> Option<M>,
    raw: Option<bytes -> bool>)
  {
    function MinMessageLen(): nat { |tag| + CHECKSUM_LEN }

    /** The part of the frame of m that the checksum covers. */
    function Checked(m: M): bytes { tag + serialize(m) }

    /** The raw callback, if there is one, lets the frame be parsed. */
    predicate Accepts(frame: bytes) { raw.Some? ==> raw.value(frame) }

    predicate WithinLimit(m: M) { |Checked(m)| + CHECKSUM_LEN <= MAX_MESSAGE_LEN }

    /** Short enough, and read back as itself by the serialization library. */
    ghost predicate Sendable(m: M) {
      WithinLimit(m) && deserialize(serialize(m)) == Some(m)
    }

    /** The wire format: size, tag, payload, checksum. The sender does not look at the limit. */
    function Frame(m: M): bytes {
      var len := |Checked(m)| + CHECKSUM_LEN;
      EncodeSigned(ToInt32(len), HEADER_LEN) + Checked(m) + EncodeSigned(Checksum(Checked(m)), CHECKSUM_LEN)
    }
  }

  /** The cast to int32_t, which wraps around. */
  function ToInt32(x: int): (r: int)
    ensures FitsSigned(r, 4)
    ensures -0x8000_0000 <= x < 0x8000_0000 ==> r == x
    ensures 0x8000_0000 <= x < 0x1_0000_0000 ==> r == x - 0x1_0000_0000
  {
    var u := x % 0x1_0000_0000;
    var r := if u >= 0x8000_0000 then u - 0x1_0000_0000 else u;
    FitsInt32(r);
    r
  }

  lemma FitsInt32(x: int)
    ensures FitsSigned(x, 4) <==> -0x8000_0000 <= x < 0x8000_0000
  {
    assert Pow256(4) == 0x1_0000_0000;
  }

  // ---- Adler-32, section 2.2 of RFC 1950 ----

  function AdlerLow(s: bytes): (a: nat)
    ensures a < ADLER_BASE
  {
    if s == [] then 1 else (AdlerLow(s[..|s| - 1]) + s[|s| - 1]) % ADLER_BASE
  }

  function AdlerHigh(s: bytes): (b: nat)
    ensures b < ADLER_BASE
  {
    if s == [] then 0 else (AdlerHigh(s[..|s| - 1]) + AdlerLow(s)) % ADLER_BASE
  }

  /** The sum of the bytes, and the sum of the sums of all prefixes, each begun at 1. */
  function ByteSum(s: bytes): nat {
    if s == [] then 0 else ByteSum(s[..|s| - 1]) + s[|s| - 1]
  }

  function SumOfSums(s: bytes): nat {
    if s == [] then 0 else SumOfSums(s[..|s| - 1]) + (1 + ByteSum(s))
  }

  lemma ReduceLater(a: nat, b: nat)
    ensures (a % ADLER_BASE + b) % ADLER_BASE == (a + b) % ADLER_BASE
    ensures (a + b % ADLER_BASE) % ADLER_BASE == (a + b) % ADLER_BASE
  {
  }

  /** Reducing at every byte gives the two sums of section 2.2 of RFC 1950, each modulo 65521. */
  lemma {:induction false} AdlerIsSums(s: bytes)
    ensures AdlerLow(s) == (1 + ByteSum(s)) % 65521
    ensures AdlerHigh(s) == SumOfSums(s) % 65521
    decreases |s|
  {
    if s != [] {
      var front := s[..|s| - 1];
      AdlerIsSums(front);
      ReduceLater(1 + ByteSum(front), s[|s| - 1]);
      ReduceLater(SumOfSums(front), 1 + ByteSum(s));
      ReduceLater(AdlerHigh(front), 1 + ByteSum(s));
    }
  }

  /** The unsigned checksum read as an int32_t. */
  function Checksum(s: bytes): (r: int)
    ensures FitsSigned(r, CHECKSUM_LEN)
  {
    var u := AdlerHigh(s) * 65536 + AdlerLow(s);
    var r := if u >= 0x8000_0000 then u - 0x1_0000_0000 else u;
    FitsInt32(r);
    r
  }

  /** The checksum is the 32-bit number with the second sum in its upper half and the first in its lower. */
  lemma ChecksumIsAdler32(s: bytes)
    ensures Checksum(s) == ToInt32(SumOfSums(s) % 65521 * 65536 + (1 + ByteSum(s)) % 65521)
  {
    AdlerIsSums(s);
  }

  // ---- One look at the front of the buffer ----

  datatype Parsed<+M> = Message(message: M) | Rejected(error: ErrorCode)

  function Parse<M>(c: Codec<M>, body: bytes): Parsed<M>
    requires |body| >= c.MinMessageLen()
  {
    var n := |body| - CHECKSUM_LEN;
    if DecodeSigned(body[n..]) != Checksum(body[..n]) then Rejected(CheckSumError)
    else if body[..|c.tag|] != c.tag then Rejected(UnknownMessageType)
    else
      match c.deserialize(body[|c.tag|..n])
      case Some(m) => Message(m)
      case None => Rejected(ParseError)
  }

  /** The loop body of onMessage; the state is the list of messages delivered so far. */
  function Look<M>(c: Codec<M>, delivered: seq<M>, buf: bytes): Step<seq<M>, ErrorCode> {
    if |buf| < c.MinMessageLen() + HEADER_LEN then Wait
    else
      var len := DecodeSigned(buf[..HEADER_LEN]);
      if len > MAX_MESSAGE_LEN || len < c.MinMessageLen() then Halt(0, delivered, InvalidLength)
      else if |buf| < HEADER_LEN + len then Wait
      else if c.raw.Some? && !c.raw.value(buf[..HEADER_LEN + len]) then
        Advance(HEADER_LEN + len, delivered)
      else
        match Parse(c, buf[HEADER_LEN..HEADER_LEN + len])
        case Message(m) => Advance(HEADER_LEN + len, delivered + [m])
        case Rejected(e) => Halt(0, delivered, e)
  }

  function Decoder<M>(c: Codec<M>): Parser<seq<M>, ErrorCode> {
    (delivered, buf) => Look(c, delivered, buf)
  }

  lemma LookStable<M>(c: Codec<M>, delivered: seq<M>, a: bytes, b: bytes)
    requires !Look(c, delivered, a).Wait?
    ensures Look(c, delivered, a + b) == Look(c, delivered, a)
  {
    assert (a + b)[..HEADER_LEN] == a[..HEADER_LEN];
    var len := DecodeSigned(a[..HEADER_LEN]);
    if c.MinMessageLen() <= len <= MAX_MESSAGE_LEN {
      assert (a + b)[..HEADER_LEN + len] == a[..HEADER_LEN + len];
      assert (a + b)[HEADER_LEN..HEADER_LEN + len] == a[HEADER_LEN..HEADER_LEN + len];
    }
  }

  lemma DecoderStable<M(!new)>(c: Codec<M>)
    ensures Stable(Decoder(c)) && Sticky(Decoder(c))
  {
    forall s, a, b | !Decoder(c)(s, a).Wait? ensures Decoder(c)(s, a + b) == Decoder(c)(s, a) {
      LookStable(c, s, a, b);
    }
  }

  /** A call of onMessage when `delivered` was delivered already. */
  ghost function OnMessageFrom<M(!new)>(c: Codec<M>, delivered: seq<M>, buf: bytes): Result<seq<M>, ErrorCode> {
    DecoderStable(c);
    Run(Decoder(c), delivered, buf)
  }

  lemma OnMessageFromStep<M(!new)>(c: Codec<M>, delivered: seq<M>, buf: bytes)
    ensures OnMessageFrom(c, delivered, buf) ==
            match Look(c, delivered, buf)
            case Wait => Result(delivered, buf, None)
            case Advance(n, delivered') =>
              if n <= |buf| then OnMessageFrom(c, delivered', buf[n..]) else Result(delivered, buf, None)
            case Halt(_, _, e) => Result(delivered, buf, Some(e))
  {
    DecoderStable(c);
    assert buf[0..] == buf;
  }

  /** What one call of onMessage does: the messages delivered, the bytes left in the buffer and
      the error reported, if any. */
  ghost function OnMessage<M(!new)>(c: Codec<M>, buf: bytes): Result<seq<M>, ErrorCode> {
    OnMessageFrom(c, [], buf)
  }

  /** One call of onMessage per arriving chunk. */
  ghost function OnChunksFrom<M(!new)>(c: Codec<M>, delivered: seq<M>, pending: bytes, chunks: seq<bytes>)
    : Result<seq<M>, ErrorCode>
  {
    DecoderStable(c);
    FeedAll(Decoder(c), delivered, pending, chunks)
  }

  ghost function OnChunks<M(!new)>(c: Codec<M>, chunks: seq<bytes>): Result<seq<M>, ErrorCode> {
    OnChunksFrom(c, [], [], chunks)
  }

  /** However a byte stream is cut, even a corrupt one, the messages delivered, the bytes left
      over and the last error are those of a single call on the whole stream. */
  lemma ChunkingIndependent<M(!new)>(c: Codec<M>, chunks: seq<bytes>)
    ensures OnChunks(c, chunks) == OnMessage(c, Flatten(chunks))
  {
    DecoderStable(c);
    if chunks != [] {
      assert [] + Flatten(chunks) == Flatten(chunks);
      FeedAllIsOneCall(Decoder(c), [], [], chunks);
    }
  }

  // ---- Round trip ----

  lemma FrameShape<M>(c: Codec<M>, m: M)
    requires c.WithinLimit(m)
    ensures var f := c.Frame(m); var n := |f| - CHECKSUM_LEN;
            && |f| >= HEADER_LEN + c.MinMessageLen()
            && DecodeSigned(f[..HEADER_LEN]) == |f| - HEADER_LEN <= MAX_MESSAGE_LEN
            && f[HEADER_LEN..n] == c.Checked(m)
            && DecodeSigned(f[n..]) == Checksum(c.Checked(m))
  {
    var f := c.Frame(m);
    var n := |f| - CHECKSUM_LEN;
    var len := |c.Checked(m)| + CHECKSUM_LEN;
    FitsInt32(len);
    SignedRoundTrip(len, HEADER_LEN);
    SignedRoundTrip(Checksum(c.Checked(m)), CHECKSUM_LEN);
    assert f[..HEADER_LEN] == EncodeSigned(len, HEADER_LEN);
    assert f[n..] == EncodeSigned(Checksum(c.Checked(m)), CHECKSUM_LEN);
  }

  lemma FrameParses<M>(c: Codec<M>, m: M, body: bytes)
    requires c.Sendable(m)
    requires |body| == |c.Checked(m)| + CHECKSUM_LEN
    requires body[..|c.Checked(m)|] == c.Checked(m)
    requires DecodeSigned(body[|c.Checked(m)|..]) == Checksum(c.Checked(m))
    ensures Parse(c, body) == Message(m)
  {
    var n := |c.Checked(m)|;
    assert body[..|c.tag|] == body[..n][..|c.tag|] == c.tag;
    assert body[|c.tag|..n] == body[..n][|c.tag|..] == c.serialize(m);
  }

  /** What a frame delivers. */
  function Passes<M>(c: Codec<M>, m: M): seq<M> {
    if c.Accepts(c.Frame(m)) then [m] else []
  }

  lemma FrameAtFront<M>(c: Codec<M>, m: M, delivered: seq<M>, rest: bytes)
    requires c.Sendable(m)
    ensures Look(c, delivered, c.Frame(m) + rest) == Advance(|c.Frame(m)|, delivered + Passes(c, m))
  {
    FrameShape(c, m);
    var f := c.Frame(m);
    var n := |f| - CHECKSUM_LEN;
    var body := (f + rest)[HEADER_LEN..|f|];
    assert body[..|c.Checked(m)|] == f[HEADER_LEN..n];
    assert body[|c.Checked(m)|..] == f[n..];
    FrameParses(c, m, body);
    assert delivered + [] == delivered;
    assert (f + rest)[..HEADER_LEN] == f[..HEADER_LEN] && (f + rest)[..|f|] == f;
  }

  /** A proper prefix of a frame is kept for later without an error. */
  lemma PrefixWaits<M>(c: Codec<M>, m: M, delivered: seq<M>, tail: bytes)
    requires c.WithinLimit(m) && tail < c.Frame(m)
    ensures Look(c, delivered, tail) == Wait
  {
    FrameShape(c, m);
    if |tail| >= c.MinMessageLen() + HEADER_LEN {
      assert tail[..HEADER_LEN] == c.Frame(m)[..HEADER_LEN];
    }
  }

  // ---- Damaged frames ----

  /** t is s with exactly the byte at k replaced by another. */
  predicate OneByteOff(s: bytes, t: bytes, k: nat) {
    && |s| == |t| && k < |s| && s[k] != t[k]
    && s[..k] == t[..k] && s[k + 1..] == t[k + 1..]
  }

  lemma OneByteOffBefore(s: bytes, t: bytes, k: nat, n: nat)
    requires OneByteOff(s, t, k) && k < n <= |s|
    ensures OneByteOff(s[..n], t[..n], k) && s[n..] == t[n..]
  {
    assert s[..n][..k] == s[..k] && t[..n][..k] == t[..k];
    assert s[..n][k + 1..] == s[k + 1..][..n - k - 1] && t[..n][k + 1..] == t[k + 1..][..n - k - 1];
    assert s[n..] == s[k + 1..][n - k - 1..] && t[n..] == t[k + 1..][n - k - 1..];
  }

  lemma OneByteOffAfter(s: bytes, t: bytes, k: nat, n: nat)
    requires OneByteOff(s, t, k) && n <= k
    ensures OneByteOff(s[n..], t[n..], k - n) && s[..n] == t[..n]
  {
    assert s[n..][..k - n] == s[..k][n..] && t[n..][..k - n] == t[..k][n..];
    assert s[n..][k - n + 1..] == s[k + 1..] && t[n..][k - n + 1..] == t[k + 1..];
    assert s[..n] == s[..k][..n] && t[..n] == t[..k][..n];
  }

  lemma {:induction false} AdlerLowDiffers(s: bytes, t: bytes, k: nat)
    requires OneByteOff(s, t, k)
    ensures AdlerLow(s) != AdlerLow(t)
    decreases |s|
  {
    var n := |s| - 1;
    if k == n {
      LowStep(AdlerLow(s[..n]), AdlerLow(t[..n]), s[n], t[n]);
    } else {
      OneByteOffBefore(s, t, k, n);
      assert s[n] == s[n..][0] == t[n..][0] == t[n];
      AdlerLowDiffers(s[..n], t[..n], k);
      LowStep(AdlerLow(s[..n]), AdlerLow(t[..n]), s[n], t[n]);
    }
  }

  lemma LowStep(a: nat, b: nat, x: byte, y: byte)
    requires a < ADLER_BASE && b < ADLER_BASE && (if a == b then x != y else x == y)
    ensures (a + x) % ADLER_BASE != (b + y) % ADLER_BASE
  {
    assert a + x < 2 * ADLER_BASE && b + y < 2 * ADLER_BASE;
  }

  lemma ChecksumDiffers(s: bytes, t: bytes, k: nat)
    requires OneByteOff(s, t, k)
    ensures Checksum(s) != Checksum(t)
  {
    AdlerLowDiffers(s, t, k);
    HalvesDiffer(AdlerHigh(s), AdlerLow(s), AdlerHigh(t), AdlerLow(t));
  }

  lemma HalvesDiffer(b: nat, a: nat, b': nat, a': nat)
    requires a < ADLER_BASE && a' < ADLER_BASE && b < ADLER_BASE && b' < ADLER_BASE && a != a'
    ensures b * 65536 + a != b' * 65536 + a'
    ensures b * 65536 + a < 0x1_0000_0000 && b' * 65536 + a' < 0x1_0000_0000
  {
  }

  lemma DecodeInjective(s: bytes, t: bytes)
    requires |s| == |t| && s != t
    ensures DecodeSigned(s) != DecodeSigned(t)
  {
    SignedRoundTripBytes(s);
    SignedRoundTripBytes(t);
  }

  lemma DamagedBodyRejected<M>(c: Codec<M>, body: bytes, damaged: bytes, k: nat)
    requires |body| >= c.MinMessageLen() && OneByteOff(body, damaged, k)
    requires DecodeSigned(body[|body| - CHECKSUM_LEN..]) == Checksum(body[..|body| - CHECKSUM_LEN])
    ensures Parse(c, damaged) == Rejected(CheckSumError)
  {
    var n := |body| - CHECKSUM_LEN;
    if k < n {
      OneByteOffBefore(body, damaged, k, n);
      ChecksumDiffers(body[..n], damaged[..n], k);
    } else {
      OneByteOffAfter(body, damaged, k, n);
      DecodeInjective(body[n..], damaged[n..]);
    }
  }

  lemma RejectedLook<M>(c: Codec<M>, all: bytes, len: int, e: ErrorCode)
    requires c.MinMessageLen() <= len <= MAX_MESSAGE_LEN && HEADER_LEN + len <= |all|
    requires c.Accepts(all[..HEADER_LEN + len])
    requires len == DecodeSigned(all[..HEADER_LEN]) && Parse(c, all[HEADER_LEN..HEADER_LEN + len]) == Rejected(e)
    ensures Look(c, [], all) == Halt(0, [], e)
  {
  }

  lemma DamagedFrameRejected<M>(c: Codec<M>, m: M, damaged: bytes, k: nat)
    requires c.WithinLimit(m) && OneByteOff(c.Frame(m), damaged, k) && k >= HEADER_LEN
    ensures |damaged| >= HEADER_LEN + c.MinMessageLen()
    ensures DecodeSigned(damaged[..HEADER_LEN]) == |damaged| - HEADER_LEN <= MAX_MESSAGE_LEN
    ensures Parse(c, damaged[HEADER_LEN..]) == Rejected(CheckSumError)
  {
    var f := c.Frame(m);
    FrameBody(c, m);
    OneByteOffAfter(f, damaged, k, HEADER_LEN);
    DamagedBodyRejected(c, f[HEADER_LEN..], damaged[HEADER_LEN..], k - HEADER_LEN);
  }

  lemma FrameBody<M>(c: Codec<M>, m: M)
    requires c.WithinLimit(m)
    ensures var f := c.Frame(m);
            && |f| >= HEADER_LEN + c.MinMessageLen()
            && DecodeSigned(f[..HEADER_LEN]) == |f| - HEADER_LEN <= MAX_MESSAGE_LEN
            && var body := f[HEADER_LEN..];
               DecodeSigned(body[|body| - CHECKSUM_LEN..]) == Checksum(body[..|body| - CHECKSUM_LEN])
  {
    FrameShape(c, m);
    var f := c.Frame(m);
    var body := f[HEADER_LEN..];
    assert body[|body| - CHECKSUM_LEN..] == f[|f| - CHECKSUM_LEN..];
    assert body[..|body| - CHECKSUM_LEN] == c.Checked(m);
  }

  lemma DamagedLook<M>(c: Codec<M>, m: M, damaged: bytes, k: nat, rest: bytes)
    requires c.WithinLimit(m) && c.Accepts(damaged)
    requires OneByteOff(c.Frame(m), damaged, k) && k >= HEADER_LEN
    ensures Look(c, [], damaged + rest) == Halt(0, [], CheckSumError)
  {
    DamagedFrameRejected(c, m, damaged, k);
    var all := damaged + rest;
    assert all[..HEADER_LEN] == damaged[..HEADER_LEN] && all[..|damaged|] == damaged;
    assert all[HEADER_LEN..|damaged|] == damaged[HEADER_LEN..];
    RejectedLook(c, all, |damaged| - HEADER_LEN, CheckSumError);
  }

  /** Whatever single byte after the length field of a frame is changed in transit, to whatever value, the
      message is not delivered: unless the raw callback takes the frame away, a checksum error is reported and
      no byte is consumed. */
  lemma DamageDetected<M(!new)>(c: Codec<M>, m: M, damaged: bytes, k: nat, rest: bytes)
    requires c.WithinLimit(m) && c.Accepts(damaged)
    requires OneByteOff(c.Frame(m), damaged, k) && k >= HEADER_LEN
    ensures OnMessage(c, damaged + rest) == Result([], damaged + rest, Some(CheckSumError))
  {
    DamagedLook(c, m, damaged, k, rest);
    OnMessageFromStep(c, [], damaged + rest);
  }

  // ---- Frames of another codec ----

  /** An undamaged frame of codec d, looked at with the tag and the deserialization of codec c. */
  lemma ForeignParse<M, N>(c: Codec<M>, d: Codec<N>, m: N, body: bytes)
    requires |body| == |d.Checked(m)| + CHECKSUM_LEN && |c.tag| <= |d.Checked(m)|
    requires body[..|d.Checked(m)|] == d.Checked(m)
    requires DecodeSigned(body[|d.Checked(m)|..]) == Checksum(d.Checked(m))
    ensures Parse(c, body) == if !(c.tag <= d.Checked(m)) then Rejected(UnknownMessageType)
                              else match c.deserialize(d.Checked(m)[|c.tag|..])
                                   case Some(other) => Message(other)
                                   case None => Rejected(ParseError)
  {
    var checked := d.Checked(m);
    assert body[..|c.tag|] == checked[..|c.tag|];
    assert body[|c.tag|..|checked|] == checked[|c.tag|..];
  }

  /** A whole frame whose tag is another one is refused as of unknown type, and one whose payload cannot be read
      back as a parse error; no byte is consumed. */
  lemma ForeignFrameRefused<M(!new), N>(c: Codec<M>, d: Codec<N>, m: N, rest: bytes)
    requires d.WithinLimit(m) && c.Accepts(d.Frame(m)) && |c.tag| <= |d.Checked(m)|
    ensures !(c.tag <= d.Checked(m)) ==>
              OnMessage(c, d.Frame(m) + rest) == Result([], d.Frame(m) + rest, Some(UnknownMessageType))
    ensures c.tag <= d.Checked(m) && c.deserialize(d.Checked(m)[|c.tag|..]).None? ==>
              OnMessage(c, d.Frame(m) + rest) == Result([], d.Frame(m) + rest, Some(ParseError))
  {
    var f, all, n := d.Frame(m), d.Frame(m) + rest, |d.Frame(m)| - CHECKSUM_LEN;
    FrameShape(d, m);
    assert all[..HEADER_LEN] == f[..HEADER_LEN] && all[..|f|] == f && all[HEADER_LEN..|f|] == f[HEADER_LEN..];
    var body := f[HEADER_LEN..];
    assert body[..|d.Checked(m)|] == f[HEADER_LEN..n] && body[|d.Checked(m)|..] == f[n..];
    ForeignParse(c, d, m, body);
    if Parse(c, body).Rejected? {
      RejectedLook(c, all, |f| - HEADER_LEN, Parse(c, body).error);
      OnMessageFromStep(c, [], all);
    }
  }

  // ---- Whole streams ----

  lemma LookShift<M>(c: Codec<M>, before: seq<M>, delivered: seq<M>, buf: bytes)
    ensures Look(c, before + delivered, buf) == Shifted(before, Look(c, delivered, buf))
  {
    var look := Look(c, delivered, buf);
    if look.Advance? && |look.state| == |delivered| + 1 {
      var m := look.state[|delivered|];
      assert before + delivered + [m] == before + (delivered + [m]);
    }
  }

  /** A call does not depend on the messages delivered by the calls before it. */
  lemma OnMessageShift<M(!new)>(c: Codec<M>, before: seq<M>, buf: bytes)
    ensures var r := OnMessage(c, buf); OnMessageFrom(c, before, buf) == r.(state := before + r.state)
  {
    DecoderStable(c);
    var p := Decoder(c);
    forall s, a ensures p(before + s, a) == Shifted(before, p(s, a)) {
      LookShift(c, before, s, a);
    }
    RunShift(p, before, [], buf);
    assert before + [] == before;
  }

  lemma OversizedLook<M>(c: Codec<M>, m: M)
    requires MAX_MESSAGE_LEN < |c.Checked(m)| + CHECKSUM_LEN < 0x1_0000_0000
    ensures Look(c, [], c.Frame(m)) == Halt(0, [], InvalidLength)
  {
    var f, len := c.Frame(m), ToInt32(|c.Checked(m)| + CHECKSUM_LEN);
    SignedRoundTrip(len, HEADER_LEN);
    assert f[..HEADER_LEN] == EncodeSigned(len, HEADER_LEN);
  }

  lemma FrameDelivered<M(!new)>(c: Codec<M>, m: M)
    requires c.raw.None? && c.Sendable(m)
    ensures OnMessage(c, c.Frame(m)) == Result([m], [], None)
  {
    var f := c.Frame(m);
    FrameAtFront(c, m, [], []);
    assert f + [] == f && f[|f|..] == [] && [] + [m] == [m];
    OnMessageFromStep(c, [], f);
    OnMessageFromStep(c, [m], []);
  }

  /** A frame reaches the other side if and only if it is within the limit, which only the receiver checks;
      a longer one is refused for its length. The size of a serialized message is a 32-bit number. */
  lemma DeliveredIffWithinLimit<M(!new)>(c: Codec<M>, m: M)
    requires c.raw.None? && c.deserialize(c.serialize(m)) == Some(m)
    requires |c.Checked(m)| + CHECKSUM_LEN < 0x1_0000_0000
    ensures var len := |c.tag| + |c.serialize(m)| + 4;
            && (OnMessage(c, c.Frame(m)) == Result([m], [], None) <==> len <= 67_108_864)
            && (len > 67_108_864 ==> OnMessage(c, c.Frame(m)) == Result([], c.Frame(m), Some(InvalidLength)))
  {
    if c.WithinLimit(m) {
      FrameDelivered(c, m);
    } else {
      OversizedLook(c, m);
      OnMessageFromStep(c, [], c.Frame(m));
    }
  }

  /** A codec of byte strings with an empty tag. */
  const PLAIN_CODEC: Codec<bytes> := Codec([], (m: bytes) => m, (s: bytes) => Some(s), None)

  /** A payload as long as the limit: its checksum takes the frame beyond, and it is refused although it was sent. */
  lemma LimitExceeded(m: bytes)
    requires m == seq(MAX_MESSAGE_LEN, _ => 0)
    ensures OnMessage(PLAIN_CODEC, PLAIN_CODEC.Frame(m)) == Result([], PLAIN_CODEC.Frame(m), Some(InvalidLength))
  {
    assert PLAIN_CODEC.Checked(m) == m;
    DeliveredIffWithinLimit(PLAIN_CODEC, m);
  }

  ghost predicate AllSendable<M>(c: Codec<M>, ms: seq<M>) {
    forall i :: 0 <= i < |ms| ==> c.Sendable(ms[i])
  }

  ghost function Frames<M>(c: Codec<M>, ms: seq<M>): seq<bytes>
    requires AllSendable(c, ms)
  {
    seq(|ms|, i requires 0 <= i < |ms| => c.Frame(ms[i]))
  }

  /** The messages whose frames the raw callback does not take away. */
  function Passed<M>(c: Codec<M>, ms: seq<M>): seq<M> {
    if ms == [] then [] else Passes(c, ms[0]) + Passed(c, ms[1..])
  }

  lemma {:induction false} AllPass<M>(c: Codec<M>, ms: seq<M>)
    requires c.raw.None?
    ensures Passed(c, ms) == ms
  {
    if ms != [] {
      AllPass(c, ms[1..]);
    }
  }

  lemma {:induction false} PassedIsFlat<M>(c: Codec<M>, ms: seq<M>, items: seq<seq<M>>)
    requires |items| == |ms| && forall i :: 0 <= i < |ms| ==> items[i] == Passes(c, ms[i])
    ensures Flatten(items) == Passed(c, ms)
    decreases |ms|
  {
    if ms != [] {
      PassedIsFlat(c, ms[1..], items[1..]);
    }
  }

  /** Frames of any messages, followed by part of another frame and cut into any chunks, deliver exactly those
      messages that the raw callback lets pass, in order, all of them if there is none, and leave exactly the
      partial frame. */
  lemma FramingRoundTrip<M(!new)>(c: Codec<M>, ms: seq<M>, last: M, tail: bytes, chunks: seq<bytes>)
    requires AllSendable(c, ms)
    requires c.WithinLimit(last) && tail < c.Frame(last)
    requires Flatten(chunks) == Flatten(Frames(c, ms)) + tail
    ensures OnChunks(c, chunks) == Result(Passed(c, ms), tail, None)
    ensures c.raw.None? ==> Passed(c, ms) == ms
  {
    ChunkingIndependent(c, chunks);
    DecoderStable(c);
    var p, pieces := Decoder(c), Frames(c, ms);
    var items := seq(|ms|, i requires 0 <= i < |ms| => Passes(c, ms[i]));
    forall i, s, rest | 0 <= i < |ms|
      ensures p(s, pieces[i] + rest) == Advance(|pieces[i]|, s + items[i])
    {
      FrameAtFront(c, ms[i], s, rest);
    }
    forall s ensures p(s, tail) == Wait {
      PrefixWaits(c, last, s, tail);
    }
    RunCollects(p, [], pieces, items, tail);
    PassedIsFlat(c, ms, items);
    assert [] + Passed(c, ms) == Passed(c, ms);
    if c.raw.None? {
      AllPass(c, ms);
    }
  }

  // ---- Soundness of what is delivered ----

  ghost predicate IsFrameOf<M>(c: Codec<M>, f: bytes, m: M) {
    && SizedFrame(c, f)
    && DecodeSigned(f[|f| - CHECKSUM_LEN..]) == Checksum(f[HEADER_LEN..|f| - CHECKSUM_LEN])
    && f[HEADER_LEN..HEADER_LEN + |c.tag|] == c.tag
    && c.deserialize(f[HEADER_LEN + |c.tag|..|f| - CHECKSUM_LEN]) == Some(m)
  }

  /** As long as its length field says, and within the limits. */
  ghost predicate SizedFrame<M>(c: Codec<M>, f: bytes) {
    && HEADER_LEN + c.MinMessageLen() <= |f| <= HEADER_LEN + MAX_MESSAGE_LEN
    && DecodeSigned(f[..HEADER_LEN]) == |f| - HEADER_LEN
  }

  /** What a frame taken off the buffer delivers: its message, or nothing if the raw callback takes it away. */
  ghost predicate Delivers<M>(c: Codec<M>, f: bytes, added: seq<M>) {
    SizedFrame(c, f) && if c.Accepts(f) then |added| == 1 && IsFrameOf(c, f, added[0]) else added == []
  }

  lemma AdvanceIsFrame<M>(c: Codec<M>, delivered: seq<M>, buf: bytes)
    requires Look(c, delivered, buf).Advance?
    ensures var r := Look(c, delivered, buf);
            && 0 < r.used <= |buf| && delivered <= r.state
            && Delivers(c, buf[..r.used], r.state[|delivered|..])
  {
    var n := Look(c, delivered, buf).used;
    var f := buf[..n];
    var body := buf[HEADER_LEN..n];
    var k := |body| - CHECKSUM_LEN;
    assert f[..HEADER_LEN] == buf[..HEADER_LEN];
    assert body[k..] == f[|f| - CHECKSUM_LEN..];
    assert body[..k] == f[HEADER_LEN..|f| - CHECKSUM_LEN];
    assert body[..|c.tag|] == f[HEADER_LEN..HEADER_LEN + |c.tag|];
    assert body[|c.tag|..k] == f[HEADER_LEN + |c.tag|..|f| - CHECKSUM_LEN];
  }

  /** Whatever the stream, the bytes consumed are exactly well-formed frames, and what is delivered are the
      messages of those that the raw callback lets pass, in order. */
  lemma DeliveredAreFrames<M(!new)>(c: Codec<M>, buf: bytes) returns (frames: seq<bytes>, messages: seq<seq<M>>)
    ensures var r := OnMessage(c, buf);
            && |frames| == |messages| && r.state == Flatten(messages)
            && Flatten(frames) + r.rest == buf
            && forall i :: 0 <= i < |frames| ==> Delivers(c, frames[i], messages[i])
  {
    DecoderStable(c);
    var p := Decoder(c);
    ghost var rel := (f, added) => Delivers(c, f, added);
    forall s, a | p(s, a).Advance?
      ensures 0 < p(s, a).used <= |a| && s <= p(s, a).state && rel(a[..p(s, a).used], p(s, a).state[|s|..])
    {
      AdvanceIsFrame(c, s, a);
    }
    frames, messages := RunEmits(p, rel, [], buf);
    assert [] + Flatten(messages) == Flatten(messages);
  }

  // ---- The code: appends to, and a loop over, the mutable buffer ----

  method FillChecked<M>(c: Codec<M>, buf: Buffer, message: M)
    requires buf.Valid() && buf.Contents() == [] && HEADER_LEN <= buf.PrependableBytes()
    modifies buf
    ensures buf.Valid() && buf.Contents() == c.Checked(message) && HEADER_LEN <= buf.PrependableBytes()
  {
    buf.Append(c.tag);
    buf.Append(c.serialize(message));
  }

  method FillEmptyBuffer<M>(c: Codec<M>, buf: Buffer, message: M)
    requires buf.Valid() && buf.Contents() == [] && HEADER_LEN <= buf.PrependableBytes()
    modifies buf
    ensures buf.Valid() && buf.Contents() == c.Frame(message)
  {
    FillChecked(c, buf, message);
    ghost var checked, len := c.Checked(message), |c.Checked(message)| + CHECKSUM_LEN;
    var checkSum := Checksum(buf.Contents());
    buf.AppendInt(checkSum, CHECKSUM_LEN);
    buf.PrependInt(ToInt32(buf.ReadableBytes()), HEADER_LEN);
    assert buf.Contents() == EncodeSigned(ToInt32(len), HEADER_LEN) + (checked + EncodeSigned(Checksum(checked), CHECKSUM_LEN));
  }

  /** What is done with a complete frame of the given length: the number of bytes to take off the buffer. */
  method HandleFrame<M>(c: Codec<M>, s: bytes, len: int, delivered: seq<M>)
    returns (now: seq<M>, taken: nat, error: Option<ErrorCode>)
    requires c.MinMessageLen() <= len <= MAX_MESSAGE_LEN && HEADER_LEN + len <= |s|
    requires len == DecodeSigned(s[..HEADER_LEN])
    ensures
      match Look(c, delivered, s)
      case Wait => false
      case Advance(n, more) => taken == n == HEADER_LEN + len && error == None && now == more
      case Halt(_, _, e) => taken == 0 && error == Some(e) && now == delivered
  {
    now, taken, error := delivered, 0, None;
    if c.raw.Some? && !c.raw.value(s[..HEADER_LEN + len]) {
      taken := HEADER_LEN + len;
    } else {
      match Parse(c, s[HEADER_LEN..HEADER_LEN + len])
      case Message(m) =>
        now := delivered + [m];
        taken := HEADER_LEN + len;
      case Rejected(e) => error := Some(e);
    }
  }

  /** The loop body: takes one frame off the buffer, waits for more bytes, or reports an error. */
  method HandleFirst<M>(c: Codec<M>, buf: Buffer, delivered: seq<M>)
    returns (now: seq<M>, goOn: bool, error: Option<ErrorCode>)
    requires buf.Valid() && |buf.Contents()| >= c.MinMessageLen() + HEADER_LEN
    modifies buf
    ensures buf.Valid()
    ensures
      match Look(c, delivered, old(buf.Contents()))
      case Wait => !goOn && error == None && now == delivered && buf.Contents() == old(buf.Contents())
      case Advance(n, more) =>
        && goOn && error == None && now == more
        && 0 < n <= |old(buf.Contents())| && buf.Contents() == old(buf.Contents())[n..]
      case Halt(_, _, e) => !goOn && error == Some(e) && now == delivered && buf.Contents() == old(buf.Contents())
  {
    now, goOn, error := delivered, false, None;
    var len := buf.PeekInt(HEADER_LEN);
    SignedRoundTrip(len, HEADER_LEN);
    if len > MAX_MESSAGE_LEN || len < c.MinMessageLen() {
      error := Some(InvalidLength);
    } else if buf.ReadableBytes() >= HEADER_LEN + len {
      var taken;
      now, taken, error := HandleFrame(c, buf.Contents(), len, delivered);
      if taken > 0 {
        buf.Retrieve(taken);
        goOn := true;
      }
    }
  }

  method HandleMessage<M(!new)>(c: Codec<M>, buf: Buffer) returns (delivered: seq<M>, error: Option<ErrorCode>)
    requires buf.Valid()
    modifies buf
    ensures buf.Valid()
    ensures OnMessage(c, old(buf.Contents())) == Result(delivered, buf.Contents(), error)
  {
    delivered, error := [], None;
    ghost var whole := OnMessage(c, buf.Contents());
    var goOn := true;
    while goOn && buf.ReadableBytes() >= c.MinMessageLen() + HEADER_LEN
      invariant buf.Valid()
      invariant goOn ==> error.None? && whole == OnMessageFrom(c, delivered, buf.Contents())
      invariant !goOn ==> whole == Result(delivered, buf.Contents(), error)
      decreases goOn, buf.ReadableBytes()
    {
      OnMessageFromStep(c, delivered, buf.Contents());
      delivered, goOn, error := HandleFirst(c, buf, delivered);
    }
    if goOn {
      OnMessageFromStep(c, delivered, buf.Contents());
    }
  }

  /** One call of onMessage per arriving chunk, also after an error: the messages of all calls together, the
      bytes left and the last error are those of OnChunks. */
  method HandleArriving<M(!new)>(c: Codec<M>, buf: Buffer, chunks: seq<bytes>)
    returns (delivered: seq<M>, error: Option<ErrorCode>)
    requires buf.Valid()
    modifies buf
    ensures buf.Valid()
    ensures OnChunksFrom(c, [], old(buf.Contents()), chunks) == Result(delivered, buf.Contents(), error)
  {
    delivered, error := [], None;
    ghost var whole := OnChunksFrom(c, [], buf.Contents(), chunks);
    assert chunks[0..] == chunks;
    var i := 0;
    while i < |chunks|
      invariant buf.Valid() && i <= |chunks|
      invariant i < |chunks| ==> whole == OnChunksFrom(c, delivered, buf.Contents(), chunks[i..])
      invariant i == |chunks| ==> whole == Result(delivered, buf.Contents(), error)
    {
      ghost var left := chunks[i..];
      assert left[0] == chunks[i] && left[1..] == chunks[i + 1..];
      buf.Append(chunks[i]);
      OnMessageShift(c, delivered, buf.Contents());
      var now, e := HandleMessage(c, buf);
      delivered, error := delivered + now, e;
      i := i + 1;
    }
  }
}
