/** The tunnel's wire format: a 4-byte big-endian header length, a JSON header, then the body.

    JSON and deflate are not modelled.  They are fields of a Codec, and the theorems hold for every
    Codec that obeys the laws in LawfulCodec: parsing undoes printing, inflating undoes deflating,
    and adding "enc":"deflate" to a non-empty compact object costs 16 bytes. */
module Protocol {
  import opened Prelude

  // ------------------------------------------------------------------------------ header values

  /** Numbers are decimal literals, so there are only as many values as there are byte strings to
      print them as. */
  datatype Json =
    | JNull
    | JBool(flag: bool)
    | JNum(mantissa: int, exponent: int)
    | JStr(str: string)
    | JList(items: seq<Json>)
    | JObj(fields: map<string, Json>)

  type Headers = map<string, Json>

  /** What parsing header bytes can give: a syntax error, JSON that is not an object, or an object. */
  datatype Parsed = BadJson | NotObject | Object(headers: Headers)

  datatype Codec = Codec(
    dumps: Headers -> bytes,
    loads: bytes -> Parsed,
    deflate: bytes -> bytes,
    inflate: bytes -> Option<bytes>)

  ghost predicate LawfulCodec(c: Codec) {
    && (forall h: Headers :: c.loads(c.dumps(h)) == Object(h))
    && (forall b: bytes :: c.inflate(c.deflate(b)) == Some(b))
    && (forall h: Headers :: "type" in h && "enc" !in h ==>
          |c.dumps(h[ENC := DEFLATE])| == |c.dumps(h)| + ENC_COST)
  }

  const TYPE := "type"
  const ENC := "enc"
  const DEFLATE := JStr("deflate")
  const ENC_COST := 16            // ,"enc":"deflate"
  const COMPRESS_MIN_BYTES := 1024
  const LEN_SIZE := 4

  // -------------------------------------------------------------------------------------- frames

  datatype MsgType = Request | Response | NotModified | Push | HandoverHint | Ping | Viewed | Connect

  datatype Frame = Frame(kind: MsgType, headers: Headers, body: bytes)

  function TypeName(t: MsgType): string {
    match t
    case Request => "request"
    case Response => "response"
    case NotModified => "not_modified"
    case Push => "push"
    case HandoverHint => "handover_hint"
    case Ping => "ping"
    case Viewed => "viewed"
    case Connect => "connect"
  }

  /** The enum lookup MsgType(value): None is its ValueError. */
  function ParseType(j: Json): Option<MsgType> {
    match j
    case JStr("request") => Some(Request)
    case JStr("response") => Some(Response)
    case JStr("not_modified") => Some(NotModified)
    case JStr("push") => Some(Push)
    case JStr("handover_hint") => Some(HandoverHint)
    case JStr("ping") => Some(Ping)
    case JStr("viewed") => Some(Viewed)
    case JStr("connect") => Some(Connect)
    case _ => None
  }

  /** A parse that succeeded, one that raised ValueError (callers drop the frame), or one that raised
      something else: a missing "type" key, a header that is no object, a corrupt deflate body. */
  datatype Result<+T> = Ok(value: T) | ValueError | OtherError

  /** Two callers' view of a header that may not have fully arrived. */
  datatype Head = Incomplete | Complete(frame: Frame, rest: bytes) | Bad(other: bool)

  // ------------------------------------------------------------------------------------ encoding

  /** A header entry of the same name overrides the frame's own type. */
  function PlainHeaders(f: Frame): (h: Headers)
    ensures TYPE in h && (TYPE !in f.headers ==> h[TYPE] == JStr(TypeName(f.kind)) && h - {TYPE} == f.headers)
  {
    map[TYPE := JStr(TypeName(f.kind))] + f.headers
  }

  predicate Compresses(c: Codec, f: Frame, compress: bool) {
    compress && |f.body| >= COMPRESS_MIN_BYTES && 10 * |c.deflate(f.body)| <= 9 * |f.body|
  }

  function WireHeaders(c: Codec, f: Frame, compress: bool): (h: Headers)
    ensures TYPE in h
  {
    if Compresses(c, f, compress) then PlainHeaders(f)[ENC := DEFLATE] else PlainHeaders(f)
  }

  function WireBody(c: Codec, f: Frame, compress: bool): bytes {
    if Compresses(c, f, compress) then c.deflate(f.body) else f.body
  }

  /** The frame's bytes; None is the error of a header longer than four bytes can count. */
  function Wire(c: Codec, f: Frame, compress: bool): Option<bytes> {
    var h := c.dumps(WireHeaders(c, f, compress));
    if |h| >= Pow256(LEN_SIZE) then None
    else Some(BigEndian(|h|, LEN_SIZE) + h + WireBody(c, f, compress))
  }

  /** A frame with its memoised wire form. */
  class WireFrame {
    const frame: Frame
    var wire: Option<bytes>

    constructor (frame: Frame)
      ensures this.frame == frame && wire == None
    {
      this.frame := frame;
      wire := None;
    }

    /** The process-wide compression switch is read only by the first successful call: every later
        call gives the same bytes, so a frame costs on the network what it was measured to cost. */
    method Encode(c: Codec, compress: bool) returns (r: Option<bytes>)
      modifies this
      ensures r == if old(wire).Some? then old(wire) else Wire(c, frame, compress)
      ensures wire == r
    {
      if wire.None? {
        var headers, body := map[TYPE := JStr(TypeName(frame.kind))] + frame.headers, frame.body;
        if compress && |body| >= COMPRESS_MIN_BYTES {
          var packed := c.deflate(body);
          if 10 * |packed| <= 9 * |body| {
            headers, body := headers[ENC := DEFLATE], packed;
          }
        }
        var headerBytes := c.dumps(headers);
        if |headerBytes| >= Pow256(LEN_SIZE) {
          return None;
        }
        wire := Some(BigEndian(|headerBytes|, LEN_SIZE) + headerBytes + body);
      }
      r := wire;
    }
  }

  // ------------------------------------------------------------------------------------ decoding

  /** Type and remaining headers, from the header's bytes. */
  function ReadHeader(c: Codec, data: bytes): Result<(MsgType, Headers)> {
    match c.loads(data)
    case BadJson => ValueError
    case NotObject => OtherError
    case Object(h) =>
      if TYPE !in h then OtherError
      else match ParseType(h[TYPE])
           case None => ValueError
           case Some(t) => Ok((t, h - {TYPE}))
  }

  function HeaderEnd(data: bytes): nat
    requires |data| >= LEN_SIZE
  {
    LEN_SIZE + FromBigEndian(data[..LEN_SIZE])
  }

  predicate HeaderArrived(data: bytes) {
    |data| >= LEN_SIZE && |data| >= HeaderEnd(data)
  }

  function Decode(c: Codec, data: bytes): Result<Frame> {
    if !HeaderArrived(data) then ValueError
    else
      var end := HeaderEnd(data);
      match ReadHeader(c, data[LEN_SIZE..end])
      case ValueError => ValueError
      case OtherError => OtherError
      case Ok((t, h)) =>
        if ENC in h && h[ENC] == DEFLATE then
          match c.inflate(data[end..])
          case None => OtherError
          case Some(body) => Ok(Frame(t, h - {ENC}, body))
        else Ok(Frame(t, h - {ENC}, data[end..]))
  }

  function SplitHead(c: Codec, data: bytes): Head {
    if !HeaderArrived(data) then Incomplete
    else
      var end := HeaderEnd(data);
      match ReadHeader(c, data[LEN_SIZE..end])
      case ValueError => Bad(false)
      case OtherError => Bad(true)
      case Ok((t, h)) => Complete(Frame(t, h, []), data[end..])
  }

  // ---------------------------------------------------------------------------------- properties

  lemma TypeNameRoundTrip(t: MsgType)
    ensures ParseType(JStr(TypeName(t))) == Some(t)
  {}

  /** Where an encoded frame's parts sit. */
  lemma WireLayout(c: Codec, f: Frame, compress: bool)
    requires Wire(c, f, compress).Some?
    ensures var w := Wire(c, f, compress).value;
            var h := c.dumps(WireHeaders(c, f, compress));
            && HeaderArrived(w)
            && HeaderEnd(w) == LEN_SIZE + |h|
            && w[LEN_SIZE..HeaderEnd(w)] == h
            && w[HeaderEnd(w)..] == WireBody(c, f, compress)
  {
    var w := Wire(c, f, compress).value;
    var h := c.dumps(WireHeaders(c, f, compress));
    BigEndianRoundTrip(|h|, LEN_SIZE);
    assert w[..LEN_SIZE] == BigEndian(|h|, LEN_SIZE);
  }

  /** A frame can be sent if and only if its header, as JSON, can be counted in four bytes; it is then as long as its
      parts. */
  lemma EncodedExactlyWhen(c: Codec, f: Frame, compress: bool)
    ensures var h := c.dumps(WireHeaders(c, f, compress));
            && (Wire(c, f, compress).Some? <==> |h| < 0x1_0000_0000)
            && (Wire(c, f, compress).Some? ==>
                  |Wire(c, f, compress).value| == LEN_SIZE + |h| + |WireBody(c, f, compress)|)
  {
    assert Pow256(2) == 0x1_0000 && Pow256(4) == 0x1_0000_0000;
  }

  /** What goes on the wire is the deflated body, with a header that says so, exactly if the switch is on, the body has
      at least 1024 bytes and deflating saves at least a tenth of them; otherwise the body as it is. */
  lemma CompressedExactlyWhen(c: Codec, f: Frame, compress: bool)
    requires LawfulCodec(c) && Wire(c, f, compress).Some? && ENC !in f.headers
    ensures var w := Wire(c, f, compress).value;
            var packs := compress && |f.body| >= 1024 && |c.deflate(f.body)| * 10 <= |f.body| * 9;
            && HeaderArrived(w) && w[HeaderEnd(w)..] == (if packs then c.deflate(f.body) else f.body)
            && c.loads(w[LEN_SIZE..HeaderEnd(w)]).Object?
            && (ENC in c.loads(w[LEN_SIZE..HeaderEnd(w)]).headers <==> packs)
  {
    WireLayout(c, f, compress);
    var h := WireHeaders(c, f, compress);
    assert c.loads(c.dumps(h)) == Object(h);
  }

  /** Decoding gives back type, headers and body, whether or not the sender compresses, exactly when
      the headers do not use the two names the format keeps for itself. */
  lemma RoundTrip(c: Codec, f: Frame, compress: bool)
    requires LawfulCodec(c) && Wire(c, f, compress).Some?
    ensures Decode(c, Wire(c, f, compress).value) == Ok(f) <==> TYPE !in f.headers && ENC !in f.headers
  {
    var w := Wire(c, f, compress).value;
    WireLayout(c, f, compress);
    TypeNameRoundTrip(f.kind);
    var h := WireHeaders(c, f, compress);
    assert c.loads(c.dumps(h)) == Object(h);
    if TYPE !in f.headers && ENC !in f.headers {
      assert h - {TYPE} - {ENC} == f.headers;
      if Compresses(c, f, compress) {
        assert (h - {TYPE})[ENC] == DEFLATE;
        assert c.inflate(c.deflate(f.body)) == Some(f.body);
      }
    }
  }

  /** The switch changes bytes on the wire, never what the receiver sees. */
  lemma CompressionIsInvisible(c: Codec, f: Frame)
    requires LawfulCodec(c) && TYPE !in f.headers && ENC !in f.headers
    requires Wire(c, f, true).Some? && Wire(c, f, false).Some?
    ensures Decode(c, Wire(c, f, true).value) == Decode(c, Wire(c, f, false).value)
  {
    RoundTrip(c, f, true);
    RoundTrip(c, f, false);
  }

  /** A frame that is sent compressed is strictly shorter than the same frame sent as it is: the
      tenth saved on at least a kilobyte outweighs the header's extra entry. */
  lemma CompressedIsShorter(c: Codec, f: Frame)
    requires LawfulCodec(c) && ENC !in f.headers
    requires Wire(c, f, true).Some? && Compresses(c, f, true)
    ensures Wire(c, f, false).Some? && |Wire(c, f, true).value| < |Wire(c, f, false).value|
  {
    var h := PlainHeaders(f);
    assert |c.dumps(h[ENC := DEFLATE])| == |c.dumps(h)| + ENC_COST;
  }

  function Extend(h: Head, more: bytes): Head {
    match h
    case Complete(f, rest) => Complete(f, rest + more)
    case Incomplete => Incomplete
    case Bad(other) => Bad(other)
  }

  /** Once a header has arrived, later bytes only lengthen what follows it. */
  lemma SplitHeadExtends(c: Codec, data: bytes, more: bytes)
    requires HeaderArrived(data)
    ensures HeaderArrived(data + more) && HeaderEnd(data + more) == HeaderEnd(data)
    ensures SplitHead(c, data + more) == Extend(SplitHead(c, data), more)
  {
    assert (data + more)[..LEN_SIZE] == data[..LEN_SIZE];
    var end := HeaderEnd(data);
    assert (data + more)[LEN_SIZE..end] == data[LEN_SIZE..end];
    assert (data + more)[end..] == data[end..] + more;
  }

  /** Parsing as bytes arrive: nothing on any strict prefix of an encoded header, and on every
      continuation of the whole header the same frame and exactly the bytes after it. */
  lemma SplitHeadIncremental(c: Codec, f: Frame, compress: bool, n: nat, more: bytes)
    requires LawfulCodec(c) && TYPE !in f.headers && Wire(c, f, compress).Some?
    requires n <= HeaderEnd(Wire(c, f, compress).value) <= |Wire(c, f, compress).value|
    ensures var w := Wire(c, f, compress).value;
            var end := HeaderEnd(w);
            && (n < end ==> SplitHead(c, w[..n]) == Incomplete)
            && SplitHead(c, w[..end] + more) == Complete(Frame(f.kind, WireHeaders(c, f, compress) - {TYPE}, []), more)
  {
    var w := Wire(c, f, compress).value;
    var end := HeaderEnd(w);
    WireLayout(c, f, compress);
    TypeNameRoundTrip(f.kind);
    var h := WireHeaders(c, f, compress);
    assert c.loads(c.dumps(h)) == Object(h);
    var x := w[..end];
    assert x[..LEN_SIZE] == w[..LEN_SIZE];
    assert x[LEN_SIZE..end] == w[LEN_SIZE..end];
    SplitHeadExtends(c, x, more);
    if LEN_SIZE <= n < end {
      assert w[..n][..LEN_SIZE] == w[..LEN_SIZE];
    }
  }

  /** Reading a stream's start and decoding all of it agree on the type, on the headers and, when
      nothing was compressed, on the body; a start that cannot be read cannot be decoded. */
  lemma SplitHeadAgreesWithDecode(c: Codec, data: bytes)
    ensures SplitHead(c, data).Incomplete? ==> Decode(c, data) == ValueError
    ensures SplitHead(c, data).Bad? ==> !Decode(c, data).Ok?
    ensures SplitHead(c, data).Complete? && Decode(c, data).Ok? ==>
              var head, whole := SplitHead(c, data), Decode(c, data).value;
              && head.frame.kind == whole.kind && head.frame.headers - {ENC} == whole.headers
              && (ENC !in head.frame.headers ==> head.rest == whole.body)
  {}
}
