/** The length-prefixed frames between the adapter and its worker process, and the bounded turn on both sides. */
module ProviderFrame {
  import opened Options

  type Byte = x: int | 0 <= x < 256

  type Bytes = seq<Byte>

  /******* Lengths *******/

  function Pack(n: nat): (b: Bytes)
    requires n < 0x1_0000_0000
    ensures |b| == 4
  {
    var high := n / 256 / 256;
    [high / 256, high % 256, n / 256 % 256, n % 256]
  }

  function Unpack(b: Bytes): nat
    requires |b| == 4
  {
    ((b[0] as int * 256 + b[1]) * 256 + b[2]) * 256 + b[3]
  }

  lemma PackRoundTrip(n: nat)
    requires n < 0x1_0000_0000
    ensures Unpack(Pack(n)) == n
  {
  }

  lemma LowDigit(q: nat, d: Byte)
    ensures (q * 256 + d) / 256 == q && (q * 256 + d) % 256 == d
  {
  }

  lemma UnpackRoundTrip(b: Bytes)
    requires |b| == 4
    ensures Unpack(b) < 0x1_0000_0000 && Pack(Unpack(b)) == b
  {
    var top := b[0] as int * 256 + b[1];
    LowDigit(b[0], b[1]);
    LowDigit(top, b[2]);
    LowDigit(top * 256 + b[2], b[3]);
  }

  /******* The request frame *******/

  /** The header's fields; the contract name is fixed. `timeout` is in microseconds. */
  datatype Header = Header(
    caBytes: int, credentialBytes: int, hostname: string, maxResponseBytes: int, pinnedIp: string, port: int,
    requestBytes: int, requestPath: string, timeout: int)

  /** A JSON codec for one kind of metadata. */
  datatype Codec<!T> = Codec(encode: T -> Bytes, decode: Bytes -> Option<T>)

  /** The codec gives this value back, and its encoding has a length the frame can state. */
  predicate Encodes<T(==)>(codec: Codec<T>, value: T) {
    codec.decode(codec.encode(value)) == Some(value) && 1 <= |codec.encode(value)| < 0x1_0000_0000
  }

  datatype Request = Request(header: Header, credential: Bytes, body: Bytes, ca: Bytes)

  function HeaderOf(r: Request): Header {
    r.header.(caBytes := |r.ca|, credentialBytes := |r.credential|, requestBytes := |r.body|)
  }

  /** What belongs on the wire: the header's length, the header, then the three payloads. */
  ghost function Frame(codec: Codec<Header>, r: Request): Bytes
    requires Encodes(codec, HeaderOf(r))
  {
    Pack(|codec.encode(HeaderOf(r))|) + codec.encode(HeaderOf(r)) + r.credential + r.body + r.ca
  }

  /** What the adapter puts on the wire. */
  method BuildWire(codec: Codec<Header>, r: Request) returns (wire: Bytes)
    requires Encodes(codec, HeaderOf(r))
    ensures wire == Frame(codec, r)
  {
    var header := codec.encode(HeaderOf(r));
    wire := [];
    wire := wire + Pack(|header|);
    wire := wire + header;
    wire := wire + r.credential;
    wire := wire + r.body;
    wire := wire + r.ca;
  }

  predicate BoundedInt(value: int, minimum: int, maximum: int) {
    minimum <= value <= maximum
  }

  function Split(s: string, separator: char): (parts: seq<string>)
    ensures |parts| >= 1
  {
    if s == "" then [""]
    else
      var rest := Split(s[1..], separator);
      if s[0] == separator then [""] + rest else [[s[0]] + rest[0]] + rest[1..]
  }

  predicate LowerAlnum(c: char) {
    'a' <= c <= 'z' || '0' <= c <= '9'
  }

  /** An ASCII letter or digit, or a hyphen. */
  predicate LabelChar(c: char) {
    LowerAlnum(c) || 'A' <= c <= 'Z' || c == '-'
  }

  predicate CanonicalLabel(part: string) {
    && 1 <= |part| <= 63 && part[0] != '-' && part[|part| - 1] != '-'
    && forall i :: 0 <= i < |part| ==> LabelChar(part[i])
  }

  /** The worker's own check of a hostname. */
  predicate CanonicalHostname(value: string) {
    && 1 <= |value| <= 253
    && (forall i :: 0 <= i < |value| ==> !('A' <= value[i] <= 'Z'))
    && value[0] != '.' && value[|value| - 1] != '.'
    && forall i :: 0 <= i < |Split(value, '.')| ==> CanonicalLabel(Split(value, '.')[i])
  }

  /** The worker's own check of a request path. */
  predicate PlainPath(path: string) {
    && path != "" && path[0] == '/'
    && (forall c :: c in path ==> c !in {'?', '#', '\\', '%', '\r', '\n', '\0'})
    && (forall i :: 0 <= i && i + 1 < |path| ==> !(path[i] == '.' && path[i + 1] == '.'))
  }

  /** The numeric and textual bounds the worker holds a header to. */
  predicate HeaderAccepted(h: Header) {
    && BoundedInt(h.credentialBytes, 1, 16_384)
    && BoundedInt(h.requestBytes, 1, 2_162_688)
    && BoundedInt(h.caBytes, 0, 1_048_576)
    && BoundedInt(h.maxResponseBytes, 1, 2_097_152)
    && BoundedInt(h.port, 1, 65_535)
    && 0 < h.timeout <= 600_000_000
    && CanonicalHostname(h.hostname) && PlainPath(h.requestPath)
  }

  predicate CleanCredential(credential: Bytes) {
    forall b :: b in credential ==> b !in {0, 10, 13}
  }

  /** What the worker accepts from its input, or None where it rejects it: short input, a bad length or header,
      or anything after the last byte it expects. */
  method ReadRequest(codec: Codec<Header>, stream: Bytes) returns (r: Option<Request>)
    ensures r == Received(codec, stream)
  {
    if |stream| < 4 {
      return None;
    }
    var headerSize := Unpack(stream[..4]);
    if !(1 <= headerSize <= 4096) || |stream| < 4 + headerSize {
      return None;
    }
    var decoded := codec.decode(stream[4..4 + headerSize]);
    if decoded.None? || !HeaderAccepted(decoded.value) {
      return None;
    }
    var h := decoded.value;
    var position := 4 + headerSize;
    if |stream| < position + h.credentialBytes {
      return None;
    }
    var credential := stream[position..position + h.credentialBytes];
    position := position + h.credentialBytes;
    if |stream| < position + h.requestBytes {
      return None;
    }
    var body := stream[position..position + h.requestBytes];
    position := position + h.requestBytes;
    if |stream| < position + h.caBytes {
      return None;
    }
    var ca := stream[position..position + h.caBytes];
    position := position + h.caBytes;
    ghost var rest := stream[4 + headerSize..];
    assert credential == rest[..h.credentialBytes];
    assert body == rest[h.credentialBytes..h.credentialBytes + h.requestBytes];
    if |stream| > position || !CleanCredential(credential) {
      return None;
    }
    assert ca == rest[h.credentialBytes + h.requestBytes..];
    return Some(Request(h, credential, body, ca));
  }

  function Received(codec: Codec<Header>, stream: Bytes): Option<Request> {
    if |stream| < 4 then None
    else
      var size := Unpack(stream[..4]);
      if !(1 <= size <= 4096) || |stream| < 4 + size then None
      else
        var decoded := codec.decode(stream[4..4 + size]);
        if decoded.None? || !HeaderAccepted(decoded.value) then None
        else
          var h := decoded.value;
          var rest := stream[4 + size..];
          if |rest| != h.credentialBytes + h.requestBytes + h.caBytes then None
          else
            var credential := rest[..h.credentialBytes];
            if !CleanCredential(credential) then None
            else Some(Request(h, credential, rest[h.credentialBytes..h.credentialBytes + h.requestBytes],
                              rest[h.credentialBytes + h.requestBytes..]))
  }

  /** The worker recovers exactly the credential, body and CA bytes the adapter framed, and does so exactly if
      the header fits, is within its bounds, and the credential has no NUL or line break. */
  lemma FrameRoundTrip(codec: Codec<Header>, r: Request)
    requires Encodes(codec, HeaderOf(r))
    ensures Received(codec, Frame(codec, r)) ==
              if && |codec.encode(HeaderOf(r))| <= 4096
                 && 1 <= |r.credential| <= 16_384 && 1 <= |r.body| <= 2_162_688 && |r.ca| <= 1_048_576
                 && 1 <= r.header.maxResponseBytes <= 2_097_152 && 1 <= r.header.port <= 65_535
                 && 0 < r.header.timeout <= 600_000_000
                 && CanonicalHostname(r.header.hostname) && PlainPath(r.header.requestPath)
                 && 0 !in r.credential && 10 !in r.credential && 13 !in r.credential
              then Some(r.(header := HeaderOf(r))) else None
  {
    var header := codec.encode(HeaderOf(r));
    assert codec.decode(header) == Some(HeaderOf(r));
    var payload := r.credential + r.body + r.ca;
    var stream := Frame(codec, r);
    assert stream == Pack(|header|) + header + payload;
    PackRoundTrip(|header|);
    assert stream[..4] == Pack(|header|);
    assert stream[4..4 + |header|] == header;
    assert stream[4 + |header|..] == payload;
    assert payload[..|r.credential|] == r.credential;
    assert payload[|r.credential|..|r.credential| + |r.body|] == r.body;
    assert payload[|r.credential| + |r.body|..] == r.ca;
  }

  /** Whatever the worker accepts accounts for every byte of its input: nothing may follow, and nothing may be
      missing. */
  lemma AcceptedFrameIsExact(codec: Codec<Header>, stream: Bytes)
    requires Received(codec, stream).Some?
    ensures var r := Received(codec, stream).value;
            && r.header == HeaderOf(r)
            && exists header: Bytes ::
                 && 1 <= |header| <= 4096 && codec.decode(header) == Some(r.header)
                 && stream == Pack(|header|) + header + r.credential + r.body + r.ca
  {
    var r := Received(codec, stream).value;
    var size := Unpack(stream[..4]);
    var header := stream[4..4 + size];
    var rest := stream[4 + size..];
    UnpackRoundTrip(stream[..4]);
    assert rest == r.credential + r.body + r.ca;
    assert stream == stream[..4] + header + rest;
    assert stream == Pack(|header|) + header + r.credential + r.body + r.ca;
  }

  /** A frame with anything after it, or cut anywhere, is rejected. */
  lemma AlteredFramesAreRejected(codec: Codec<Header>, r: Request, extra: Bytes, cut: nat)
    requires Encodes(codec, HeaderOf(r))
    ensures extra != [] ==> Received(codec, Frame(codec, r) + extra).None?
    ensures cut < |Frame(codec, r)| ==> Received(codec, Frame(codec, r)[..cut]).None?
  {
    var header := codec.encode(HeaderOf(r));
    var frame := Frame(codec, r);
    PackRoundTrip(|header|);
    assert codec.decode(header) == Some(HeaderOf(r));
    assert (frame + extra)[..4] == Pack(|header|) && (frame + extra)[4..4 + |header|] == header;
    if cut < |frame| {
      var short := frame[..cut];
      if |short| >= 4 + |header| {
        assert short[..4] == Pack(|header|) && short[4..4 + |header|] == header;
      } else if |short| >= 4 {
        assert short[..4] == Pack(|header|);
      }
    }
  }

  /******* The response *******/

  datatype Metadata = Metadata(peerIp: string, responseBytes: int, tlsVersion: string)

  datatype Response = Response(body: Bytes, peerIp: string, tlsVersion: string)

  function MetadataOf(r: Response): Metadata {
    Metadata(r.peerIp, |r.body|, r.tlsVersion)
  }

  /** What a worker that succeeded writes. */
  ghost function Output(codec: Codec<Metadata>, r: Response): Bytes
    requires Encodes(codec, MetadataOf(r))
  {
    Pack(|codec.encode(MetadataOf(r))|) + codec.encode(MetadataOf(r)) + r.body
  }

  /** Reads a response of unknown length in pieces of any size, never keeping more than one byte beyond the
      limit. `sizes` is what the connection has ready at each read. */
  method ReadResponse(source: Bytes, sizes: nat -> nat, limit: nat) returns (r: Option<Bytes>)
    ensures r == if |source| <= limit then Some(source) else None
  {
    var body: Bytes := [];
    var turn := 0;
    while true
      invariant |body| <= limit && |body| <= |source| && body == source[..|body|]
      decreases |source| - |body|
    {
      var asked := if 65_536 <= limit + 1 - |body| then 65_536 else limit + 1 - |body|;
      var left := |source| - |body|;
      var ready := if sizes(turn) == 0 then 1 else sizes(turn);
      var got := if asked <= left then asked else left;
      got := if ready <= got then ready else got;
      if got == 0 {
        assert source[..|source|] == source;
        return Some(body);
      }
      body := body + source[|body|..|body| + got];
      turn := turn + 1;
      if |body| > limit {
        return None;
      }
    }
  }

  function Concat(chunks: seq<Bytes>): Bytes {
    if chunks == [] then [] else chunks[0] + Concat(chunks[1..])
  }

  lemma {:induction false} ConcatAppends(first: seq<Bytes>, second: seq<Bytes>)
    ensures Concat(first + second) == Concat(first) + Concat(second)
  {
    if first == [] {
      assert first + second == second;
    } else {
      assert (first + second)[1..] == first[1..] + second;
      ConcatAppends(first[1..], second);
    }
  }

  lemma ConcatOne(chunk: Bytes)
    ensures Concat([chunk]) == chunk
  {
    assert [chunk][1..] == [];
  }

  lemma ConcatAround(before: seq<Bytes>, chunk: Bytes, after: seq<Bytes>)
    ensures Concat(before + [chunk]) == Concat(before) + chunk
    ensures Concat(before + [chunk] + after) == Concat(before) + chunk + Concat(after)
  {
    hide Concat;
    ConcatOne(chunk);
    ConcatAppends(before, [chunk]);
    ConcatAppends(before + [chunk], after);
  }

  /** Captures the worker's output however it is chunked: overflow is flagged exactly if the whole output is
      longer than the limit, and otherwise the whole output was kept. */
  method Capture(chunks: seq<Bytes>, limit: nat) returns (captured: Bytes, overflow: bool)
    requires forall c :: c in chunks ==> c != []
    ensures overflow <==> |Concat(chunks)| > limit
    ensures captured == if overflow then Concat(chunks)[..limit + 1] else Concat(chunks)
  {
    captured, overflow := [], false;
    var k := 0;
    while k < |chunks|
      invariant 0 <= k <= |chunks|
      invariant captured == Concat(chunks[..k]) && |captured| <= limit
    {
      var chunk := chunks[k];
      var remaining := limit + 1 - |captured|;
      ConcatAround(chunks[..k], chunk, chunks[k + 1..]);
      assert chunks[..k + 1] == chunks[..k] + [chunk] && chunks == chunks[..k] + [chunk] + chunks[k + 1..];
      captured := captured + (if |chunk| <= remaining then chunk else chunk[..remaining]);
      if |captured| > limit || |chunk| > remaining {
        assert captured == Concat(chunks)[..limit + 1];
        return captured, true;
      }
      k := k + 1;
    }
    assert chunks[..k] == chunks;
  }

  /** The captured bytes are exactly some metadata's length, that metadata, and the body it announces, and
      the metadata describes this response. */
  ghost predicate IsOutput(codec: Codec<Metadata>, captured: Bytes, r: Response, maxResponseBytes: nat) {
    && 1 <= |r.body| <= maxResponseBytes && r.tlsVersion in {"TLSv1.2", "TLSv1.3"}
    && exists metadata: Bytes ::
         && 1 <= |metadata| <= 4092 && codec.decode(metadata) == Some(MetadataOf(r))
         && captured == Pack(|metadata|) + metadata + r.body
  }

  /** Where the length prefix says the metadata ends is where it ends. */
  lemma PrefixDecides(captured: Bytes, metadata: Bytes, body: Bytes)
    requires 1 <= |metadata| <= 4092 && captured == Pack(|metadata|) + metadata + body
    ensures |captured| >= 4 + |metadata| && Unpack(captured[..4]) == |metadata|
    ensures captured[4..4 + |metadata|] == metadata && captured[4 + |metadata|..] == body
  {
    PackRoundTrip(|metadata|);
    assert captured[..4] == Pack(|metadata|);
  }

  /** The length prefix decides which metadata and which body the bytes hold. */
  lemma OutputParts(codec: Codec<Metadata>, captured: Bytes, r: Response, maxResponseBytes: nat)
    ensures IsOutput(codec, captured, r, maxResponseBytes) <==>
      && 1 <= |r.body| <= maxResponseBytes && r.tlsVersion in {"TLSv1.2", "TLSv1.3"}
      && |captured| >= 4
      && var size := Unpack(captured[..4]);
         && 1 <= size <= 4092 && |captured| >= 4 + size
         && codec.decode(captured[4..4 + size]) == Some(MetadataOf(r)) && captured[4 + size..] == r.body
  {
    hide Pack, Unpack;
    if IsOutput(codec, captured, r, maxResponseBytes) {
      var m: Bytes :| 1 <= |m| <= 4092 && codec.decode(m) == Some(MetadataOf(r)) && captured == Pack(|m|) + m + r.body;
      PrefixDecides(captured, m, r.body);
    } else if |captured| >= 4 && |captured| >= 4 + Unpack(captured[..4]) {
      SplitAtPrefix(captured);
    }
  }

  lemma SplitAtPrefix(captured: Bytes)
    requires |captured| >= 4 && |captured| >= 4 + Unpack(captured[..4])
    ensures var size := Unpack(captured[..4]);
            var metadata := captured[4..4 + size];
            |metadata| < 0x1_0000_0000 && captured == Pack(|metadata|) + metadata + captured[4 + size..]
  {
    hide Pack, Unpack;
    var size := Unpack(captured[..4]);
    UnpackRoundTrip(captured[..4]);
    assert captured == captured[..4] + captured[4..4 + size] + captured[4 + size..];
  }

  /** Reads what was captured: a response is returned exactly if the bytes are the output for it, and nothing is
      returned exactly if they are no response's output. */
  method ParseWorkerOutput(codec: Codec<Metadata>, captured: Bytes, maxResponseBytes: nat) returns (r: Option<Response>)
    ensures forall x :: IsOutput(codec, captured, x, maxResponseBytes) <==> r == Some(x)
  {
    hide IsOutput;
    forall x {
      OutputParts(codec, captured, x, maxResponseBytes);
    }
    if |captured| < 4 {
      return None;
    }
    var size := Unpack(captured[..4]);
    if !(1 <= size <= 4092) || |captured| < 4 + size {
      return None;
    }
    var metadata := codec.decode(captured[4..4 + size]);
    if metadata.None? {
      return None;
    }
    var response := captured[4 + size..];
    if |response| != metadata.value.responseBytes || !(1 <= |response| <= maxResponseBytes) {
      return None;
    }
    if metadata.value.tlsVersion !in {"TLSv1.2", "TLSv1.3"} {
      return None;
    }
    return Some(Response(response, metadata.value.peerIp, metadata.value.tlsVersion));
  }

  /** What a worker sends after a successful exchange never overflows the capture, however it is chunked, and
      is the output for the response it had and for no other. */
  lemma ResponseArrives(codec: Codec<Metadata>, r: Response, chunks: seq<Bytes>, maxResponseBytes: nat)
    requires Encodes(codec, MetadataOf(r)) && |codec.encode(MetadataOf(r))| <= 4092
    requires 1 <= |r.body| <= maxResponseBytes && r.tlsVersion in {"TLSv1.2", "TLSv1.3"}
    requires Concat(chunks) == Output(codec, r)
    ensures |Concat(chunks)| <= maxResponseBytes + 4096
    ensures forall x :: IsOutput(codec, Concat(chunks), x, maxResponseBytes) <==> x == r
  {
    assert IsOutput(codec, Output(codec, r), r, maxResponseBytes);
    OutputParts(codec, Output(codec, r), r, maxResponseBytes);
    forall x | IsOutput(codec, Output(codec, r), x, maxResponseBytes) ensures x == r {
      OutputParts(codec, Output(codec, r), x, maxResponseBytes);
    }
  }

  /******* Admission *******/

  function Join(labels: seq<string>): string
    requires labels != []
  {
    if |labels| == 1 then labels[0] else labels[0] + "." + Join(labels[1..])
  }

  /** A label of the hostname pattern; the last one has to begin with a letter. */
  predicate PatternLabel(part: string) {
    && 1 <= |part| <= 63
    && LowerAlnum(part[0]) && LowerAlnum(part[|part| - 1])
    && forall i :: 0 <= i < |part| ==> LowerAlnum(part[i]) || part[i] == '-'
  }

  predicate PatternLabels(labels: seq<string>) {
    && |labels| >= 2
    && (forall i :: 0 <= i < |labels| ==> PatternLabel(labels[i]))
    && 'a' <= labels[|labels| - 1][0] <= 'z'
  }

  /** The language of the admission's hostname pattern. */
  ghost predicate MatchesHostnamePattern(value: string) {
    3 <= |value| <= 253 && exists labels :: PatternLabels(labels) && Join(labels) == value
  }

  predicate PathChar(c: char) {
    LowerAlnum(c) || 'A' <= c <= 'Z' || c in "._~!$&'()*+,;=:@/-"
  }

  predicate AdmittedPath(path: string) {
    && 1 <= |path| <= 512 && path[0] == '/' && !(|path| >= 2 && path[1] == '/')
    && (forall i :: 0 <= i < |path| ==> PathChar(path[i]))
    && (forall i :: 0 <= i && i + 1 < |path| ==> !(path[i] == '.' && path[i + 1] == '.'))
  }

  lemma {:induction false} SplitPlain(part: string)
    requires forall i :: 0 <= i < |part| ==> part[i] != '.'
    ensures Split(part, '.') == [part]
  {
    if part != "" {
      SplitPlain(part[1..]);
      assert [part[0]] + part[1..] == part;
    }
  }

  lemma {:induction false} SplitAfterLabel(part: string, rest: string)
    requires forall i :: 0 <= i < |part| ==> part[i] != '.'
    ensures Split(part + "." + rest, '.') == [part] + Split(rest, '.')
  {
    var s := part + "." + rest;
    if part == "" {
      assert s[1..] == rest;
    } else {
      assert s[1..] == part[1..] + "." + rest;
      SplitAfterLabel(part[1..], rest);
      assert [part[0]] + part[1..] == part;
    }
  }

  /** Splitting at the dots undoes joining. */
  lemma {:induction false} SplitJoin(labels: seq<string>)
    requires labels != [] && forall i :: 0 <= i < |labels| ==> PatternLabel(labels[i])
    ensures Split(Join(labels), '.') == labels
    decreases |labels|
  {
    if |labels| == 1 {
      SplitPlain(labels[0]);
    } else {
      SplitAfterLabel(labels[0], Join(labels[1..]));
      SplitJoin(labels[1..]);
    }
  }

  lemma {:induction false} JoinChars(labels: seq<string>)
    requires labels != [] && forall i :: 0 <= i < |labels| ==> PatternLabel(labels[i])
    ensures var s := Join(labels);
            && s != "" && s[0] != '.' && s[|s| - 1] != '.'
            && forall i :: 0 <= i < |s| ==> LowerAlnum(s[i]) || s[i] == '-' || s[i] == '.'
    decreases |labels|
  {
    if |labels| > 1 {
      JoinChars(labels[1..]);
    }
  }

  /** What labels are made of, when joined. */
  predicate HostLabel(part: string) {
    && 1 <= |part| <= 63 && part[0] != '-' && part[|part| - 1] != '-'
    && forall c :: c in part ==> 'a' <= c <= 'z' || '0' <= c <= '9' || c == '-'
  }

  lemma {:induction false} JoinSplit(s: string)
    ensures Join(Split(s, '.')) == s
    ensures forall i :: 0 <= i < |Split(s, '.')| ==> '.' !in Split(s, '.')[i]
    ensures forall i, c :: 0 <= i < |Split(s, '.')| && c in Split(s, '.')[i] ==> c in s
  {
    if s != "" {
      JoinSplit(s[1..]);
      var rest := Split(s[1..], '.');
      var parts := Split(s, '.');
      assert s == [s[0]] + s[1..];
      if s[0] == '.' {
        assert parts == [""] + rest && parts[1..] == rest;
      } else {
        assert parts == [[s[0]] + rest[0]] + rest[1..] && parts[1..] == rest[1..];
        assert |rest| > 1 ==> Join(rest) == rest[0] + "." + Join(rest[1..]);
      }
    }
  }

  lemma {:induction false} SplitJoinHost(labels: seq<string>)
    requires labels != [] && forall i :: 0 <= i < |labels| ==> HostLabel(labels[i])
    ensures Split(Join(labels), '.') == labels
    ensures forall c :: c in Join(labels) ==> 'a' <= c <= 'z' || '0' <= c <= '9' || c == '-' || c == '.'
    ensures var s := Join(labels); s != "" && s[0] != '.' && s[|s| - 1] != '.'
    decreases |labels|
  {
    assert HostLabel(labels[0]);
    assert '.' !in labels[0];
    if |labels| == 1 {
      SplitPlain(labels[0]);
    } else {
      SplitAfterLabel(labels[0], Join(labels[1..]));
      SplitJoinHost(labels[1..]);
    }
  }

  lemma LabelsAreHostLabels(part: string)
    requires forall c :: c in part ==> !('A' <= c <= 'Z')
    ensures CanonicalLabel(part) <==> HostLabel(part)
  {
    if CanonicalLabel(part) {
      forall c | c in part ensures 'a' <= c <= 'z' || '0' <= c <= '9' || c == '-' {
        var j :| 0 <= j < |part| && part[j] == c;
      }
    }
    if HostLabel(part) {
      forall i | 0 <= i < |part| ensures LabelChar(part[i]) {
        assert part[i] in part;
      }
    }
  }

  lemma CanonicalIsJoined(value: string)
    requires CanonicalHostname(value)
    ensures Join(Split(value, '.')) == value
    ensures forall i :: 0 <= i < |Split(value, '.')| ==> HostLabel(Split(value, '.')[i])
  {
    JoinSplit(value);
    var labels := Split(value, '.');
    forall c | c in value ensures !('A' <= c <= 'Z') {
      var j :| 0 <= j < |value| && value[j] == c;
    }
    forall i | 0 <= i < |labels| ensures HostLabel(labels[i]) {
      forall c | c in labels[i] ensures !('A' <= c <= 'Z') {
        assert c in value;
      }
      LabelsAreHostLabels(labels[i]);
    }
  }

  lemma JoinedIsCanonical(labels: seq<string>)
    requires labels != [] && |Join(labels)| <= 253 && forall i :: 0 <= i < |labels| ==> HostLabel(labels[i])
    ensures CanonicalHostname(Join(labels))
  {
    SplitJoinHost(labels);
    var value := Join(labels);
    forall i | 0 <= i < |value| ensures !('A' <= value[i] <= 'Z') {
      assert value[i] in value;
    }
    forall i | 0 <= i < |labels| ensures CanonicalLabel(labels[i]) {
      assert HostLabel(labels[i]);
      LabelsAreHostLabels(labels[i]);
    }
  }

  /** The worker's check is exactly this language: at most 253 characters, lower-case labels with dots between. */
  lemma HostnamesAreJoinedLabels(value: string)
    ensures CanonicalHostname(value) <==>
      && |value| <= 253
      && exists labels :: && labels != [] && Join(labels) == value
                          && forall i :: 0 <= i < |labels| ==> HostLabel(labels[i])
  {
    if CanonicalHostname(value) {
      CanonicalIsJoined(value);
      var labels := Split(value, '.');
      assert labels != [] && Join(labels) == value;
    }
    hide CanonicalHostname;
    if labels :| |value| <= 253 && labels != [] && Join(labels) == value && forall i :: 0 <= i < |labels| ==> HostLabel(labels[i]) {
      JoinedIsCanonical(labels);
    }
  }

  /** An admission's pattern takes exactly the worker's hostnames of at least two labels, the last of which begins
      with a letter. */
  lemma AdmittedHostnamesExactly(value: string)
    ensures MatchesHostnamePattern(value) <==>
      && CanonicalHostname(value) && 3 <= |value|
      && |Split(value, '.')| >= 2 && 'a' <= Split(value, '.')[|Split(value, '.')| - 1][0] <= 'z'
  {
    if labels :| PatternLabels(labels) && Join(labels) == value && 3 <= |value| <= 253 {
      AdmittedHostnamesPass(value);
      SplitJoin(labels);
    }
    var parts := Split(value, '.');
    if CanonicalHostname(value) && 3 <= |value| && |parts| >= 2 && 'a' <= parts[|parts| - 1][0] <= 'z' {
      JoinSplit(value);
      forall i | 0 <= i < |parts| ensures PatternLabel(parts[i]) {
        assert CanonicalLabel(parts[i]);
        forall j | 0 <= j < |parts[i]| ensures LowerAlnum(parts[i][j]) || parts[i][j] == '-' {
          assert parts[i][j] in value;
        }
      }
      assert PatternLabels(parts);
    }
  }

  /** RFC 3986, sections 2.2, 2.3 and 3.3. */
  predicate Unreserved(c: char) {
    'a' <= c <= 'z' || 'A' <= c <= 'Z' || '0' <= c <= '9' || c == '-' || c == '.' || c == '_' || c == '~'
  }

  predicate SubDelimiter(c: char) {
    c == '!' || c == '$' || c == '&' || c == '\'' || c == '(' || c == ')' || c == '*' || c == '+' || c == ',' || c == ';' || c == '='
  }

  lemma TwoDots(path: string)
    ensures (exists i :: 0 <= i && i + 1 < |path| && path[i] == '.' && path[i + 1] == '.') <==>
            (exists a: string, b: string :: path == a + ".." + b)
  {
    if i :| 0 <= i && i + 1 < |path| && path[i] == '.' && path[i + 1] == '.' {
      assert path == path[..i] + ".." + path[i + 2..];
    }
    if a: string, b: string :| path == a + ".." + b {
      assert path[|a|] == '.' && path[|a| + 1] == '.';
    }
  }

  lemma BeginsWithSlash(path: string)
    ensures path != "" && path[0] == '/' <==> exists rest: string :: path == "/" + rest
  {
    if path != "" && path[0] == '/' {
      assert path == "/" + path[1..];
    }
  }

  /** The characters of RFC 3986 path segments without escapes, and the slash. */
  predicate SegmentChar(c: char) {
    Unreserved(c) || SubDelimiter(c) || c == ':' || c == '@' || c == '/'
  }

  lemma PathCharsAreSegmentChars(c: char)
    ensures PathChar(c) <==> SegmentChar(c)
  {
  }

  lemma PathsOfChars(path: string)
    ensures (forall i :: 0 <= i < |path| ==> PathChar(path[i])) <==> forall c :: c in path ==> SegmentChar(c)
  {
    hide PathChar, SegmentChar;
    forall c ensures PathChar(c) <==> SegmentChar(c) {
      PathCharsAreSegmentChars(c);
    }
    if forall i :: 0 <= i < |path| ==> PathChar(path[i]) {
      forall c | c in path ensures SegmentChar(c) {
        var j :| 0 <= j < |path| && path[j] == c;
      }
    }
  }

  /** An admitted path is a slash and the characters of RFC 3986 path segments without escapes, of at most 512
      characters, with no empty first segment and no two dots in a row. */
  lemma AdmittedPathsExactly(path: string)
    ensures AdmittedPath(path) <==>
      && |path| <= 512 && (exists rest: string :: path == "/" + rest) && !(exists rest: string :: path == "//" + rest)
      && (forall c :: c in path ==> SegmentChar(c))
      && !(exists a: string, b: string :: path == a + ".." + b)
  {
    hide PathChar, SegmentChar;
    TwoDots(path);
    BeginsWithSlash(path);
    PathsOfChars(path);
    if |path| >= 2 && path[0] == '/' && path[1] == '/' {
      assert path == "//" + path[2..];
    }
  }

  /** A worker's path is a slash and anything but query, fragment, backslash, escape and control breaks, with no
      two dots in a row. */
  lemma PlainPathsExactly(path: string)
    ensures PlainPath(path) <==>
      && (exists rest: string :: path == "/" + rest)
      && '?' !in path && '#' !in path && '\\' !in path && '%' !in path && '\r' !in path && '\n' !in path && '\0' !in path
      && !(exists a: string, b: string :: path == a + ".." + b)
  {
    TwoDots(path);
    BeginsWithSlash(path);
  }

  lemma AdmittedHostnamesPass(hostname: string)
    requires MatchesHostnamePattern(hostname)
    ensures CanonicalHostname(hostname)
  {
    var labels :| PatternLabels(labels) && Join(labels) == hostname;
    SplitJoin(labels);
    JoinChars(labels);
    forall i | 0 <= i < |labels| ensures CanonicalLabel(labels[i]) {
      assert PatternLabel(labels[i]);
    }
  }

  /** Every hostname and path an admission lets through passes the worker's own checks. */
  lemma AdmittedRequestsPassTheWorker(hostname: string, path: string)
    requires MatchesHostnamePattern(hostname) && AdmittedPath(path)
    ensures CanonicalHostname(hostname) && PlainPath(path)
  {
    hide MatchesHostnamePattern, CanonicalHostname;
    AdmittedHostnamesPass(hostname);
    forall c | c in path ensures c !in {'?', '#', '\\', '%', '\r', '\n', '\0'} {
      var i :| 0 <= i < |path| && path[i] == c;
      assert PathChar(path[i]);
    }
  }
}
