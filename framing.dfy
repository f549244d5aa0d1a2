/**
 * The streaming wire format: each unit is the JSON encoding of
 * `{"text": ..., "error_code": ..., "usage": {...}}` followed by one NUL byte.
 * JSON encoding is abstract: a pair of functions, assumed sound where stated
 * (`Sound`). Section 7 of RFC 8259 requires control characters U+0000-U+001F inside
 * strings to be escaped, so a JSON text never holds a raw NUL byte.
 */
module Framing {
  import opened Wrappers
  import Seqs

  type Byte = b: int | 0 <= b < 256

  /** The frame delimiter, `"\0".encode()`. */
  const Nul: Byte := 0

  /** One unit of output, the dictionary `ret` of the worker. */
  datatype Payload = Payload(text: string, errorCode: int, usage: map<string, int>)

  /** `json.dumps(...).encode()` and `json.loads(b.decode())`. */
  datatype Json = Json(encode: Payload -> seq<Byte>, decode: seq<Byte> -> Option<Payload>)

  /** The encoder never emits NUL, and decoding inverts encoding. */
  ghost predicate Sound(j: Json)
  {
    forall p :: Nul !in j.encode(p) && j.decode(j.encode(p)) == Some(p)
  }

  /** The unit the worker streams for one assembled text: no error, no usage. */
  function Unit(text: string): Payload
  {
    Payload(text, 0, map[])
  }

  /** `(json.dumps(ret) + "\0").encode()`. */
  function Frame(j: Json, p: Payload): (f: seq<Byte>)
    ensures |f| == |j.encode(p)| + 1 && f[|f| - 1] == Nul
  {
    j.encode(p) + [Nul]
  }

  /** `json.loads(x[:-1].decode())`: the frame with its final byte removed, decoded. */
  function DecodeFrame(j: Json, x: seq<Byte>): Option<Payload>
  {
    if x == [] then None else j.decode(x[..|x| - 1])
  }

  /** Decodes every piece, failing if any piece fails. */
  function DecodeAll(j: Json, pieces: seq<seq<Byte>>): Option<seq<Payload>>
  {
    if pieces == [] then Some([])
    else match (j.decode(pieces[0]), DecodeAll(j, pieces[1..]))
      case (Some(p), Some(ps)) => Some([p] + ps)
      case _ => None
  }

  /** The client's reading of a byte stream: split on NUL, reject a trailing partial frame, decode each frame. */
  function DecodeStream(j: Json, bytes: seq<Byte>): Option<seq<Payload>>
  {
    match Seqs.Unframe(bytes, Nul)
    case None => None
    case Some(pieces) => DecodeAll(j, pieces)
  }

  /** The encodings of the payloads, in order. */
  function Encodings(j: Json, ps: seq<Payload>): (es: seq<seq<Byte>>)
    ensures |es| == |ps|
    ensures forall k :: 0 <= k < |ps| ==> es[k] == j.encode(ps[k])
  {
    if ps == [] then [] else [j.encode(ps[0])] + Encodings(j, ps[1..])
  }

  /** Removing the delimiter from a frame and decoding gives the payload back. */
  lemma FrameRoundTrip(j: Json, p: Payload)
    requires Sound(j)
    ensures DecodeFrame(j, Frame(j, p)) == Some(p)
  {
  }

  lemma {:induction false} DecodeAllEncodings(j: Json, ps: seq<Payload>)
    requires Sound(j)
    ensures DecodeAll(j, Encodings(j, ps)) == Some(ps)
  {
    if ps != [] {
      DecodeAllEncodings(j, ps[1..]);
      assert Encodings(j, ps)[1..] == Encodings(j, ps[1..]);
      assert [ps[0]] + ps[1..] == ps;
    }
  }

  /**
   * Concatenating the frames of a sequence of payloads and reading the bytes back
   * recovers exactly those payloads, in order.
   */
  lemma StreamRoundTrip(j: Json, ps: seq<Payload>, frames: seq<seq<Byte>>)
    requires Sound(j)
    requires |frames| == |ps|
    requires forall k :: 0 <= k < |ps| ==> frames[k] == Frame(j, ps[k])
    ensures DecodeStream(j, Seqs.Flatten(frames)) == Some(ps)
  {
    var es := Encodings(j, ps);
    Seqs.FlattenFrames(frames, es, Nul);
    assert Seqs.Clean(es, Nul);
    Seqs.UnframeFramed(es, Nul);
    DecodeAllEncodings(j, ps);
  }

  /** A stream cut off inside a frame is rejected. */
  lemma TruncatedStreamRejected(j: Json, bytes: seq<Byte>)
    requires bytes != [] && bytes[|bytes| - 1] != Nul
    ensures DecodeStream(j, bytes) == None
  {
    Seqs.UnframePartial(bytes, Nul);
  }
}
