/** The chunked transfer coding of section 7.1 of RFC 9112, without extensions and
    trailer fields: the relay's encoder and a client's decoder. */
module Chunked {
  import opened Wrappers
  import opened Sse

  const CRLF: seq<Byte> := [CR, LF]

  /** A zero-length chunk and an empty trailer section. */
  const FINAL: seq<Byte> := [48, CR, LF, CR, LF]

  function Digit(d: nat): Byte
    requires d < 16
  {
    if d < 10 then 48 + d else 87 + d
  }

  /** Lower-case hexadecimal without leading zeros. */
  function Hex(n: nat): seq<Byte> {
    if n < 16 then [Digit(n)] else Hex(n / 16) + [Digit(n % 16)]
  }

  function Encode(frame: seq<Byte>): seq<Byte> {
    Hex(|frame|) + CRLF + frame + CRLF
  }

  function EncodeAll(frames: seq<seq<Byte>>): seq<Byte> {
    if frames == [] then [] else EncodeAll(frames[..|frames| - 1]) + Encode(frames[|frames| - 1])
  }

  // The client's side.

  predicate IsHex(b: Byte) {
    48 <= b <= 57 || 97 <= b <= 102 || 65 <= b <= 70
  }

  function DigitValue(b: Byte): nat
    requires IsHex(b)
  {
    if b <= 57 then b - 48 else if b >= 97 then b - 87 else b - 55
  }

  function HexRun(bytes: seq<Byte>, from: nat): nat
    requires from <= |bytes|
    ensures from <= HexRun(bytes, from) <= |bytes|
    ensures forall i :: from <= i < HexRun(bytes, from) ==> IsHex(bytes[i])
    decreases |bytes| - from
  {
    if from < |bytes| && IsHex(bytes[from]) then HexRun(bytes, from + 1) else from
  }

  function HexValue(digits: seq<Byte>): nat
    requires forall i :: 0 <= i < |digits| ==> IsHex(digits[i])
  {
    if digits == [] then 0
    else HexValue(digits[..|digits| - 1]) * 16 + DigitValue(digits[|digits| - 1])
  }

  /** A complete body and how many octets it took, a body still waiting for more,
      or octets that are no chunked body. */
  datatype Decoded = Complete(body: seq<Byte>, used: nat) | Incomplete | Malformed

  /** The first chunk of `bytes` and the octets it takes, if it is all there. */
  datatype Head = Chunk(data: seq<Byte>, used: nat) | More | Bad

  function ReadChunk(bytes: seq<Byte>): (h: Head)
    ensures h.Chunk? ==> |h.data| < h.used <= |bytes|
  {
    var k := HexRun(bytes, 0);
    if |bytes| < k + 2 then More
    else if k == 0 || bytes[k..k + 2] != CRLF then Bad
    else
      var size, data := HexValue(bytes[..k]), k + 2;
      if |bytes| < data + size + 2 then More
      else if bytes[data + size..data + size + 2] != CRLF then Bad
      else Chunk(bytes[data..data + size], data + size + 2)
  }

  function Decode(bytes: seq<Byte>): Decoded
    decreases |bytes|
  {
    match ReadChunk(bytes)
    case More => Incomplete
    case Bad => Malformed
    case Chunk(data, used) =>
      if data == [] then Complete([], used) else After(data, used, Decode(bytes[used..]))
  }

  /** What a chunk of `used` octets in front of `rest` decodes to. */
  function After(data: seq<Byte>, used: nat, rest: Decoded): Decoded {
    if rest.Complete? then Complete(data + rest.body, used + rest.used) else rest
  }

  // The two sides meet.

  lemma {:induction false} HexRoundTrip(n: nat)
    ensures Hex(n) != [] && (forall i :: 0 <= i < |Hex(n)| ==> IsHex(Hex(n)[i]))
    ensures HexValue(Hex(n)) == n
    decreases n
  {
    if n >= 16 {
      HexRoundTrip(n / 16);
      assert Hex(n)[..|Hex(n)| - 1] == Hex(n / 16);
    } else {
      assert Hex(n)[..0] == [];
      assert HexValue([]) == 0;
    }
  }

  lemma HexRunStops(digits: seq<Byte>, rest: seq<Byte>, from: nat)
    requires from <= |digits| && (forall i :: 0 <= i < |digits| ==> IsHex(digits[i]))
    requires rest != [] && !IsHex(rest[0])
    ensures HexRun(digits + rest, from) == |digits|
    decreases |digits| - from
  {
    if from < |digits| {
      HexRunStops(digits, rest, from + 1);
    }
  }

  lemma ReadEncoded(frame: seq<Byte>, rest: seq<Byte>)
    ensures ReadChunk(Encode(frame) + rest) == Chunk(frame, |Encode(frame)|)
  {
    hide Hex, HexRun, HexValue;
    var hex, all := Hex(|frame|), Encode(frame) + rest;
    HexRoundTrip(|frame|);
    assert all == hex + (CRLF + frame + CRLF + rest);
    HexRunStops(hex, CRLF + frame + CRLF + rest, 0);
    assert all == hex + CRLF + frame + CRLF + rest;
    Pieces(hex, CRLF, frame, CRLF, rest);
  }

  /** Where each part of a concatenation lies. */
  lemma Pieces(a: seq<Byte>, b: seq<Byte>, c: seq<Byte>, d: seq<Byte>, rest: seq<Byte>)
    ensures var all := a + b + c + d + rest;
      var i, j, k := |a|, |a| + |b|, |a| + |b| + |c|;
      all[..i] == a && all[i..j] == b && all[j..k] == c && all[k..k + |d|] == d
  {
  }

  lemma DecodeFinal()
    ensures FINAL == Encode([]) && Decode(FINAL) == Complete([], |FINAL|)
  {
    ReadEncoded([], []);
    assert Encode([]) + [] == FINAL;
  }

  lemma {:induction false} ConcatSnoc(frames: seq<seq<Byte>>, frame: seq<Byte>)
    ensures Concat(frames + [frame]) == Concat(frames) + frame
    decreases |frames|
  {
    if frames == [] {
      assert (frames + [frame])[1..] == [];
    } else {
      assert (frames + [frame])[1..] == frames[1..] + [frame];
      ConcatSnoc(frames[1..], frame);
    }
  }

  lemma {:induction false} DecodeChunks(frames: seq<seq<Byte>>, rest: seq<Byte>)
    requires forall i :: 0 <= i < |frames| ==> frames[i] != []
    ensures Decode(EncodeAll(frames) + rest) == After(Concat(frames), |EncodeAll(frames)|, Decode(rest))
    decreases |frames|
  {
    if frames == [] {
      assert EncodeAll(frames) + rest == rest;
    } else {
      var front, last := frames[..|frames| - 1], frames[|frames| - 1];
      assert frames == front + [last];
      ConcatSnoc(front, last);
      ReadEncoded(last, rest);
      assert (Encode(last) + rest)[|Encode(last)|..] == rest;
      DecodeChunks(front, Encode(last) + rest);
      assert EncodeAll(frames) + rest == EncodeAll(front) + (Encode(last) + rest);
      AfterAfter(Concat(front), |EncodeAll(front)|, last, |Encode(last)|, Decode(rest));
    }
  }

  lemma AfterAfter(a: seq<Byte>, m: nat, b: seq<Byte>, n: nat, rest: Decoded)
    ensures After(a, m, After(b, n, rest)) == After(a + b, m + n, rest)
  {
    if rest.Complete? {
      assert a + (b + rest.body) == (a + b) + rest.body;
    }
  }

  /** Round trip: a terminated stream decodes to exactly the frames put in. */
  lemma DecodeEncodeAll(frames: seq<seq<Byte>>)
    requires forall i :: 0 <= i < |frames| ==> frames[i] != []
    ensures Decode(EncodeAll(frames) + FINAL) == Complete(Concat(frames), |EncodeAll(frames)| + |FINAL|)
  {
    DecodeFinal();
    DecodeChunks(frames, FINAL);
    assert Concat(frames) + [] == Concat(frames);
  }

  lemma HexRunExtends(bytes: seq<Byte>, more: seq<Byte>, from: nat)
    requires from <= |bytes| && HexRun(bytes, from) < |bytes|
    ensures HexRun(bytes + more, from) == HexRun(bytes, from)
    decreases |bytes| - from
  {
    if IsHex(bytes[from]) {
      HexRunExtends(bytes, more, from + 1);
    }
  }

  lemma ReadChunkExtends(bytes: seq<Byte>, more: seq<Byte>)
    requires ReadChunk(bytes).Chunk?
    ensures ReadChunk(bytes + more) == ReadChunk(bytes)
  {
    var k := HexRun(bytes, 0);
    HexRunExtends(bytes, more, 0);
    var size, data := HexValue(bytes[..k]), k + 2;
    var all := bytes + more;
    assert all[..k] == bytes[..k] && all[k..data] == bytes[k..data];
    assert all[data + size..data + size + 2] == bytes[data + size..data + size + 2];
    assert all[data..data + size] == bytes[data..data + size];
  }

  /** A body, once complete, is the same body whatever follows it. */
  lemma {:induction false} CompleteIsFinal(bytes: seq<Byte>, more: seq<Byte>)
    requires Decode(bytes).Complete?
    ensures Decode(bytes + more) == Decode(bytes) && Decode(bytes).used <= |bytes|
    decreases |bytes|
  {
    ReadChunkExtends(bytes, more);
    var head := ReadChunk(bytes);
    if head.data != [] {
      assert (bytes + more)[head.used..] == bytes[head.used..] + more;
      CompleteIsFinal(bytes[head.used..], more);
    }
  }

  /** A strict prefix of a terminated stream never decodes as complete. */
  lemma TruncationIsNeverComplete(cut: seq<Byte>, frames: seq<seq<Byte>>)
    requires forall i :: 0 <= i < |frames| ==> frames[i] != []
    requires cut < EncodeAll(frames) + FINAL
    ensures !Decode(cut).Complete?
  {
    var whole := EncodeAll(frames) + FINAL;
    var more := whole[|cut|..];
    assert cut + more == whole;
    DecodeEncodeAll(frames);
    if Decode(cut).Complete? {
      CompleteIsFinal(cut, more);
    }
  }
}
