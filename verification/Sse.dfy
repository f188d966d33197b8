/** The incremental event-stream parser, and the two-line specification it
    refines: normalise line endings, then cut after each blank line. */
module Sse {
  import opened Wrappers

  const LF: Byte := 10
  const CR: Byte := 13

  // The specification.

  /** CRLF, CR and LF all become LF (section 9.2.5 of the WHATWG HTML Standard). */
  function Normalize(bytes: seq<Byte>): seq<Byte> {
    if bytes == [] then []
    else if bytes[0] == CR && |bytes| > 1 && bytes[1] == LF then [LF] + Normalize(bytes[2..])
    else [if bytes[0] == CR then LF else bytes[0]] + Normalize(bytes[1..])
  }

  /** The position just after the first blank line, counting the start of the
      text as the start of a line; beyond the text when there is none. */
  function BlankLine(text: seq<Byte>, from: nat): nat
    requires from <= |text|
    decreases |text| - from
  {
    if from == |text| then |text| + 1
    else if text[from] == LF && (from == 0 || text[from - 1] == LF) then from + 1
    else BlankLine(text, from + 1)
  }

  datatype Parsed = Parsed(frames: seq<seq<Byte>>, residue: seq<Byte>, failed: bool)

  /** Cut after each blank line, giving up at the first frame, finished or not,
      that is longer than `limit`. */
  function Parse(text: seq<Byte>, limit: nat): Parsed
    decreases |text|
  {
    var end := BlankLine(text, 0);
    if end <= |text| && end <= limit then
      BlankLineRange(text, 0);
      var rest := Parse(text[end..], limit);
      rest.(frames := [text[..end]] + rest.frames)
    else
      Parsed([], text, |text| > limit)
  }

  lemma BlankLineRange(text: seq<Byte>, from: nat)
    requires from <= |text|
    ensures from < BlankLine(text, from) <= |text| + 1
    decreases |text| - from
  {
  }

  // The parser.

  datatype Parser = Parser(frame: seq<Byte>, lineBytes: nat, skipLf: bool, rawBytes: nat)

  datatype Emit = Nothing | Frame(bytes: seq<Byte>) | TooLong

  const FRESH: Parser := Parser([], 0, false, 0)

  function Pushed(p: Parser, limit: nat, byte: Byte): (Parser, Emit) {
    if p.skipLf && byte == LF then (p.(skipLf := false), Nothing)
    else if p.rawBytes + 1 > limit then (p.(skipLf := false, rawBytes := p.rawBytes + 1), TooLong)
    else if byte == CR || byte == LF then
      if p.lineBytes == 0 then (Parser([], 0, byte == CR, 0), Frame(p.frame + [LF]))
      else (Parser(p.frame + [LF], 0, byte == CR, p.rawBytes + 1), Nothing)
    else
      (Parser(p.frame + [byte], p.lineBytes + 1, false, p.rawBytes + 1), Nothing)
  }

  class SseParser {
    const limit: nat
    var frame: seq<Byte>
    var lineBytes: nat
    var skipLf: bool
    var rawBytes: nat

    constructor (limit: nat)
      ensures this.limit == limit && View() == FRESH
    {
      this.limit := limit;
      frame, lineBytes, skipLf, rawBytes := [], 0, false, 0;
    }

    ghost function View(): Parser
      reads this
    {
      Parser(frame, lineBytes, skipLf, rawBytes)
    }

    method Push(byte: Byte) returns (emit: Emit)
      modifies this
      ensures (View(), emit) == Pushed(old(View()), limit, byte)
    {
      if skipLf {
        skipLf := false;
        if byte == LF {
          return Nothing;
        }
      }
      rawBytes := rawBytes + 1;
      if rawBytes > limit {
        return TooLong;
      }
      if byte == CR || byte == LF {
        skipLf := byte == CR;
        frame := frame + [LF];
        var empty := lineBytes == 0;
        lineBytes := 0;
        if empty {
          rawBytes := 0;
          emit := Frame(frame);
          frame := [];
          return;
        }
      } else {
        frame := frame + [byte];
        lineBytes := lineBytes + 1;
      }
      return Nothing;
    }
  }

  /** Bytes pushed one at a time until the first error. */
  datatype Fed = Fed(parser: Parser, frames: seq<seq<Byte>>, failed: bool)

  function Feed(bytes: seq<Byte>, limit: nat): Fed {
    if bytes == [] then Fed(FRESH, [], false)
    else
      var before := Feed(bytes[..|bytes| - 1], limit);
      if before.failed then before
      else
        var (p, emit) := Pushed(before.parser, limit, bytes[|bytes| - 1]);
        match emit
        case Nothing => Fed(p, before.frames, false)
        case Frame(f) => Fed(p, before.frames + [f], false)
        case TooLong => Fed(p, before.frames, true)
  }

  // Normalisation, one byte at a time.

  predicate EndsWith(s: seq<Byte>, b: Byte) {
    s != [] && s[|s| - 1] == b
  }

  lemma {:induction false} NormalizeSnoc(bytes: seq<Byte>, b: Byte)
    ensures Normalize(bytes + [b]) ==
      if b == LF && EndsWith(bytes, CR) then Normalize(bytes)
      else Normalize(bytes) + [if b == CR then LF else b]
    decreases |bytes|
  {
    if bytes == [] {
      assert bytes + [b] == [b];
      assert [b][1..] == [];
    } else if |bytes| == 1 {
      assert (bytes + [b])[1..] == [b] && bytes[1..] == [];
      assert [b][1..] == [];
      assert (bytes + [b])[2..] == [];
    } else {
      var step := if bytes[0] == CR && bytes[1] == LF then 2 else 1;
      assert (bytes + [b])[step..] == bytes[step..] + [b];
      if step == 2 && |bytes| == 2 {
        assert bytes[2..] == [] && [] + [b] == [b] && [b][1..] == [];
      }
      NormalizeSnoc(bytes[step..], b);
      assert step < |bytes| ==> EndsWith(bytes[step..], CR) == EndsWith(bytes, CR);
    }
  }

  // Cutting, one byte at a time.

  /** Whether the next byte of `residue` starts a line. */
  predicate AtLineStart(residue: seq<Byte>) {
    residue == [] || EndsWith(residue, LF)
  }

  lemma BlankLineSnoc(text: seq<Byte>, b: Byte, from: nat)
    requires from <= |text|
    ensures BlankLine(text, from) <= |text| ==> BlankLine(text + [b], from) == BlankLine(text, from)
    ensures BlankLine(text, from) > |text| ==>
      BlankLine(text + [b], from) == if b == LF && AtLineStart(text) then |text| + 1 else |text| + 2
    decreases |text| - from
  {
    if from < |text| {
      BlankLineSnoc(text, b, from + 1);
    } else {
      assert BlankLine(text + [b], |text| + 1) == |text| + 2;
    }
  }

  /** What one more byte does to a text that parsed. */
  function Extended(p: Parsed, b: Byte, limit: nat): Parsed {
    var longer := p.residue + [b];
    if |longer| > limit then Parsed(p.frames, longer, true)
    else if b == LF && AtLineStart(p.residue) then Parsed(p.frames + [longer], [], false)
    else Parsed(p.frames, longer, false)
  }

  lemma {:induction false} ParseSnoc(text: seq<Byte>, b: Byte, limit: nat)
    requires !Parse(text, limit).failed
    ensures Parse(text + [b], limit) == Extended(Parse(text, limit), b, limit)
    decreases |text|
  {
    var end := BlankLine(text, 0);
    BlankLineRange(text, 0);
    BlankLineSnoc(text, b, 0);
    if end <= |text| {
      assert (text + [b])[..end] == text[..end];
      assert (text + [b])[end..] == text[end..] + [b];
      ParseSnoc(text[end..], b, limit);
    } else if b == LF && AtLineStart(text) && |text| + 1 <= limit {
      assert (text + [b])[..|text| + 1] == text + [b];
      assert (text + [b])[|text| + 1..] == [];
    }
  }

  /** Once a frame is too long, more input changes nothing that was emitted. */
  lemma {:induction false} ParseFailedSnoc(text: seq<Byte>, b: Byte, limit: nat)
    requires Parse(text, limit).failed
    ensures Parse(text + [b], limit).failed && Parse(text + [b], limit).frames == Parse(text, limit).frames
    decreases |text|
  {
    var end := BlankLine(text, 0);
    BlankLineRange(text, 0);
    BlankLineSnoc(text, b, 0);
    if end <= |text| && end <= limit {
      assert (text + [b])[..end] == text[..end];
      assert (text + [b])[end..] == text[end..] + [b];
      ParseFailedSnoc(text[end..], b, limit);
    }
  }

  // Refinement.

  /** The parser's private counters say what the residue says. */
  ghost predicate Agrees(p: Parser, residue: seq<Byte>, endsCr: bool) {
    && p.frame == residue
    && p.rawBytes == |residue|
    && (p.lineBytes == 0 <==> AtLineStart(residue))
    && p.skipLf == endsCr
  }

  /** The incremental parser refines the specification: after any input it has
      emitted exactly the frames of the normalised text, failed exactly when that
      text has an overlong frame, and otherwise holds exactly the residue. */
  lemma {:induction false} ParserRefinesSpec(bytes: seq<Byte>, limit: nat)
    ensures var fed, spec := Feed(bytes, limit), Parse(Normalize(bytes), limit);
      && fed.frames == spec.frames
      && fed.failed == spec.failed
      && (!fed.failed ==> Agrees(fed.parser, spec.residue, EndsWith(bytes, CR)))
    decreases |bytes|
  {
    if bytes != [] {
      var front, b := bytes[..|bytes| - 1], bytes[|bytes| - 1];
      assert bytes == front + [b];
      ParserRefinesSpec(front, limit);
      NormalizeSnoc(front, b);
      var text := Normalize(front);
      var next: Byte := if b == CR then LF else b;
      if Feed(front, limit).failed {
        ParseFailedSnoc(text, next, limit);
      } else if !(b == LF && EndsWith(front, CR)) {
        ParseSnoc(text, next, limit);
      }
    }
  }

  // Consequences for every input.

  function Concat(frames: seq<seq<Byte>>): seq<Byte> {
    if frames == [] then [] else frames[0] + Concat(frames[1..])
  }

  /** A frame is non-empty, ends in a blank line and contains no earlier one. */
  ghost predicate IsFrame(f: seq<Byte>) {
    f != [] && BlankLine(f, 0) == |f|
  }

  ghost predicate AllFrames(frames: seq<seq<Byte>>, limit: nat) {
    forall i :: 0 <= i < |frames| ==> IsFrame(frames[i]) && |frames[i]| <= limit
  }

  lemma BlankLineOfPrefix(text: seq<Byte>, from: nat)
    requires from <= |text| && BlankLine(text, from) <= |text|
    ensures var end := BlankLine(text, from); from < end && BlankLine(text[..end], from) == end
    decreases |text| - from
  {
    BlankLineRange(text, from);
    if !(text[from] == LF && (from == 0 || text[from - 1] == LF)) {
      BlankLineOfPrefix(text, from + 1);
    }
  }

  lemma {:induction false} ParseConcat(text: seq<Byte>, limit: nat)
    ensures var p := Parse(text, limit); Concat(p.frames) + p.residue == text
    decreases |text|
  {
    var end := BlankLine(text, 0);
    if end <= |text| && end <= limit {
      BlankLineRange(text, 0);
      ParseConcat(text[end..], limit);
      var rest := Parse(text[end..], limit);
      var p := Parse(text, limit);
      assert p.frames[1..] == rest.frames;
      assert (text[..end] + Concat(rest.frames)) + rest.residue == text[..end] + text[end..];
    }
  }

  lemma {:induction false} ParseFrames(text: seq<Byte>, limit: nat)
    ensures AllFrames(Parse(text, limit).frames, limit)
    decreases |text|
  {
    var end := BlankLine(text, 0);
    if end <= |text| && end <= limit {
      BlankLineRange(text, 0);
      BlankLineOfPrefix(text, 0);
      ParseFrames(text[end..], limit);
      var rest := Parse(text[end..], limit);
      assert Parse(text, limit).frames == [text[..end]] + rest.frames;
      assert AllFrames([text[..end]], limit) && AllFrames(rest.frames, limit);
    }
  }

  /** Nothing is lost, invented or reordered, and no emitted frame is over the
      limit: frames and residue concatenate to the normalised input. */
  lemma NothingLost(bytes: seq<Byte>, limit: nat)
    ensures var fed := Feed(bytes, limit);
      && (!fed.failed ==> Concat(fed.frames) + fed.parser.frame == Normalize(bytes))
      && Concat(fed.frames) <= Normalize(bytes)
      && AllFrames(fed.frames, limit)
  {
    ParserRefinesSpec(bytes, limit);
    ParseConcat(Normalize(bytes), limit);
    ParseFrames(Normalize(bytes), limit);
  }

  /** Only the normal form matters: inputs that differ in line endings give the
      same frames and the same error. */
  lemma OnlyNormalFormMatters(bytes: seq<Byte>, bytes': seq<Byte>, limit: nat)
    requires Normalize(bytes) == Normalize(bytes')
    ensures Feed(bytes, limit).frames == Feed(bytes', limit).frames
    ensures Feed(bytes, limit).failed == Feed(bytes', limit).failed
  {
    ParserRefinesSpec(bytes, limit);
    ParserRefinesSpec(bytes', limit);
  }

  // What the normal form and a frame are, without the functions that compute them.

  /** Texts normalise piece by piece, except inside a CRLF. */
  lemma {:induction false} NormalizeSplit(a: seq<Byte>, b: seq<Byte>)
    requires !(EndsWith(a, CR) && b != [] && b[0] == LF)
    ensures Normalize(a + b) == Normalize(a) + Normalize(b)
    decreases |b|
  {
    if b == [] {
      assert a + b == a;
    } else {
      var front, last := b[..|b| - 1], b[|b| - 1];
      assert a + b == (a + front) + [last] && b == front + [last];
      NormalizeSplit(a, front);
      NormalizeSnoc(a + front, last);
      NormalizeSnoc(front, last);
      assert front != [] ==> EndsWith(a + front, CR) == EndsWith(front, CR);
      assert front == [] ==> a + front == a;
    }
  }

  /** Each of the three line endings is one LF, and every other byte is itself. */
  lemma {:induction false} NormalForms(text: seq<Byte>)
    ensures Normalize([CR, LF]) == Normalize([CR]) == Normalize([LF]) == [LF]
    ensures CR !in text ==> Normalize(text) == text
    ensures CR !in Normalize(text)
    decreases |text|
  {
    assert [CR, LF][2..] == [] && [CR][1..] == [] && [LF][1..] == [];
    if text != [] {
      NormalForms(text[1..]);
      if |text| > 1 {
        NormalForms(text[2..]);
      }
    }
  }

  predicate EndsBlank(f: seq<Byte>, n: nat)
    requires n <= |f|
  {
    n > 0 && f[n - 1] == LF && (n == 1 || f[n - 2] == LF)
  }

  /** A frame ends in its first blank line. */
  lemma FrameShape(f: seq<Byte>)
    ensures IsFrame(f) <==> EndsBlank(f, |f|) && forall n :: 0 <= n < |f| ==> !EndsBlank(f, n)
  {
    FirstBlankLine(f, 0);
    if IsFrame(f) {
      BlankLineRange(f, 0);
    }
  }

  lemma {:induction false} FirstBlankLine(f: seq<Byte>, from: nat)
    requires from <= |f|
    ensures var end := BlankLine(f, from);
      && from < end <= |f| + 1
      && (end <= |f| ==> EndsBlank(f, end))
      && forall n :: from < n < end && n <= |f| ==> !EndsBlank(f, n)
    decreases |f| - from
  {
    if from < |f| && !EndsBlank(f, from + 1) {
      FirstBlankLine(f, from + 1);
    }
  }

  lemma BlankLineOfFirst(f: seq<Byte>, rest: seq<Byte>)
    requires IsFrame(f)
    ensures BlankLine(f + rest, 0) == |f|
  {
    FrameShape(f);
    FirstBlankLine(f + rest, 0);
    assert forall n :: 0 <= n <= |f| ==> EndsBlank(f + rest, n) == EndsBlank(f, n);
  }

  lemma {:induction false} ParseOfFrames(frames: seq<seq<Byte>>, limit: nat)
    requires AllFrames(frames, limit)
    ensures Parse(Concat(frames), limit) == Parsed(frames, [], false)
    decreases |frames|
  {
    if frames != [] {
      var f, rest := frames[0], frames[1..];
      assert IsFrame(f);
      ParseOfFrames(rest, limit);
      BlankLineOfFirst(f, Concat(rest));
      assert (f + Concat(rest))[..|f|] == f && (f + Concat(rest))[|f|..] == Concat(rest);
      assert [f] + rest == frames;
    }
  }

  /** Well-formed frames written one after the other are read back, whole and
      in order. */
  lemma FramesReadBack(frames: seq<seq<Byte>>, limit: nat)
    requires AllFrames(frames, limit) && CR !in Concat(frames)
    ensures Feed(Concat(frames), limit).frames == frames && !Feed(Concat(frames), limit).failed
  {
    NormalForms(Concat(frames));
    ParserRefinesSpec(Concat(frames), limit);
    ParseOfFrames(frames, limit);
  }

  /** What is left after the emitted frames: it starts no frame within the limit. */
  lemma {:induction false} ResidueIsUnfinished(text: seq<Byte>, limit: nat)
    ensures var p := Parse(text, limit);
      && p.failed == (|p.residue| > limit)
      && forall n :: 0 <= n <= |p.residue| && n <= limit ==> !EndsBlank(p.residue, n)
    decreases |text|
  {
    var end := BlankLine(text, 0);
    FirstBlankLine(text, 0);
    if end <= |text| && end <= limit {
      ResidueIsUnfinished(text[end..], limit);
    }
  }

  /** The parser gives up exactly when what follows its frames is over the limit
      without a blank line in the limit, and keeps everything else. */
  lemma FailureIsExact(bytes: seq<Byte>, limit: nat)
    ensures var fed, text := Feed(bytes, limit), Normalize(bytes);
      && Concat(fed.frames) <= text
      && var rest := text[|Concat(fed.frames)|..];
         && (fed.failed <==> |rest| > limit)
         && (forall n :: 0 <= n <= |rest| && n <= limit ==> !EndsBlank(rest, n))
         && (!fed.failed ==> fed.parser.frame == rest)
  {
    var spec := Parse(Normalize(bytes), limit);
    ParserRefinesSpec(bytes, limit);
    ParseConcat(Normalize(bytes), limit);
    ResidueIsUnfinished(Normalize(bytes), limit);
    assert Normalize(bytes)[|Concat(spec.frames)|..] == spec.residue;
  }
}
