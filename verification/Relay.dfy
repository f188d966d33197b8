/** The event-stream relay: parser, protocol check and chunked printer composed,
    and the decision to settle the reservation behind the stream. */
module Relay {
  import opened Wrappers
  import opened Sse
  import opened Json
  import opened Chunked
  import opened Protocol

  /** The protocol check, as the relay sees it. */
  type Inspector = (Protocol, seq<Byte>) -> (Protocol, Verdict)

  function InspectorOf(codec: Codec): Inspector {
    (p, frame) => Inspected(codec, p, frame)
  }

  // What is forwarded, frame by frame.

  datatype Walk = Walk(protocol: Protocol, forwarded: seq<seq<Byte>>, terminal: Option<Terminal>, rejected: bool) {
    predicate Stopped() {
      terminal.Some? || rejected
    }
  }

  function Next(inspect: Inspector, w: Walk, frame: seq<Byte>): Walk {
    var (p, verdict) := inspect(w.protocol, frame);
    match verdict
    case Reject => w.(rejected := true)
    case Event(hasData, terminal) =>
      if w.forwarded == [] && !hasData then w.(protocol := p)
      else Walk(p, w.forwarded + [frame], terminal, false)
  }

  /** Frames inspected in order until one is terminal or refused; those before
      the first data-carrying one are heartbeats and are dropped. */
  function Walked(inspect: Inspector, p: Protocol, frames: seq<seq<Byte>>): Walk {
    if frames == [] then Walk(p, [], None, false)
    else
      var w := Walked(inspect, p, frames[..|frames| - 1]);
      if w.Stopped() then w else Next(inspect, w, frames[|frames| - 1])
  }

  lemma {:induction false} WalkStops(inspect: Inspector, p: Protocol, frames: seq<seq<Byte>>, more: seq<seq<Byte>>)
    requires Walked(inspect, p, frames).Stopped()
    ensures Walked(inspect, p, frames + more) == Walked(inspect, p, frames)
    decreases |more|
  {
    if more == [] {
      assert frames + more == frames;
    } else {
      assert (frames + more)[..|frames + more| - 1] == frames + more[..|more| - 1];
      WalkStops(inspect, p, frames, more[..|more| - 1]);
    }
  }

  lemma WalkIsFinal(inspect: Inspector, p: Protocol, frames: seq<seq<Byte>>, all: seq<seq<Byte>>)
    requires frames <= all && Walked(inspect, p, frames).Stopped()
    ensures Walked(inspect, p, all) == Walked(inspect, p, frames)
  {
    WalkStops(inspect, p, frames, all[|frames|..]);
    assert frames + all[|frames|..] == all;
  }

  lemma {:induction false} FeedGrows(bytes: seq<Byte>, more: seq<Byte>, limit: nat)
    ensures Feed(bytes, limit).frames <= Feed(bytes + more, limit).frames
    decreases |more|
  {
    if more == [] {
      assert bytes + more == bytes;
    } else {
      assert (bytes + more)[..|bytes + more| - 1] == bytes + more[..|more| - 1];
      FeedGrows(bytes, more[..|more| - 1], limit);
    }
  }

  // The loop.

  /** The client's socket and everything else outside that may fail while it is
      served: audit log, budget accounting, deadlines. `works` says which of these
      operations succeed; `step` counts them. A failed write may have delivered any
      strict prefix. */
  class Client {
    const works: nat -> bool
    var step: nat
    var written: seq<Byte>

    /** Nothing has failed since operation `from`. */
    ghost predicate Undisturbed(from: nat)
      reads this
    {
      forall k :: from <= k < step ==> works(k)
    }

    method Check() returns (ok: bool)
      modifies this`step
      ensures step == old(step) + 1 && ok == works(old(step))
    {
      ok := works(step);
      step := step + 1;
    }

    method Write(bytes: seq<Byte>) returns (ok: bool)
      requires bytes != []
      modifies this
      ensures step == old(step) + 1 && ok == works(old(step))
      ensures ok ==> written == old(written) + bytes
      ensures !ok ==> exists cut :: cut < bytes && written == old(written) + cut
    {
      ok := Check();
      if ok {
        written := written + bytes;
      } else {
        var k: nat :| k < |bytes|;
        written := written + bytes[..k];
        assert bytes[..k] < bytes;
      }
    }
  }

  datatype Ended = Finished(terminal: Terminal) | Aborted(headersSent: bool)

  /** Everything written so far for the frames forwarded so far; `header` is the
      fixed response head announcing a chunked body. */
  function Sent(header: seq<Byte>, forwarded: seq<seq<Byte>>): seq<Byte> {
    if forwarded == [] then [] else header + EncodeAll(forwarded)
  }

  /** How a stream ends, and what the client then holds, if nothing outside fails. */
  function Outcome(w: Walk): Ended {
    if w.terminal.Some? then Finished(w.terminal.value) else Aborted(w.forwarded != [])
  }

  function Delivered(header: seq<Byte>, w: Walk): seq<Byte> {
    if w.terminal.Some? then header + EncodeAll(w.forwarded) + FINAL else Sent(header, w.forwarded)
  }

  /** One chunk, in the relay's three writes. */
  method WriteChunk(client: Client, frame: seq<Byte>) returns (ok: bool)
    requires frame != []
    modifies client
    ensures ok <==> client.Undisturbed(old(client.step))
    ensures old(client.step) < client.step <= old(client.step) + 3
    ensures ok ==> client.written == old(client.written) + Encode(frame)
    ensures !ok ==> exists cut :: cut < Encode(frame) && client.written == old(client.written) + cut
  {
    ghost var base := client.written;
    var prefix := Hex(|frame|) + CRLF;
    assert Encode(frame) == prefix + frame + CRLF;
    ok := client.Write(prefix);
    if !ok {
      return;
    }
    ok := client.Write(frame);
    if !ok {
      ghost var cut :| cut < frame && client.written == base + prefix + cut;
      assert client.written == base + (prefix + cut);
      return;
    }
    ok := client.Write(CRLF);
    if !ok {
      ghost var cut :| cut < CRLF && client.written == base + prefix + frame + cut;
      assert client.written == base + (prefix + frame + cut);
    }
  }

  /** A frame's forwarding: the head before the first, the chunk, and the
      zero-length chunk after the last. Any write may fail half way. */
  method Forward(client: Client, header: seq<Byte>, ghost sent: seq<seq<Byte>>, first: bool, frame: seq<Byte>, last: bool)
    returns (ok: bool)
    requires header != [] && frame != [] && first == (sent == [])
    requires client.written == Sent(header, sent)
    modifies client
    ensures ok <==> client.Undisturbed(old(client.step))
    ensures old(client.step) < client.step <= old(client.step) + 6
    ensures ok ==> client.written == Sent(header, sent + [frame]) + (if last then FINAL else [])
    ensures !ok ==> client.written < header + EncodeAll(sent + [frame]) + FINAL
  {
    EncodeAllSnoc(sent, frame);
    ghost var mid := header + EncodeAll(sent);
    if first {
      ok := client.Write(header);
      if !ok {
        InsideHeader(client.written, header, sent, frame);
        return;
      }
    }
    assert client.written == mid;
    if last {
      // Completion is recorded before the terminal marker is released.
      var audited := client.Check();
      if !audited {
        InsideChunk(header, sent, frame, []);
        assert mid + [] == mid;
        return false;
      }
    }
    ok := WriteChunk(client, frame);
    if !ok {
      ghost var cut :| cut < Encode(frame) && client.written == mid + cut;
      InsideChunk(header, sent, frame, cut);
      return;
    }
    assert client.written == header + EncodeAll(sent + [frame]);
    if last {
      ok := client.Write(FINAL);
    }
  }

  lemma EncodeAllSnoc(frames: seq<seq<Byte>>, frame: seq<Byte>)
    ensures EncodeAll(frames + [frame]) == EncodeAll(frames) + Encode(frame)
  {
    assert (frames + [frame])[..|frames|] == frames;
  }

  lemma InsideHeader(cut: seq<Byte>, header: seq<Byte>, sent: seq<seq<Byte>>, frame: seq<Byte>)
    requires cut < header
    ensures cut < header + EncodeAll(sent + [frame]) + FINAL
  {
  }

  lemma InsideChunk(header: seq<Byte>, sent: seq<seq<Byte>>, frame: seq<Byte>, cut: seq<Byte>)
    requires cut < Encode(frame)
    ensures header + EncodeAll(sent) + cut < header + EncodeAll(sent + [frame]) + FINAL
  {
    EncodeAllSnoc(sent, frame);
    var base := header + EncodeAll(sent);
    PrefixChain(base, cut, Encode(frame), FINAL);
    assert base + Encode(frame) == header + EncodeAll(sent + [frame]);
  }

  lemma PrefixChain(base: seq<Byte>, cut: seq<Byte>, part: seq<Byte>, rest: seq<Byte>)
    requires cut < part
    ensures base + cut < base + part + rest
  {
  }

  /** The walk over every frame the parser has emitted for `bytes`. */
  function WalkOf(inspect: Inspector, p: Protocol, limit: nat, bytes: seq<Byte>): Walk {
    Walked(inspect, p, Feed(bytes, limit).frames)
  }

  /** Parser, checker and client all agree with the specification on `bytes`. */
  ghost predicate InStep(inspect: Inspector, p: Protocol, limit: nat, header: seq<Byte>, bytes: seq<Byte>,
                         parser: Parser, checker: Protocol, written: seq<Byte>)
  {
    var fed, w := Feed(bytes, limit), WalkOf(inspect, p, limit, bytes);
    && !fed.failed && parser == fed.parser
    && !w.Stopped() && checker == w.protocol
    && written == Sent(header, w.forwarded)
  }

  /** What an abort after `bytes` leaves: nothing before the head, and a strict
      prefix of a terminated stream of provider frames after it. */
  ghost predicate CutShort(inspect: Inspector, p: Protocol, limit: nat, header: seq<Byte>, bytes: seq<Byte>,
                           headersSent: bool, written: seq<Byte>)
  {
    if headersSent then written < header + EncodeAll(WalkOf(inspect, p, limit, bytes).forwarded) + FINAL
    else written == []
  }

  /** One complete frame: inspected, dropped as a heartbeat, or forwarded. */
  method RelayFrame(codec: Codec, checker: Checker, client: Client, header: seq<Byte>,
                    ghost w: Walk, frame: seq<Byte>, headersSent: bool)
    returns (sent: bool, ended: Option<Ended>)
    requires header != [] && frame != [] && !w.Stopped()
    requires checker.View() == w.protocol && client.written == Sent(header, w.forwarded)
    requires headersSent == (w.forwarded != [])
    modifies checker, client
    ensures var w' := Next(InspectorOf(codec), w, frame);
      client.Undisturbed(old(client.step)) ==>
        && ended == (if w'.Stopped() then Some(Outcome(w')) else None)
        && client.written == Delivered(header, w')
        && (!w'.Stopped() ==> checker.View() == w'.protocol && sent == (w'.forwarded != []))
    ensures var w' := Next(InspectorOf(codec), w, frame);
      !client.Undisturbed(old(client.step)) ==>
        && ended.Some? && ended.value.Aborted?
        && if ended.value.headersSent then client.written < header + EncodeAll(w'.forwarded) + FINAL
           else client.written == []
    ensures old(client.step) <= client.step <= old(client.step) + 7
  {
    hide EncodeAll, Inspected;
    sent := headersSent;
    var verdict := checker.Inspect(codec, frame);
    ghost var w' := Next(InspectorOf(codec), w, frame);
    if verdict == Reject {
      assert w'.forwarded == w.forwarded;
      return sent, Some(Aborted(sent));
    }
    if !sent && !verdict.hasData {
      return sent, None;
    }
    assert w'.forwarded == w.forwarded + [frame] && w'.terminal == verdict.terminal;
    var available := client.Check();  // audit log, budget accounting, deadline, client
    if !available {
      InsideChunk(header, w.forwarded, frame, []);
      assert client.written + [] == client.written;
      return sent, Some(Aborted(sent));
    }
    sent := true;
    var ok := Forward(client, header, w.forwarded, !headersSent, frame, verdict.terminal.Some?);
    if !ok {
      return sent, Some(Aborted(true));
    }
    ended := if verdict.terminal.Some? then Some(Finished(verdict.terminal.value)) else None;
    assert verdict.terminal.None? ==> client.written == Sent(header, w'.forwarded) + [];
  }

  /** One provider byte. */
  method RelayByte(codec: Codec, checker: Checker, parser: SseParser, client: Client, header: seq<Byte>,
                   ghost p: Protocol, ghost bytes: seq<Byte>, byte: Byte, headersSent: bool)
    returns (sent: bool, ended: Option<Ended>)
    requires header != []
    requires InStep(InspectorOf(codec), p, parser.limit, header, bytes, parser.View(), checker.View(), client.written)
    requires headersSent == (WalkOf(InspectorOf(codec), p, parser.limit, bytes).forwarded != [])
    modifies checker, parser, client
    ensures ended.None? ==>
      && client.Undisturbed(old(client.step))
      && InStep(InspectorOf(codec), p, parser.limit, header, bytes + [byte], parser.View(), checker.View(), client.written)
      && sent == (WalkOf(InspectorOf(codec), p, parser.limit, bytes + [byte]).forwarded != [])
    ensures ended.Some? ==>
      && (client.Undisturbed(old(client.step)) ==> Decided(InspectorOf(codec), p, parser.limit, bytes + [byte]))
      && EndedOn(InspectorOf(codec), p, parser.limit, header, bytes + [byte], client.Undisturbed(old(client.step)), ended.value, client.written)
    ensures old(client.step) <= client.step
    ensures client.step <= old(client.step) + 7 * (|Feed(bytes + [byte], parser.limit).frames| - |Feed(bytes, parser.limit).frames|)
  {
    hide Feed, Walked, Next, Inspected, EncodeAll, Pushed;
    ghost var fed, w := Feed(bytes, parser.limit), WalkOf(InspectorOf(codec), p, parser.limit, bytes);
    FeedSnoc(bytes, byte, parser.limit);
    var emit := parser.Push(byte);
    match emit
    case TooLong =>
      return headersSent, Some(Aborted(headersSent));
    case Nothing =>
      return headersSent, None;
    case Frame(frame) =>
      WalkSnoc(InspectorOf(codec), p, fed.frames, frame);
      sent, ended := RelayFrame(codec, checker, client, header, w, frame, headersSent);
      assert ended.Some? && !client.Undisturbed(old(client.step)) ==>
        CutShort(InspectorOf(codec), p, parser.limit, header, bytes + [byte], ended.value.headersSent, client.written);
  }

  lemma FeedSnoc(bytes: seq<Byte>, byte: Byte, limit: nat)
    requires !Feed(bytes, limit).failed
    ensures var before, (parser, emit) := Feed(bytes, limit), Pushed(Feed(bytes, limit).parser, limit, byte);
      Feed(bytes + [byte], limit) ==
        match emit
        case Nothing => Fed(parser, before.frames, false)
        case Frame(f) => Fed(parser, before.frames + [f], false)
        case TooLong => Fed(parser, before.frames, true)
    ensures var emit := Pushed(Feed(bytes, limit).parser, limit, byte).1;
      emit.Frame? ==> emit.bytes != []
  {
    assert (bytes + [byte])[..|bytes|] == bytes;
  }

  lemma WalkSnoc(inspect: Inspector, p: Protocol, frames: seq<seq<Byte>>, frame: seq<Byte>)
    requires !Walked(inspect, p, frames).Stopped()
    ensures Walked(inspect, p, frames + [frame]) == Next(inspect, Walked(inspect, p, frames), frame)
  {
    assert (frames + [frame])[..|frames|] == frames;
  }

  /** Whatever follows `bytes`, the walk stays as it is. */
  ghost predicate Decided(inspect: Inspector, p: Protocol, limit: nat, bytes: seq<Byte>) {
    WalkOf(inspect, p, limit, bytes).Stopped() || Feed(bytes, limit).failed
  }

  lemma {:induction false} FailedFeedIsFinal(bytes: seq<Byte>, more: seq<Byte>, limit: nat)
    requires Feed(bytes, limit).failed
    ensures Feed(bytes + more, limit) == Feed(bytes, limit)
    decreases |more|
  {
    if more == [] {
      assert bytes + more == bytes;
    } else {
      assert (bytes + more)[..|bytes + more| - 1] == bytes + more[..|more| - 1];
      FailedFeedIsFinal(bytes, more[..|more| - 1], limit);
    }
  }

  lemma DecidedIsFinal(inspect: Inspector, p: Protocol, limit: nat, bytes: seq<Byte>, input: seq<Byte>)
    requires bytes <= input && Decided(inspect, p, limit, bytes)
    ensures WalkOf(inspect, p, limit, input) == WalkOf(inspect, p, limit, bytes)
  {
    assert bytes + input[|bytes|..] == input;
    if Feed(bytes, limit).failed {
      FailedFeedIsFinal(bytes, input[|bytes|..], limit);
    } else {
      FeedGrows(bytes, input[|bytes|..], limit);
      WalkIsFinal(inspect, p, Feed(bytes, limit).frames, Feed(input, limit).frames);
    }
  }

  /** How a stream ended while `input` was being read, and how it left the client:
      as the walk over `input` says if nothing outside failed, and otherwise by an
      abort part of the way. */
  ghost predicate EndedOn(inspect: Inspector, p: Protocol, limit: nat, header: seq<Byte>, input: seq<Byte>,
                          undisturbed: bool, ended: Ended, written: seq<Byte>)
  {
    if undisturbed then
      var w := WalkOf(inspect, p, limit, input);
      ended == Outcome(w) && written == Delivered(header, w)
    else
      ended.Aborted? && exists bytes :: bytes <= input && CutShort(inspect, p, limit, header, bytes, ended.headersSent, written)
  }

  lemma EndedOnMore(inspect: Inspector, p: Protocol, limit: nat, header: seq<Byte>, bytes: seq<Byte>, input: seq<Byte>,
                    undisturbed: bool, ended: Ended, written: seq<Byte>)
    requires bytes <= input && EndedOn(inspect, p, limit, header, bytes, undisturbed, ended, written)
    requires undisturbed ==> Decided(inspect, p, limit, bytes)
    ensures EndedOn(inspect, p, limit, header, input, undisturbed, ended, written)
  {
    if undisturbed {
      DecidedIsFinal(inspect, p, limit, bytes, input);
    } else {
      var cut :| cut <= bytes && CutShort(inspect, p, limit, header, cut, ended.headersSent, written);
      assert cut <= input;
    }
  }

  lemma ChunkEnds(inspect: Inspector, p: Protocol, limit: nat, header: seq<Byte>, bytes: seq<Byte>, input: seq<Byte>,
                  undisturbed: bool, ended: Ended, written: seq<Byte>)
    requires bytes <= input && EndedOn(inspect, p, limit, header, bytes, undisturbed, ended, written)
    requires undisturbed ==> Decided(inspect, p, limit, bytes)
    ensures EndedOn(inspect, p, limit, header, input, undisturbed, ended, written)
    ensures undisturbed ==> Decided(inspect, p, limit, input)
    ensures |Feed(bytes, limit).frames| <= |Feed(input, limit).frames|
  {
    EndedOnMore(inspect, p, limit, header, bytes, input, undisturbed, ended, written);
    assert bytes + input[|bytes|..] == input;
    FeedGrows(bytes, input[|bytes|..], limit);
    if undisturbed {
      DecidedIsFinal(inspect, p, limit, bytes, input);
      if Feed(bytes, limit).failed {
        FailedFeedIsFinal(bytes, input[|bytes|..], limit);
      }
    }
  }

  /** The inner loop: one read from the provider. */
  method RelayChunk(codec: Codec, checker: Checker, parser: SseParser, client: Client, header: seq<Byte>,
                    ghost p: Protocol, ghost bytes: seq<Byte>, chunk: seq<Byte>, headersSent: bool)
    returns (sent: bool, ended: Option<Ended>)
    requires header != []
    requires InStep(InspectorOf(codec), p, parser.limit, header, bytes, parser.View(), checker.View(), client.written)
    requires headersSent == (WalkOf(InspectorOf(codec), p, parser.limit, bytes).forwarded != [])
    modifies checker, parser, client
    ensures ended.None? ==>
      && client.Undisturbed(old(client.step))
      && InStep(InspectorOf(codec), p, parser.limit, header, bytes + chunk, parser.View(), checker.View(), client.written)
      && sent == (WalkOf(InspectorOf(codec), p, parser.limit, bytes + chunk).forwarded != [])
    ensures ended.Some? ==>
      && (client.Undisturbed(old(client.step)) ==> Decided(InspectorOf(codec), p, parser.limit, bytes + chunk))
      && EndedOn(InspectorOf(codec), p, parser.limit, header, bytes + chunk, client.Undisturbed(old(client.step)), ended.value, client.written)
    ensures old(client.step) <= client.step
    ensures client.step <= old(client.step) + 7 * (|Feed(bytes + chunk, parser.limit).frames| - |Feed(bytes, parser.limit).frames|)
  {
    hide EndedOn, Decided, WalkOf, Feed, Inspected, InStep;
    sent, ended := headersSent, None;
    assert bytes + chunk[..0] == bytes;
    for i := 0 to |chunk|
      invariant InStep(InspectorOf(codec), p, parser.limit, header, bytes + chunk[..i], parser.View(), checker.View(), client.written)
      invariant sent == (WalkOf(InspectorOf(codec), p, parser.limit, bytes + chunk[..i]).forwarded != [])
      invariant ended.None? && old(client.step) <= client.step && client.Undisturbed(old(client.step))
      invariant client.step <= old(client.step) + 7 * (|Feed(bytes + chunk[..i], parser.limit).frames| - |Feed(bytes, parser.limit).frames|)
    {
      assert bytes + chunk[..i] + [chunk[i]] == bytes + chunk[..i + 1];
      sent, ended := RelayByte(codec, checker, parser, client, header, p, bytes + chunk[..i], chunk[i], sent);
      if ended.Some? {
        ChunkEnds(InspectorOf(codec), p, parser.limit, header, bytes + chunk[..i + 1], bytes + chunk,
                  client.Undisturbed(old(client.step)), ended.value, client.written);
        return;
      }
    }
    assert chunk[..|chunk|] == chunk;
  }

  lemma Starts(inspect: Inspector, p: Protocol, limit: nat, header: seq<Byte>)
    ensures InStep(inspect, p, limit, header, [], FRESH, p, []) && WalkOf(inspect, p, limit, []).forwarded == []
  {
  }

  lemma EndsBetween(inspect: Inspector, p: Protocol, limit: nat, header: seq<Byte>, bytes: seq<Byte>,
                    parser: Parser, checker: Protocol, sent: bool, written: seq<Byte>)
    requires InStep(inspect, p, limit, header, bytes, parser, checker, written)
    requires sent == (WalkOf(inspect, p, limit, bytes).forwarded != [])
    ensures EndedOn(inspect, p, limit, header, bytes, true, Aborted(sent), written)
  {
  }

  /** The reads that fit the response limit together. */
  function Within(chunks: seq<seq<Byte>>, maxBytes: nat): seq<seq<Byte>> {
    if chunks == [] || |chunks[0]| > maxBytes then []
    else [chunks[0]] + Within(chunks[1..], maxBytes - |chunks[0]|)
  }

  lemma {:induction false} WithinFits(chunks: seq<seq<Byte>>, maxBytes: nat)
    ensures var n := |Within(chunks, maxBytes)|;
      && n <= |chunks| && Within(chunks, maxBytes) == chunks[..n] && |Concat(chunks[..n])| <= maxBytes
      && (n < |chunks| ==> |Concat(chunks[..n])| + |chunks[n]| > maxBytes)
  {
    if chunks != [] && |chunks[0]| <= maxBytes {
      WithinFits(chunks[1..], maxBytes - |chunks[0]|);
      var n := |Within(chunks, maxBytes)|;
      assert chunks[..n] == [chunks[0]] + chunks[1..][..n - 1];
      assert chunks[..n][1..] == chunks[1..][..n - 1];
    }
  }

  lemma WithinStep(chunks: seq<seq<Byte>>, maxBytes: nat)
    requires chunks != []
    ensures Concat(Within(chunks, maxBytes)) ==
      if |chunks[0]| > maxBytes then [] else chunks[0] + Concat(Within(chunks[1..], maxBytes - |chunks[0]|))
  {
    if |chunks[0]| <= maxBytes {
      var rest := Within(chunks[1..], maxBytes - |chunks[0]|);
      assert ([chunks[0]] + rest)[1..] == rest;
    }
  }

  /** The forwarding loop over everything the provider sends, up to the response
      limit. A stream that ends, or cannot be read further, without a terminal
      event is an abort. */
  method RelayStream(codec: Codec, responses: bool, expected: Option<string>, limit: nat, maxBytes: nat,
                     chunks: seq<seq<Byte>>, header: seq<Byte>, client: Client)
    returns (ended: Ended)
    requires header != [] && client.written == []
    modifies client
    ensures EndedOn(InspectorOf(codec), Fresh(responses, expected), limit, header, Concat(Within(chunks, maxBytes)),
                    client.Undisturbed(old(client.step)), ended, client.written)
    ensures old(client.step) <= client.step <= old(client.step) + 7 * |Feed(Concat(Within(chunks, maxBytes)), limit).frames|
  {
    var parser := new SseParser(limit);
    var checker := new Checker(responses, expected);
    ghost var p, bytes, input := Fresh(responses, expected), [], Concat(Within(chunks, maxBytes));
    hide EndedOn, Decided, WalkOf, Feed, Inspected, Within, InStep;
    var sent: bool, left: nat := false, maxBytes;
    assert chunks[0..] == chunks;
    Starts(InspectorOf(codec), p, limit, header);
    for c := 0 to |chunks|
      invariant bytes + Concat(Within(chunks[c..], left)) == input
      invariant parser.limit == limit && fresh(parser) && fresh(checker)
      invariant old(client.step) <= client.step <= old(client.step) + 7 * |Feed(bytes, limit).frames|
      invariant client.Undisturbed(old(client.step))
      invariant InStep(InspectorOf(codec), p, limit, header, bytes, parser.View(), checker.View(), client.written)
      invariant sent == (WalkOf(InspectorOf(codec), p, limit, bytes).forwarded != [])
    {
      assert chunks[c..][1..] == chunks[c + 1..];
      WithinStep(chunks[c..], left);
      if |chunks[c]| > left {
        assert bytes + [] == bytes;
        EndsBetween(InspectorOf(codec), p, limit, header, bytes, parser.View(), checker.View(), sent, client.written);
        return Aborted(sent);
      }
      left := left - |chunks[c]|;
      var done: Option<Ended>;
      sent, done := RelayChunk(codec, checker, parser, client, header, p, bytes, chunks[c], sent);
      bytes := bytes + chunks[c];
      assert bytes + Concat(Within(chunks[c + 1..], left)) == input;
      if done.Some? {
        ChunkEnds(InspectorOf(codec), p, limit, header, bytes, input, client.Undisturbed(old(client.step)), done.value, client.written);
        return done.value;
      }
    }
    WithinFits(chunks[|chunks|..], left);
    assert bytes + [] == bytes;
    EndsBetween(InspectorOf(codec), p, limit, header, bytes, parser.View(), checker.View(), sent, client.written);
    return Aborted(sent);
  }

  /** Stopping between two frames also leaves a strict prefix. */
  lemma StoppedBetween(inspect: Inspector, p: Protocol, limit: nat, header: seq<Byte>, bytes: seq<Byte>, sent: bool, written: seq<Byte>)
    requires sent == (WalkOf(inspect, p, limit, bytes).forwarded != [])
    requires written == Sent(header, WalkOf(inspect, p, limit, bytes).forwarded)
    ensures CutShort(inspect, p, limit, header, bytes, sent, written)
  {
  }

  lemma AbortIsCut(inspect: Inspector, p: Protocol, limit: nat, header: seq<Byte>, input: seq<Byte>,
                   undisturbed: bool, ended: Ended, written: seq<Byte>) returns (bytes: seq<Byte>)
    requires EndedOn(inspect, p, limit, header, input, undisturbed, ended, written) && ended.Aborted?
    ensures bytes <= input && CutShort(inspect, p, limit, header, bytes, ended.headersSent, written)
  {
    if undisturbed {
      bytes := input;
      StoppedBetween(inspect, p, limit, header, input, ended.headersSent, written);
    } else {
      bytes :| bytes <= input && CutShort(inspect, p, limit, header, bytes, ended.headersSent, written);
    }
  }

  // Settlement.

  /** The provider's response: a non-success status, for which the client gets
      `error` once the provider's own body is read, or what claims to be an event
      stream, of a declared length if it gave one. */
  datatype Response =
    | Refusal(error: seq<Byte>, body: seq<seq<Byte>>)
    | Stream(eventStream: bool, declared: Option<nat>, chunks: seq<seq<Byte>>)

  predicate Streamable(response: Response, maxBytes: nat)
    requires response.Stream?
  {
    response.eventStream && (response.declared.Some? ==> response.declared.value <= maxBytes)
  }

  /** What is relayed of a stream. */
  function Admitted(response: Response, maxBytes: nat): seq<Byte>
    requires response.Stream?
  {
    if Streamable(response, maxBytes) then Concat(Within(response.chunks, maxBytes)) else []
  }

  /** Strict mode reads a refusal's body to its end, within the response limit. */
  predicate Drains(strict: bool, response: Response, maxBytes: nat)
    requires response.Refusal?
  {
    strict ==> |Concat(response.body)| <= maxBytes
  }

  /** The loop that reads a refusal's body. */
  method Drain(body: seq<seq<Byte>>, maxBytes: nat, client: Client) returns (ok: bool)
    modifies client`step
    ensures ok <==> |Concat(body)| <= maxBytes && client.Undisturbed(old(client.step))
    ensures old(client.step) <= client.step <= old(client.step) + |body|
  {
    var received := 0;
    assert body[0..] == body;
    for c := 0 to |body|
      invariant received <= maxBytes && received + |Concat(body[c..])| == |Concat(body)|
      invariant client.step == old(client.step) + c && client.Undisturbed(old(client.step))
    {
      assert body[c..][1..] == body[c + 1..];
      var read := client.Check();
      received := received + |body[c]|;
      if !read || received > maxBytes {
        return false;
      }
    }
    return true;
  }

  /** An error body for the client, unless the deadline has passed. */
  method Report(client: Client, error: seq<Byte>) returns (delivered: bool)
    requires error != [] && client.written == []
    modifies client
    ensures client.written <= error && (delivered ==> client.written == error)
    ensures delivered <==> client.Undisturbed(old(client.step))
    ensures old(client.step) < client.step <= old(client.step) + 2
  {
    delivered := client.Check();
    if delivered {
      delivered := client.Write(error);
    }
  }

  /** As `EndedOn`, except that before the response head the client is told of the
      failure. */
  ghost predicate Served(inspect: Inspector, p: Protocol, limit: nat, header: seq<Byte>, failure: seq<Byte>, input: seq<Byte>,
                         undisturbed: bool, ended: Ended, written: seq<Byte>)
  {
    if ended == Aborted(false) then
      written <= failure && (undisturbed ==> written == failure && Outcome(WalkOf(inspect, p, limit, input)) == ended)
    else EndedOn(inspect, p, limit, header, input, undisturbed, ended, written)
  }

  /** Serving one streaming request. `failure` is the broker's own error body, for
      whatever reason it gives. The result says whether the reservation is settled:
      exactly if nothing outside failed and the stream completed, or the refusal
      was read completely and passed on. */
  method WriteTo(codec: Codec, responses: bool, expected: Option<string>, limit: nat, maxBytes: nat,
                 response: Response, header: seq<Byte>, failure: seq<Byte>, client: Client)
    returns (settle: bool, ended: Option<Ended>)
    requires header != [] && failure != [] && client.written == [] && (response.Refusal? ==> response.error != [])
    modifies client
    ensures response.Refusal? ==>
      && ended.None?
      && (settle <==> Drains(expected.Some?, response, maxBytes) && client.Undisturbed(old(client.step)))
      && (settle ==> client.written == response.error)
      && (client.written <= response.error || client.written <= failure)
      && (client.Undisturbed(old(client.step)) && !settle ==> client.written == failure)
      && client.step <= old(client.step) + |response.body| + 3
    ensures response.Stream? ==>
      && ended.Some? && settle == (ended.value == Finished(Completed))
      && (!Streamable(response, maxBytes) ==> ended.value == Aborted(false))
      && Served(InspectorOf(codec), Fresh(responses, expected), limit, header, failure, Admitted(response, maxBytes),
                client.Undisturbed(old(client.step)), ended.value, client.written)
      && client.step <= old(client.step) + 7 * |Feed(Admitted(response, maxBytes), limit).frames| + 3
  {
    ghost var from, p, inspect := client.step, Fresh(responses, expected), InspectorOf(codec);
    if response.Refusal? {
      var drained := true;
      if expected.Some? {
        drained := Drain(response.body, maxBytes, client);
      }
      var audited := client.Check();
      var delivered := Report(client, if drained then response.error else failure);
      return drained && audited && delivered, None;
    }
    var result := Aborted(false);
    if Streamable(response, maxBytes) {
      result := RelayStream(codec, responses, expected, limit, maxBytes, response.chunks, header, client);
    }
    ended, settle := Some(result), result == Finished(Completed);
    if result.Aborted? {
      ghost var relayed := client.Undisturbed(from);
      ghost var cut := AbortIsCut(inspect, p, limit, header, Admitted(response, maxBytes), relayed, result, client.written);
      var _ := client.Check();
      if !result.headersSent {
        var _ := Report(client, failure);
      }
    }
  }
}
