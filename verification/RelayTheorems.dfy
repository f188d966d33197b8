/** What the relay promises about the body a client decodes, and about when the
    reservation behind a stream may settle. */
module RelayTheorems {
  import opened Wrappers
  import opened Sse
  import opened Json
  import opened Chunked
  import opened Protocol
  import opened Relay

  // Which frames are forwarded.

  /** Frame `k` of the stream carries data; only the first may start with byte
      order marks. */
  predicate Carries(codec: Codec, frames: seq<seq<Byte>>, k: nat)
    requires k < |frames|
  {
    var f := FieldsOf(codec, k == 0, frames[k]);
    f.Some? && HasData(f.value)
  }

  /** How many frames lead the stream without carrying data. */
  function Heartbeats(codec: Codec, frames: seq<seq<Byte>>): nat {
    if frames == [] then 0
    else
      var front := frames[..|frames| - 1];
      if Heartbeats(codec, front) < |front| || Carries(codec, frames, |front|) then Heartbeats(codec, front)
      else |frames|
  }

  /** How many frames are looked at before the relay stops. */
  function Taken(inspect: Inspector, p: Protocol, frames: seq<seq<Byte>>): nat {
    if frames == [] then 0
    else if Walked(inspect, p, frames[..|frames| - 1]).Stopped() then Taken(inspect, p, frames[..|frames| - 1])
    else |frames|
  }

  lemma CarriesPrefix(codec: Codec, frames: seq<seq<Byte>>, n: nat)
    requires n <= |frames|
    ensures forall k :: 0 <= k < n ==> Carries(codec, frames[..n], k) == Carries(codec, frames, k)
  {
  }

  lemma {:induction false} HeartbeatsShape(codec: Codec, frames: seq<seq<Byte>>)
    ensures Heartbeats(codec, frames) <= |frames|
    ensures forall k :: 0 <= k < Heartbeats(codec, frames) ==> !Carries(codec, frames, k)
    ensures Heartbeats(codec, frames) < |frames| ==> Carries(codec, frames, Heartbeats(codec, frames))
    decreases |frames|
  {
    if frames != [] {
      HeartbeatsShape(codec, frames[..|frames| - 1]);
      CarriesPrefix(codec, frames, |frames| - 1);
    }
  }

  /** What the relay relies on in a protocol check: an accepted frame is reported
      as data exactly when its fields carry some, and only data ends a stream. */
  ghost predicate Reads(inspect: Inspector, codec: Codec) {
    forall p, frame :: ReadsFrame(codec, p, frame, inspect(p, frame))
  }

  ghost predicate ReadsFrame(codec: Codec, p: Protocol, frame: seq<Byte>, result: (Protocol, Verdict)) {
    result.1 != Reject ==>
      && FieldsOf(codec, p.first, frame).Some?
      && result.1.hasData == HasData(FieldsOf(codec, p.first, frame).value)
      && (result.1.terminal.Some? ==> result.1.hasData)
      && !result.0.first
  }

  lemma InspectedReads(codec: Codec, p: Protocol, frame: seq<Byte>)
    ensures ReadsFrame(codec, p, frame, Inspected(codec, p, frame))
  {
  }

  lemma InspectorReads(codec: Codec)
    ensures Reads(InspectorOf(codec), codec)
  {
    forall p: Protocol, frame: seq<Byte>
      ensures ReadsFrame(codec, p, frame, InspectorOf(codec)(p, frame))
    {
      InspectedReads(codec, p, frame);
    }
  }

  lemma HeartbeatsSnoc(codec: Codec, front: seq<seq<Byte>>, last: seq<Byte>)
    ensures Heartbeats(codec, front) <= |front|
    ensures Heartbeats(codec, front + [last]) ==
      if Heartbeats(codec, front) < |front| || Carries(codec, front + [last], |front|) then Heartbeats(codec, front)
      else |front| + 1
  {
    assert (front + [last])[..|front|] == front;
    HeartbeatsShape(codec, front);
  }

  /** Before the relay stops, everything from the first data-carrying frame on has
      been forwarded. */
  lemma {:induction false} OpenWalk(codec: Codec, inspect: Inspector, p: Protocol, frames: seq<seq<Byte>>)
    requires Reads(inspect, codec) && p.first && !Walked(inspect, p, frames).Stopped()
    ensures var w := Walked(inspect, p, frames);
      && w.protocol.first == (frames == []) && Taken(inspect, p, frames) == |frames|
      && Heartbeats(codec, frames) <= |frames| && w.forwarded == frames[Heartbeats(codec, frames)..]
    decreases |frames|
  {
    if frames != [] {
      var front, last := frames[..|frames| - 1], frames[|frames| - 1];
      OpenWalk(codec, inspect, p, front);
      ForwardedNext(codec, inspect, Walked(inspect, p, front), front, last);
      assert front + [last] == frames;
    }
  }

  lemma ForwardedNext(codec: Codec, inspect: Inspector, w: Walk, front: seq<seq<Byte>>, last: seq<Byte>)
    requires Reads(inspect, codec) && !Next(inspect, w, last).rejected && !w.Stopped()
    requires w.protocol.first == (front == [])
    requires Heartbeats(codec, front) <= |front| && w.forwarded == front[Heartbeats(codec, front)..]
    ensures var w', from := Next(inspect, w, last), Heartbeats(codec, front + [last]);
      && from <= |front| + 1 && w'.forwarded == (front + [last])[from..]
      && !w'.protocol.first && (w'.terminal.Some? ==> from <= |front|)
  {
    HeartbeatsSnoc(codec, front, last);
    assert ReadsFrame(codec, w.protocol, last, inspect(w.protocol, last));
    assert inspect(w.protocol, last).1.hasData == Carries(codec, front + [last], |front|);
    var from := Heartbeats(codec, front);
    assert (front + [last])[from..] == front[from..] + [last];
  }

  /** Once a terminal event was seen, later frames change nothing. */
  lemma StoppedNext(codec: Codec, inspect: Inspector, p: Protocol, front: seq<seq<Byte>>, last: seq<Byte>)
    requires Walked(inspect, p, front).Stopped() && Heartbeats(codec, front) < Taken(inspect, p, front) <= |front|
    ensures var from, to := Heartbeats(codec, front), Taken(inspect, p, front);
      && Heartbeats(codec, front + [last]) == from && Taken(inspect, p, front + [last]) == to
      && (front + [last])[from..to] == front[from..to]
  {
    HeartbeatsSnoc(codec, front, last);
    assert (front + [last])[..|front|] == front;
  }

  /** A stream that ended on a terminal event forwarded a contiguous run of the
      provider's frames: from the first data-carrying one to the terminal one. */
  lemma {:induction false} ClosedWalk(codec: Codec, inspect: Inspector, p: Protocol, frames: seq<seq<Byte>>)
    requires Reads(inspect, codec) && p.first && Walked(inspect, p, frames).terminal.Some?
    ensures var w, from, to := Walked(inspect, p, frames), Heartbeats(codec, frames), Taken(inspect, p, frames);
      from < to <= |frames| && w.forwarded == frames[from..to]
    decreases |frames|
  {
    var front, last := frames[..|frames| - 1], frames[|frames| - 1];
    assert front + [last] == frames;
    var w := Walked(inspect, p, front);
    if w.Stopped() {
      assert Walked(inspect, p, frames) == w;
      ClosedWalk(codec, inspect, p, front);
      StoppedNext(codec, inspect, p, front, last);
    } else {
      assert Walked(inspect, p, frames) == Next(inspect, w, last);
      OpenWalk(codec, inspect, p, front);
      ForwardedNext(codec, inspect, w, front, last);
      assert frames[Heartbeats(codec, frames)..] == frames[Heartbeats(codec, frames)..|frames|];
    }
  }

  // The client's body.

  lemma {:induction false} ConcatSplit(frames: seq<seq<Byte>>, more: seq<seq<Byte>>)
    ensures Concat(frames + more) == Concat(frames) + Concat(more)
    decreases |frames|
  {
    if frames == [] {
      assert frames + more == more;
    } else {
      assert (frames + more)[1..] == frames[1..] + more;
      ConcatSplit(frames[1..], more);
    }
  }

  /** A finished stream, as the client decodes it, is the provider's bytes with
      line endings normalised, without the leading heartbeats, cut right after the
      terminal event: a slice of the normal form between two frame boundaries. */
  lemma ClientBodyIsProviderSlice(codec: Codec, responses: bool, expected: Option<string>, limit: nat, input: seq<Byte>)
    requires WalkOf(InspectorOf(codec), Fresh(responses, expected), limit, input).terminal.Some?
    ensures var p, inspect, frames := Fresh(responses, expected), InspectorOf(codec), Feed(input, limit).frames;
      var w, from, to := WalkOf(inspect, p, limit, input), Heartbeats(codec, frames), Taken(inspect, p, frames);
      && 0 <= from < to <= |frames|
      && (forall k :: 0 <= k < from ==> !Carries(codec, frames, k)) && Carries(codec, frames, from)
      && Decode(EncodeAll(w.forwarded) + FINAL) == Complete(Concat(frames[from..to]), |EncodeAll(w.forwarded)| + |FINAL|)
      && Concat(frames[..from]) + Concat(frames[from..to]) <= Normalize(input)
  {
    var p, inspect, frames := Fresh(responses, expected), InspectorOf(codec), Feed(input, limit).frames;
    InspectorReads(codec);
    ClosedWalk(codec, inspect, p, frames);
    HeartbeatsShape(codec, frames);
    NothingLost(input, limit);
    SliceDecodes(frames, Heartbeats(codec, frames), Taken(inspect, p, frames), limit);
  }

  lemma SlicePrefix(frames: seq<seq<Byte>>, from: nat, to: nat)
    requires from <= to <= |frames|
    ensures Concat(frames[..from]) + Concat(frames[from..to]) <= Concat(frames)
  {
    ConcatSplit(frames[..from], frames[from..to]);
    ConcatSplit(frames[..to], frames[to..]);
    assert frames[..from] + frames[from..to] == frames[..to];
    assert frames[..to] + frames[to..] == frames;
  }

  lemma SliceDecodes(frames: seq<seq<Byte>>, from: nat, to: nat, limit: nat)
    requires from <= to <= |frames| && AllFrames(frames, limit)
    ensures Decode(EncodeAll(frames[from..to]) + FINAL) == Complete(Concat(frames[from..to]), |EncodeAll(frames[from..to])| + |FINAL|)
    ensures Concat(frames[..from]) + Concat(frames[from..to]) <= Concat(frames)
  {
    SlicePrefix(frames, from, to);
    SliceIsFramed(frames, from, to, limit);
    DecodeEncodeAll(frames[from..to]);
  }

  lemma SliceIsFramed(frames: seq<seq<Byte>>, from: nat, to: nat, limit: nat)
    requires from <= to <= |frames| && AllFrames(frames, limit)
    ensures forall i :: 0 <= i < |frames[from..to]| ==> IsFrame(frames[from..to][i]) && frames[from..to][i] != []
  {
  }

  /** The octets after the response head. */
  function BodyOf(header: seq<Byte>, written: seq<Byte>): seq<Byte> {
    if |written| <= |header| then [] else written[|header|..]
  }

  lemma {:induction false} ForwardedAreFrames(inspect: Inspector, p: Protocol, frames: seq<seq<Byte>>, limit: nat)
    requires AllFrames(frames, limit)
    ensures AllFrames(Walked(inspect, p, frames).forwarded, limit)
    decreases |frames|
  {
    if frames != [] {
      var front, last := frames[..|frames| - 1], frames[|frames| - 1];
      ForwardedAreFrames(inspect, p, front, limit);
      assert IsFrame(last) && |last| <= limit;
    }
  }

  /** No abort, wherever it falls, leaves a body a client could take as complete. */
  lemma AbortNeverLooksComplete(inspect: Inspector, p: Protocol, limit: nat, header: seq<Byte>, bytes: seq<Byte>,
                                headersSent: bool, written: seq<Byte>)
    requires CutShort(inspect, p, limit, header, bytes, headersSent, written)
    ensures !Decode(BodyOf(header, written)).Complete?
  {
    var body, forwarded := BodyOf(header, written), WalkOf(inspect, p, limit, bytes).forwarded;
    if body == [] {
      assert HexRun(body, 0) == 0;
    } else {
      NothingLost(bytes, limit);
      ForwardedAreFrames(inspect, p, Feed(bytes, limit).frames, limit);
      assert forall i :: 0 <= i < |forwarded| ==> IsFrame(forwarded[i]);
      assert header + EncodeAll(forwarded) + FINAL == header + (EncodeAll(forwarded) + FINAL);
      assert body < EncodeAll(forwarded) + FINAL;
      TruncationIsNeverComplete(body, forwarded);
    }
  }

  // What "completed" means.

  /** The JSON object a data-carrying frame holds. */
  function PayloadAt(codec: Codec, frames: seq<seq<Byte>>, k: nat): Option<Json>
    requires k < |frames|
  {
    var f := FieldsOf(codec, k == 0, frames[k]);
    if f.None? then None else Payload(codec, f.value)
  }

  /** A chunk with a choice that carries a recognised finish reason. */
  ghost predicate Finishes(v: Json) {
    && v.Get("choices").Some? && v.Get("choices").value.Arr?
    && exists i :: 0 <= i < |v.Get("choices").value.items| && FinishingChoice(v.Get("choices").value.items[i])
  }

  ghost predicate FinishingChoice(choice: Json) {
    choice.GetStr("finish_reason").Some? && FinishReason(choice.GetStr("finish_reason").value)
  }

  lemma {:induction false} ChoicesFinish(strict: bool, choices: seq<Json>)
    requires InspectChoices(strict, choices) == Some(true)
    ensures exists i :: 0 <= i < |choices| && FinishingChoice(choices[i])
    decreases |choices|
  {
    var front, last := choices[..|choices| - 1], choices[|choices| - 1];
    if InspectChoice(strict, last) == Some(true) {
      assert FinishingChoice(choices[|choices| - 1]);
    } else {
      ChoicesFinish(strict, front);
      var i :| 0 <= i < |front| && FinishingChoice(front[i]);
      assert FinishingChoice(choices[i]);
    }
  }

  /** Every data-carrying frame so far is a chunk of the expected model and of one
      and the same completion, when a model is expected. */
  ghost predicate OneCompletion(codec: Codec, frames: seq<seq<Byte>>, n: nat, expected: Option<string>, id: Option<string>)
    requires n <= |frames|
  {
    expected.Some? ==> forall k :: 0 <= k < n && Carries(codec, frames, k) ==>
      PayloadAt(codec, frames, k).Some? && OfCompletion(expected.value, id, PayloadAt(codec, frames, k).value)
  }

  ghost predicate SomeFinish(codec: Codec, frames: seq<seq<Byte>>, n: nat)
    requires n <= |frames|
  {
    exists k :: 0 <= k < n && PayloadAt(codec, frames, k).Some? && Finishes(PayloadAt(codec, frames, k).value)
  }

  /** What one accepted chat frame tells about the completion. */
  ghost predicate ChatFrame(codec: Codec, p: Protocol, frame: seq<Byte>, result: (Protocol, Verdict)) {
    var (p', verdict) := result;
    && (verdict == Event(true, Some(Completed)) && !p.responses ==>
          p.finished && (p.expected.Some? ==> p.completionId.Some?))
    && (verdict.Event? && verdict.terminal.None? && !p.responses ==>
          var f := FieldsOf(codec, p.first, frame);
          && f.Some? && !p'.first && !p'.responses && p'.expected == p.expected
          && if HasData(f.value) then ChunkFrame(p, p', Payload(codec, f.value))
             else p'.finished == p.finished && p'.completionId == p.completionId)
  }

  ghost predicate ChunkFrame(p: Protocol, p': Protocol, payload: Option<Json>) {
    && payload.Some?
    && (p'.finished ==> p.finished || Finishes(payload.value))
    && (p.expected.Some? ==> OfCompletion(p.expected.value, p'.completionId, payload.value))
    && (p.expected.Some? && p.completionId.Some? ==> p.completionId == p'.completionId)
  }

  /** A chunk of the given model and completion. */
  ghost predicate OfCompletion(model: string, id: Option<string>, v: Json) {
    id.Some? && v.GetStr("id") == id && v.GetStr("model").Some? && ModelMatches(model, v.GetStr("model").value)
  }

  lemma InspectedChunk(codec: Codec, p: Protocol, v: Json)
    requires InspectChunk(codec, p, v).1 != Reject
    ensures var (p', verdict) := InspectChunk(codec, p, v);
      && ChunkFrame(p, p', Some(v)) && verdict == Event(true, None)
      && p'.first == p.first && p'.responses == p.responses && p'.expected == p.expected
  {
    var choices := v.Get("choices").value.items;
    if InspectChoices(p.expected.Some?, choices) == Some(true) {
      ChoicesFinish(p.expected.Some?, choices);
    }
  }

  lemma InspectedChat(codec: Codec, p: Protocol, frame: seq<Byte>)
    ensures ChatFrame(codec, p, frame, Inspected(codec, p, frame))
  {
    var fields := FieldsOf(codec, p.first, frame);
    if fields.Some? && !p.responses && HasData(fields.value) && Payload(codec, fields.value).Some? {
      var v := Payload(codec, fields.value).value;
      if InspectChunk(codec, p.(first := false), v).1 != Reject {
        InspectedChunk(codec, p.(first := false), v);
      }
    }
  }

  ghost predicate ReadsChat(inspect: Inspector, codec: Codec) {
    forall p, frame :: ChatFrame(codec, p, frame, inspect(p, frame))
  }

  lemma InspectorReadsChat(codec: Codec)
    ensures ReadsChat(InspectorOf(codec), codec)
  {
    forall p: Protocol, frame: seq<Byte>
      ensures ChatFrame(codec, p, frame, InspectorOf(codec)(p, frame))
    {
      InspectedChat(codec, p, frame);
    }
  }

  /** What the checker's state after `frames` says about them. */
  ghost predicate Recorded(codec: Codec, frames: seq<seq<Byte>>, expected: Option<string>, p: Protocol) {
    && !p.responses && p.expected == expected && p.first == (frames == [])
    && (p.finished ==> SomeFinish(codec, frames, |frames|))
    && OneCompletion(codec, frames, |frames|, expected, p.completionId)
  }

  lemma RecordedNext(codec: Codec, front: seq<seq<Byte>>, last: seq<Byte>, expected: Option<string>, p: Protocol, p': Protocol)
    requires Recorded(codec, front, expected, p)
    requires ChatFrame(codec, p, last, (p', Event(true, None))) || ChatFrame(codec, p, last, (p', Event(false, None)))
    ensures Recorded(codec, front + [last], expected, p')
  {
    var frames, n := front + [last], |front|;
    assert forall k :: 0 <= k < n ==> PayloadAt(codec, frames, k) == PayloadAt(codec, front, k);
    assert forall k :: 0 <= k < n ==> Carries(codec, frames, k) == Carries(codec, front, k);
    assert PayloadAt(codec, frames, n) == Payload(codec, FieldsOf(codec, p.first, last).value);
    if p'.finished {
      if p.finished && !(Carries(codec, frames, n) && Finishes(PayloadAt(codec, frames, n).value)) {
        var k :| 0 <= k < n && PayloadAt(codec, front, k).Some? && Finishes(PayloadAt(codec, front, k).value);
        assert PayloadAt(codec, frames, k).Some? && Finishes(PayloadAt(codec, frames, k).value);
      } else {
        assert PayloadAt(codec, frames, n).Some? && Finishes(PayloadAt(codec, frames, n).value);
      }
    }
  }

  lemma {:induction false} ChatHistory(codec: Codec, inspect: Inspector, expected: Option<string>, frames: seq<seq<Byte>>)
    requires ReadsChat(inspect, codec) && Reads(inspect, codec)
    requires !Walked(inspect, Fresh(false, expected), frames).Stopped()
    ensures Recorded(codec, frames, expected, Walked(inspect, Fresh(false, expected), frames).protocol)
    decreases |frames|
  {
    if frames != [] {
      var p := Fresh(false, expected);
      var front, last := frames[..|frames| - 1], frames[|frames| - 1];
      ChatHistory(codec, inspect, expected, front);
      var w := Walked(inspect, p, front);
      var result := inspect(w.protocol, last);
      assert ChatFrame(codec, w.protocol, last, result);
      assert ReadsFrame(codec, w.protocol, last, result);
      assert result.1 == Event(true, None) || result.1 == Event(false, None);
      RecordedNext(codec, front, last, expected, w.protocol, result.0);
      assert front + [last] == frames;
    }
  }

  /** The frames before the end marker of a completed chat stream. */
  ghost predicate Earned(codec: Codec, frames: seq<seq<Byte>>, n: nat, expected: Option<string>)
    requires n <= |frames|
  {
    && SomeFinish(codec, frames, n)
    && (expected.Some? ==> exists id :: OneCompletion(codec, frames, n, expected, Some(id)))
  }

  lemma EarnedPrefix(codec: Codec, front: seq<seq<Byte>>, frames: seq<seq<Byte>>, n: nat, expected: Option<string>)
    requires n <= |front| && front <= frames && Earned(codec, front, n, expected)
    ensures Earned(codec, frames, n, expected)
  {
    assert forall k :: 0 <= k < n ==> PayloadAt(codec, frames, k) == PayloadAt(codec, front, k);
    assert forall k :: 0 <= k < n ==> Carries(codec, frames, k) == Carries(codec, front, k);
    var k :| 0 <= k < n && PayloadAt(codec, front, k).Some? && Finishes(PayloadAt(codec, front, k).value);
    assert PayloadAt(codec, frames, k).Some? && Finishes(PayloadAt(codec, frames, k).value);
    if expected.Some? {
      var id :| OneCompletion(codec, front, n, expected, Some(id));
      assert OneCompletion(codec, frames, n, expected, Some(id));
    }
  }

  lemma {:induction false} CompletedIsEarned(codec: Codec, inspect: Inspector, expected: Option<string>, frames: seq<seq<Byte>>)
    requires ReadsChat(inspect, codec) && Reads(inspect, codec)
    requires Walked(inspect, Fresh(false, expected), frames).terminal == Some(Completed)
    ensures var n := Taken(inspect, Fresh(false, expected), frames);
      0 < n <= |frames| && Earned(codec, frames, n - 1, expected)
    decreases |frames|
  {
    var p := Fresh(false, expected);
    var n := |frames| - 1;
    var front := frames[..n];
    if Walked(inspect, p, front).Stopped() {
      CompletedIsEarned(codec, inspect, expected, front);
      EarnedPrefix(codec, front, frames, Taken(inspect, p, front) - 1, expected);
    } else {
      ChatHistory(codec, inspect, expected, front);
      var w := Walked(inspect, p, front);
      assert ChatFrame(codec, w.protocol, frames[n], inspect(w.protocol, frames[n]));
      assert ReadsFrame(codec, w.protocol, frames[n], inspect(w.protocol, frames[n]));
      if expected.Some? {
        assert OneCompletion(codec, front, n, expected, Some(w.protocol.completionId.value));
      }
      EarnedPrefix(codec, front, frames, n, expected);
    }
  }

  /** A chat stream counts as completed only after some chunk carried a finish
      reason; with an expected model, only if every data-carrying frame before the
      end marker named that model and one single completion. */
  lemma CompletionIsEarned(codec: Codec, expected: Option<string>, limit: nat, input: seq<Byte>)
    requires WalkOf(InspectorOf(codec), Fresh(false, expected), limit, input).terminal == Some(Completed)
    ensures var frames := Feed(input, limit).frames;
      var n := Taken(InspectorOf(codec), Fresh(false, expected), frames);
      0 < n <= |frames| && Earned(codec, frames, n - 1, expected)
  {
    InspectorReads(codec);
    InspectorReadsChat(codec);
    CompletedIsEarned(codec, InspectorOf(codec), expected, Feed(input, limit).frames);
  }
}
