/** What ends a stream of the Responses protocol. */
module ResponsesTheorems {
  import opened Wrappers
  import opened Sse
  import opened Json
  import opened Protocol
  import opened Relay
  import opened RelayTheorems

  /** The outcome an event's type announces. */
  function Announced(v: Json): Option<Terminal> {
    var kind := v.GetStr("type");
    if kind == Some("response.completed") then Some(Completed)
    else if kind == Some("response.failed") || kind == Some("error") then Some(Failed)
    else if kind == Some("response.incomplete") then Some(Interrupted)
    else None
  }

  /** The event's own status confirms what its type announces. */
  predicate Confirms(v: Json) {
    match Announced(v)
    case Some(Completed) => Status(v) == Some("completed")
    case Some(Interrupted) => Status(v) == Some("incomplete")
    case Some(Failed) => v.GetStr("type") == Some("error") || Status(v) == Some("failed")
    case None => true
  }

  /** An accepted frame of the protocol: data is an event whose announced outcome,
      confirmed by its status, is the outcome reported. */
  ghost predicate ResponseFrame(codec: Codec, p: Protocol, frame: seq<Byte>, result: (Protocol, Verdict)) {
    p.responses && result.1 != Reject ==>
      && result.0 == p.(first := false) && FieldsOf(codec, p.first, frame).Some?
      && var f := FieldsOf(codec, p.first, frame).value;
         if HasData(f) then
           && Payload(codec, f).Some? && Confirms(Payload(codec, f).value)
           && result.1 == Event(true, Announced(Payload(codec, f).value))
         else result.1 == Event(false, None)
  }

  ghost predicate ReadsResponses(inspect: Inspector, codec: Codec) {
    forall p, frame :: ResponseFrame(codec, p, frame, inspect(p, frame))
  }

  lemma InspectedResponse(codec: Codec, p: Protocol, frame: seq<Byte>)
    ensures ResponseFrame(codec, p, frame, Inspected(codec, p, frame))
  {
  }

  lemma InspectorReadsResponses(codec: Codec)
    ensures ReadsResponses(InspectorOf(codec), codec)
  {
    forall p: Protocol, frame: seq<Byte>
      ensures ResponseFrame(codec, p, frame, InspectorOf(codec)(p, frame))
    {
      InspectedResponse(codec, p, frame);
    }
  }

  /** None of the first `n` frames announces an outcome. */
  ghost predicate Undecided(codec: Codec, frames: seq<seq<Byte>>, n: nat)
    requires n <= |frames|
  {
    forall k :: 0 <= k < n && Carries(codec, frames, k) ==>
      PayloadAt(codec, frames, k).Some? && Announced(PayloadAt(codec, frames, k).value) == None
  }

  /** Frame `k` announces `t`, and its status confirms it. */
  ghost predicate Decides(codec: Codec, frames: seq<seq<Byte>>, k: nat, t: Terminal)
    requires k < |frames|
  {
    && PayloadAt(codec, frames, k).Some? && Announced(PayloadAt(codec, frames, k).value) == Some(t)
    && Confirms(PayloadAt(codec, frames, k).value)
  }

  lemma PrefixReads(codec: Codec, front: seq<seq<Byte>>, frames: seq<seq<Byte>>, n: nat)
    requires n <= |front| && front <= frames
    ensures Undecided(codec, front, n) ==> Undecided(codec, frames, n)
    ensures forall k, t :: 0 <= k < n && Decides(codec, front, k, t) ==> Decides(codec, frames, k, t)
  {
    assert forall k :: 0 <= k < n ==> PayloadAt(codec, frames, k) == PayloadAt(codec, front, k);
    assert forall k :: 0 <= k < n ==> Carries(codec, frames, k) == Carries(codec, front, k);
  }

  lemma {:induction false} OpenHistory(codec: Codec, inspect: Inspector, p: Protocol, frames: seq<seq<Byte>>)
    requires ReadsResponses(inspect, codec) && p.responses && p.first && !Walked(inspect, p, frames).Stopped()
    ensures var q := Walked(inspect, p, frames).protocol;
      q == p.(first := frames == []) && Undecided(codec, frames, |frames|)
    decreases |frames|
  {
    if frames != [] {
      var n := |frames| - 1;
      var front, last := frames[..n], frames[n];
      OpenHistory(codec, inspect, p, front);
      var w := Walked(inspect, p, front);
      assert ResponseFrame(codec, w.protocol, last, inspect(w.protocol, last));
      PrefixReads(codec, front, frames, n);
      assert Carries(codec, frames, n) ==> PayloadAt(codec, frames, n) == Payload(codec, FieldsOf(codec, w.protocol.first, last).value);
    }
  }

  /** The relay looked at frames up to the first that announces an outcome, and
      reports that outcome. */
  ghost predicate EndsAsAnnounced(codec: Codec, frames: seq<seq<Byte>>, taken: nat, terminal: Option<Terminal>) {
    && 0 < taken <= |frames| && Undecided(codec, frames, taken - 1)
    && terminal.Some? && Decides(codec, frames, taken - 1, terminal.value)
  }

  lemma {:induction false} EndIsAnnounced(codec: Codec, inspect: Inspector, p: Protocol, frames: seq<seq<Byte>>)
    requires ReadsResponses(inspect, codec) && p.responses && p.first && Walked(inspect, p, frames).terminal.Some?
    ensures EndsAsAnnounced(codec, frames, Taken(inspect, p, frames), Walked(inspect, p, frames).terminal)
    decreases |frames|
  {
    var n := |frames| - 1;
    var front, last := frames[..n], frames[n];
    var w := Walked(inspect, p, front);
    if w.Stopped() {
      EndIsAnnounced(codec, inspect, p, front);
      PrefixReads(codec, front, frames, Taken(inspect, p, front));
      PrefixReads(codec, front, frames, Taken(inspect, p, front) - 1);
    } else {
      OpenHistory(codec, inspect, p, front);
      PrefixReads(codec, front, frames, n);
      assert ResponseFrame(codec, w.protocol, last, inspect(w.protocol, last));
      assert PayloadAt(codec, frames, n) == Payload(codec, FieldsOf(codec, w.protocol.first, last).value);
    }
  }

  lemma StreamEndIsAnnounced(codec: Codec, inspect: Inspector, p: Protocol, limit: nat, input: seq<Byte>)
    requires ReadsResponses(inspect, codec) && p.responses && p.first && WalkOf(inspect, p, limit, input).terminal.Some?
    ensures EndsAsAnnounced(codec, Feed(input, limit).frames, Taken(inspect, p, Feed(input, limit).frames),
                            WalkOf(inspect, p, limit, input).terminal)
  {
    EndIsAnnounced(codec, inspect, p, Feed(input, limit).frames);
  }

  /** A Responses stream ends on the first event that announces an outcome, with
      that outcome, confirmed by the event's own status; nothing else ends it. */
  lemma OutcomeIsAnnounced(codec: Codec, expected: Option<string>, limit: nat, input: seq<Byte>)
    requires WalkOf(InspectorOf(codec), Fresh(true, expected), limit, input).terminal.Some?
    ensures EndsAsAnnounced(codec, Feed(input, limit).frames, Taken(InspectorOf(codec), Fresh(true, expected), Feed(input, limit).frames),
                            WalkOf(InspectorOf(codec), Fresh(true, expected), limit, input).terminal)
  {
    InspectorReadsResponses(codec);
    StreamEndIsAnnounced(codec, InspectorOf(codec), Fresh(true, expected), limit, input);
  }

  // And such a stream is not refused.

  /** An event the protocol allows: it has a type, which its SSE name repeats if it
      has one, and confirms what it announces. Events without data pass. */
  ghost predicate Allowed(codec: Codec, first: bool, frame: seq<Byte>) {
    var f := FieldsOf(codec, first, frame);
    && f.Some?
    && (HasData(f.value) ==>
          && Payload(codec, f.value).Some?
          && var v := Payload(codec, f.value).value;
             v.GetStr("type").Some? && (f.value.name.None? || f.value.name == v.GetStr("type")) && Confirms(v))
  }

  ghost predicate Judges(inspect: Inspector, codec: Codec) {
    forall p: Protocol, frame {:trigger inspect(p, frame)} :: p.responses ==> (inspect(p, frame).1 != Reject <==> Allowed(codec, p.first, frame))
  }

  lemma InspectorJudges(codec: Codec)
    ensures Judges(InspectorOf(codec), codec)
  {
  }

  ghost predicate AllAllowed(codec: Codec, frames: seq<seq<Byte>>) {
    forall k :: 0 <= k < |frames| ==> Allowed(codec, k == 0, frames[k])
  }

  lemma {:induction false} StaysOpen(codec: Codec, inspect: Inspector, p: Protocol, frames: seq<seq<Byte>>)
    requires ReadsResponses(inspect, codec) && Judges(inspect, codec) && p.responses && p.first
    requires AllAllowed(codec, frames) && Undecided(codec, frames, |frames|)
    ensures !Walked(inspect, p, frames).Stopped() && Walked(inspect, p, frames).protocol == p.(first := frames == [])
    decreases |frames|
  {
    if frames != [] {
      var n := |frames| - 1;
      var front, last := frames[..n], frames[n];
      FrontIsOpen(codec, frames);
      StaysOpen(codec, inspect, p, front);
      assert Allowed(codec, n == 0, last);
      assert frames == front + [last];
      hide Walked, AllAllowed, Undecided;
      WalkSnoc(inspect, p, front, last);
      OpenNext(codec, inspect, Walked(inspect, p, front), frames);
    }
  }

  lemma FrontIsOpen(codec: Codec, frames: seq<seq<Byte>>)
    requires frames != [] && AllAllowed(codec, frames) && Undecided(codec, frames, |frames|)
    ensures AllAllowed(codec, frames[..|frames| - 1]) && Undecided(codec, frames[..|frames| - 1], |frames| - 1)
  {
    hide FieldsOf, Payload;
    var n := |frames| - 1;
    var front := frames[..n];
    assert forall k :: 0 <= k < n ==> PayloadAt(codec, frames, k) == PayloadAt(codec, front, k);
    assert forall k :: 0 <= k < n ==> Carries(codec, frames, k) == Carries(codec, front, k);
  }

  lemma OpenNext(codec: Codec, inspect: Inspector, w: Walk, frames: seq<seq<Byte>>)
    requires ReadsResponses(inspect, codec) && Judges(inspect, codec) && frames != [] && !w.Stopped()
    requires w.protocol.responses && w.protocol.first == (|frames| == 1)
    requires Allowed(codec, |frames| == 1, frames[|frames| - 1]) && Undecided(codec, frames, |frames|)
    ensures var w' := Next(inspect, w, frames[|frames| - 1]); !w'.Stopped() && w'.protocol == w.protocol.(first := false)
  {
    hide FieldsOf, Payload;
    var n, last := |frames| - 1, frames[|frames| - 1];
    assert ResponseFrame(codec, w.protocol, last, inspect(w.protocol, last));
    assert Carries(codec, frames, n) ==> PayloadAt(codec, frames, n) == Payload(codec, FieldsOf(codec, w.protocol.first, last).value);
  }

  lemma EndsOn(codec: Codec, inspect: Inspector, p: Protocol, frames: seq<seq<Byte>>, last: seq<Byte>, t: Terminal)
    requires ReadsResponses(inspect, codec) && Judges(inspect, codec) && p.responses && p.first
    requires AllAllowed(codec, frames + [last]) && Undecided(codec, frames, |frames|) && Decides(codec, frames + [last], |frames|, t)
    requires Carries(codec, frames + [last], |frames|)
    ensures Walked(inspect, p, frames + [last]).terminal == Some(t)
  {
    var all, n := frames + [last], |frames|;
    assert AllAllowed(codec, frames) by { assert forall k :: 0 <= k < n ==> all[k] == frames[k]; }
    assert all[n] == last;
    StaysOpen(codec, inspect, p, frames);
    WalkSnoc(inspect, p, frames, last);
    var w := Walked(inspect, p, frames);
    assert ResponseFrame(codec, w.protocol, last, inspect(w.protocol, last));
    assert Allowed(codec, w.protocol.first, last);
  }

  /** Allowed events that announce nothing, then one that announces an outcome: the
      stream ends with that outcome. */
  lemma AnnouncedOutcomeEnds(codec: Codec, expected: Option<string>, limit: nat, frames: seq<seq<Byte>>, last: seq<Byte>, t: Terminal)
    requires AllFrames(frames + [last], limit) && CR !in Concat(frames + [last])
    requires AllAllowed(codec, frames + [last]) && Undecided(codec, frames, |frames|) && Decides(codec, frames + [last], |frames|, t)
    requires Carries(codec, frames + [last], |frames|)
    ensures WalkOf(InspectorOf(codec), Fresh(true, expected), limit, Concat(frames + [last])).terminal == Some(t)
  {
    InspectorReadsResponses(codec);
    InspectorJudges(codec);
    FramesReadBack(frames + [last], limit);
    EndsOn(codec, InspectorOf(codec), Fresh(true, expected), frames, last, t);
  }
}
