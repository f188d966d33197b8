/** What the protocol check reads out of the text of an event, and that streams
    which say what they should are completed. */
module ChatTheorems {
  import opened Wrappers
  import opened Sse
  import opened Json
  import opened Protocol
  import opened Relay
  import opened RelayTheorems

  // Lines.

  lemma {:induction false} FirstIndex(s: string, c: char)
    ensures c !in s[..IndexOf(s, c)]
    ensures IndexOf(s, c) < |s| ==> s[IndexOf(s, c)] == c
  {
    if s != [] && s[0] != c {
      FirstIndex(s[1..], c);
      assert s[..IndexOf(s, c)] == [s[0]] + s[1..][..IndexOf(s[1..], c)];
    }
  }

  lemma {:induction false} IndexAfter(s: string, c: char, rest: string)
    requires c !in s
    ensures IndexOf(s + [c] + rest, c) == |s| && IndexOf(s, c) == |s|
  {
    if s != [] {
      assert (s + [c] + rest)[1..] == s[1..] + [c] + rest;
      IndexAfter(s[1..], c, rest);
    }
  }

  lemma FirstLine(line: string, rest: string)
    requires '\n' !in line
    ensures Lines(line + "\n" + rest) == [line] + Lines(rest) && Lines(line) == [line]
  {
    IndexAfter(line, '\n', rest);
    var text := line + "\n" + rest;
    assert text[..|line|] == line && text[|line| + 1..] == rest;
  }

  /** Splitting into lines and joining them are inverses. */
  lemma {:induction false} LinesJoin(text: string)
    ensures Joined(Lines(text)) == text && Lines(text) != []
    ensures forall i :: 0 <= i < |Lines(text)| ==> '\n' !in Lines(text)[i]
    decreases |text|
  {
    var end := IndexOf(text, '\n');
    FirstIndex(text, '\n');
    if end < |text| {
      var rest := text[end + 1..];
      LinesJoin(rest);
      assert ([text[..end]] + Lines(rest))[1..] == Lines(rest);
      assert text == text[..end] + "\n" + rest;
    } else {
      assert text[..end] == text;
    }
  }

  lemma {:induction false} JoinLines(lines: seq<string>)
    requires lines != [] && forall i :: 0 <= i < |lines| ==> '\n' !in lines[i]
    ensures Lines(Joined(lines)) == lines
  {
    FirstLine(lines[0], Joined(lines[1..]));
    if |lines| > 1 {
      JoinLines(lines[1..]);
      assert [lines[0]] + lines[1..] == lines;
    }
  }

  /** Only leading byte order marks are dropped. */
  lemma {:induction false} MarksDropped(text: string)
    ensures var n := |text| - |WithoutMarks(text)|;
      && 0 <= n && WithoutMarks(text) == text[n..] && (forall i :: 0 <= i < n ==> text[i] == '\U{FEFF}')
      && (n < |text| ==> text[n] != '\U{FEFF}')
  {
    if text != [] && text[0] == '\U{FEFF}' {
      MarksDropped(text[1..]);
    }
  }

  // Fields: a name up to the first colon, one optional space, a value.

  /** The forms in which a line gives `value` to `field`. */
  predicate Gives(line: string, field: string, value: string) {
    || line == field + ": " + value
    || (line == field + ":" + value && (value == "" || value[0] != ' '))
    || (line == field && value == "")
  }

  /** Name and value of a line, as they are read. */
  function Named(line: string): (string, string) {
    var colon := IndexOf(line, ':');
    var raw := if colon < |line| then line[colon + 1..] else "";
    (line[..colon], if raw != [] && raw[0] == ' ' then raw[1..] else raw)
  }

  lemma NameWithColon(field: string, raw: string)
    requires ':' !in field
    ensures Named(field + ":" + raw) == (field, if raw != [] && raw[0] == ' ' then raw[1..] else raw)
  {
    IndexAfter(field, ':', raw);
    var line := field + ":" + raw;
    assert line == field + [':'] + raw && line[..|field|] == field && line[|field| + 1..] == raw;
  }

  lemma NameOf(line: string, field: string, value: string)
    requires ':' !in field && Gives(line, field, value)
    ensures Named(line) == (field, value)
  {
    if line == field {
      IndexAfter(field, ':', "");
      assert field[..|field|] == field;
    } else if line == field + ": " + value {
      assert line == field + ":" + (" " + value);
      NameWithColon(field, " " + value);
    } else {
      NameWithColon(field, value);
    }
  }

  /** Every line gives some value to the field named before its first colon. */
  lemma EveryLineGives(line: string) returns (field: string, value: string)
    ensures ':' !in field && Gives(line, field, value)
  {
    var colon := IndexOf(line, ':');
    FirstIndex(line, ':');
    field := line[..colon];
    if colon == |line| {
      value := "";
    } else {
      var raw := line[colon + 1..];
      assert line == field + ":" + raw;
      if raw != [] && raw[0] == ' ' {
        value := raw[1..];
        assert line == field + ": " + value;
      } else {
        value := raw;
      }
    }
  }

  /** What one more line adds: `data` its value to the data, in order; `event` the
      event's name; any other field nothing. */
  lemma LineYields(lines: seq<string>, line: string, field: string, value: string)
    requires ':' !in field && Gives(line, field, value)
    ensures var before, after := ReadFields(lines), ReadFields(lines + [line]);
      && after.data == before.data + (if field == "data" then [value] else [])
      && after.name == if field == "event" then Some(value) else before.name
  {
    NameOf(line, field, value);
    assert (lines + [line])[..|lines|] == lines;
  }

  /** The frame's text is one data line with `data`. */
  ghost predicate DataFrame(codec: Codec, frame: seq<Byte>, data: string) {
    codec.utf8(frame) == Some("data: " + data + "\n\n") && '\n' !in data
  }

  lemma DataText(data: string)
    requires '\n' !in data
    ensures Lines("data: " + data + "\n\n") == ["data: " + data, "", ""]
  {
    var line := "data: " + data;
    assert line + "\n\n" == line + "\n" + ("" + "\n" + "");
    FirstLine(line, "" + "\n" + "");
    FirstLine("", "");
  }

  lemma DataFields(data: string)
    ensures ReadFields(["data: " + data, "", ""]) == Fields([data], None)
  {
    hide ReadFields;
    var line := "data: " + data;
    NoFields();
    LineYields([], line, "data", data);
    LineYields([line], "", "", "");
    LineYields([line, ""], "", "", "");
    assert [] + [line] == [line] && [line] + [""] == [line, ""] && [line, ""] + [""] == [line, "", ""];
  }

  lemma NoFields()
    ensures ReadFields([]) == Fields([], None)
  {
  }

  lemma DataFrameFields(codec: Codec, first: bool, frame: seq<Byte>, data: string)
    requires DataFrame(codec, frame, data)
    ensures FieldsOf(codec, first, frame) == Some(Fields([data], None))
  {
    var text := codec.utf8(frame).value;
    assert text[0] == 'd';
    assert WithoutMarks(text) == text;
    hide ReadFields, Lines, WithoutMarks;
    DataText(data);
    DataFields(data);
  }

  // Model names and finish reasons.

  /** A dated snapshot: digits and dashes, a digit at both ends, four digits. */
  predicate Dated(suffix: string) {
    && (forall i :: 0 <= i < |suffix| ==> '0' <= suffix[i] <= '9' || suffix[i] == '-')
    && |suffix| >= 4 && suffix[0] != '-' && suffix[|suffix| - 1] != '-'
    && exists a, b :: 0 < a < b < |suffix| - 1 && suffix[a] != '-' && suffix[b] != '-'
  }

  lemma {:induction false} CountSplit(s: string, n: nat)
    requires n <= |s|
    ensures DigitCount(s) == DigitCount(s[..n]) + DigitCount(s[n..])
    decreases n
  {
    if n > 0 {
      CountSplit(s[1..], n - 1);
      assert s[..n][1..] == s[1..][..n - 1] && s[n..] == s[1..][n - 1..];
    } else {
      assert s[n..] == s;
    }
  }

  lemma {:induction false} CountBound(s: string)
    ensures DigitCount(s) <= |s| && (DigitCount(s) > 0 <==> exists i :: 0 <= i < |s| && IsDigit(s[i]))
  {
    if s != [] {
      CountBound(s[1..]);
      if DigitCount(s[1..]) > 0 {
        var i :| 0 <= i < |s[1..]| && IsDigit(s[1..][i]);
        assert IsDigit(s[i + 1]);
      }
      assert IsDigit(s[0]) ==> exists i :: 0 <= i < |s| && IsDigit(s[i]);
      assert forall i :: 0 < i < |s| ==> s[1..][i - 1] == s[i];
    }
  }

  /** Two digits at different places, exactly when there are at least two. */
  lemma {:induction false} CountTwo(s: string)
    ensures DigitCount(s) >= 2 <==> exists a, b :: 0 <= a < b < |s| && IsDigit(s[a]) && IsDigit(s[b])
  {
    if s != [] {
      CountTwo(s[1..]);
      CountBound(s[1..]);
      assert forall i :: 0 < i < |s| ==> s[1..][i - 1] == s[i];
      if DigitCount(s[1..]) >= 2 {
        var a, b :| 0 <= a < b < |s[1..]| && IsDigit(s[1..][a]) && IsDigit(s[1..][b]);
        assert IsDigit(s[a + 1]) && IsDigit(s[b + 1]);
      } else if IsDigit(s[0]) && DigitCount(s[1..]) > 0 {
        var i :| 0 <= i < |s[1..]| && IsDigit(s[1..][i]);
        assert IsDigit(s[0]) && IsDigit(s[i + 1]);
      }
      if a, b :| 0 <= a < b < |s| && IsDigit(s[a]) && IsDigit(s[b]) {
        if a > 0 {
          assert IsDigit(s[1..][a - 1]) && IsDigit(s[1..][b - 1]);
        } else {
          assert IsDigit(s[1..][b - 1]);
        }
      }
    }
  }

  /** The check on what follows the requested name and a dash. */
  predicate Snapshot(s: string) {
    && s != "" && (forall i :: 0 <= i < |s| ==> IsDigit(s[i]) || s[i] == '-')
    && IsDigit(s[0]) && IsDigit(s[|s| - 1]) && DigitCount(s) >= 4
  }

  lemma SnapshotIsDated(s: string)
    ensures Snapshot(s) <==> Dated(s)
  {
    CountBound(s);
    if |s| >= 4 && IsDigit(s[0]) && IsDigit(s[|s| - 1]) {
      var mid, n := s[1..|s| - 1], |s| - 1;
      CountSplit(s, n);
      CountSplit(s[..n], 1);
      assert s[..n][1..] == mid && s[..n][..1] == [s[0]] && s[n..] == [s[n]];
      assert [s[0]][1..] == [] && [s[n]][1..] == [];
      assert DigitCount(s) == DigitCount(mid) + 2;
      CountTwo(mid);
      assert forall i :: 0 <= i < |mid| ==> mid[i] == s[i + 1];
      if a, b :| 0 < a < b < n && s[a] != '-' && s[b] != '-' {
        assert mid[a - 1] == s[a] && mid[b - 1] == s[b];
      }
      if a, b :| 0 <= a < b < |mid| && IsDigit(mid[a]) && IsDigit(mid[b]) {
        assert s[a + 1] != '-' && s[b + 1] != '-';
      }
    }
  }

  /** Exactly the requested name and its dated snapshots confirm a model. */
  lemma ModelNames(requested: string, returned: string)
    ensures ModelMatches(requested, returned) <==>
      returned == requested || exists suffix :: Dated(suffix) && returned == requested + "-" + suffix
  {
    hide DigitCount, Dated;
    var n := |requested| + 1;
    if |returned| > n && returned[..n] == requested + "-" {
      var suffix := returned[n..];
      SnapshotIsDated(suffix);
      assert returned == requested + "-" + suffix;
      assert returned[..|requested|] == requested;
    }
    forall suffix | Dated(suffix) && returned == requested + "-" + suffix
      ensures ModelMatches(requested, returned)
    {
      SnapshotIsDated(suffix);
      assert returned[..|requested|] == requested && returned[n..] == suffix;
    }
    if ModelMatches(requested, returned) && returned != requested {
      assert returned[..n] == requested + "-";
    }
  }

  const REASONS: set<string> := {"stop", "length", "tool_calls", "content_filter", "function_call"}

  lemma FinishReasons(s: string)
    ensures FinishReason(s) <==> s in REASONS
  {
  }

  // Chat streams.

  ghost predicate AcceptableChoice(strict: bool, choice: Json) {
    && choice.Get("index") == Some(Int(0))
    && (strict ==> choice.Get("delta").Some? && ChatDelta(choice.Get("delta").value))
    && (choice.Get("finish_reason").None? || choice.Get("finish_reason") == Some(Null) || FinishingChoice(choice))
  }

  lemma {:induction false} ChoicesAccepted(strict: bool, choices: seq<Json>)
    ensures InspectChoices(strict, choices).Some? <==> forall i :: 0 <= i < |choices| ==> AcceptableChoice(strict, choices[i])
    ensures InspectChoices(strict, choices).Some? ==>
      (InspectChoices(strict, choices).value <==> exists i :: 0 <= i < |choices| && FinishingChoice(choices[i]))
    decreases |choices|
  {
    if choices != [] {
      var front, last := choices[..|choices| - 1], choices[|choices| - 1];
      ChoicesAccepted(strict, front);
      assert InspectChoice(strict, last).Some? <==> AcceptableChoice(strict, last);
      assert forall i :: 0 <= i < |front| ==> front[i] == choices[i];
      assert FinishingChoice(last) ==> FinishingChoice(choices[|choices| - 1]);
    }
  }

  /** A chunk the relay should accept: of the expected model and completion, if any,
      with acceptable choices, at most one of them when a model is expected. */
  ghost predicate ChatChunk(codec: Codec, expected: Option<string>, id: string, v: Json) {
    && v.Obj? && v.Get("error").None? && v.GetStr("object") == Some("chat.completion.chunk")
    && (expected.Some? ==>
          && v.GetStr("model").Some? && ModelMatches(expected.value, v.GetStr("model").value)
          && v.GetStr("id") == Some(id) && !codec.blank(id))
    && v.Get("choices").Some? && v.Get("choices").value.Arr?
    && var choices := v.Get("choices").value.items;
       && (expected.Some? ==> |choices| <= 1)
       && forall i :: 0 <= i < |choices| ==> AcceptableChoice(expected.Some?, choices[i])
  }

  /** The checker's state in the middle of such a stream. */
  function Midway(expected: Option<string>, id: string, started: bool, finished: bool): Protocol {
    Protocol(false, expected, finished, if started && expected.Some? then Some(id) else None, !started)
  }

  /** The frame carries one such chunk. */
  ghost predicate DataChunk(codec: Codec, expected: Option<string>, id: string, frame: seq<Byte>, data: string) {
    && DataFrame(codec, frame, data) && data != "" && data != "[DONE]"
    && codec.json(data).Some? && ChatChunk(codec, expected, id, codec.json(data).value)
  }

  ghost predicate FinishesIn(codec: Codec, data: string) {
    codec.json(data).Some? && Finishes(codec.json(data).value)
  }

  lemma ChunkAccepted(codec: Codec, expected: Option<string>, id: string, started: bool, finished: bool, frame: seq<Byte>, data: string)
    requires DataChunk(codec, expected, id, frame, data)
    ensures Inspected(codec, Midway(expected, id, started, finished), frame)
      == (Midway(expected, id, true, finished || FinishesIn(codec, data)), Event(true, None))
  {
    var v := codec.json(data).value;
    DataFrameFields(codec, !started, frame, data);
    ChoicesAccepted(expected.Some?, v.Get("choices").value.items);
    assert HasData(Fields([data], None)) by { assert [data][0] != ""; }
    hide FieldsOf, InspectChoices, ModelMatches, ChatDelta, AcceptableChoice;
  }

  lemma DoneAccepted(codec: Codec, expected: Option<string>, id: string, frame: seq<Byte>)
    requires DataFrame(codec, frame, "[DONE]")
    ensures Inspected(codec, Midway(expected, id, true, true), frame)
      == (Midway(expected, id, true, true), Event(true, Some(Completed)))
  {
    DataFrameFields(codec, false, frame, "[DONE]");
    assert HasData(Fields(["[DONE]"], None)) by { assert ["[DONE]"][0] != ""; }
    hide FieldsOf;
  }

  ghost predicate ChatFrames(codec: Codec, expected: Option<string>, id: string, frames: seq<seq<Byte>>, data: seq<string>) {
    |frames| == |data| && forall k :: 0 <= k < |frames| ==> DataChunk(codec, expected, id, frames[k], data[k])
  }

  ghost predicate AnyFinishes(codec: Codec, data: seq<string>) {
    exists k :: 0 <= k < |data| && FinishesIn(codec, data[k])
  }

  lemma FramesSplit(codec: Codec, expected: Option<string>, id: string, frames: seq<seq<Byte>>, data: seq<string>)
    requires ChatFrames(codec, expected, id, frames, data) && frames != []
    ensures |data| == |frames|
    ensures var n := |frames| - 1;
      && ChatFrames(codec, expected, id, frames[..n], data[..n]) && DataChunk(codec, expected, id, frames[n], data[n])
      && AnyFinishes(codec, data) == (AnyFinishes(codec, data[..n]) || FinishesIn(codec, data[n]))
  {
    hide DataChunk, FinishesIn;
    assert forall k :: 0 <= k < |frames| - 1 ==> data[..|frames| - 1][k] == data[k];
  }

  lemma NextForwarded(codec: Codec, expected: Option<string>, id: string, w: Walk, finished: bool, frame: seq<Byte>, data: string)
    requires w == Walk(Midway(expected, id, w.forwarded != [], finished), w.forwarded, None, false)
    requires DataChunk(codec, expected, id, frame, data)
    ensures Next(InspectorOf(codec), w, frame)
      == Walk(Midway(expected, id, true, finished || FinishesIn(codec, data)), w.forwarded + [frame], None, false)
  {
    hide Inspected, FinishesIn, DataChunk;
    ChunkAccepted(codec, expected, id, w.forwarded != [], finished, frame, data);
  }

  lemma NothingForwarded(codec: Codec, expected: Option<string>, id: string, data: seq<string>)
    requires ChatFrames(codec, expected, id, [], data)
    ensures Walked(InspectorOf(codec), Fresh(false, expected), [])
      == Walk(Midway(expected, id, false, AnyFinishes(codec, data)), [], None, false)
  {
  }

  lemma {:induction false} ChunksForwarded(codec: Codec, expected: Option<string>, id: string, frames: seq<seq<Byte>>, data: seq<string>)
    requires ChatFrames(codec, expected, id, frames, data)
    ensures Walked(InspectorOf(codec), Fresh(false, expected), frames)
      == Walk(Midway(expected, id, frames != [], AnyFinishes(codec, data)), frames, None, false)
    decreases |frames|
  {
    hide Inspected, Midway, Fresh, ChatFrames, AnyFinishes, FinishesIn, DataChunk, Walked, Next;
    if frames == [] {
      NothingForwarded(codec, expected, id, data);
    } else {
      var n := |frames| - 1;
      FramesSplit(codec, expected, id, frames, data);
      ChunksForwarded(codec, expected, id, frames[..n], data[..n]);
      WalkSnoc(InspectorOf(codec), Fresh(false, expected), frames[..n], frames[n]);
      NextForwarded(codec, expected, id, Walked(InspectorOf(codec), Fresh(false, expected), frames[..n]),
                    AnyFinishes(codec, data[..n]), frames[n], data[n]);
      assert frames[..n] + [frames[n]] == frames;
    }
  }

  /** Chunks of the expected model and one completion, a finish reason among them,
      then the end marker: the stream is completed and forwarded whole. */
  lemma ChatStreamCompletes(codec: Codec, expected: Option<string>, id: string, limit: nat,
                            frames: seq<seq<Byte>>, data: seq<string>, done: seq<Byte>)
    requires ChatFrames(codec, expected, id, frames, data) && AnyFinishes(codec, data) && DataFrame(codec, done, "[DONE]")
    requires AllFrames(frames + [done], limit) && CR !in Concat(frames + [done])
    ensures var w := WalkOf(InspectorOf(codec), Fresh(false, expected), limit, Concat(frames + [done]));
      w.terminal == Some(Completed) && w.forwarded == frames + [done]
  {
    FramesReadBack(frames + [done], limit);
    ChunksForwarded(codec, expected, id, frames, data);
    DoneAccepted(codec, expected, id, done);
    WalkSnoc(InspectorOf(codec), Fresh(false, expected), frames, done);
    hide Inspected, Walked, ChatFrames;
  }

  lemma ErrorAccepted(codec: Codec, p: Protocol, frame: seq<Byte>, data: string)
    requires !p.responses && DataFrame(codec, frame, data) && data != "" && data != "[DONE]"
    requires codec.json(data).Some? && codec.json(data).value.Get("error").Some?
    ensures Inspected(codec, p, frame).1 == Event(true, Some(Failed))
  {
    DataFrameFields(codec, p.first, frame, data);
    assert HasData(Fields([data], None)) by { assert [data][0] != ""; }
    hide FieldsOf, InspectChunk;
  }

  /** An error object after any such chunks ends the stream as failed. */
  lemma ChatErrorEnds(codec: Codec, expected: Option<string>, id: string, limit: nat,
                      frames: seq<seq<Byte>>, chunks: seq<string>, last: seq<Byte>, data: string)
    requires ChatFrames(codec, expected, id, frames, chunks)
    requires DataFrame(codec, last, data) && data != "" && data != "[DONE]"
    requires codec.json(data).Some? && codec.json(data).value.Get("error").Some?
    requires AllFrames(frames + [last], limit) && CR !in Concat(frames + [last])
    ensures WalkOf(InspectorOf(codec), Fresh(false, expected), limit, Concat(frames + [last])).terminal == Some(Failed)
  {
    FramesReadBack(frames + [last], limit);
    ChunksForwarded(codec, expected, id, frames, chunks);
    ErrorAccepted(codec, Midway(expected, id, frames != [], AnyFinishes(codec, chunks)), last, data);
    WalkSnoc(InspectorOf(codec), Fresh(false, expected), frames, last);
    hide Inspected, Walked, ChatFrames;
  }
}
