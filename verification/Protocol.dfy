/** The per-frame protocol check of the event-stream relay: reading an event's
    fields, and the state machine that decides what the provider has completed. */
module Protocol {
  import opened Wrappers
  import opened Sse
  import opened Json

  /** Text, JSON and white-space libraries the relay calls. */
  datatype Codec = Codec(
    utf8: seq<Byte> -> Option<string>,
    json: string -> Option<Json>,
    blank: string -> bool)

  // Fields of an event.

  function IndexOf(s: string, c: char): nat
    ensures IndexOf(s, c) <= |s|
  {
    if s == [] || s[0] == c then 0 else 1 + IndexOf(s[1..], c)
  }

  function Lines(text: string): seq<string>
    decreases |text|
  {
    var end := IndexOf(text, '\n');
    if end >= |text| then [text] else [text[..end]] + Lines(text[end + 1..])
  }

  function WithoutMarks(text: string): string {
    if text != [] && text[0] == '\U{FEFF}' then WithoutMarks(text[1..]) else text
  }

  datatype Fields = Fields(data: seq<string>, name: Option<string>)

  function ReadFields(lines: seq<string>): Fields {
    if lines == [] then Fields([], None)
    else
      var before, line := ReadFields(lines[..|lines| - 1]), lines[|lines| - 1];
      var colon := IndexOf(line, ':');
      var raw := if colon < |line| then line[colon + 1..] else "";
      var value := if raw != [] && raw[0] == ' ' then raw[1..] else raw;
      match line[..colon]
      case "data" => before.(data := before.data + [value])
      case "event" => before.(name := Some(value))
      case _ => before
  }

  function Joined(parts: seq<string>): string {
    if parts == [] then ""
    else if |parts| == 1 then parts[0]
    else parts[0] + "\n" + Joined(parts[1..])
  }

  predicate HasData(f: Fields) {
    exists i :: 0 <= i < |f.data| && f.data[i] != ""
  }

  // Model names and deltas.

  function DigitCount(s: string): nat {
    if s == [] then 0 else DigitCount(s[1..]) + (if '0' <= s[0] <= '9' then 1 else 0)
  }

  predicate IsDigit(c: char) {
    '0' <= c <= '9'
  }

  /** The requested name, or that name with a dated-snapshot suffix. */
  predicate ModelMatches(requested: string, returned: string) {
    || returned == requested
    || (&& |returned| > |requested| + 1
        && returned[..|requested|] == requested && returned[|requested|] == '-'
        && var snapshot := returned[|requested| + 1..];
           && (forall i :: 0 <= i < |snapshot| ==> IsDigit(snapshot[i]) || snapshot[i] == '-')
           && IsDigit(snapshot[0]) && IsDigit(snapshot[|snapshot| - 1])
           && DigitCount(snapshot) >= 4)
  }

  predicate NullOrStr(v: Json, key: string) {
    v.Get(key).None? || v.Get(key).value.Null? || v.Get(key).value.Str?
  }

  predicate FunctionDelta(v: Json) {
    v.Obj? && NullOrStr(v, "name") && NullOrStr(v, "arguments")
  }

  predicate ToolCallDelta(v: Json) {
    && v.Obj? && v.HasU64("index") && NullOrStr(v, "id")
    && (v.Get("type").None? || v.Get("type").value.Null? || v.Get("type").value == Str("function"))
    && (v.Get("function").None? || v.Get("function").value.Null? || FunctionDelta(v.Get("function").value))
  }

  predicate ChatDelta(v: Json) {
    && v.Obj?
    && (v.Get("role").None? || v.Get("role").value.Null? || v.Get("role").value == Str("assistant"))
    && NullOrStr(v, "content") && NullOrStr(v, "refusal")
    && (v.Get("tool_calls").None? || v.Get("tool_calls").value.Null?
        || (v.Get("tool_calls").value.Arr?
            && forall i :: 0 <= i < |v.Get("tool_calls").value.items| ==> ToolCallDelta(v.Get("tool_calls").value.items[i])))
    && (v.Get("function_call").None? || v.Get("function_call").value.Null? || FunctionDelta(v.Get("function_call").value))
  }

  // The state machine.

  datatype Terminal = Completed | Failed | Interrupted

  /** An inspected frame, or a refusal that aborts the stream. */
  datatype Verdict = Event(hasData: bool, terminal: Option<Terminal>) | Reject

  datatype Protocol = Protocol(
    responses: bool,
    expected: Option<string>,
    finished: bool,
    completionId: Option<string>,
    first: bool)

  function Fresh(responses: bool, expected: Option<string>): Protocol {
    Protocol(responses, expected, false, None, true)
  }

  function Status(v: Json): Option<string> {
    if v.Get("response").Some? then v.Get("response").value.GetStr("status") else None
  }

  function InspectResponse(v: Json, name: Option<string>): Verdict {
    var kind := v.GetStr("type");
    if kind.None? || (name.Some? && name != kind) then Reject
    else match kind.value
      case "response.completed" => if Status(v) == Some("completed") then Event(true, Some(Completed)) else Reject
      case "response.failed" => if Status(v) == Some("failed") then Event(true, Some(Failed)) else Reject
      case "response.incomplete" => if Status(v) == Some("incomplete") then Event(true, Some(Interrupted)) else Reject
      case "error" => Event(true, Some(Failed))
      case _ => Event(true, None)
  }

  predicate FinishReason(s: string) {
    s == "stop" || s == "length" || s == "tool_calls" || s == "content_filter" || s == "function_call"
  }

  /** One choice: `None` is a refusal, otherwise whether it finishes. */
  function InspectChoice(strict: bool, choice: Json): Option<bool> {
    if !(choice.HasU64("index") && choice.fields["index"].n == 0) then None
    else if strict && !(choice.Get("delta").Some? && ChatDelta(choice.Get("delta").value)) then None
    else match choice.Get("finish_reason")
      case None => Some(false)
      case Some(Null) => Some(false)
      case Some(Str(reason)) => if FinishReason(reason) then Some(true) else None
      case Some(_) => None
  }

  function InspectChoices(strict: bool, choices: seq<Json>): Option<bool> {
    if choices == [] then Some(false)
    else
      var before := InspectChoices(strict, choices[..|choices| - 1]);
      var last := InspectChoice(strict, choices[|choices| - 1]);
      if before.None? || last.None? then None else Some(before.value || last.value)
  }

  /** The completion id after a chunk; `None` is a refusal. */
  function Identified(codec: Codec, p: Protocol, v: Json): Option<Option<string>> {
    if p.expected.None? then Some(p.completionId)
    else if v.GetStr("model").None? || !ModelMatches(p.expected.value, v.GetStr("model").value) then None
    else if v.GetStr("id").None? || codec.blank(v.GetStr("id").value) then None
    else if p.completionId.Some? && p.completionId != v.GetStr("id") then None
    else Some(v.GetStr("id"))
  }

  function InspectChunk(codec: Codec, p: Protocol, v: Json): (Protocol, Verdict) {
    if v.GetStr("object") != Some("chat.completion.chunk") then (p, Reject)
    else
      var id := Identified(codec, p, v);
      if id.None? then (p, Reject)
      else
        var p := p.(completionId := id.value);
        if v.Get("choices").None? || !v.Get("choices").value.Arr? then (p, Reject)
        else
          var choices := v.Get("choices").value.items;
          var finish := InspectChoices(p.expected.Some?, choices);
          if (p.expected.Some? && |choices| > 1) || finish.None? then (p, Reject)
          else (p.(finished := p.finished || finish.value), Event(true, None))
  }

  /** The JSON object of a data-carrying frame that is not the chat end marker. */
  function Payload(codec: Codec, f: Fields): Option<Json> {
    var v := codec.json(Joined(f.data));
    if v.Some? && v.value.Obj? then v else None
  }

  function FieldsOf(codec: Codec, first: bool, frame: seq<Byte>): Option<Fields> {
    var text := codec.utf8(frame);
    if text.None? then None
    else Some(ReadFields(Lines(if first then WithoutMarks(text.value) else text.value)))
  }

  function Inspected(codec: Codec, p: Protocol, frame: seq<Byte>): (Protocol, Verdict) {
    var fields := FieldsOf(codec, p.first, frame);
    if fields.None? then (p, Reject)
    else
      var p, f := p.(first := false), fields.value;
      if !HasData(f) then (p, Event(false, None))
      else if !p.responses && Joined(f.data) == "[DONE]" then
        if p.finished && (p.expected.Some? ==> p.completionId.Some?) then (p, Event(true, Some(Completed)))
        else (p, Reject)
      else if Payload(codec, f).None? then (p, Reject)
      else
        var v := Payload(codec, f).value;
        if p.responses then (p, InspectResponse(v, f.name))
        else if v.Get("error").Some? || f.name == Some("error") then (p, Event(true, Some(Failed)))
        else InspectChunk(codec, p, v)
  }

  /** The checker the relay keeps, updated frame by frame. On a refusal its fields
      no longer matter: the stream is aborted. */
  class Checker {
    const responses: bool
    const expected: Option<string>
    var finished: bool
    var completionId: Option<string>
    var first: bool

    constructor (responses: bool, expected: Option<string>)
      ensures View() == Fresh(responses, expected)
    {
      this.responses, this.expected := responses, expected;
      finished, completionId, first := false, None, true;
    }

    ghost function View(): Protocol
      reads this
    {
      Protocol(responses, expected, finished, completionId, first)
    }

    /** The loop over an event's lines. */
    static method CollectFields(lines: seq<string>) returns (f: Fields)
      ensures f == ReadFields(lines)
    {
      var data: seq<string>, name: Option<string> := [], None;
      for i := 0 to |lines|
        invariant Fields(data, name) == ReadFields(lines[..i])
      {
        assert lines[..i + 1][..i] == lines[..i];
        var line := lines[i];
        var colon := IndexOf(line, ':');
        var value := if colon < |line| then line[colon + 1..] else "";
        if value != [] && value[0] == ' ' {
          value := value[1..];
        }
        if line[..colon] == "data" {
          data := data + [value];
        } else if line[..colon] == "event" {
          name := Some(value);
        }
      }
      assert lines[..|lines|] == lines;
      return Fields(data, name);
    }

    /** The loop over a chunk's choices. */
    method CheckChoices(choices: seq<Json>) returns (ok: bool)
      modifies this`finished
      ensures ok <==> InspectChoices(expected.Some?, choices).Some?
      ensures ok ==> finished == (old(finished) || InspectChoices(expected.Some?, choices).value)
    {
      for i := 0 to |choices|
        invariant InspectChoices(expected.Some?, choices[..i]).Some?
        invariant finished == (old(finished) || InspectChoices(expected.Some?, choices[..i]).value)
      {
        assert choices[..i + 1][..i] == choices[..i];
        var finishes := InspectChoice(expected.Some?, choices[i]);
        if finishes.None? {
          RefusedPrefix(expected.Some?, choices, i + 1);
          return false;
        }
        if finishes.value {
          finished := true;
        }
      }
      assert choices[..|choices|] == choices;
      return true;
    }

    method Inspect(codec: Codec, frame: seq<Byte>) returns (verdict: Verdict)
      modifies this
      ensures verdict == Inspected(codec, old(View()), frame).1
      ensures verdict != Reject ==> View() == Inspected(codec, old(View()), frame).0
    {
      var text := codec.utf8(frame);
      if text.None? {
        return Reject;
      }
      var lines := Lines(if first then WithoutMarks(text.value) else text.value);
      first := false;
      var f := CollectFields(lines);
      if !HasData(f) {
        return Event(false, None);
      }
      var data := Joined(f.data);
      if !responses && data == "[DONE]" {
        if !finished || (expected.Some? && completionId.None?) {
          return Reject;
        }
        return Event(true, Some(Completed));
      }
      var parsed := codec.json(data);
      if parsed.None? || !parsed.value.Obj? {
        return Reject;
      }
      var value := parsed.value;
      if responses {
        return InspectResponse(value, f.name);
      }
      if value.Get("error").Some? || f.name == Some("error") {
        return Event(true, Some(Failed));
      }
      if value.GetStr("object") != Some("chat.completion.chunk") {
        return Reject;
      }
      if expected.Some? {
        var model, id := value.GetStr("model"), value.GetStr("id");
        if model.None? || !ModelMatches(expected.value, model.value) || id.None? || codec.blank(id.value) {
          return Reject;
        }
        if completionId.Some? && completionId != id {
          return Reject;
        }
        completionId := id;
      }
      var choices := value.Get("choices");
      if choices.None? || !choices.value.Arr? || (expected.Some? && |choices.value.items| > 1) {
        return Reject;
      }
      var ok := CheckChoices(choices.value.items);
      return if ok then Event(true, None) else Reject;
    }
  }

  lemma {:induction false} RefusedPrefix(strict: bool, choices: seq<Json>, k: nat)
    requires k <= |choices| && InspectChoices(strict, choices[..k]).None?
    ensures InspectChoices(strict, choices).None?
    decreases |choices| - k
  {
    if k == |choices| {
      assert choices[..k] == choices;
    } else {
      assert choices[..k + 1][..k] == choices[..k];
      RefusedPrefix(strict, choices, k + 1);
    }
  }
}
