/**
 * The streaming half of the API client's `chat_completions`: a non-200 reply
 * becomes one error event; otherwise every received chunk is split into lines,
 * `data: ` lines are decoded and passed on, `[DONE]` ends the stream, and an
 * error object from the backend is passed on as the final event.
 */
module ApiStream {
  import opened Wrappers
  import opened Strings
  import opened Json

  /** What the generator yields: a decoded data object, or an `{error, details}` object. */
  datatype Event = Data(v: Value) | ErrorEvent(error: string, details: string) {
    function ToValue(): Value {
      match this
      case Data(v) => v
      case ErrorEvent(e, d) => Obj([("error", Str(e)), ("details", Str(d))])
    }
  }

  /** The effect of one line: the events it yields, and whether it ends the stream. */
  datatype Step = Step(events: seq<Event>, stop: bool)

  function LineStep(codec: Codec, line: string): Step {
    if !StartsWith(line, "data: ") then Step([], false)
    else
      var payload := line[6..];
      if Strip(payload) == "[DONE]" then Step([], true)
      else
        match codec.loads(payload)
        case None => Step([], false)
        case Some(v) =>
          if v.Obj? && HasKey(v.fields, "error") then
            Step([ErrorEvent("API error: " + PyStr(codec, Lookup(v.fields, "error").value), PyStr(codec, v))], true)
          else Step([Data(v)], false)
  }

  /** The events yielded by a run of lines and whether the run ended the stream. */
  function ScanLines(codec: Codec, lines: seq<string>): Step
    decreases |lines|
  {
    if lines == [] then Step([], false)
    else
      var prev := ScanLines(codec, lines[..|lines| - 1]);
      if prev.stop then prev
      else
        var s := LineStep(codec, lines[|lines| - 1]);
        Step(prev.events + s.events, s.stop)
  }

  /** The lines of the received chunks; empty chunks are skipped and each chunk is split on its own. */
  function ChunkLines(chunks: seq<string>): seq<string>
    decreases |chunks|
  {
    if chunks == [] then []
    else
      var last := chunks[|chunks| - 1];
      ChunkLines(chunks[..|chunks| - 1]) + (if last == "" then [] else Split(last, '\n'))
  }

  /** Everything the generator yields for a reply with the given status, error text and body chunks. */
  function StreamEvents(codec: Codec, status: int, errorText: string, chunks: seq<string>): seq<Event> {
    if status != 200 then [ErrorEvent("API error: " + IntToString(status), errorText)]
    else ScanLines(codec, ChunkLines(chunks)).events
  }

  /** One line of the body: decodes a `data: ` line and reports whether the stream ends. */
  method ReadLine(codec: Codec, line: string) returns (s: Step)
    ensures s == LineStep(codec, line)
  {
    if !StartsWith(line, "data: ") {
      return Step([], false);
    }
    var payload := line[6..];
    if Strip(payload) == "[DONE]" {
      return Step([], true);
    }
    var data := codec.loads(payload);
    if data.None? {
      return Step([], false);
    }
    var v := data.value;
    if v.Obj? && HasKey(v.fields, "error") {
      return Step([ErrorEvent("API error: " + PyStr(codec, Lookup(v.fields, "error").value), PyStr(codec, v))], true);
    }
    return Step([Data(v)], false);
  }

  /** The lines of one chunk, read after the lines `before` that yielded `events0`. */
  method ReadChunk(codec: Codec, ghost before: seq<string>, events0: seq<Event>, lines: seq<string>)
    returns (events: seq<Event>, stop: bool)
    requires ScanLines(codec, before) == Step(events0, false)
    ensures ScanLines(codec, before + lines) == Step(events, stop)
  {
    events := events0;
    assert before + lines[..0] == before;
    for j := 0 to |lines|
      invariant ScanLines(codec, before + lines[..j]) == Step(events, false)
    {
      var s := ReadLine(codec, lines[j]);
      ScanSnoc(codec, before + lines[..j], lines[j]);
      SnocSlice(before, lines, j);
      events := events + s.events;
      if s.stop {
        StopSticks(codec, before + lines[..j + 1], before + lines);
        return events, true;
      }
    }
    assert lines[..|lines|] == lines;
    stop := false;
  }

  method ReadStream(codec: Codec, status: int, errorText: string, chunks: seq<string>) returns (events: seq<Event>)
    ensures events == StreamEvents(codec, status, errorText, chunks)
  {
    if status != 200 {
      return [ErrorEvent("API error: " + IntToString(status), errorText)];
    }
    events := [];
    for i := 0 to |chunks|
      invariant ScanLines(codec, ChunkLines(chunks[..i])) == Step(events, false)
    {
      ChunkLinesPrefix(chunks, i);
      var chunk := chunks[i];
      if chunk != "" {
        var stop;
        events, stop := ReadChunk(codec, ChunkLines(chunks[..i]), events, Split(chunk, '\n'));
        if stop {
          StopSticks(codec, ChunkLines(chunks[..i + 1]), ChunkLines(chunks));
          return;
        }
      }
    }
    AllChunks(chunks);
  }

  lemma SnocSlice<T>(b: seq<T>, l: seq<T>, j: nat)
    requires j < |l|
    ensures b + l[..j] + [l[j]] == b + l[..j + 1]
  {
    assert l[..j + 1] == l[..j] + [l[j]];
  }

  /** One more line on a scan that has not ended adds that line's events. */
  lemma ScanSnoc(codec: Codec, a: seq<string>, line: string)
    requires !ScanLines(codec, a).stop
    ensures ScanLines(codec, a + [line]) ==
            Step(ScanLines(codec, a).events + LineStep(codec, line).events, LineStep(codec, line).stop)
  {
    assert (a + [line])[..|a|] == a;
  }

  /** Reading chunk `i` adds its lines; the lines read so far are a prefix of all the lines. */
  lemma ChunkLinesPrefix(chunks: seq<string>, i: nat)
    requires i < |chunks|
    ensures chunks[i] == "" ==> ChunkLines(chunks[..i + 1]) == ChunkLines(chunks[..i])
    ensures chunks[i] != "" ==> ChunkLines(chunks[..i + 1]) == ChunkLines(chunks[..i]) + Split(chunks[i], '\n')
    ensures ChunkLines(chunks[..i + 1]) <= ChunkLines(chunks)
  {
    assert chunks[..i + 1][..i] == chunks[..i];
    ChunkLinesMonotone(chunks, i + 1, |chunks|);
    assert chunks[..|chunks|] == chunks;
  }

  lemma AllChunks(chunks: seq<string>)
    ensures ChunkLines(chunks[..|chunks|]) == ChunkLines(chunks)
  {
    assert chunks[..|chunks|] == chunks;
  }

  lemma {:induction false} ChunkLinesMonotone(chunks: seq<string>, a: nat, b: nat)
    requires a <= b <= |chunks|
    ensures ChunkLines(chunks[..a]) <= ChunkLines(chunks[..b])
    decreases b - a
  {
    if a < b {
      ChunkLinesMonotone(chunks, a, b - 1);
      assert chunks[..b][..b - 1] == chunks[..b - 1];
    }
  }

  /** Helper for the early returns: once a prefix of the lines stops the scan, the whole scan ends there. */
  lemma StopSticks(codec: Codec, done: seq<string>, all: seq<string>)
    requires done <= all && ScanLines(codec, done).stop
    ensures ScanLines(codec, all) == ScanLines(codec, done)
  {
    assert done + all[|done|..] == all;
    StoppedAbsorbs(codec, done, all[|done|..]);
  }

  // ----- properties of the scan -----

  /** Once the stream has ended, no later line changes what was yielded. */
  lemma {:induction false} StoppedAbsorbs(codec: Codec, a: seq<string>, b: seq<string>)
    requires ScanLines(codec, a).stop
    ensures ScanLines(codec, a + b) == ScanLines(codec, a)
    decreases |b|
  {
    if b == [] {
      assert a + b == a;
    } else {
      assert (a + b)[..|a + b| - 1] == a + b[..|b| - 1];
      StoppedAbsorbs(codec, a, b[..|b| - 1]);
    }
  }

  /** A `[DONE]` line ends the stream: the lines after it yield nothing. */
  lemma DoneEndsStream(codec: Codec, before: seq<string>, payload: string, after: seq<string>)
    requires Strip(payload) == "[DONE]"
    ensures ScanLines(codec, before + ["data: " + payload] + after).events == ScanLines(codec, before).events
  {
    var line := "data: " + payload;
    assert StartsWith(line, "data: ") && line[6..] == payload;
    var a := before + [line];
    assert a[..|a| - 1] == before;
    assert ScanLines(codec, a).stop;
    StoppedAbsorbs(codec, a, after);
  }

  /** An error object from the backend is yielded as one error event and is the last thing yielded. */
  lemma ErrorEndsStream(codec: Codec, before: seq<string>, payload: string, after: seq<string>)
    requires !ScanLines(codec, before).stop && Strip(payload) != "[DONE]"
    requires codec.loads(payload).Some? && codec.loads(payload).value.Obj?
    requires HasKey(codec.loads(payload).value.fields, "error")
    ensures var v := codec.loads(payload).value;
            ScanLines(codec, before + ["data: " + payload] + after).events ==
            ScanLines(codec, before).events +
            [ErrorEvent("API error: " + PyStr(codec, Lookup(v.fields, "error").value), PyStr(codec, v))]
  {
    var line := "data: " + payload;
    assert StartsWith(line, "data: ") && line[6..] == payload;
    var a := before + [line];
    assert a[..|a| - 1] == before;
    StoppedAbsorbs(codec, a, after);
  }

  /** An error event can only be the final event, and it ends the stream. */
  lemma {:induction false} ErrorOnlyLast(codec: Codec, lines: seq<string>)
    ensures var r := ScanLines(codec, lines);
            (forall i | 0 <= i < |r.events| - 1 :: r.events[i].Data?) &&
            (|r.events| > 0 && r.events[|r.events| - 1].ErrorEvent? ==> r.stop)
    decreases |lines|
  {
    if lines != [] {
      ErrorOnlyLast(codec, lines[..|lines| - 1]);
    }
  }

  /** Lines that do not start with `data: `, and data lines that fail to decode, yield nothing. */
  lemma SkippedLines(codec: Codec, before: seq<string>, line: string)
    requires !StartsWith(line, "data: ") ||
             (Strip(line[6..]) != "[DONE]" && codec.loads(line[6..]).None?)
    ensures ScanLines(codec, before + [line]) == ScanLines(codec, before) ||
            ScanLines(codec, before + [line]) == Step(ScanLines(codec, before).events, false)
    ensures ScanLines(codec, before + [line]).events == ScanLines(codec, before).events
  {
    var a := before + [line];
    assert a[..|a| - 1] == before;
  }

  /** What a line yields when the stream is not stopped: its decoded object, if it has one. */
  function DataOf(codec: Codec, line: string): seq<Event> {
    if StartsWith(line, "data: ") && codec.loads(line[6..]).Some? then [Data(codec.loads(line[6..]).value)] else []
  }

  function AllData(codec: Codec, lines: seq<string>): seq<Event>
    decreases |lines|
  {
    if lines == [] then [] else AllData(codec, lines[..|lines| - 1]) + DataOf(codec, lines[|lines| - 1])
  }

  /** A line that neither ends the stream nor reports an error. */
  predicate Ordinary(codec: Codec, line: string) {
    !LineStep(codec, line).stop
  }

  /**
   * Without `[DONE]` or an error object, the events are exactly the decoded
   * `data: ` lines, in order, and the stream is not marked ended.
   */
  lemma {:induction false} OrdinaryLinesPassThrough(codec: Codec, lines: seq<string>)
    requires forall i | 0 <= i < |lines| :: Ordinary(codec, lines[i])
    ensures ScanLines(codec, lines) == Step(AllData(codec, lines), false)
    decreases |lines|
  {
    if lines != [] {
      OrdinaryLinesPassThrough(codec, lines[..|lines| - 1]);
    }
  }

  /** A non-200 reply yields exactly one error event carrying the status and the error text. */
  lemma BadStatusOneError(codec: Codec, status: int, errorText: string, chunks: seq<string>)
    requires status != 200
    ensures StreamEvents(codec, status, errorText, chunks) == [ErrorEvent("API error: " + IntToString(status), errorText)]
  {
  }
}
