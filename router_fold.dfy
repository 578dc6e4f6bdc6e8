/**
 * The non-streaming branch of the router's `/v1/chat/completions`: the backend
 * always streams, so the router collects every `data:` chunk that carries
 * `choices`, then folds them into one `chat.completion` object built on the
 * first chunk: the content of every chunk is concatenated, the tool-call
 * fragments are merged per index, the first choice's delta becomes its
 * message, and `finish_reason` is set to `stop`.
 */
module RouterFold {
  import opened Wrappers
  import opened Strings
  import opened Json
  import opened ToolMerge
  import ApiStream

  // ----- collecting the chunks -----

  /** What one line of the body contributes: a decoded chunk carrying `choices`,
      nothing, or the fault of a `"choices" in data` test on a scalar. */
  function CollectStep(codec: Codec, line: string): Result<Option<Value>, Fault> {
    if !StartsWith(line, "data: ") || EndsWith(line, "[DONE]") then Success(None)
    else
      match codec.loads(line[6..])
      case None => Success(None)
      case Some(v) =>
        var has :- In("choices", v);
        Success(if has then Some(v) else None)
  }

  function Kept(o: Option<Value>): seq<Value> {
    match o
    case None => []
    case Some(v) => [v]
  }

  /** One pass of the collection loop: the line's chunk, if any, joins the list. */
  function CollectFn(codec: Codec): (seq<Value>, string) -> Result<seq<Value>, Fault> {
    (prev: seq<Value>, line: string) =>
      match CollectStep(codec, line)
      case Failure(e) => Failure(e)
      case Success(o) => Success(prev + Kept(o))
  }

  /** The chunks collected from a run of lines, in order. */
  function Collected(codec: Codec, lines: seq<string>): Result<seq<Value>, Fault> {
    FoldResult(CollectFn(codec), [], lines, |lines|)
  }

  /** Collecting after some chunks only adds to them. */
  lemma {:induction false} CollectShift(codec: Codec, x: seq<Value>, lines: seq<string>, n: nat)
    requires n <= |lines|
    ensures FoldResult(CollectFn(codec), x, lines, n) ==
            match FoldResult(CollectFn(codec), [], lines, n)
            case Failure(e) => Failure(e)
            case Success(y) => Success(x + y)
    decreases n
  {
    if n == 0 {
      assert x + [] == x;
    } else {
      CollectShift(codec, x, lines, n - 1);
      match FoldResult(CollectFn(codec), [], lines, n - 1)
      case Failure(_) =>
      case Success(y) =>
        match CollectStep(codec, lines[n - 1])
        case Failure(_) =>
        case Success(o) =>
          assert x + y + Kept(o) == x + (y + Kept(o));
    }
  }

  /** Collection is compositional: the lines of two runs give the chunks of both. */
  lemma CollectedAppend(codec: Codec, a: seq<string>, b: seq<string>)
    ensures Collected(codec, a + b) ==
            match Collected(codec, a)
            case Failure(e) => Failure(e)
            case Success(x) =>
              match Collected(codec, b)
              case Failure(e) => Failure(e)
              case Success(y) => Success(x + y)
  {
    FoldResultAppend(CollectFn(codec), [], a, b, |b|);
    if Collected(codec, a).Success? {
      CollectShift(codec, Collected(codec, a).value, b, |b|);
    }
  }

  /** A line is kept exactly when it is a `data:` line, not a `[DONE]` line, whose
      payload decodes to a value holding `choices`. */
  lemma CollectStepRule(codec: Codec, line: string, v: Value)
    ensures CollectStep(codec, line) == Success(Some(v)) <==>
            StartsWith(line, "data: ") && !EndsWith(line, "[DONE]") &&
            codec.loads(line[6..]) == Some(v) && In("choices", v) == Success(true)
  {
  }

  lemma CollectedOne(codec: Codec, line: string)
    ensures Collected(codec, [line]) ==
            match CollectStep(codec, line)
            case Failure(e) => Failure(e)
            case Success(o) => Success(Kept(o))
  {
    FoldResultOne(CollectFn(codec), [], line);
    if CollectStep(codec, line).Success? {
      assert [] + Kept(CollectStep(codec, line).value) == Kept(CollectStep(codec, line).value);
    }
  }

  /** A line that contributes nothing can be dropped without changing the result:
      undecodable payloads, `[DONE]` and error objects without `choices` are skipped. */
  lemma SkippedLine(codec: Codec, a: seq<string>, line: string, b: seq<string>)
    requires CollectStep(codec, line) == Success(None)
    ensures Collected(codec, a + [line] + b) == Collected(codec, a + b)
  {
    CollectedAppend(codec, a + [line], b);
    CollectedAppend(codec, a, [line]);
    CollectedAppend(codec, a, b);
    CollectedOne(codec, line);
    if Collected(codec, a).Success? {
      assert Collected(codec, a).value + [] == Collected(codec, a).value;
    }
  }

  /** Unlike the streaming path, `data: [DONE]` does not end the collection. */
  lemma DoneDoesNotStop(codec: Codec, a: seq<string>, b: seq<string>)
    ensures Collected(codec, a + ["data: [DONE]"] + b) == Collected(codec, a + b)
  {
    assert EndsWith("data: [DONE]", "[DONE]");
    SkippedLine(codec, a, "data: [DONE]", b);
  }

  /** An error event from the backend is skipped, not reported. */
  lemma ErrorEventSkipped(codec: Codec, a: seq<string>, payload: string, d: Dict, b: seq<string>)
    requires codec.loads(payload) == Some(Obj(d)) && !HasKey(d, "choices")
    ensures Collected(codec, a + ["data: " + payload] + b) == Collected(codec, a + b)
  {
    var line := "data: " + payload;
    assert line[..6] == "data: " && line[6..] == payload;
    SkippedLine(codec, a, line, b);
  }

  /** A `data:` payload that decodes to a number, boolean or null fails the whole reply. */
  lemma ScalarPayloadFails(codec: Codec, a: seq<string>, payload: string, v: Value, b: seq<string>)
    requires Collected(codec, a).Success? && !EndsWith("data: " + payload, "[DONE]")
    requires codec.loads(payload) == Some(v) && (v.Null? || v.Bool? || v.Num? || v.Real?)
    ensures Collected(codec, a + ["data: " + payload] + b) == Failure(TypeError)
  {
    var line := "data: " + payload;
    assert line[..6] == "data: " && line[6..] == payload;
    assert CollectStep(codec, line) == Failure(TypeError);
    CollectedAppend(codec, a + [line], b);
    CollectedAppend(codec, a, [line]);
    CollectedOne(codec, line);
  }

  /** One line of the collection loop, after the chunks `prev`. */
  method CollectLine(codec: Codec, prev: seq<Value>, line: string) returns (r: Result<seq<Value>, Fault>)
    ensures r == CollectFn(codec)(prev, line)
  {
    assert prev + Kept(None) == prev;
    if !StartsWith(line, "data: ") || EndsWith(line, "[DONE]") {
      return Success(prev);
    }
    var data := codec.loads(line[6..]);
    if data.None? {
      return Success(prev);
    }
    var has := In("choices", data.value);
    if has.Failure? {
      return Failure(has.error);
    }
    var o := if has.value then Some(data.value) else None;
    assert CollectStep(codec, line) == Success(o);
    return Success(prev + Kept(o));
  }

  /** The lines of one received chunk, collected after the chunks `acc`. */
  method CollectChunk(codec: Codec, acc: seq<Value>, lines: seq<string>) returns (r: Result<seq<Value>, Fault>)
    ensures r == FoldResult(CollectFn(codec), acc, lines, |lines|)
  {
    var chunks := acc;
    for j := 0 to |lines|
      invariant FoldResult(CollectFn(codec), acc, lines, j) == Success(chunks)
    {
      FoldResultNext(CollectFn(codec), acc, lines, j, chunks);
      var step := CollectLine(codec, chunks, lines[j]);
      if step.Failure? {
        FoldResultFailureSticks(CollectFn(codec), acc, lines, j + 1, |lines|);
        return step;
      }
      chunks := step.value;
    }
    r := Success(chunks);
  }

  /** Chunk `i` of the body continues the collection from the chunks before it. */
  lemma CollectedNextChunk(codec: Codec, body: seq<string>, i: nat, chunks: seq<Value>)
    requires i < |body| && Collected(codec, ApiStream.ChunkLines(body[..i])) == Success(chunks)
    ensures Collected(codec, ApiStream.ChunkLines(body[..i + 1])) ==
            if body[i] == "" then Success(chunks)
            else FoldResult(CollectFn(codec), chunks, Split(body[i], '\n'), |Split(body[i], '\n')|)
  {
    ApiStream.ChunkLinesPrefix(body, i);
    if body[i] != "" {
      FoldResultAfter(CollectFn(codec), [], ApiStream.ChunkLines(body[..i]), Split(body[i], '\n'), chunks);
    }
  }

  /** A failure while reading the first `i` chunks is the failure of the whole body. */
  lemma CollectedPrefixFails(codec: Codec, body: seq<string>, i: nat)
    requires i <= |body| && Collected(codec, ApiStream.ChunkLines(body[..i])).Failure?
    ensures Collected(codec, ApiStream.ChunkLines(body)) == Collected(codec, ApiStream.ChunkLines(body[..i]))
  {
    ApiStream.ChunkLinesMonotone(body, i, |body|);
    ApiStream.AllChunks(body);
    FoldResultPrefixFails(CollectFn(codec), [], ApiStream.ChunkLines(body[..i]), ApiStream.ChunkLines(body));
  }

  /** The collection loop over the received chunks of the body. */
  method CollectChunks(codec: Codec, body: seq<string>) returns (r: Result<seq<Value>, Fault>)
    ensures r == Collected(codec, ApiStream.ChunkLines(body))
  {
    var chunks := [];
    for i := 0 to |body|
      invariant Collected(codec, ApiStream.ChunkLines(body[..i])) == Success(chunks)
    {
      CollectedNextChunk(codec, body, i, chunks);
      if body[i] != "" {
        var step := CollectChunk(codec, chunks, Split(body[i], '\n'));
        if step.Failure? {
          CollectedPrefixFails(codec, body, i + 1);
          return step;
        }
        chunks := step.value;
      }
    }
    ApiStream.AllChunks(body);
    r := Success(chunks);
  }

  // ----- merging the chunks -----

  /** The running merge: the concatenated content and the tool-call slots. */
  datatype Merged = Merged(content: Value, slots: seq<Slot>)

  /** `chunk["choices"][0].get("delta", {})` when the chunk has non-empty choices. */
  function DeltaOf(chunk: Value): Result<Option<Value>, Fault> {
    var has :- In("choices", chunk);
    if !has then Success(None)
    else
      var choices :- Subscript(chunk, "choices");
      if !Truthy(choices) then Success(None)
      else
        var choice :- Index0(choices);
        var delta :- GetOr(choice, "delta", Obj([]));
        Success(Some(delta))
  }

  /** `merged_content += delta["content"]` when the delta has truthy content. */
  function ContentAfter(content: Value, delta: Value): Result<Value, Fault> {
    var has :- In("content", delta);
    if !has then Success(content)
    else
      var c :- Subscript(delta, "content");
      if Truthy(c) then PyIAdd(content, c) else Success(content)
  }

  /** The fragments `for new_tool_call in delta["tool_calls"]` visits. */
  function ToolsOf(delta: Value): Result<seq<Value>, Fault> {
    var has :- In("tool_calls", delta);
    if !has then Success([])
    else
      var tcs :- Subscript(delta, "tool_calls");
      Iterate(tcs)
  }

  function ChunkStep(acc: Merged, chunk: Value): Result<Merged, Fault> {
    var d :- DeltaOf(chunk);
    match d
    case None => Success(acc)
    case Some(delta) =>
      var content :- ContentAfter(acc.content, delta);
      var items :- ToolsOf(delta);
      var slots :- ToolCalls(acc.slots, items);
      Success(Merged(content, slots))
  }

  /** A chunk's tool-call fragments merged into the slots, its content left aside. */
  function SlotsStep(acc: Merged, chunk: Value): Result<Merged, Fault> {
    var d :- DeltaOf(chunk);
    match d
    case None => Success(acc)
    case Some(delta) =>
      var items :- ToolsOf(delta);
      var slots :- ToolCalls(acc.slots, items);
      Success(Merged(acc.content, slots))
  }

  /** The merge of all collected chunks, in order, starting from `acc`. */
  function MergeAll(acc: Merged, chunks: seq<Value>): Result<Merged, Fault> {
    FoldResult(ChunkStep, acc, chunks, |chunks|)
  }

  /** The string a delta's content adds; empty when it has none. */
  function TextOf(delta: Value): string {
    if delta.Obj? && HasKey(delta.fields, "content") && Lookup(delta.fields, "content").value.Str?
    then Lookup(delta.fields, "content").value.s
    else ""
  }

  function ChunkText(chunk: Value): string {
    match DeltaOf(chunk)
    case Success(Some(d)) => TextOf(d)
    case _ => ""
  }

  /** The text of the first `n` chunks, concatenated in order. */
  function TextUpTo(chunks: seq<Value>, n: nat): string
    requires n <= |chunks|
    decreases n
  {
    if n == 0 then "" else TextUpTo(chunks, n - 1) + ChunkText(chunks[n - 1])
  }

  function AllText(chunks: seq<Value>): string {
    TextUpTo(chunks, |chunks|)
  }

  /** What `list += delta["content"]` appends for one chunk: the items of its
      truthy content when that is iterable; nothing otherwise. */
  function ChunkPieces(chunk: Value): seq<Value> {
    match DeltaOf(chunk)
    case Success(Some(d)) =>
      if d.Obj? && HasKey(d.fields, "content") && Truthy(Lookup(d.fields, "content").value) then
        (match Iterate(Lookup(d.fields, "content").value)
         case Success(xs) => xs
         case Failure(_) => [])
      else []
    case _ => []
  }

  /** The list items the first `n` chunks append, in order. */
  function PiecesUpTo(chunks: seq<Value>, n: nat): seq<Value>
    requires n <= |chunks|
    decreases n
  {
    if n == 0 then [] else PiecesUpTo(chunks, n - 1) + ChunkPieces(chunks[n - 1])
  }

  function AllPieces(chunks: seq<Value>): seq<Value> {
    PiecesUpTo(chunks, |chunks|)
  }

  function ChunkItems(chunk: Value): seq<Value> {
    match DeltaOf(chunk)
    case Success(Some(d)) =>
      (match ToolsOf(d)
       case Success(xs) => xs
       case Failure(_) => [])
    case _ => []
  }

  /** The tool-call fragments of the first `n` chunks, concatenated in order. */
  function ItemsUpTo(chunks: seq<Value>, n: nat): seq<Value>
    requires n <= |chunks|
    decreases n
  {
    if n == 0 then [] else ItemsUpTo(chunks, n - 1) + ChunkItems(chunks[n - 1])
  }

  function AllItems(chunks: seq<Value>): seq<Value> {
    ItemsUpTo(chunks, |chunks|)
  }

  /** One chunk merges its fragments into the slots. */
  lemma StepSlots(prev: Merged, chunk: Value, next: Merged)
    requires ChunkStep(prev, chunk) == Success(next)
    ensures ToolCalls(prev.slots, ChunkItems(chunk)) == Success(next.slots)
  {
  }

  /** One chunk appends its text to string content. */
  lemma StepText(prev: Merged, chunk: Value, next: Merged)
    requires ChunkStep(prev, chunk) == Success(next) && prev.content.Str?
    ensures next.content == Str(prev.content.s + ChunkText(chunk))
  {
    match DeltaOf(chunk)
    case Success(None) =>
      assert ChunkText(chunk) == "";
    case Success(Some(delta)) =>
      if In("content", delta) == Success(true) {
        var v := Subscript(delta, "content").value;
        assert delta.Obj? && Lookup(delta.fields, "content") == Some(v);
        if Truthy(v) {
          assert v.Str?;
        } else if v.Str? {
          assert v.s == "";
        }
      }
  }

  /** One chunk extends list content with the items of its content. */
  lemma StepPieces(prev: Merged, chunk: Value, next: Merged)
    requires ChunkStep(prev, chunk) == Success(next) && prev.content.Arr?
    ensures next.content == Arr(prev.content.items + ChunkPieces(chunk))
  {
    match DeltaOf(chunk)
    case Success(None) =>
      assert ChunkPieces(chunk) == [];
    case Success(Some(delta)) =>
      if In("content", delta) == Success(true) {
        var v := Subscript(delta, "content").value;
        assert delta.Obj? && Lookup(delta.fields, "content") == Some(v);
        if !Truthy(v) {
          assert ChunkPieces(chunk) == [];
        }
      } else {
        assert ChunkPieces(chunk) == [];
      }
  }

  /** The merged slots are the merge of the concatenated fragments of the chunks. */
  lemma {:induction false} MergeSlotsAt(acc: Merged, chunks: seq<Value>, n: nat)
    requires n <= |chunks| && FoldResult(ChunkStep, acc, chunks, n).Success?
    ensures ToolCalls(acc.slots, ItemsUpTo(chunks, n)) == Success(FoldResult(ChunkStep, acc, chunks, n).value.slots)
    decreases n
  {
    if n > 0 {
      FoldResultLast(ChunkStep, acc, chunks, n);
      var prev := FoldResult(ChunkStep, acc, chunks, n - 1).value;
      var next := FoldResult(ChunkStep, acc, chunks, n).value;
      MergeSlotsAt(acc, chunks, n - 1);
      StepSlots(prev, chunks[n - 1], next);
      ToolCallsAppend(acc.slots, ItemsUpTo(chunks, n - 1), ChunkItems(chunks[n - 1]));
    }
  }

  /** Merged string content is the concatenated text of the chunks. */
  lemma {:induction false} MergeTextAt(acc: Merged, chunks: seq<Value>, n: nat)
    requires n <= |chunks| && FoldResult(ChunkStep, acc, chunks, n).Success? && acc.content.Str?
    ensures FoldResult(ChunkStep, acc, chunks, n).value.content == Str(acc.content.s + TextUpTo(chunks, n))
    decreases n
  {
    if n > 0 {
      FoldResultLast(ChunkStep, acc, chunks, n);
      var prev := FoldResult(ChunkStep, acc, chunks, n - 1).value;
      var next := FoldResult(ChunkStep, acc, chunks, n).value;
      MergeTextAt(acc, chunks, n - 1);
      StepText(prev, chunks[n - 1], next);
      var before := TextUpTo(chunks, n - 1);
      var added := ChunkText(chunks[n - 1]);
      assert TextUpTo(chunks, n) == before + added;
      assert acc.content.s + before + added == acc.content.s + (before + added);
    }
  }

  /** Merged list content is the starting list extended by every chunk's items. */
  lemma {:induction false} MergePiecesAt(acc: Merged, chunks: seq<Value>, n: nat)
    requires n <= |chunks| && FoldResult(ChunkStep, acc, chunks, n).Success? && acc.content.Arr?
    ensures FoldResult(ChunkStep, acc, chunks, n).value.content == Arr(acc.content.items + PiecesUpTo(chunks, n))
    decreases n
  {
    if n > 0 {
      FoldResultLast(ChunkStep, acc, chunks, n);
      var prev := FoldResult(ChunkStep, acc, chunks, n - 1).value;
      var next := FoldResult(ChunkStep, acc, chunks, n).value;
      MergePiecesAt(acc, chunks, n - 1);
      StepPieces(prev, chunks[n - 1], next);
      var before := PiecesUpTo(chunks, n - 1);
      var added := ChunkPieces(chunks[n - 1]);
      assert PiecesUpTo(chunks, n) == before + added;
      assert acc.content.items + before + added == acc.content.items + (before + added);
    }
  }

  /** The merged content is the concatenated text of the chunks when it starts as a
      string, and the starting list extended by their items when it starts as a
      list; the slots are the merge of their concatenated fragments. */
  lemma MergeAllRule(acc: Merged, chunks: seq<Value>)
    requires MergeAll(acc, chunks).Success?
    ensures ToolCalls(acc.slots, AllItems(chunks)) == Success(MergeAll(acc, chunks).value.slots)
    ensures acc.content.Str? ==> MergeAll(acc, chunks).value.content == Str(acc.content.s + AllText(chunks))
    ensures acc.content.Arr? ==> MergeAll(acc, chunks).value.content == Arr(acc.content.items + AllPieces(chunks))
  {
    MergeSlotsAt(acc, chunks, |chunks|);
    if acc.content.Str? {
      MergeTextAt(acc, chunks, |chunks|);
    }
    if acc.content.Arr? {
      MergePiecesAt(acc, chunks, |chunks|);
    }
  }

  /** The body of `for chunk in all_chunks`. */
  method MergeChunk(acc: Merged, chunk: Value) returns (r: Result<Merged, Fault>)
    ensures r == ChunkStep(acc, chunk)
  {
    var hasChoices := In("choices", chunk);
    if hasChoices.Failure? {
      return Failure(hasChoices.error);
    }
    if !hasChoices.value {
      return Success(acc);
    }
    var choices := Subscript(chunk, "choices");
    if choices.Failure? {
      return Failure(choices.error);
    }
    if !Truthy(choices.value) {
      return Success(acc);
    }
    var choice := Index0(choices.value);
    if choice.Failure? {
      return Failure(choice.error);
    }
    var delta := GetOr(choice.value, "delta", Obj([]));
    if delta.Failure? {
      return Failure(delta.error);
    }
    var content := ContentAfter(acc.content, delta.value);
    if content.Failure? {
      return Failure(content.error);
    }
    var items := ToolsOf(delta.value);
    if items.Failure? {
      return Failure(items.error);
    }
    var slots := MergeFragments(acc.slots, items.value);
    if slots.Failure? {
      return Failure(slots.error);
    }
    return Success(Merged(content.value, slots.value));
  }

  /** The tool-call half of `MergeChunk`, for a chunk whose content is already counted. */
  method MergeChunkTools(acc: Merged, chunk: Value) returns (r: Result<Merged, Fault>)
    ensures r == SlotsStep(acc, chunk)
  {
    var d := DeltaOf(chunk);
    if d.Failure? {
      return Failure(d.error);
    }
    if d.value.None? {
      return Success(acc);
    }
    var items := ToolsOf(d.value.value);
    if items.Failure? {
      return Failure(items.error);
    }
    var slots := MergeFragments(acc.slots, items.value);
    if slots.Failure? {
      return Failure(slots.error);
    }
    return Success(Merged(acc.content, slots.value));
  }

  method MergeChunks(acc: Merged, chunks: seq<Value>) returns (r: Result<Merged, Fault>)
    ensures r == MergeAll(acc, chunks)
  {
    var merged := acc;
    for i := 0 to |chunks|
      invariant FoldResult(ChunkStep, acc, chunks, i) == Success(merged)
    {
      var step := MergeChunk(merged, chunks[i]);
      if step.Failure? {
        FoldResultFailureSticks(ChunkStep, acc, chunks, i + 1, |chunks|);
        return step;
      }
      merged := step.value;
    }
    return Success(merged);
  }

  // ----- the folded reply -----

  /** The reply when no chunk was collected. */
  const NoResponse: Value :=
    Obj([("error", Str("No valid response received from CodeBuddy")),
         ("details", Str("Stream ended without complete response"))])

  /** The copy of the first chunk, marked as a completion created at `now`. */
  function Base(first: Dict, now: int): Dict {
    Set(Set(first, "object", Str("chat.completion")), "created", Num(now))
  }

  /** `merged_delta.get("content", "") or ""`. */
  function StartContent(delta: Dict): Value {
    PyOr(Lookup(delta, "content").GetOr(Str("")), Str(""))
  }

  /** The delta copy with the merged content and tool calls, and a role. */
  function FinalMessage(delta: Dict, m: Merged): Dict {
    var withContent := Set(delta, "content", m.content);
    var withTools := if m.slots == [] then withContent else Set(withContent, "tool_calls", Arr(SlotValues(m.slots)));
    Set(withTools, "role", Lookup(withTools, "role").GetOr(Str("assistant")))
  }

  /** The first choice with `message` and `finish_reason` set and `delta` removed. */
  function FinalChoice(choice: Dict, message: Dict): Dict {
    Del(Set(Set(choice, "message", Obj(message)), "finish_reason", Str("stop")), "delta")
  }

  /** The fold, where `seedFirst` says whether the merged content starts from the
      first chunk's own content (as the router does) or from the empty string. */
  function FoldSeeded(chunks: seq<Value>, now: int, seedFirst: bool): Result<Value, Fault> {
    if chunks == [] then Success(NoResponse)
    else if !chunks[0].Obj? then Failure(if chunks[0].Arr? then TypeError else AttributeError)
    else
      var base := Base(chunks[0].fields, now);
      if !(HasKey(base, "choices") && Truthy(Lookup(base, "choices").value)) then Success(Obj(base))
      else
        var choices := Lookup(base, "choices").value;
        var choice :- Index0(choices);
        var hasDelta :- In("delta", choice);
        if !hasDelta then Success(Obj(base))
        else
          var delta :- Subscript(choice, "delta");
          if !delta.Obj? then Failure(AttributeError)
          else FoldInto(base, choices.items, choice.fields, delta.fields, chunks, seedFirst)
  }

  /** The merge of the chunks onto the first delta's content. As written (`seedFirst`)
      every chunk, the first included, adds its content once more; counting each chunk
      once, the first chunk adds only its tool-call fragments, its content being the seed. */
  function MergeFrom(delta: Dict, chunks: seq<Value>, seedFirst: bool): Result<Merged, Fault> {
    var start := Merged(StartContent(delta), []);
    if seedFirst || chunks == [] then MergeAll(start, chunks)
    else
      var first :- SlotsStep(start, chunks[0]);
      MergeAll(first, chunks[1..])
  }

  /** The merge into the first choice `choice` of the choice list `cs`, with delta `delta`. */
  function FoldInto(base: Dict, cs: seq<Value>, choice: Dict, delta: Dict, chunks: seq<Value>, seedFirst: bool): Result<Value, Fault>
    requires cs != []
  {
    var m :- MergeFrom(delta, chunks, seedFirst);
    var c := FinalChoice(choice, FinalMessage(delta, m));
    Success(Obj(Set(base, "choices", Arr([Obj(c)] + cs[1..]))))
  }

  /** The fold as the router writes it. */
  function Fold(chunks: seq<Value>, now: int): Result<Value, Fault> {
    FoldSeeded(chunks, now, true)
  }

  /** The fold with each chunk's content counted once. */
  function IntendedFold(chunks: seq<Value>, now: int): Result<Value, Fault> {
    FoldSeeded(chunks, now, false)
  }

  /** The non-streaming reply to a body received in the given chunks at time `now`, as the router writes it. */
  function Reply(codec: Codec, body: seq<string>, now: int): Result<Value, Fault> {
    var chunks :- Collected(codec, ApiStream.ChunkLines(body));
    Fold(chunks, now)
  }

  /** The same reply with each chunk's content counted once. */
  function IntendedReply(codec: Codec, body: seq<string>, now: int): Result<Value, Fault> {
    var chunks :- Collected(codec, ApiStream.ChunkLines(body));
    IntendedFold(chunks, now)
  }

  /** The fold step by step, as the router updates the first chunk's copy; with
      `seedFirst` the merged content starts from the first delta's content, as written. */
  method FoldChunks(chunks: seq<Value>, now: int, seedFirst: bool) returns (r: Result<Value, Fault>)
    ensures r == FoldSeeded(chunks, now, seedFirst)
  {
    if chunks == [] {
      return Success(NoResponse);
    }
    if !chunks[0].Obj? {
      return Failure(if chunks[0].Arr? then TypeError else AttributeError);
    }
    var base := chunks[0].fields;
    base := Set(base, "object", Str("chat.completion"));
    base := Set(base, "created", Num(now));
    if !HasKey(base, "choices") || !Truthy(Lookup(base, "choices").value) {
      return Success(Obj(base));
    }
    var choices := Lookup(base, "choices").value;
    var choice := Index0(choices);
    if choice.Failure? {
      return Failure(choice.error);
    }
    var hasDelta := In("delta", choice.value);
    if hasDelta.Failure? {
      return Failure(hasDelta.error);
    }
    if !hasDelta.value {
      return Success(Obj(base));
    }
    var delta := Subscript(choice.value, "delta");
    if delta.Failure? {
      return Failure(delta.error);
    }
    if !delta.value.Obj? {
      return Failure(AttributeError);
    }
    var start := Merged(StartContent(delta.value.fields), []);
    var m: Result<Merged, Fault>;
    if seedFirst {
      m := MergeChunks(start, chunks);
    } else {
      var first := MergeChunkTools(start, chunks[0]);
      if first.Failure? {
        return Failure(first.error);
      }
      m := MergeChunks(first.value, chunks[1..]);
    }
    if m.Failure? {
      return Failure(m.error);
    }
    var message := Set(delta.value.fields, "content", m.value.content);
    if m.value.slots != [] {
      message := Set(message, "tool_calls", Arr(SlotValues(m.value.slots)));
    }
    message := Set(message, "role", Lookup(message, "role").GetOr(Str("assistant")));
    var c := Set(choice.value.fields, "message", Obj(message));
    c := Set(c, "finish_reason", Str("stop"));
    c := Del(c, "delta");
    base := Set(base, "choices", Arr([Obj(c)] + choices.items[1..]));
    return Success(Obj(base));
  }

  /** Collect, then fold, counting each chunk's content once. */
  method NonStreamingReply(codec: Codec, body: seq<string>, now: int) returns (r: Result<Value, Fault>)
    ensures r == IntendedReply(codec, body, now)
  {
    var chunks := CollectChunks(codec, body);
    if chunks.Failure? {
      return Failure(chunks.error);
    }
    r := FoldChunks(chunks.value, now, false);
  }

  // ----- what the reply looks like -----

  /** The first choice and its delta, when the first chunk has a choice with a dict delta. */
  function Opening(chunks: seq<Value>): Option<(Dict, Dict)> {
    if chunks == [] || !chunks[0].Obj? then None
    else
      match Lookup(chunks[0].fields, "choices")
      case Some(Arr(cs)) =>
        if cs != [] && cs[0].Obj? && HasKey(cs[0].fields, "delta") && Lookup(cs[0].fields, "delta").value.Obj?
        then Some((cs[0].fields, Lookup(cs[0].fields, "delta").value.fields))
        else None
      case _ => None
  }

  /** The message of the first choice of a reply, if it has one. */
  function MessageOf(r: Value): Option<Dict> {
    if !r.Obj? then None
    else
      match Lookup(r.fields, "choices")
      case Some(Arr(cs)) =>
        if cs != [] && cs[0].Obj? then
          match Lookup(cs[0].fields, "message")
          case Some(Obj(m)) => Some(m)
          case _ => None
        else None
      case _ => None
  }

  /** The choice built from first choice `choice` has the message and finish reason,
      keeps its other entries, and has no `delta` left when its keys are distinct. */
  lemma ChoiceShape(choice: Dict, message: Dict, k: string)
    ensures Lookup(FinalChoice(choice, message), "message") == Some(Obj(message))
    ensures Lookup(FinalChoice(choice, message), "finish_reason") == Some(Str("stop"))
    ensures k != "message" && k != "finish_reason" && k != "delta" ==>
            Lookup(FinalChoice(choice, message), k) == Lookup(choice, k)
    ensures UniqueKeys(choice) ==> !HasKey(FinalChoice(choice, message), "delta")
  {
    var c1 := Set(choice, "message", Obj(message));
    var c2 := Set(c1, "finish_reason", Str("stop"));
    LookupSet(choice, "message", Obj(message), "message");
    LookupSet(c1, "finish_reason", Str("stop"), "message");
    LookupSet(c1, "finish_reason", Str("stop"), "finish_reason");
    LookupDelOther(c2, "delta", "message");
    LookupDelOther(c2, "delta", "finish_reason");
    if k != "message" && k != "finish_reason" && k != "delta" {
      LookupSet(choice, "message", Obj(message), k);
      LookupSet(c1, "finish_reason", Str("stop"), k);
      LookupDelOther(c2, "delta", k);
    }
    if UniqueKeys(choice) {
      SetKeepsUnique(choice, "message", Obj(message));
      SetKeepsUnique(c1, "finish_reason", Str("stop"));
      LookupDel(c2, "delta", "delta");
    }
  }

  /** The message carries the merged content, the merged tool calls when there are
      any, the delta's role or `assistant`, and the delta's other entries. */
  lemma MessageShape(delta: Dict, m: Merged, k: string)
    ensures Lookup(FinalMessage(delta, m), "content") == Some(m.content)
    ensures Lookup(FinalMessage(delta, m), "tool_calls") ==
            if m.slots == [] then Lookup(delta, "tool_calls") else Some(Arr(SlotValues(m.slots)))
    ensures Lookup(FinalMessage(delta, m), "role") == Some(Lookup(delta, "role").GetOr(Str("assistant")))
    ensures k != "content" && k != "tool_calls" && k != "role" ==> Lookup(FinalMessage(delta, m), k) == Lookup(delta, k)
  {
    var w1 := Set(delta, "content", m.content);
    var w2 := if m.slots == [] then w1 else Set(w1, "tool_calls", Arr(SlotValues(m.slots)));
    var role := Lookup(w2, "role").GetOr(Str("assistant"));
    forall k' | k' in {"content", "tool_calls", "role", k}
      ensures Lookup(w2, k') == if k' == "content" then Some(m.content)
                                else if k' == "tool_calls" && m.slots != [] then Some(Arr(SlotValues(m.slots)))
                                else Lookup(delta, k')
    {
      LookupSet(delta, "content", m.content, k');
      if m.slots != [] {
        LookupSet(w1, "tool_calls", Arr(SlotValues(m.slots)), k');
      }
    }
    LookupSet(w2, "role", role, "content");
    LookupSet(w2, "role", role, "tool_calls");
    LookupSet(w2, "role", role, "role");
    LookupSet(w2, "role", role, k);
  }

  /** A reply folded from chunks is the marked copy of the first chunk, with at most
      its `choices` entry replaced. */
  lemma FoldOnBase(chunks: seq<Value>, now: int, seedFirst: bool)
    requires chunks != [] && FoldSeeded(chunks, now, seedFirst).Success?
    ensures chunks[0].Obj?
    ensures var base := Base(chunks[0].fields, now);
            var r := FoldSeeded(chunks, now, seedFirst).value;
            r == Obj(base) || exists x :: r == Obj(Set(base, "choices", x))
  {
    var base := Base(chunks[0].fields, now);
    if HasKey(base, "choices") && Truthy(Lookup(base, "choices").value) {
      var choices := Lookup(base, "choices").value;
      var choice := Index0(choices).value;
      if In("delta", choice).value {
        var delta := Subscript(choice, "delta").value;
        var m := MergeFrom(delta.fields, chunks, seedFirst).value;
        var x := Arr([Obj(FinalChoice(choice.fields, FinalMessage(delta.fields, m)))] + choices.items[1..]);
        assert FoldSeeded(chunks, now, seedFirst).value == Obj(Set(base, "choices", x));
        assert exists y :: FoldSeeded(chunks, now, seedFirst).value == Obj(Set(base, "choices", y));
      } else {
        assert FoldSeeded(chunks, now, seedFirst) == Success(Obj(base));
      }
    }
  }

  /** The marks on the copy of the first chunk. */
  lemma BaseMarks(first: Dict, now: int, k: string)
    ensures Lookup(Base(first, now), "object") == Some(Str("chat.completion"))
    ensures Lookup(Base(first, now), "created") == Some(Num(now))
    ensures k != "object" && k != "created" ==> Lookup(Base(first, now), k) == Lookup(first, k)
  {
    var b1 := Set(first, "object", Str("chat.completion"));
    LookupSet(first, "object", Str("chat.completion"), "object");
    LookupSet(b1, "created", Num(now), "object");
    LookupSet(b1, "created", Num(now), "created");
    LookupSet(first, "object", Str("chat.completion"), k);
    LookupSet(b1, "created", Num(now), k);
  }

  /** With no chunk collected the reply is the error object, and otherwise it never is:
      a folded reply always carries `object` and `created`. */
  lemma FoldMarks(chunks: seq<Value>, now: int, seedFirst: bool)
    requires FoldSeeded(chunks, now, seedFirst).Success?
    ensures chunks == [] ==> FoldSeeded(chunks, now, seedFirst).value == NoResponse
    ensures chunks != [] ==>
            var r := FoldSeeded(chunks, now, seedFirst).value;
            r.Obj? && Lookup(r.fields, "object") == Some(Str("chat.completion")) &&
            Lookup(r.fields, "created") == Some(Num(now)) && r != NoResponse
  {
    if chunks != [] {
      FoldOnBase(chunks, now, seedFirst);
      var base := Base(chunks[0].fields, now);
      BaseMarks(chunks[0].fields, now, "choices");
      var r := FoldSeeded(chunks, now, seedFirst).value;
      if r != Obj(base) {
        var x :| r == Obj(Set(base, "choices", x));
        LookupSet(base, "choices", x, "object");
        LookupSet(base, "choices", x, "created");
      }
      assert Lookup(NoResponse.fields, "object") == None;
    }
  }

  /** No chunk collected if and only if the reply is the error object. */
  lemma NoResponseIff(codec: Codec, body: seq<string>, now: int)
    requires IntendedReply(codec, body, now).Success?
    ensures IntendedReply(codec, body, now).value == NoResponse <==> Collected(codec, ApiStream.ChunkLines(body)) == Success([])
  {
    FoldMarks(Collected(codec, ApiStream.ChunkLines(body)).value, now, false);
  }

  /** A first chunk that opens with a delta is folded into its first choice. */
  lemma FoldOpen(chunks: seq<Value>, now: int, seedFirst: bool)
    requires Opening(chunks).Some?
    ensures var (choice, delta) := Opening(chunks).value;
            var cs := Lookup(chunks[0].fields, "choices").value.items;
            cs != [] &&
            FoldSeeded(chunks, now, seedFirst) == FoldInto(Base(chunks[0].fields, now), cs, choice, delta, chunks, seedFirst)
  {
    var first := chunks[0].fields;
    LookupSet(first, "object", Str("chat.completion"), "choices");
    LookupSet(Set(first, "object", Str("chat.completion")), "created", Num(now), "choices");
    assert In("delta", Obj(Opening(chunks).value.0)) == Success(true);
  }

  /** When the first chunk opens with a delta, the reply's first choice carries the
      merged message, `finish_reason` `stop`, and no `delta`; the other choices are kept. */
  lemma FoldShape(chunks: seq<Value>, now: int, seedFirst: bool)
    requires FoldSeeded(chunks, now, seedFirst).Success? && Opening(chunks).Some?
    ensures var (choice, delta) := Opening(chunks).value;
            var m := MergeFrom(delta, chunks, seedFirst);
            var r := FoldSeeded(chunks, now, seedFirst).value;
            var cs := Lookup(chunks[0].fields, "choices").value.items;
            m.Success? && r.Obj? && MessageOf(r) == Some(FinalMessage(delta, m.value)) &&
            (exists c :: Lookup(r.fields, "choices") == Some(Arr([Obj(c)] + cs[1..])) &&
              Lookup(c, "finish_reason") == Some(Str("stop")) &&
              (UniqueKeys(choice) ==> !HasKey(c, "delta")))
  {
    var (choice, delta) := Opening(chunks).value;
    var cs := Lookup(chunks[0].fields, "choices").value.items;
    var base := Base(chunks[0].fields, now);
    FoldOpen(chunks, now, seedFirst);
    FoldIntoShape(base, cs, choice, delta, chunks, seedFirst);
  }

  /** The message of the folded reply is the final message built from the first delta. */
  lemma FoldMessage(chunks: seq<Value>, now: int, seedFirst: bool)
    requires FoldSeeded(chunks, now, seedFirst).Success? && Opening(chunks).Some?
    ensures var delta := Opening(chunks).value.1;
            var m := MergeFrom(delta, chunks, seedFirst);
            m.Success? && MessageOf(FoldSeeded(chunks, now, seedFirst).value) == Some(FinalMessage(delta, m.value))
  {
    var (choice, delta) := Opening(chunks).value;
    var cs := Lookup(chunks[0].fields, "choices").value.items;
    FoldOpen(chunks, now, seedFirst);
    FoldIntoMessage(Base(chunks[0].fields, now), cs, choice, delta, chunks, seedFirst);
  }

  lemma FoldIntoMessage(base: Dict, cs: seq<Value>, choice: Dict, delta: Dict, chunks: seq<Value>, seedFirst: bool)
    requires cs != [] && FoldInto(base, cs, choice, delta, chunks, seedFirst).Success?
    ensures var m := MergeFrom(delta, chunks, seedFirst);
            m.Success? && MessageOf(FoldInto(base, cs, choice, delta, chunks, seedFirst).value) == Some(FinalMessage(delta, m.value))
  {
    var m := MergeFrom(delta, chunks, seedFirst).value;
    var msg := FinalMessage(delta, m);
    var x := Arr([Obj(FinalChoice(choice, msg))] + cs[1..]);
    LookupSet(base, "choices", x, "choices");
    ChoiceShape(choice, msg, "message");
  }

  lemma FoldIntoShape(base: Dict, cs: seq<Value>, choice: Dict, delta: Dict, chunks: seq<Value>, seedFirst: bool)
    requires cs != [] && FoldInto(base, cs, choice, delta, chunks, seedFirst).Success?
    ensures var m := MergeFrom(delta, chunks, seedFirst);
            var r := FoldInto(base, cs, choice, delta, chunks, seedFirst).value;
            m.Success? && r.Obj? && MessageOf(r) == Some(FinalMessage(delta, m.value)) &&
            (exists c :: Lookup(r.fields, "choices") == Some(Arr([Obj(c)] + cs[1..])) &&
              Lookup(c, "finish_reason") == Some(Str("stop")) &&
              (UniqueKeys(choice) ==> !HasKey(c, "delta")))
  {
    var m := MergeFrom(delta, chunks, seedFirst).value;
    var msg := FinalMessage(delta, m);
    var c := FinalChoice(choice, msg);
    var x := Arr([Obj(c)] + cs[1..]);
    LookupSet(base, "choices", x, "choices");
    ChoiceShape(choice, msg, "message");
    assert MessageOf(Obj(Set(base, "choices", x))) == Some(msg);
  }

  /** The first chunk's delta, as the merge sees it. */
  lemma OpeningDelta(chunks: seq<Value>)
    requires Opening(chunks).Some?
    ensures DeltaOf(chunks[0]) == Success(Some(Obj(Opening(chunks).value.1)))
  {
  }

  /** The text of the first `n` chunks is the first chunk's text followed by that of the next `n - 1`. */
  lemma {:induction false} TextCons(chunks: seq<Value>, n: nat)
    requires 0 < n <= |chunks|
    ensures TextUpTo(chunks, n) == ChunkText(chunks[0]) + TextUpTo(chunks[1..], n - 1)
    decreases n
  {
    if n > 1 {
      TextCons(chunks, n - 1);
      assert chunks[1..][n - 2] == chunks[n - 1];
      var head := ChunkText(chunks[0]);
      var mid := TextUpTo(chunks[1..], n - 2);
      var last := ChunkText(chunks[n - 1]);
      assert head + mid + last == head + (mid + last);
    }
  }

  /** The list items of the first `n` chunks are the first chunk's followed by those of the next `n - 1`. */
  lemma {:induction false} PiecesCons(chunks: seq<Value>, n: nat)
    requires 0 < n <= |chunks|
    ensures PiecesUpTo(chunks, n) == ChunkPieces(chunks[0]) + PiecesUpTo(chunks[1..], n - 1)
    decreases n
  {
    if n > 1 {
      PiecesCons(chunks, n - 1);
      assert chunks[1..][n - 2] == chunks[n - 1];
      var head := ChunkPieces(chunks[0]);
      var mid := PiecesUpTo(chunks[1..], n - 2);
      var last := ChunkPieces(chunks[n - 1]);
      assert head + mid + last == head + (mid + last);
    } else {
      assert PiecesUpTo(chunks[1..], 0) == [];
      assert ChunkPieces(chunks[0]) + [] == ChunkPieces(chunks[0]);
    }
  }

  /** The fragments of the first `n` chunks are the first chunk's followed by those of the next `n - 1`. */
  lemma {:induction false} ItemsCons(chunks: seq<Value>, n: nat)
    requires 0 < n <= |chunks|
    ensures ItemsUpTo(chunks, n) == ChunkItems(chunks[0]) + ItemsUpTo(chunks[1..], n - 1)
    decreases n
  {
    if n > 1 {
      ItemsCons(chunks, n - 1);
      assert chunks[1..][n - 2] == chunks[n - 1];
      var head := ChunkItems(chunks[0]);
      var mid := ItemsUpTo(chunks[1..], n - 2);
      var last := ChunkItems(chunks[n - 1]);
      assert head + mid + last == head + (mid + last);
    } else {
      assert ItemsUpTo(chunks[1..], 0) == [];
      assert ChunkItems(chunks[0]) + [] == ChunkItems(chunks[0]);
    }
  }

  /** What the first delta's seed is worth as the first chunk's contribution: its
      text when it is a string, its items when it is a list. */
  lemma SeedIsFirstChunk(chunks: seq<Value>)
    requires Opening(chunks).Some?
    ensures var start := StartContent(Opening(chunks).value.1);
            (start.Str? ==> start.s == ChunkText(chunks[0])) &&
            (start.Arr? ==> start.items == ChunkPieces(chunks[0]))
  {
    var delta := Opening(chunks).value.1;
    OpeningDelta(chunks);
    var start := StartContent(delta);
    if HasKey(delta, "content") {
      var c := Lookup(delta, "content").value;
      if start.Arr? {
        assert Truthy(c) && c == start;
      }
    }
  }

  /** The merge onto the first delta: the slots are the merge of every chunk's
      fragments; string content is every chunk's text, and list content every
      chunk's items, the first chunk's counted twice as written and once otherwise. */
  lemma MergeFromRule(chunks: seq<Value>, seedFirst: bool)
    requires Opening(chunks).Some? && MergeFrom(Opening(chunks).value.1, chunks, seedFirst).Success?
    ensures var delta := Opening(chunks).value.1;
            var start := StartContent(delta);
            var m := MergeFrom(delta, chunks, seedFirst).value;
            ToolCalls([], AllItems(chunks)) == Success(m.slots) &&
            (start.Str? ==> m.content == Str((if seedFirst then TextOf(Obj(delta)) else "") + AllText(chunks))) &&
            (start.Arr? ==> m.content == Arr((if seedFirst then start.items else []) + AllPieces(chunks)))
  {
    var delta := Opening(chunks).value.1;
    var start := Merged(StartContent(delta), []);
    SeedIsFirstChunk(chunks);
    OpeningDelta(chunks);
    if seedFirst {
      MergeAllRule(start, chunks);
    } else {
      var first := SlotsStep(start, chunks[0]).value;
      var rest := chunks[1..];
      assert first.content == start.content;
      assert ToolCalls([], ChunkItems(chunks[0])) == Success(first.slots);
      MergeAllRule(first, rest);
      ToolCallsAppend([], ChunkItems(chunks[0]), AllItems(rest));
      ItemsCons(chunks, |chunks|);
      TextCons(chunks, |chunks|);
      PiecesCons(chunks, |chunks|);
      if start.content.Str? {
        assert "" + AllText(chunks) == AllText(chunks);
      }
      if start.content.Arr? {
        assert [] + AllPieces(chunks) == AllPieces(chunks);
      }
    }
  }

  /** As written: the merged content is the first chunk's content followed by the
      content of every chunk, the first one included. */
  lemma FoldContent(chunks: seq<Value>, now: int)
    requires Fold(chunks, now).Success? && Opening(chunks).Some?
    requires StartContent(Opening(chunks).value.1).Str?
    ensures MessageOf(Fold(chunks, now).value).Some?
    ensures Lookup(MessageOf(Fold(chunks, now).value).value, "content") ==
            Some(Str(TextOf(Obj(Opening(chunks).value.1)) + AllText(chunks)))
  {
    var delta := Opening(chunks).value.1;
    FoldMessage(chunks, now, true);
    MergeFromRule(chunks, true);
    MessageShape(delta, MergeFrom(delta, chunks, true).value, "content");
  }

  /** Intended: the merged content is the content of every chunk, each counted once:
      the concatenated text when the first delta's content is a string (or empty),
      and every chunk's items when it is a list. */
  lemma IntendedContent(chunks: seq<Value>, now: int)
    requires IntendedFold(chunks, now).Success? && Opening(chunks).Some?
    ensures MessageOf(IntendedFold(chunks, now).value).Some?
    ensures var start := StartContent(Opening(chunks).value.1);
            var content := Lookup(MessageOf(IntendedFold(chunks, now).value).value, "content");
            (start.Str? ==> content == Some(Str(AllText(chunks)))) &&
            (start.Arr? ==> content == Some(Arr(AllPieces(chunks))))
  {
    var delta := Opening(chunks).value.1;
    FoldMessage(chunks, now, false);
    var m := MergeFrom(delta, chunks, false).value;
    assert MessageOf(IntendedFold(chunks, now).value) == Some(FinalMessage(delta, m));
    MessageShape(delta, m, "content");
    MergeFromRule(chunks, false);
    assert [] + AllPieces(chunks) == AllPieces(chunks);
    assert "" + AllText(chunks) == AllText(chunks);
  }

  /** The reply's tool calls are the per-index merge of the fragments of all chunks,
      in order of first appearance; without fragments the delta's own entry stays. */
  lemma FoldToolCalls(chunks: seq<Value>, now: int, seedFirst: bool)
    requires FoldSeeded(chunks, now, seedFirst).Success? && Opening(chunks).Some?
    ensures MessageOf(FoldSeeded(chunks, now, seedFirst).value).Some?
    ensures var slots := ToolCalls([], AllItems(chunks));
            var msg := MessageOf(FoldSeeded(chunks, now, seedFirst).value).value;
            slots.Success? && DistinctSlots(slots.value) &&
            Indices(slots.value) == FirstAppearances([], AllItems(chunks)) &&
            Lookup(msg, "tool_calls") ==
              if slots.value == [] then Lookup(Opening(chunks).value.1, "tool_calls")
              else Some(Arr(SlotValues(slots.value)))
  {
    var delta := Opening(chunks).value.1;
    FoldMessage(chunks, now, seedFirst);
    MergeFromRule(chunks, seedFirst);
    MessageShape(delta, MergeFrom(delta, chunks, seedFirst).value, "tool_calls");
    FirstAppearanceOrder([], AllItems(chunks));
    assert Indices([]) == [];
  }

  /** The role is the first delta's role, or `assistant` when it has none. */
  lemma FoldRole(chunks: seq<Value>, now: int, seedFirst: bool)
    requires FoldSeeded(chunks, now, seedFirst).Success? && Opening(chunks).Some?
    ensures MessageOf(FoldSeeded(chunks, now, seedFirst).value).Some?
    ensures Lookup(MessageOf(FoldSeeded(chunks, now, seedFirst).value).value, "role") ==
            Some(Lookup(Opening(chunks).value.1, "role").GetOr(Str("assistant")))
  {
    var delta := Opening(chunks).value.1;
    FoldMessage(chunks, now, seedFirst);
    var m := MergeFrom(delta, chunks, seedFirst).value;
    MessageShape(delta, m, "role");
  }

  /** A first choice without `delta` leaves the reply as the marked copy of the first chunk. */
  lemma NoDeltaNoMerge(chunks: seq<Value>, now: int, seedFirst: bool)
    requires chunks != [] && chunks[0].Obj?
    requires Lookup(chunks[0].fields, "choices").Some? && Lookup(chunks[0].fields, "choices").value.Arr?
    requires var cs := Lookup(chunks[0].fields, "choices").value.items;
             cs != [] && cs[0].Obj? && !HasKey(cs[0].fields, "delta")
    ensures FoldSeeded(chunks, now, seedFirst) == Success(Obj(Base(chunks[0].fields, now)))
  {
    var first := chunks[0].fields;
    LookupSet(first, "object", Str("chat.completion"), "choices");
    LookupSet(Set(first, "object", Str("chat.completion")), "created", Num(now), "choices");
  }

  /** `{"choices": [{"delta": {"content": "a"}}]}`. */
  const OneA: Value := Obj([("choices", Arr([Obj([("delta", Obj([("content", Str("a"))]))])]))])

  /** A single chunk with content `a` comes back as `aa` from the router's fold and
      as `a` from the intended one. */
  lemma DoubledFirstContent(now: int)
    ensures Fold([OneA], now).Success? && IntendedFold([OneA], now).Success?
    ensures MessageOf(Fold([OneA], now).value).Some? && MessageOf(IntendedFold([OneA], now).value).Some?
    ensures Lookup(MessageOf(Fold([OneA], now).value).value, "content") == Some(Str("aa"))
    ensures Lookup(MessageOf(IntendedFold([OneA], now).value).value, "content") == Some(Str("a"))
  {
    var chunks := [OneA];
    var delta := [("content", Str("a"))];
    assert Opening(chunks) == Some(([("delta", Obj(delta))], delta));
    assert DeltaOf(OneA) == Success(Some(Obj(delta)));
    assert Lookup(delta, "content") == Some(Str("a"));
    assert "a" + "a" == "aa" && "" + "a" == "a";
    assert ContentAfter(Str("a"), Obj(delta)) == Success(Str("aa"));
    assert ToolsOf(Obj(delta)) == Success([]);
    assert ChunkStep(Merged(Str("a"), []), OneA) == Success(Merged(Str("aa"), []));
    assert SlotsStep(Merged(Str("a"), []), OneA) == Success(Merged(Str("a"), []));
    assert MergeFrom(delta, chunks, true) == Success(Merged(Str("aa"), []));
    assert MergeFrom(delta, chunks, false) == Success(Merged(Str("a"), []));
    FoldShape(chunks, now, true);
    FoldShape(chunks, now, false);
    MessageShape(delta, Merged(Str("aa"), []), "content");
    MessageShape(delta, Merged(Str("a"), []), "content");
  }

  /** A chunk whose delta content is the given value. */
  function ContentChunk(v: Value): Value {
    Obj([("choices", Arr([Obj([("delta", Obj([("content", v)]))])]))])
  }

  /** List content is extended, not concatenated: a first chunk with content
      `["x"]` and a second with `"ab"` merge to `["x", "x", "a", "b"]`, the first
      chunk counted twice and the string contributing its characters. */
  lemma ListContentExtends()
    ensures var chunks := [ContentChunk(Arr([Str("x")])), ContentChunk(Str("ab"))];
            Opening(chunks).Some? && StartContent(Opening(chunks).value.1) == Arr([Str("x")]) &&
            MergeAll(Merged(Arr([Str("x")]), []), chunks) == Success(Merged(Arr([Str("x"), Str("x"), Str("a"), Str("b")]), []))
  {
    var d1 := [("content", Arr([Str("x")]))];
    var d2 := [("content", Str("ab"))];
    var chunks := [ContentChunk(Arr([Str("x")])), ContentChunk(Str("ab"))];
    assert Opening(chunks) == Some(([("delta", Obj(d1))], d1));
    assert Lookup(d1, "content") == Some(Arr([Str("x")]));
    var start := Merged(Arr([Str("x")]), []);
    var mid := Merged(Arr([Str("x"), Str("x")]), []);
    var end := Merged(Arr([Str("x"), Str("x"), Str("a"), Str("b")]), []);
    ListContentStep(Arr([Str("x")]), start, mid);
    ListContentStep(Str("ab"), mid, end);
    assert FoldResult(ChunkStep, start, chunks, 1) == ChunkStep(start, chunks[0]);
  }

  /** Counting each chunk once, the same chunks merge to `["x", "a", "b"]`. */
  lemma ListContentOnce()
    ensures var chunks := [ContentChunk(Arr([Str("x")])), ContentChunk(Str("ab"))];
            Opening(chunks).Some? &&
            MergeFrom(Opening(chunks).value.1, chunks, false) == Success(Merged(Arr([Str("x"), Str("a"), Str("b")]), []))
  {
    var d1 := [("content", Arr([Str("x")]))];
    var chunks := [ContentChunk(Arr([Str("x")])), ContentChunk(Str("ab"))];
    assert Opening(chunks) == Some(([("delta", Obj(d1))], d1));
    assert Lookup(d1, "content") == Some(Arr([Str("x")]));
    var start := Merged(Arr([Str("x")]), []);
    assert DeltaOf(chunks[0]) == Success(Some(Obj(d1)));
    assert ToolsOf(Obj(d1)) == Success([]);
    assert SlotsStep(start, chunks[0]) == Success(start);
    ListContentStep(Str("ab"), start, Merged(Arr([Str("x"), Str("a"), Str("b")]), []));
    assert chunks[1..] == [ContentChunk(Str("ab"))];
    FoldResultOne(ChunkStep, start, ContentChunk(Str("ab")));
  }

  /** The `+=` steps of `ListContentExtends` and `ListContentOnce`. */
  lemma ListContentSteps()
    ensures ContentAfter(Arr([Str("x")]), Obj([("content", Arr([Str("x")]))])) == Success(Arr([Str("x"), Str("x")]))
    ensures ContentAfter(Arr([Str("x")]), Obj([("content", Str("ab"))])) == Success(Arr([Str("x"), Str("a"), Str("b")]))
    ensures ContentAfter(Arr([Str("x"), Str("x")]), Obj([("content", Str("ab"))])) ==
            Success(Arr([Str("x"), Str("x"), Str("a"), Str("b")]))
  {
    var d1 := [("content", Arr([Str("x")]))];
    var d2 := [("content", Str("ab"))];
    assert Lookup(d1, "content") == Some(Arr([Str("x")]));
    assert Lookup(d2, "content") == Some(Str("ab"));
    var pieces := Iterate(Str("ab")).value;
    assert "ab"[0] == 'a' && "ab"[1] == 'b';
    assert |pieces| == 2 && pieces[0] == Str("a") && pieces[1] == Str("b");
    assert pieces == [Str("a"), Str("b")];
    assert In("content", Obj(d1)) == Success(true) && Subscript(Obj(d1), "content") == Success(Arr([Str("x")]));
    assert In("content", Obj(d2)) == Success(true) && Subscript(Obj(d2), "content") == Success(Str("ab"));
    assert Truthy(Arr([Str("x")])) && Truthy(Str("ab"));
    assert [Str("x")] + [Str("x")] == [Str("x"), Str("x")];
    assert [Str("x"), Str("x")] + pieces == [Str("x"), Str("x"), Str("a"), Str("b")];
    assert PyIAdd(Arr([Str("x")]), Arr([Str("x")])) == Success(Arr([Str("x"), Str("x")]));
    assert PyIAdd(Arr([Str("x"), Str("x")]), Str("ab")) == Success(Arr([Str("x"), Str("x")] + pieces));
    assert [Str("x")] + pieces == [Str("x"), Str("a"), Str("b")];
    assert PyIAdd(Arr([Str("x")]), Str("ab")) == Success(Arr([Str("x")] + pieces));
  }

  /** One chunk of `ListContentExtends` or `ListContentOnce`. */
  lemma ListContentStep(v: Value, prev: Merged, next: Merged)
    requires (v == Arr([Str("x")]) && prev == Merged(Arr([Str("x")]), []) && next == Merged(Arr([Str("x"), Str("x")]), [])) ||
             (v == Str("ab") && prev == Merged(Arr([Str("x"), Str("x")]), []) && next == Merged(Arr([Str("x"), Str("x"), Str("a"), Str("b")]), [])) ||
             (v == Str("ab") && prev == Merged(Arr([Str("x")]), []) && next == Merged(Arr([Str("x"), Str("a"), Str("b")]), []))
    ensures ChunkStep(prev, ContentChunk(v)) == Success(next)
  {
    var d := [("content", v)];
    assert DeltaOf(ContentChunk(v)) == Success(Some(Obj(d)));
    ListContentSteps();
    assert ToolsOf(Obj(d)) == Success([]);
  }
}
