/**
 * The message translator of the API client: an OpenAI-style chat-message list is
 * turned into the backend's shape. Upstream error replies are dropped, a lone
 * user message is padded with a system message, the `tool` role becomes `user`,
 * tool blocks are kept structured with their ids repaired, any other content is
 * flattened to one string, and system text goes through the keyword rewrite.
 */
module ApiMessages {
  import opened Wrappers
  import opened Strings
  import opened Json
  import Keywords

  // ----- fresh ids -----

  predicate IsHexDigit(c: char) {
    ('0' <= c <= '9') || ('a' <= c <= 'f')
  }

  /** `uuid.uuid4().hex`: 32 lower-case hexadecimal digits. */
  type Hex32 = s: string | |s| == 32 && forall i | 0 <= i < |s| :: IsHexDigit(s[i])
    witness "0000000000000000" + "0000000000000000"

  /**
   * The supply of random ids. The draw made for block `b` of message `m` on
   * attempt `k` (0 for the first draw, 1 for the regeneration) is `ids(m, b, k)`.
   */
  type Uuids = (nat, nat, nat) -> Hex32

  /** The characters the backend accepts in a tool id: `[a-zA-Z0-9_-]`. */
  predicate IsIdChar(c: char) {
    IsAsciiAlnum(c) || c == '_' || c == '-'
  }

  predicate ValidId(s: string) {
    s != "" && forall i | 0 <= i < |s| :: IsIdChar(s[i])
  }

  /** `f"tool_{uuid.uuid4().hex[:8]}"`. */
  function ToolTag(h: Hex32): (t: string)
    ensures ValidId(t) && |t| == 13 && t[..5] == "tool_"
  {
    "tool_" + h[..8]
  }

  // ----- step 1: dropping upstream error replies -----

  /** An assistant message whose string content quotes an upstream API error. */
  predicate IsUpstreamError(m: Dict) {
    Lookup(m, "role") == Some(Str("assistant")) &&
    match Lookup(m, "content").GetOr(Str(""))
    case Str(c) => Occurs(c, "Error: API error") || Occurs(c, "API error:")
    case _ => false
  }

  function Filtered(ms: seq<Dict>): seq<Dict>
    decreases |ms|
  {
    if ms == [] then []
    else
      var last := ms[|ms| - 1];
      Filtered(ms[..|ms| - 1]) + (if IsUpstreamError(last) then [] else [last])
  }

  method FilterMessages(ms: seq<Dict>) returns (kept: seq<Dict>)
    ensures kept == Filtered(ms)
  {
    kept := [];
    for i := 0 to |ms|
      invariant kept == Filtered(ms[..i])
    {
      assert ms[..i + 1][..i] == ms[..i];
      if !IsUpstreamError(ms[i]) {
        kept := kept + [ms[i]];
      }
    }
    assert ms[..|ms|] == ms;
  }

  /** Filtering a concatenation filters each part, so the kept messages stay in order. */
  lemma {:induction false} FilteredAppend(a: seq<Dict>, b: seq<Dict>)
    ensures Filtered(a + b) == Filtered(a) + Filtered(b)
    decreases |b|
  {
    if b == [] {
      assert a + b == a;
    } else {
      var b' := b[..|b| - 1];
      assert (a + b)[..|a + b| - 1] == a + b';
      FilteredAppend(a, b');
    }
  }

  /** A message survives exactly when it is not an upstream error reply. */
  lemma {:induction false} FilteredMembers(ms: seq<Dict>, m: Dict)
    ensures m in Filtered(ms) <==> m in ms && !IsUpstreamError(m)
    decreases |ms|
  {
    if ms != [] {
      var init := ms[..|ms| - 1];
      FilteredMembers(init, m);
      assert ms == init + [ms[|ms| - 1]];
    }
  }

  /** With no error replies in the list, nothing is dropped. */
  lemma {:induction false} FilteredKeepsClean(ms: seq<Dict>)
    requires forall i | 0 <= i < |ms| :: !IsUpstreamError(ms[i])
    ensures Filtered(ms) == ms
    decreases |ms|
  {
    if ms != [] {
      FilteredKeepsClean(ms[..|ms| - 1]);
      assert ms[..|ms| - 1] + [ms[|ms| - 1]] == ms;
    }
  }

  // ----- step 2: padding -----

  const SystemPad: Dict := [("role", Str("system")), ("content", Str("You are a helpful assistant."))]

  predicate NeedsPad(f: seq<Dict>) {
    |f| == 1 && Lookup(f[0], "role") == Some(Str("user"))
  }

  // ----- step 3: one message -----

  /** `msg.get("role", "user")`, with `tool` mapped to `user`. */
  function RoleOf(m: Dict): Value {
    var r := Lookup(m, "role").GetOr(Str("user"));
    if r == Str("tool") then Str("user") else r
  }

  /** A string that looks like a serialised list of objects is replaced by the list it parses to. */
  function Unstringify(codec: Codec, c: Value): Value {
    if c.Str? && StartsWith(c.s, "[{") && EndsWith(c.s, "}]") then
      match codec.loads(c.s)
      case Some(Arr(items)) => Arr(items)
      case _ => c
    else c
  }

  function ContentOf(codec: Codec, m: Dict): Value {
    Unstringify(codec, Lookup(m, "content").GetOr(Str("")))
  }

  predicate IsToolBlock(item: Value) {
    item.Obj? &&
    var t := Lookup(item.fields, "type");
    t == Some(Str("tool_result")) || t == Some(Str("tool_use"))
  }

  /** Content is kept structured when it is a list holding a tool block. */
  predicate HasToolContent(c: Value) {
    c.Arr? && exists i | 0 <= i < |c.items| :: IsToolBlock(c.items[i])
  }

  method DetectToolContent(items: seq<Value>) returns (has: bool)
    ensures has <==> exists i | 0 <= i < |items| :: IsToolBlock(items[i])
  {
    has := false;
    for i := 0 to |items|
      invariant !has
      invariant forall j | 0 <= j < i :: !IsToolBlock(items[j])
    {
      if IsToolBlock(items[i]) {
        has := true;
        break;
      }
    }
  }

  // ----- structured content -----

  /** `item.get("toolUseId") or item.get("tool_use_id") or item.get("id")`. */
  function RawToolUseId(d: Dict): Value {
    PyOr(PyOr(Lookup(d, "toolUseId").GetOr(Null), Lookup(d, "tool_use_id").GetOr(Null)),
         Lookup(d, "id").GetOr(Null))
  }

  /** `s.isalnum()` on a whole string. */
  predicate PyIsAlnum(s: string) {
    s != "" && forall i | 0 <= i < |s| :: IsAsciiAlnum(s[i])
  }

  /** `all(c.isalnum() or c in '_-' for c in xs)`, stopping at the first false piece. */
  function AllIdPieces(xs: seq<Value>): Result<bool, Fault>
    decreases |xs|
  {
    if xs == [] then Success(true)
    else
      match xs[0]
      case Str(c) => if PyIsAlnum(c) || Occurs("_-", c) then AllIdPieces(xs[1..]) else Success(false)
      case _ => Failure(AttributeError)
  }

  function IdCharsOk(id: Value): Result<bool, Fault> {
    match Iterate(id)
    case Failure(e) => Failure(e)
    case Success(xs) => AllIdPieces(xs)
  }

  /** The id a `tool_result` block leaves with: generated when missing, regenerated when it fails the check. */
  function ToolResultId(d: Dict, first: Hex32, second: Hex32): Result<Value, Fault> {
    var raw := RawToolUseId(d);
    var id := if Truthy(raw) then raw else Str(ToolTag(first));
    if !Truthy(id) then Success(Str(ToolTag(second)))
    else
      match IdCharsOk(id)
      case Failure(e) => Failure(e)
      case Success(ok) => Success(if ok then id else Str(ToolTag(second)))
  }

  /** One block of structured content, the block being item `b` of message `m`. */
  function ProcessBlock(item: Value, m: nat, b: nat, ids: Uuids): Result<Value, Fault> {
    match item
    case Obj(d) =>
      var t := Lookup(d, "type");
      if t == Some(Str("tool_result")) then
        match ToolResultId(d, ids(m, b, 0), ids(m, b, 1))
        case Failure(e) => Failure(e)
        case Success(id) =>
          Success(Obj([("type", Str("tool_result")), ("toolUseId", id),
                       ("content", Lookup(d, "content").GetOr(Lookup(d, "text").GetOr(Str(""))))]))
      else if t == Some(Str("tool_use")) then
        Success(Obj([("type", Str("tool_use")),
                     ("id", PyOr(Lookup(d, "id").GetOr(Null), Str(ToolTag(ids(m, b, 0))))),
                     ("name", Lookup(d, "name").GetOr(Str(""))),
                     ("input", Lookup(d, "input").GetOr(Obj([])))]))
      else if t == Some(Str("text")) then
        Success(item)
      else if HasKey(d, "text") && !Truthy(t.GetOr(Null)) then
        Success(Obj([("type", Str("tool_result")), ("toolUseId", Str(ToolTag(ids(m, b, 0)))),
                     ("content", Lookup(d, "text").GetOr(Str("")))]))
      else
        Success(item)
    case _ => Success(item)
  }

  /** Processing the blocks of one message in order; the first failure ends it. */
  function ProcessStep(m: nat, ids: Uuids): (nat, Value) -> Result<Value, Fault> {
    (b: nat, item: Value) => ProcessBlock(item, m, b, ids)
  }

  method ProcessContent(items: seq<Value>, m: nat, ids: Uuids) returns (r: Result<seq<Value>, Fault>)
    ensures r == TryMap(ProcessStep(m, ids), items, |items|)
  {
    var processed: seq<Value> := [];
    for i := 0 to |items|
      invariant TryMap(ProcessStep(m, ids), items, i) == Success(processed)
    {
      var blk := ProcessBlock(items[i], m, i, ids);
      if blk.Failure? {
        TryMapFailureSticks(ProcessStep(m, ids), items, i + 1, |items|);
        return Failure(blk.error);
      }
      TryMapSnoc(ProcessStep(m, ids), items, i, processed, blk.value);
      processed := processed + [blk.value];
    }
    return Success(processed);
  }

  // ----- flattened content -----

  /** One item of a list that is flattened to text. */
  function FlattenPart(codec: Codec, item: Value): Value {
    match item
    case Obj(d) =>
      if Lookup(d, "type") == Some(Str("text")) then Lookup(d, "text").GetOr(Str(""))
      else Str(codec.dumps(item))
    case Str(_) => item
    case _ => Str(PyStr(codec, item))
  }

  method FlattenParts(codec: Codec, items: seq<Value>) returns (parts: seq<Value>)
    ensures |parts| == |items|
    ensures forall i | 0 <= i < |items| :: parts[i] == FlattenPart(codec, items[i])
  {
    parts := [];
    for i := 0 to |items|
      invariant |parts| == i
      invariant forall j | 0 <= j < i :: parts[j] == FlattenPart(codec, items[j])
    {
      parts := parts + [FlattenPart(codec, items[i])];
    }
  }

  function Strs(parts: seq<Value>): seq<string>
    requires forall i | 0 <= i < |parts| :: parts[i].Str?
  {
    seq(|parts|, i requires 0 <= i < |parts| => parts[i].s)
  }

  /** `"".join(parts)`: a TypeError as soon as one part is not a string. */
  function JoinParts(parts: seq<Value>): Result<string, Fault> {
    if forall i | 0 <= i < |parts| :: parts[i].Str? then Success(Concat(Strs(parts)))
    else Failure(TypeError)
  }

  /** The single string that non-structured content becomes, before any rewrite. */
  function TextContent(codec: Codec, content: Value): Result<string, Fault> {
    match content
    case Str(s) => Success(s)
    case Arr(items) => JoinParts(seq(|items|, i requires 0 <= i < |items| => FlattenPart(codec, items[i])))
    case Null => Success("")
    case _ => Success(PyStr(codec, content))
  }

  /** The rewrite applies to non-empty text of role `system` only. */
  function SystemText(role: Value, t: string): string {
    if role == Str("system") && t != "" then Keywords.Rewrite(t) else t
  }

  /** The backend message built from filtered message number `m`. */
  function ConvertOne(codec: Codec, ids: Uuids, m: nat, msg: Dict): Result<Dict, Fault> {
    var role := RoleOf(msg);
    var content := ContentOf(codec, msg);
    if HasToolContent(content) then
      match TryMap(ProcessStep(m, ids), content.items, |content.items|)
      case Failure(e) => Failure(e)
      case Success(blocks) => Success([("role", role), ("content", Arr(blocks))])
    else
      match TextContent(codec, content)
      case Failure(e) => Failure(e)
      case Success(t) => Success([("role", role), ("content", Str(SystemText(role, t)))])
  }

  method ConvertMessage(codec: Codec, ids: Uuids, m: nat, msg: Dict) returns (r: Result<Dict, Fault>)
    ensures r == ConvertOne(codec, ids, m, msg)
  {
    var role := Lookup(msg, "role").GetOr(Str("user"));
    var content := Lookup(msg, "content").GetOr(Str(""));
    if role == Str("tool") {
      role := Str("user");
    }
    if content.Str? && StartsWith(content.s, "[{") && EndsWith(content.s, "}]") {
      var parsed := codec.loads(content.s);
      if parsed.Some? && parsed.value.Arr? {
        content := parsed.value;
      }
    }
    var hasToolContent := false;
    if content.Arr? {
      hasToolContent := DetectToolContent(content.items);
    }
    if hasToolContent {
      var processed := ProcessContent(content.items, m, ids);
      if processed.Failure? {
        return Failure(processed.error);
      }
      return Success([("role", role), ("content", Arr(processed.value))]);
    }
    var text: string;
    match content {
      case Str(s) =>
        text := s;
      case Arr(items) =>
        var parts := FlattenParts(codec, items);
        assert parts == seq(|items|, i requires 0 <= i < |items| => FlattenPart(codec, items[i]));
        var joined := JoinParts(parts);
        if joined.Failure? {
          return Failure(joined.error);
        }
        text := joined.value;
      case Null =>
        text := "";
      case _ =>
        text := PyStr(codec, content);
    }
    if role == Str("system") && text != "" {
      text := Keywords.Rewrite(text);
    }
    return Success([("role", role), ("content", Str(text))]);
  }

  // ----- the whole list -----

  /** Converting the filtered messages in order; the first failure ends it. */
  function ConvertStep(codec: Codec, ids: Uuids): (nat, Dict) -> Result<Dict, Fault> {
    (m: nat, msg: Dict) => ConvertOne(codec, ids, m, msg)
  }

  predicate EachConverts(codec: Codec, ids: Uuids, f: seq<Dict>) {
    forall i: nat | i < |f| :: ConvertOne(codec, ids, i, f[i]).Success?
  }

  /** `convert_openai_to_codebuddy_messages`. */
  function Convert(codec: Codec, ids: Uuids, ms: seq<Dict>): Result<seq<Dict>, Fault> {
    var f := Filtered(ms);
    var pad := if NeedsPad(f) then [SystemPad] else [];
    match TryMap(ConvertStep(codec, ids), f, |f|)
    case Failure(e) => Failure(e)
    case Success(out) => Success(pad + out)
  }

  method ConvertMessages(codec: Codec, ids: Uuids, ms: seq<Dict>) returns (r: Result<seq<Dict>, Fault>)
    ensures r == Convert(codec, ids, ms)
  {
    var filtered := FilterMessages(ms);
    var pad: seq<Dict> := [];
    if |filtered| == 1 && Lookup(filtered[0], "role") == Some(Str("user")) {
      pad := [SystemPad];
    }
    var converted := ConvertAll(codec, ids, filtered);
    if converted.Failure? {
      return Failure(converted.error);
    }
    return Success(pad + converted.value);
  }

  /** The loop over the filtered messages, stopping at the first failure. */
  method ConvertAll(codec: Codec, ids: Uuids, f: seq<Dict>) returns (r: Result<seq<Dict>, Fault>)
    ensures r == TryMap(ConvertStep(codec, ids), f, |f|)
  {
    var converted: seq<Dict> := [];
    for i := 0 to |f|
      invariant TryMap(ConvertStep(codec, ids), f, i) == Success(converted)
    {
      var msg := ConvertMessage(codec, ids, i, f[i]);
      assert ConvertStep(codec, ids)(i, f[i]) == msg;
      if msg.Failure? {
        TryMapFailureSticks(ConvertStep(codec, ids), f, i + 1, |f|);
        return Failure(msg.error);
      }
      TryMapSnoc(ConvertStep(codec, ids), f, i, converted, msg.value);
      converted := converted + [msg.value];
    }
    return Success(converted);
  }

  // ----- properties of the translation -----

  /**
   * The output is the padding (when the filtered list is one user message)
   * followed by one converted message per kept message, in order; the
   * translation fails exactly when one of the messages fails.
   */
  lemma ConvertShape(codec: Codec, ids: Uuids, ms: seq<Dict>)
    ensures Convert(codec, ids, ms).Success? <==> EachConverts(codec, ids, Filtered(ms))
    ensures var f := Filtered(ms);
            var pad := if NeedsPad(f) then 1 else 0;
            var r := Convert(codec, ids, ms);
            r.Success? ==>
              |r.value| == |f| + pad &&
              (NeedsPad(f) ==> r.value[0] == SystemPad) &&
              forall i | 0 <= i < |f| :: r.value[pad + i] == ConvertOne(codec, ids, i, f[i]).value
  {
    var f := Filtered(ms);
    TryMapAt(ConvertStep(codec, ids), f, |f|);
    assert Convert(codec, ids, ms).Success? <==> TryMap(ConvertStep(codec, ids), f, |f|).Success?;
  }

  /** Every converted message carries the mapped role and a content field. */
  lemma ConvertOneRole(codec: Codec, ids: Uuids, m: nat, msg: Dict)
    requires ConvertOne(codec, ids, m, msg).Success?
    ensures var out := ConvertOne(codec, ids, m, msg).value;
            Keys(out) == ["role", "content"] && Lookup(out, "role") == Some(RoleOf(msg))
    ensures Lookup(msg, "role") == Some(Str("tool")) || !HasKey(msg, "role") ==> RoleOf(msg) == Str("user")
    ensures HasKey(msg, "role") && Lookup(msg, "role") != Some(Str("tool")) ==> RoleOf(msg) == Lookup(msg, "role").value
  {
  }

  /** Structured content keeps one output block per input block. */
  lemma StructuredKeepsLength(codec: Codec, ids: Uuids, m: nat, msg: Dict)
    requires HasToolContent(ContentOf(codec, msg))
    requires ConvertOne(codec, ids, m, msg).Success?
    ensures var items := ContentOf(codec, msg).items;
            var content := Lookup(ConvertOne(codec, ids, m, msg).value, "content");
            content.Some? && content.value.Arr? && |content.value.items| == |items| &&
            forall i | 0 <= i < |items| ::
              ProcessBlock(items[i], m, i, ids).Success? && content.value.items[i] == ProcessBlock(items[i], m, i, ids).value
  {
    var items := ContentOf(codec, msg).items;
    TryMapAt(ProcessStep(m, ids), items, |items|);
  }

  /** The single-character pieces of a string pass the id check exactly when every character is an id character. */
  lemma {:induction false} SinglePiecesCheck(s: string)
    ensures AllIdPieces(seq(|s|, i requires 0 <= i < |s| => Str([s[i]]))) == Success(forall i | 0 <= i < |s| :: IsIdChar(s[i]))
    decreases |s|
  {
    var xs := seq(|s|, i requires 0 <= i < |s| => Str([s[i]]));
    if s != [] {
      SinglePiecesCheck(s[1..]);
      assert xs[1..] == seq(|s[1..]|, i requires 0 <= i < |s[1..]| => Str([s[1..][i]]));
      var c := s[0];
      assert Occurs("_-", [c]) <==> c == '_' || c == '-' by {
        if c == '_' { assert OccursAt("_-", [c], 0); }
        if c == '-' { assert OccursAt("_-", [c], 1); }
        if Occurs("_-", [c]) {
          var k :| 0 <= k <= 1 && OccursAt("_-", [c], k);
          assert "_-"[k..k + 1][0] == "_-"[k];
        }
      }
      assert [c][0] == c;
      assert PyIsAlnum([c]) <==> IsAsciiAlnum(c);
      if IsIdChar(c) && (forall i | 0 <= i < |s[1..]| :: IsIdChar(s[1..][i])) {
        forall i | 0 <= i < |s| ensures IsIdChar(s[i]) {
          if i > 0 { assert s[i] == s[1..][i - 1]; }
        }
      }
    }
  }

  /**
   * A `tool_result` whose id fields give a string or nothing leaves with a
   * non-empty id of `[a-zA-Z0-9_-]` characters; a valid string id is kept.
   */
  lemma ToolResultIdValid(d: Dict, first: Hex32, second: Hex32)
    requires RawToolUseId(d).Str? || !Truthy(RawToolUseId(d))
    ensures var r := ToolResultId(d, first, second);
            r.Success? && r.value.Str? && ValidId(r.value.s)
    ensures var raw := RawToolUseId(d);
            raw.Str? && ValidId(raw.s) ==> ToolResultId(d, first, second) == Success(raw)
  {
    var raw := RawToolUseId(d);
    var id := if Truthy(raw) then raw else Str(ToolTag(first));
    SinglePiecesCheck(id.s);
  }

  /** Pieces that are all alphanumeric strings pass the id check. */
  lemma {:induction false} AlnumPiecesPass(xs: seq<Value>)
    requires forall i | 0 <= i < |xs| :: xs[i].Str? && PyIsAlnum(xs[i].s)
    ensures AllIdPieces(xs) == Success(true)
    decreases |xs|
  {
    if xs != [] {
      assert xs[0].Str? && PyIsAlnum(xs[0].s);
      forall i | 0 <= i < |xs[1..]| ensures xs[1..][i].Str? && PyIsAlnum(xs[1..][i].s) {
        assert xs[1..][i] == xs[i + 1];
      }
      AlnumPiecesPass(xs[1..]);
    }
  }

  /**
   * An id that is truthy but not a string is not turned into one: a number or a
   * boolean cannot be iterated and raises a TypeError; a list whose items are
   * alphanumeric strings, or a dict whose keys are, passes the check and is sent
   * on as it is; a list that starts with a non-string raises an AttributeError.
   */
  lemma ToolResultIdNonString(d: Dict, first: Hex32, second: Hex32)
    requires Truthy(RawToolUseId(d)) && !RawToolUseId(d).Str?
    ensures var raw := RawToolUseId(d);
            !raw.Arr? && !raw.Obj? ==> ToolResultId(d, first, second) == Failure(TypeError)
    ensures var raw := RawToolUseId(d);
            raw.Arr? && (forall i | 0 <= i < |raw.items| :: raw.items[i].Str? && PyIsAlnum(raw.items[i].s)) ==>
              ToolResultId(d, first, second) == Success(raw)
    ensures var raw := RawToolUseId(d);
            raw.Obj? && (forall i | 0 <= i < |raw.fields| :: PyIsAlnum(raw.fields[i].0)) ==>
              ToolResultId(d, first, second) == Success(raw)
    ensures var raw := RawToolUseId(d);
            raw.Arr? && !raw.items[0].Str? ==> ToolResultId(d, first, second) == Failure(AttributeError)
    ensures var r := ToolResultId(d, first, second);
            r.Success? ==> r.value == RawToolUseId(d) || r.value == Str(ToolTag(second))
  {
    var raw := RawToolUseId(d);
    if raw.Arr? && (forall i | 0 <= i < |raw.items| :: raw.items[i].Str? && PyIsAlnum(raw.items[i].s)) {
      AlnumPiecesPass(raw.items);
    }
    if raw.Obj? && (forall i | 0 <= i < |raw.fields| :: PyIsAlnum(raw.fields[i].0)) {
      var keys := Iterate(raw).value;
      forall i | 0 <= i < |keys| ensures keys[i].Str? && PyIsAlnum(keys[i].s) {
        assert keys[i] == Str(raw.fields[i].0);
      }
      AlnumPiecesPass(keys);
    }
  }

  /**
   * The id a `tool_result` block is meant to leave with: a given string id in the
   * id alphabet is kept, anything else is replaced by a generated one, so the id
   * always matches `[a-zA-Z0-9_-]+`.
   */
  function IntendedToolResultId(d: Dict, first: Hex32, second: Hex32): (r: string)
    ensures ValidId(r)
    ensures RawToolUseId(d).Str? && ValidId(RawToolUseId(d).s) ==> r == RawToolUseId(d).s
    ensures !(RawToolUseId(d).Str? && ValidId(RawToolUseId(d).s)) ==> r == ToolTag(first) || r == ToolTag(second)
  {
    var raw := RawToolUseId(d);
    if !Truthy(raw) then ToolTag(first)
    else if raw.Str? && ValidId(raw.s) then raw.s
    else ToolTag(second)
  }

  /** On string and missing ids the router's check already gives the intended id;
      it differs only where the id fields hold something other than a string. */
  lemma IntendedIdAgrees(d: Dict, first: Hex32, second: Hex32)
    requires RawToolUseId(d).Str? || !Truthy(RawToolUseId(d))
    ensures ToolResultId(d, first, second) == Success(Str(IntendedToolResultId(d, first, second)))
  {
    var raw := RawToolUseId(d);
    var id := if Truthy(raw) then raw else Str(ToolTag(first));
    SinglePiecesCheck(id.s);
  }

  /** A list id `["ab"]` is sent on as a list, where the intended id is a fresh string. */
  lemma ListIdSentAsList(first: Hex32, second: Hex32)
    ensures var d := [("toolUseId", Arr([Str("ab")]))];
            ToolResultId(d, first, second) == Success(Arr([Str("ab")])) &&
            IntendedToolResultId(d, first, second) == ToolTag(second)
  {
    var d := [("toolUseId", Arr([Str("ab")]))];
    assert RawToolUseId(d) == Arr([Str("ab")]);
    assert PyIsAlnum("ab") by {
      assert "ab"[0] == 'a' && "ab"[1] == 'b';
    }
    AlnumPiecesPass([Str("ab")]);
  }

  /** Every `tool_use` block leaves with a truthy id, and a truthy id it had is kept. */
  lemma ToolUseIdKept(d: Dict, m: nat, b: nat, ids: Uuids)
    requires Lookup(d, "type") == Some(Str("tool_use"))
    ensures var r := ProcessBlock(Obj(d), m, b, ids);
            r.Success? && r.value.Obj? && Lookup(r.value.fields, "type") == Some(Str("tool_use")) &&
            var id := Lookup(r.value.fields, "id");
            id.Some? && Truthy(id.value) &&
            (Lookup(d, "id").Some? && Truthy(Lookup(d, "id").value) ==> id == Lookup(d, "id"))
  {
  }

  /** A block with `text` and a missing or falsy `type` becomes a `tool_result` holding that text under a fresh id. */
  lemma UntypedTextBecomesToolResult(d: Dict, m: nat, b: nat, ids: Uuids)
    requires HasKey(d, "text") && !Truthy(Lookup(d, "type").GetOr(Null))
    ensures ProcessBlock(Obj(d), m, b, ids) ==
            Success(Obj([("type", Str("tool_result")), ("toolUseId", Str(ToolTag(ids(m, b, 0)))),
                         ("content", Lookup(d, "text").value)]))
  {
  }

  /** Text blocks and items that are not dicts pass through untouched. */
  lemma OtherBlocksUntouched(item: Value, m: nat, b: nat, ids: Uuids)
    requires !item.Obj? || Lookup(item.fields, "type") == Some(Str("text"))
    ensures ProcessBlock(item, m, b, ids) == Success(item)
  {
  }

  /** A list of plain strings and text parts flattens to their concatenation in order. */
  lemma {:induction false} FlattenStrings(codec: Codec, items: seq<Value>)
    requires forall i | 0 <= i < |items| :: items[i].Str?
    ensures TextContent(codec, Arr(items)) == Success(Concat(Strs(items)))
  {
    var parts := seq(|items|, i requires 0 <= i < |items| => FlattenPart(codec, items[i]));
    assert parts == items;
  }

  /** Flattening fails exactly when some text part's `text` is not a string. */
  lemma FlattenFails(codec: Codec, items: seq<Value>)
    ensures TextContent(codec, Arr(items)).Failure? <==>
            exists i | 0 <= i < |items| :: !FlattenPart(codec, items[i]).Str?
  {
    var parts := seq(|items|, i requires 0 <= i < |items| => FlattenPart(codec, items[i]));
    if exists i | 0 <= i < |items| :: !FlattenPart(codec, items[i]).Str? {
      var i :| 0 <= i < |items| && !FlattenPart(codec, items[i]).Str?;
      assert !parts[i].Str?;
    }
  }

  /**
   * Flattened content is rewritten only for role `system`; the system text that
   * results names neither "Claude" nor "Anthropic".
   */
  lemma FlatTextRewriteRule(codec: Codec, ids: Uuids, m: nat, msg: Dict)
    requires !HasToolContent(ContentOf(codec, msg))
    requires TextContent(codec, ContentOf(codec, msg)).Success?
    ensures var t := TextContent(codec, ContentOf(codec, msg)).value;
            var out := ConvertOne(codec, ids, m, msg);
            out.Success? &&
            (RoleOf(msg) != Str("system") ==> Lookup(out.value, "content") == Some(Str(t))) &&
            (RoleOf(msg) == Str("system") ==>
               Lookup(out.value, "content") == Some(Str(Keywords.Rewrite(t))) &&
               !Occurs(Keywords.Rewrite(t), Keywords.Claude) &&
               !Occurs(Keywords.Rewrite(t), Keywords.Anthropic))
  {
    var t := TextContent(codec, ContentOf(codec, msg)).value;
    Keywords.RewriteRemovesNames(t);
    if t == "" {
      assert Keywords.Rewrite(t) == t by {
        Keywords.RewriteUnchanged(t);
      }
    }
  }

  /** Messages whose content is missing, null or an ordinary string always translate. */
  lemma PlainMessagesConvert(codec: Codec, ids: Uuids, ms: seq<Dict>)
    requires forall i | 0 <= i < |ms| ::
               var c := Lookup(ms[i], "content");
               c == None || c == Some(Null) ||
               (c.value.Str? && !(StartsWith(c.value.s, "[{") && EndsWith(c.value.s, "}]")))
    ensures Convert(codec, ids, ms).Success?
  {
    var f := Filtered(ms);
    forall i | 0 <= i < |f| ensures ConvertOne(codec, ids, i, f[i]).Success? {
      assert f[i] in f;
      FilteredMembers(ms, f[i]);
    }
    ConvertShape(codec, ids, ms);
  }
}
