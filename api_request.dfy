/**
 * What the API client sends: the header set built by
 * `generate_codebuddy_headers` and the request body assembled in
 * `chat_completions`, together with the check that a bearer token is present.
 */
module ApiRequest {
  import opened Wrappers
  import opened Strings
  import opened Json
  import ApiMessages

  // ----- headers -----

  /**
   * The random values the header builder falls back on: `str(uuid4())` for the
   * conversation, `secrets.token_hex(16)` for the conversation request, and two
   * further `str(uuid4())` draws for the message and request ids.
   */
  datatype FreshIds = FreshIds(conversation: string, conversationRequest: string, message: string, request: string)

  /** Python's `given or fallback` for an optional string. */
  function OrElse(given: Option<string>, fallback: string): (r: string)
    ensures given.Some? && given.value != "" ==> r == given.value
    ensures given.None? || given.value == "" ==> r == fallback
  {
    if given.Some? && given.value != "" then given.value else fallback
  }

  const DefaultUserId := "b5be3a67-237e-" + "4ee6-9b9a-0b9ecd7b454b"

  type HeaderList = seq<(string, string)>

  /** The values sent, in the order of `HeaderNames`. */
  function HeaderValues(token: string, userId: Option<string>, conversationId: Option<string>,
                        conversationRequestId: Option<string>, conversationMessageId: Option<string>,
                        requestId: Option<string>, drawn: FreshIds): seq<string>
  {
    [ "www.codebuddy.ai", "application/json", "application/json", "XMLHttpRequest", "x64", "js",
      "Windows", "5.10.1", "0", "node", "v22.13.1",
      OrElse(conversationId, drawn.conversation),
      OrElse(conversationRequestId, drawn.conversationRequest),
      OrElse(conversationMessageId, Replace(drawn.message, "-", "")),
      OrElse(requestId, Replace(drawn.request, "-", "")),
      "craft", "CLI", "CLI", "1.0.7",
      "Bearer " + token,
      "www.codebuddy.ai", "CLI/1.0.7 CodeBuddy/1.0.7", "SaaS",
      OrElse(userId, DefaultUserId) ]
  }

  /** `generate_codebuddy_headers`: each name paired with its value. */
  function Headers(token: string, userId: Option<string>, conversationId: Option<string>,
                   conversationRequestId: Option<string>, conversationMessageId: Option<string>,
                   requestId: Option<string>, drawn: FreshIds): HeaderList
  {
    var values := HeaderValues(token, userId, conversationId, conversationRequestId, conversationMessageId, requestId, drawn);
    seq(24, i requires 0 <= i < 24 => (HeaderNames[i], values[i]))
  }

  const HeaderNames := [
    "Host", "Accept", "Content-Type", "X-Requested-With", "x-stainless-arch", "x-stainless-lang",
    "x-stainless-os", "x-stainless-package-version", "x-stainless-retry-count", "x-stainless-runtime",
    "x-stainless-runtime-version", "X-Conversation-ID", "X-Conversation-Request-ID",
    "X-Conversation-Message-ID", "X-Request-ID", "X-Agent-Intent", "X-IDE-Type", "X-IDE-Name",
    "X-IDE-Version", "Authorization", "X-Domain", "User-Agent", "X-Product", "X-User-Id"]

  lemma NamesDistinct()
    ensures forall i, j | 0 <= i < j < |HeaderNames| :: HeaderNames[i] != HeaderNames[j]
  {
  }

  /** `Header(h, name)`: the value sent under `name`. */
  function Header(h: HeaderList, name: string): Option<string>
    decreases |h|
  {
    if h == [] then None
    else if h[0].0 == name then Some(h[0].1)
    else Header(h[1..], name)
  }

  /** Removing every dash from a draw leaves no dash behind. */
  lemma DashFree(s: string)
    ensures !Occurs(Replace(s, "-", ""), "-")
  {
    assert Compatible("-", "") by {
      assert !Occurs("", "-");
    }
    ReplaceLeavesAbsent(s, "-", "", "-");
  }

  /** The value under the first occurrence of a header name. */
  lemma {:induction false} HeaderAt(h: HeaderList, i: nat)
    requires i < |h| && forall j | 0 <= j < i :: h[j].0 != h[i].0
    ensures Header(h, h[i].0) == Some(h[i].1)
    decreases i
  {
    if i > 0 {
      HeaderAt(h[1..], i - 1);
    }
  }

  /**
   * The header set: `Authorization` is exactly "Bearer " followed by the
   * token; ids the caller supplies (non-empty) are used verbatim, and the
   * dash-less fallbacks contain no dash; the user id falls back to a fixed
   * default.
   */
  lemma HeadersSpec(token: string, userId: Option<string>, conversationId: Option<string>,
                    conversationRequestId: Option<string>, conversationMessageId: Option<string>,
                    requestId: Option<string>, drawn: FreshIds)
    ensures var h := Headers(token, userId, conversationId, conversationRequestId, conversationMessageId, requestId, drawn);
            |h| == 24 && (forall i | 0 <= i < 24 :: h[i].0 == HeaderNames[i]) &&
            (forall i, j | 0 <= i < j < 24 :: HeaderNames[i] != HeaderNames[j]) &&
            Header(h, "Authorization") == Some("Bearer " + token) &&
            Header(h, "X-Conversation-ID") == Some(OrElse(conversationId, drawn.conversation)) &&
            Header(h, "X-Conversation-Request-ID") == Some(OrElse(conversationRequestId, drawn.conversationRequest)) &&
            Header(h, "X-Conversation-Message-ID") == Some(OrElse(conversationMessageId, Replace(drawn.message, "-", ""))) &&
            Header(h, "X-Request-ID") == Some(OrElse(requestId, Replace(drawn.request, "-", ""))) &&
            Header(h, "X-User-Id") == Some(OrElse(userId, DefaultUserId))
    ensures !Occurs(Replace(drawn.message, "-", ""), "-") && !Occurs(Replace(drawn.request, "-", ""), "-")
  {
    var h := Headers(token, userId, conversationId, conversationRequestId, conversationMessageId, requestId, drawn);
    NamesDistinct();
    assert forall i | 0 <= i < 24 :: h[i].0 == HeaderNames[i];
    HeaderAt(h, 11);
    HeaderAt(h, 12);
    HeaderAt(h, 13);
    HeaderAt(h, 14);
    HeaderAt(h, 19);
    HeaderAt(h, 23);
    DashFree(drawn.message);
    DashFree(drawn.request);
  }

  /** The headers that do not depend on the call: host, content types, client
      fingerprint, agent intent, IDE identity, domain, user agent and product. */
  lemma FixedHeaders(token: string, userId: Option<string>, conversationId: Option<string>,
                     conversationRequestId: Option<string>, conversationMessageId: Option<string>,
                     requestId: Option<string>, drawn: FreshIds)
    ensures var h := Headers(token, userId, conversationId, conversationRequestId, conversationMessageId, requestId, drawn);
            Header(h, "Host") == Some("www.codebuddy.ai") &&
            Header(h, "Accept") == Some("application/json") &&
            Header(h, "Content-Type") == Some("application/json") &&
            Header(h, "X-Requested-With") == Some("XMLHttpRequest") &&
            Header(h, "x-stainless-arch") == Some("x64") &&
            Header(h, "x-stainless-lang") == Some("js") &&
            Header(h, "x-stainless-os") == Some("Windows") &&
            Header(h, "x-stainless-package-version") == Some("5.10.1") &&
            Header(h, "x-stainless-retry-count") == Some("0") &&
            Header(h, "x-stainless-runtime") == Some("node") &&
            Header(h, "x-stainless-runtime-version") == Some("v22.13.1") &&
            Header(h, "X-Agent-Intent") == Some("craft") &&
            Header(h, "X-IDE-Type") == Some("CLI") &&
            Header(h, "X-IDE-Name") == Some("CLI") &&
            Header(h, "X-IDE-Version") == Some("1.0.7") &&
            Header(h, "X-Domain") == Some("www.codebuddy.ai") &&
            Header(h, "User-Agent") == Some("CLI/1.0.7 CodeBuddy/1.0.7") &&
            Header(h, "X-Product") == Some("SaaS")
  {
    var h := Headers(token, userId, conversationId, conversationRequestId, conversationMessageId, requestId, drawn);
    assert forall i | 0 <= i < 24 :: h[i].0 == HeaderNames[i];
    HeaderNamed(h, 0);
    HeaderNamed(h, 1);
    HeaderNamed(h, 2);
    HeaderNamed(h, 3);
    HeaderNamed(h, 4);
    HeaderNamed(h, 5);
    HeaderNamed(h, 6);
    HeaderNamed(h, 7);
    HeaderNamed(h, 8);
    HeaderNamed(h, 9);
    HeaderNamed(h, 10);
    HeaderNamed(h, 15);
    HeaderNamed(h, 16);
    HeaderNamed(h, 17);
    HeaderNamed(h, 18);
    HeaderNamed(h, 20);
    HeaderNamed(h, 21);
    HeaderNamed(h, 22);
  }

  /** The value under the `i`-th header name. */
  lemma HeaderNamed(h: HeaderList, i: nat)
    requires |h| == 24 && i < 24 && forall k | 0 <= k < 24 :: h[k].0 == HeaderNames[k]
    ensures Header(h, HeaderNames[i]) == Some(h[i].1)
  {
    NamesDistinct();
    HeaderAt(h, i);
  }

  // ----- request body -----

  /** `kwargs.get(k, default)`. */
  function Kw(kwargs: Dict, k: string, default: Value): Value {
    Lookup(kwargs, k).GetOr(default)
  }

  /** `kwargs.get(k)` is truthy. */
  predicate KwGiven(kwargs: Dict, k: string) {
    HasKey(kwargs, k) && Truthy(Lookup(kwargs, k).value)
  }

  function MessagesValue(ms: seq<Dict>): Value {
    Arr(seq(|ms|, i requires 0 <= i < |ms| => Obj(ms[i])))
  }

  /** The eight keys every body has, in this order. */
  function BaseBody(model: string, ms: seq<Dict>, stream: bool, kwargs: Dict): Dict {
    [ ("model", Str(model)),
      ("messages", MessagesValue(ms)),
      ("temperature", Kw(kwargs, "temperature", Real(1.0))),
      ("response_format", Kw(kwargs, "response_format", Obj([("type", Str("text"))]))),
      ("stream", Bool(stream)),
      ("agent", Str("cli")),
      ("max_tokens", Kw(kwargs, "max_tokens", Num(32000))),
      ("top_p", Kw(kwargs, "top_p", Real(1.0))) ]
  }

  /** An optional `payload[k] = v` for a key the body does not have yet: it goes last. */
  function AddIf(cond: bool, k: string, v: Value): Dict {
    if cond then [(k, v)] else []
  }

  /** The keys added after the fixed eight, each only when its condition holds. */
  function Extras(stream: bool, kwargs: Dict): Dict {
    AddIf(KwGiven(kwargs, "tools"), "tools", Kw(kwargs, "tools", Null))
    + AddIf(KwGiven(kwargs, "tool_choice"), "tool_choice", Kw(kwargs, "tool_choice", Null))
    + AddIf(stream, "stream_options", Kw(kwargs, "stream_options", Obj([("include_usage", Bool(true))])))
  }

  /** The body of the request sent to the backend. */
  function Payload(model: string, ms: seq<Dict>, stream: bool, kwargs: Dict): Dict {
    BaseBody(model, ms, stream, kwargs) + Extras(stream, kwargs)
  }

  const BaseKeys := ["model", "messages", "temperature", "response_format", "stream", "agent", "max_tokens", "top_p"]

  /** The four values that come from the caller or a default. */
  lemma BaseBodyDefaults(model: string, ms: seq<Dict>, stream: bool, kwargs: Dict)
    ensures var base := BaseBody(model, ms, stream, kwargs);
            Lookup(base, "model") == Some(Str(model)) &&
            Lookup(base, "temperature") == Some(Kw(kwargs, "temperature", Real(1.0))) &&
            Lookup(base, "response_format") == Some(Kw(kwargs, "response_format", Obj([("type", Str("text"))]))) &&
            Lookup(base, "top_p") == Some(Kw(kwargs, "top_p", Real(1.0)))
  {
    var base := BaseBody(model, ms, stream, kwargs);
    LookupAt(base, 0);
    LookupAt(base, 2);
    LookupAt(base, 3);
    LookupAt(base, 7);
  }

  lemma BaseBodySpec(model: string, ms: seq<Dict>, stream: bool, kwargs: Dict)
    ensures var base := BaseBody(model, ms, stream, kwargs);
            Keys(base) == BaseKeys &&
            Lookup(base, "model") == Some(Str(model)) &&
            Lookup(base, "temperature") == Some(Kw(kwargs, "temperature", Real(1.0))) &&
            Lookup(base, "response_format") == Some(Kw(kwargs, "response_format", Obj([("type", Str("text"))]))) &&
            Lookup(base, "top_p") == Some(Kw(kwargs, "top_p", Real(1.0))) &&
            Lookup(base, "agent") == Some(Str("cli")) &&
            Lookup(base, "stream") == Some(Bool(stream)) &&
            Lookup(base, "messages") == Some(MessagesValue(ms)) &&
            Lookup(base, "max_tokens") == Some(Kw(kwargs, "max_tokens", Num(32000))) &&
            !HasKey(base, "tools") && !HasKey(base, "tool_choice") && !HasKey(base, "stream_options")
  {
    var base := BaseBody(model, ms, stream, kwargs);
    BaseBodyDefaults(model, ms, stream, kwargs);
    LookupAt(base, 1);
    LookupAt(base, 4);
    LookupAt(base, 5);
    LookupAt(base, 6);
    LookupAbsent(base, "tools");
    LookupAbsent(base, "tool_choice");
    LookupAbsent(base, "stream_options");
  }

  lemma ExtrasSpec(stream: bool, kwargs: Dict)
    ensures var e := Extras(stream, kwargs);
            (HasKey(e, "stream_options") <==> stream) &&
            (stream ==> Lookup(e, "stream_options") == Some(Kw(kwargs, "stream_options", Obj([("include_usage", Bool(true))])))) &&
            (Lookup(e, "tools") == if KwGiven(kwargs, "tools") then Lookup(kwargs, "tools") else None) &&
            (Lookup(e, "tool_choice") == if KwGiven(kwargs, "tool_choice") then Lookup(kwargs, "tool_choice") else None)
  {
    var a := AddIf(KwGiven(kwargs, "tools"), "tools", Kw(kwargs, "tools", Null));
    var b := AddIf(KwGiven(kwargs, "tool_choice"), "tool_choice", Kw(kwargs, "tool_choice", Null));
    var c := AddIf(stream, "stream_options", Kw(kwargs, "stream_options", Obj([("include_usage", Bool(true))])));
    assert Extras(stream, kwargs) == a + (b + c);
    LookupAppend(a, b + c, "tools");
    LookupAppend(a, b + c, "tool_choice");
    LookupAppend(a, b + c, "stream_options");
    LookupAppend(b, c, "tools");
    LookupAppend(b, c, "tool_choice");
    LookupAppend(b, c, "stream_options");
  }

  /**
   * The body: the eight fixed keys in their fixed order, `agent` always "cli",
   * `temperature` and `top_p` 1.0, `response_format` text and `max_tokens` 32000
   * unless given; `tools` and `tool_choice` present exactly
   * when truthy in the keyword arguments and then passed through, and
   * `stream_options` present exactly when streaming, asking for usage unless given.
   */
  lemma PayloadSpec(model: string, ms: seq<Dict>, stream: bool, kwargs: Dict)
    ensures var p := Payload(model, ms, stream, kwargs);
            |p| >= 8 && Keys(p)[..8] == BaseKeys &&
            Lookup(p, "model") == Some(Str(model)) &&
            Lookup(p, "temperature") == Some(Kw(kwargs, "temperature", Real(1.0))) &&
            Lookup(p, "response_format") == Some(Kw(kwargs, "response_format", Obj([("type", Str("text"))]))) &&
            Lookup(p, "top_p") == Some(Kw(kwargs, "top_p", Real(1.0))) &&
            Lookup(p, "agent") == Some(Str("cli")) &&
            Lookup(p, "stream") == Some(Bool(stream)) &&
            Lookup(p, "messages") == Some(MessagesValue(ms)) &&
            Lookup(p, "max_tokens") == Some(Kw(kwargs, "max_tokens", Num(32000))) &&
            (HasKey(p, "stream_options") <==> stream) &&
            (stream ==> Lookup(p, "stream_options") == Some(Kw(kwargs, "stream_options", Obj([("include_usage", Bool(true))])))) &&
            (HasKey(p, "tools") <==> KwGiven(kwargs, "tools")) &&
            (HasKey(p, "tool_choice") <==> KwGiven(kwargs, "tool_choice")) &&
            (KwGiven(kwargs, "tools") ==> Lookup(p, "tools") == Lookup(kwargs, "tools")) &&
            (KwGiven(kwargs, "tool_choice") ==> Lookup(p, "tool_choice") == Lookup(kwargs, "tool_choice"))
  {
    var base := BaseBody(model, ms, stream, kwargs);
    var e := Extras(stream, kwargs);
    var p := Payload(model, ms, stream, kwargs);
    BaseBodySpec(model, ms, stream, kwargs);
    ExtrasSpec(stream, kwargs);
    assert Keys(p)[..8] == Keys(base);
    LookupAppend(base, e, "model");
    LookupAppend(base, e, "temperature");
    LookupAppend(base, e, "response_format");
    LookupAppend(base, e, "top_p");
    LookupAppend(base, e, "agent");
    LookupAppend(base, e, "stream");
    LookupAppend(base, e, "messages");
    LookupAppend(base, e, "max_tokens");
    LookupAppend(base, e, "tools");
    LookupAppend(base, e, "tool_choice");
    LookupAppend(base, e, "stream_options");
  }

  // ----- the prepared request -----

  datatype Request = Request(url: string, headers: HeaderList, payload: Dict)

  /** The tools argument exists, is truthy and has no `len` (a number, `True`), so
      the log line that reports how many tools were added raises a TypeError. */
  predicate ToolsWithoutLen(kwargs: Dict) {
    KwGiven(kwargs, "tools") && Len(Lookup(kwargs, "tools").value).Failure?
  }

  /**
   * Everything `chat_completions` computes before it contacts the backend: a
   * missing or empty bearer token raises a ValueError, a translation failure
   * propagates, truthy tools without a length raise a TypeError, and otherwise
   * the URL, headers and body are built.
   */
  function Prepare(endpoint: string, codec: Codec, ids: ApiMessages.Uuids, drawn: FreshIds,
                   ms: seq<Dict>, model: string, stream: bool,
                   token: Option<string>, userId: Option<string>, kwargs: Dict): (r: Result<Request, Fault>)
    ensures token.None? || token.value == "" ==> r == Failure(ValueError)
    ensures token.Some? && token.value != "" && ApiMessages.Convert(codec, ids, ms).Failure? ==>
              r == Failure(ApiMessages.Convert(codec, ids, ms).error)
    ensures token.Some? && token.value != "" && ApiMessages.Convert(codec, ids, ms).Success? && ToolsWithoutLen(kwargs) ==>
              r == Failure(TypeError)
    ensures r.Success? <==>
              token.Some? && token.value != "" && ApiMessages.Convert(codec, ids, ms).Success? && !ToolsWithoutLen(kwargs)
    ensures r.Success? ==>
              r.value.url == endpoint + "/v2/chat/completions" &&
              Header(r.value.headers, "Authorization") == Some("Bearer " + token.value) &&
              r.value.payload == Payload(model, ApiMessages.Convert(codec, ids, ms).value, stream, kwargs)
  {
    if token.None? || token.value == "" then Failure(ValueError)
    else
      match ApiMessages.Convert(codec, ids, ms)
      case Failure(e) => Failure(e)
      case Success(converted) =>
        if ToolsWithoutLen(kwargs) then Failure(TypeError)
        else
          HeadersSpec(token.value, userId, None, None, None, None, drawn);
          Success(Request(endpoint + "/v2/chat/completions",
                          Headers(token.value, userId, None, None, None, None, drawn),
                          Payload(model, converted, stream, kwargs)))
  }
}
