/**
 * The pass-through router's request rewrite and its credential listing.
 *
 * The client's body is copied, `stream` is forced to true, a lone user message
 * is padded with the fixed system message, and the keyword rewrite is applied
 * to every string `content` and to the `text` of every `text` block. The
 * credential listing shows each token only as a short preview.
 */
module Router {
  import opened Wrappers
  import opened Strings
  import opened Json
  import Keywords
  import ApiMessages

  // ----- the outgoing payload -----

  /** `request_body.copy()` followed by `payload["stream"] = True`. */
  function StreamingCopy(body: Value): (r: Result<Dict, Fault>)
    ensures r.Success? <==> body.Obj?
    ensures body.Arr? ==> r == Failure(TypeError)
    ensures r.Success? ==> Lookup(r.value, "stream") == Some(Bool(true))
  {
    LookupSetStream(body);
    match body
    case Obj(d) => Success(Set(d, "stream", Bool(true)))
    case Arr(_) => Failure(TypeError)
    case _ => Failure(AttributeError)
  }

  lemma LookupSetStream(body: Value)
    ensures body.Obj? ==> Lookup(Set(body.fields, "stream", Bool(true)), "stream") == Some(Bool(true))
  {
    if body.Obj? {
      LookupSet(body.fields, "stream", Bool(true), "stream");
    }
  }

  /** `payload.get("messages", [])`. */
  function MessagesOf(p: Dict): Value {
    Lookup(p, "messages").GetOr(Arr([]))
  }

  /** Prepends the system message when the list is exactly one message whose role is `user`. */
  function Padded(p: Dict): Result<Dict, Fault> {
    var mv := MessagesOf(p);
    var n :- Len(mv);
    if n != 1 then Success(p)
    else
      var first :- Index0(mv);
      var role :- Get(first, "role");
      if role == Some(Str("user")) then
        var joined :- PyAdd(Arr([Obj(ApiMessages.SystemPad)]), mv);
        Success(Set(p, "messages", joined))
      else Success(p)
  }

  /** `apply_keyword_replacement`: strings are rewritten, anything else is returned as it is. */
  function ApplyKeyword(v: Value): Value {
    if v.Str? then Str(Keywords.Rewrite(v.s)) else v
  }

  predicate IsTextBlock(item: Value) {
    item.Obj? && Lookup(item.fields, "type") == Some(Str("text"))
  }

  /** A content block after `item["text"] = apply_keyword_replacement(item.get("text", ""))`. */
  function RewriteBlock(item: Value): Value {
    if IsTextBlock(item) then
      Obj(Set(item.fields, "text", ApplyKeyword(Lookup(item.fields, "text").GetOr(Str("")))))
    else item
  }

  /** The blocks of a list content, each passed through `RewriteBlock`. */
  function RewriteBlocks(items: seq<Value>): (out: seq<Value>)
    ensures |out| == |items| && forall i | 0 <= i < |items| :: out[i] == RewriteBlock(items[i])
  {
    seq(|items|, i requires 0 <= i < |items| => RewriteBlock(items[i]))
  }

  /** One message after the rewrite loop's body (the two string branches do the same thing). */
  function RewriteMessage(m: Dict): Dict {
    match Lookup(m, "content")
    case Some(Str(s)) => Set(m, "content", Str(Keywords.Rewrite(s)))
    case Some(Arr(items)) => Set(m, "content", Arr(RewriteBlocks(items)))
    case _ => m
  }

  /** The loop over `payload.get("messages", [])`: `msg.get` fails on anything but a dict. */
  function RewriteAll(items: seq<Value>): Result<seq<Value>, Fault> {
    if forall i | 0 <= i < |items| :: items[i].Obj? then
      Success(seq(|items|, i requires 0 <= i < |items| && items[i].Obj? => Obj(RewriteMessage(items[i].fields))))
    else Failure(AttributeError)
  }

  /** The messages rewritten in place; the payload changes only when it holds a list of messages. */
  function Rewritten(p: Dict): Result<Dict, Fault> {
    var mv := MessagesOf(p);
    var items :- Iterate(mv);
    var out :- RewriteAll(items);
    if HasKey(p, "messages") && mv.Arr? then Success(Set(p, "messages", Arr(out))) else Success(p)
  }

  /** The payload sent to the backend. */
  function OutgoingPayload(body: Value): Result<Dict, Fault> {
    var p0 :- StreamingCopy(body);
    var p1 :- Padded(p0);
    Rewritten(p1)
  }

  /** `request_body.get("stream", False)`, read from the client's own body. */
  predicate ClientWantsStream(body: Dict) {
    Truthy(Lookup(body, "stream").GetOr(Bool(false)))
  }

  // ----- the imperative rewrite -----

  method RewriteContent(items: seq<Value>) returns (blocks: seq<Value>)
    ensures blocks == RewriteBlocks(items)
  {
    blocks := items;
    for j := 0 to |items|
      invariant |blocks| == |items|
      invariant forall k | 0 <= k < j :: blocks[k] == RewriteBlock(items[k])
      invariant forall k | j <= k < |items| :: blocks[k] == items[k]
    {
      var item := blocks[j];
      if item.Obj? && Lookup(item.fields, "type") == Some(Str("text")) {
        blocks := blocks[j := Obj(Set(item.fields, "text", ApplyKeyword(Lookup(item.fields, "text").GetOr(Str("")))))];
      }
    }
  }

  /** The padding step of the handler. */
  method PadPayload(p: Dict) returns (r: Result<Dict, Fault>)
    ensures r == Padded(p)
  {
    var messages := Lookup(p, "messages").GetOr(Arr([]));
    var n := Len(messages);
    if n.Failure? {
      return Failure(n.error);
    }
    if n.value != 1 {
      return Success(p);
    }
    var first := Index0(messages);
    if first.Failure? {
      return Failure(first.error);
    }
    var role := Get(first.value, "role");
    if role.Failure? {
      return Failure(role.error);
    }
    if role.value != Some(Str("user")) {
      return Success(p);
    }
    var joined := PyAdd(Arr([Obj(ApiMessages.SystemPad)]), messages);
    if joined.Failure? {
      return Failure(joined.error);
    }
    return Success(Set(p, "messages", joined.value));
  }

  /** The body of the rewrite loop for one message. */
  method RewriteOne(fields: Dict) returns (out: Dict)
    ensures out == RewriteMessage(fields)
  {
    out := fields;
    var content := Lookup(fields, "content");
    if content.Some? && content.value.Str? {
      out := Set(fields, "content", Str(Keywords.Rewrite(content.value.s)));
    } else if content.Some? && content.value.Arr? {
      var blocks := RewriteContent(content.value.items);
      out := Set(fields, "content", Arr(blocks));
    }
  }

  /** The rewrite loop over the messages, updating each one in place. */
  method RewriteMessages(items: seq<Value>) returns (r: Result<seq<Value>, Fault>)
    ensures r == RewriteAll(items)
  {
    var msgs := items;
    for i := 0 to |msgs|
      invariant |msgs| == |items|
      invariant forall k | 0 <= k < i :: items[k].Obj? && msgs[k] == Obj(RewriteMessage(items[k].fields))
      invariant forall k | i <= k < |msgs| :: msgs[k] == items[k]
    {
      var msg := msgs[i];
      if !msg.Obj? {
        return Failure(AttributeError);
      }
      var fields := RewriteOne(msg.fields);
      msgs := msgs[i := Obj(fields)];
    }
    assert msgs == seq(|items|, i requires 0 <= i < |items| && items[i].Obj? => Obj(RewriteMessage(items[i].fields)));
    return Success(msgs);
  }

  method RewriteRequest(body: Value) returns (r: Result<Dict, Fault>)
    ensures r == OutgoingPayload(body)
  {
    if !body.Obj? {
      return if body.Arr? then Failure(TypeError) else Failure(AttributeError);
    }
    var padded := PadPayload(Set(body.fields, "stream", Bool(true)));
    if padded.Failure? {
      return Failure(padded.error);
    }
    var payload := padded.value;
    var messages := Lookup(payload, "messages").GetOr(Arr([]));
    var items := Iterate(messages);
    if items.Failure? {
      return Failure(items.error);
    }
    var msgs := RewriteMessages(items.value);
    if msgs.Failure? {
      return Failure(msgs.error);
    }
    if HasKey(payload, "messages") && messages.Arr? {
      payload := Set(payload, "messages", Arr(msgs.value));
    }
    return Success(payload);
  }

  // ----- properties of the rewrite -----

  /** Padding and the rewrite touch only the `messages` key. */
  lemma OnlyMessagesChange(p: Dict, k: string)
    requires k != "messages"
    ensures Padded(p).Success? ==> Lookup(Padded(p).value, k) == Lookup(p, k)
    ensures Rewritten(p).Success? ==> Lookup(Rewritten(p).value, k) == Lookup(p, k)
  {
    var mv := MessagesOf(p);
    if Len(mv).Success? && Len(mv).value == 1 && Index0(mv).Success? && Get(Index0(mv).value, "role").Success? &&
       Get(Index0(mv).value, "role").value == Some(Str("user")) && PyAdd(Arr([Obj(ApiMessages.SystemPad)]), mv).Success? {
      LookupSet(p, "messages", PyAdd(Arr([Obj(ApiMessages.SystemPad)]), mv).value, k);
    }
    if Iterate(mv).Success? && RewriteAll(Iterate(mv).value).Success? {
      LookupSet(p, "messages", Arr(RewriteAll(Iterate(mv).value).value), k);
    }
  }

  /** The outgoing payload always streams, and it exists only when the body is a dict. */
  lemma OutgoingStreams(body: Value)
    ensures OutgoingPayload(body).Success? ==> body.Obj?
    ensures OutgoingPayload(body).Success? ==> Lookup(OutgoingPayload(body).value, "stream") == Some(Bool(true))
    ensures body.Arr? ==> OutgoingPayload(body) == Failure(TypeError)
    ensures !body.Obj? && !body.Arr? ==> OutgoingPayload(body) == Failure(AttributeError)
  {
    if body.Obj? {
      var p0 := StreamingCopy(body).value;
      OnlyMessagesChange(p0, "stream");
      if Padded(p0).Success? {
        OnlyMessagesChange(Padded(p0).value, "stream");
      }
    }
  }

  /** The stream preference is the client's, whatever the outgoing payload says:
      only a truthy `stream` in the original body asks for a stream. */
  lemma PreferenceFromOriginalBody(d: Dict)
    ensures ClientWantsStream(d) <==> HasKey(d, "stream") && Truthy(Lookup(d, "stream").value)
    ensures OutgoingPayload(Obj(d)).Success? ==> Lookup(OutgoingPayload(Obj(d)).value, "stream") == Some(Bool(true))
  {
    OutgoingStreams(Obj(d));
  }

  /** A lone `user` message gets the system message in front; any other list of messages is left as it is. */
  lemma PaddingRule(p: Dict, ms: seq<Value>)
    requires Lookup(p, "messages") == Some(Arr(ms))
    ensures |ms| == 1 && ms[0].Obj? && Lookup(ms[0].fields, "role") == Some(Str("user")) ==>
            Padded(p).Success? && Lookup(Padded(p).value, "messages") == Some(Arr([Obj(ApiMessages.SystemPad)] + ms))
    ensures |ms| == 1 && !ms[0].Obj? ==> Padded(p).Failure?
    ensures !(|ms| == 1 && ms[0].Obj? && Lookup(ms[0].fields, "role") == Some(Str("user"))) && Padded(p).Success? ==>
            Padded(p).value == p
  {
    if |ms| == 1 && ms[0].Obj? && Lookup(ms[0].fields, "role") == Some(Str("user")) {
      LookupSet(p, "messages", Arr([Obj(ApiMessages.SystemPad)] + ms), "messages");
    }
  }

  /** The rewrite of a message changes only its `content`, and keeps its keys in order. */
  lemma MessageKeysKept(m: Dict)
    ensures Keys(RewriteMessage(m)) == Keys(m)
    ensures forall k | k != "content" :: Lookup(RewriteMessage(m), k) == Lookup(m, k)
  {
    var c := Lookup(m, "content");
    if c.Some? && (c.value.Str? || c.value.Arr?) {
      var v := if c.value.Str? then Str(Keywords.Rewrite(c.value.s)) else Arr(RewriteBlocks(c.value.items));
      assert RewriteMessage(m) == Set(m, "content", v);
      KeysSet(m, "content", v);
      forall k | k != "content" ensures Lookup(RewriteMessage(m), k) == Lookup(m, k) {
        LookupSet(m, "content", v, k);
      }
    }
  }

  /**
   * Every string content is rewritten, whatever the message's role; a list
   * content keeps its length and has each block passed through `RewriteBlock`;
   * any other content leaves the message as it is.
   */
  lemma MessageContentRule(m: Dict)
    ensures forall s :: Lookup(m, "content") == Some(Str(s)) ==>
              Lookup(RewriteMessage(m), "content") == Some(Str(Keywords.Rewrite(s)))
    ensures forall items :: Lookup(m, "content") == Some(Arr(items)) ==>
              Lookup(RewriteMessage(m), "content") == Some(Arr(RewriteBlocks(items)))
    ensures !(Lookup(m, "content").Some? && (Lookup(m, "content").value.Str? || Lookup(m, "content").value.Arr?)) ==>
              RewriteMessage(m) == m
  {
    var c := Lookup(m, "content");
    if c.Some? && c.value.Str? {
      LookupSet(m, "content", Str(Keywords.Rewrite(c.value.s)), "content");
    } else if c.Some? && c.value.Arr? {
      LookupSet(m, "content", Arr(RewriteBlocks(c.value.items)), "content");
    }
  }

  /** A `text` block has its text rewritten (a missing text becomes ""); every other key and every other block is untouched. */
  lemma BlockRewriteRule(item: Value)
    ensures !IsTextBlock(item) ==> RewriteBlock(item) == item
    ensures IsTextBlock(item) ==>
              RewriteBlock(item).Obj? &&
              Lookup(RewriteBlock(item).fields, "text") == Some(ApplyKeyword(Lookup(item.fields, "text").GetOr(Str("")))) &&
              forall k | k != "text" :: Lookup(RewriteBlock(item).fields, k) == Lookup(item.fields, k)
  {
    if IsTextBlock(item) {
      var v := ApplyKeyword(Lookup(item.fields, "text").GetOr(Str("")));
      forall k ensures Lookup(Set(item.fields, "text", v), k) == if k == "text" then Some(v) else Lookup(item.fields, k) {
        LookupSet(item.fields, "text", v, k);
      }
    }
  }

  /** The rewrite succeeds exactly when every message is a dict, and it keeps their number and order. */
  lemma RewriteAllRule(items: seq<Value>)
    ensures RewriteAll(items).Success? <==> forall i | 0 <= i < |items| :: items[i].Obj?
    ensures RewriteAll(items).Success? ==>
              |RewriteAll(items).value| == |items| &&
              forall i | 0 <= i < |items| :: RewriteAll(items).value[i] == Obj(RewriteMessage(items[i].fields))
  {
  }

  /** A text that names neither "Claude" nor "Anthropic". */
  predicate NameFree(t: string) {
    !Occurs(t, Keywords.Claude) && !Occurs(t, Keywords.Anthropic)
  }

  /** A block that, if it is a `text` block with string text, has a name-free text. */
  predicate TextClean(item: Value) {
    IsTextBlock(item) && Lookup(item.fields, "text").Some? && Lookup(item.fields, "text").value.Str? ==>
      NameFree(Lookup(item.fields, "text").value.s)
  }

  /**
   * After the rewrite a string content names neither "Claude" nor "Anthropic",
   * and a list content keeps its length with every `text` block's string text
   * free of both names.
   */
  lemma RewrittenHasNoNames(m: Dict)
    ensures var c := Lookup(m, "content");
            var out := Lookup(RewriteMessage(m), "content");
            c.Some? && c.value.Str? ==> out.Some? && out.value.Str? && NameFree(out.value.s)
    ensures var c := Lookup(m, "content");
            var out := Lookup(RewriteMessage(m), "content");
            c.Some? && c.value.Arr? ==>
              out.Some? && out.value.Arr? && |out.value.items| == |c.value.items| &&
              forall i | 0 <= i < |out.value.items| :: TextClean(out.value.items[i])
  {
    MessageContentRule(m);
    var c := Lookup(m, "content");
    if c.Some? && c.value.Str? {
      Keywords.RewriteRemovesNames(c.value.s);
    } else if c.Some? && c.value.Arr? {
      var items := c.value.items;
      forall i | 0 <= i < |items| ensures TextClean(RewriteBlocks(items)[i]) {
        var item := items[i];
        BlockRewriteRule(item);
        if IsTextBlock(item) {
          assert Lookup(RewriteBlock(item).fields, "type") == Lookup(item.fields, "type");
          var v := Lookup(item.fields, "text").GetOr(Str(""));
          if v.Str? {
            Keywords.RewriteRemovesNames(v.s);
          }
        }
      }
    }
  }

  // ----- the credential listing -----

  /**
   * `f"{t[:10]}...{t[-4:]}" if t and len(t) > 14 else "Invalid Token"`. A long list
   * is sliced and printed through the codec; other values without a
   * length, and slices of a dict, raise TypeError.
   */
  function TokenPreview(codec: Codec, token: Value): Result<string, Fault> {
    if !Truthy(token) then Success("Invalid Token")
    else
      var n :- Len(token);
      if n <= 14 then Success("Invalid Token")
      else
        match token
        case Str(t) => Success(t[..10] + "..." + t[|t| - 4..])
        case Arr(a) => Success(codec.repr(Arr(a[..10])) + "..." + codec.repr(Arr(a[|a| - 4..])))
        case _ => Failure(TypeError)
  }

  /** A string token longer than 14 characters shows its first 10 and last 4 characters; any other string shows "Invalid Token". */
  lemma PreviewRule(codec: Codec, t: string)
    ensures |t| > 14 ==> TokenPreview(codec, Str(t)) == Success(t[..10] + "..." + t[|t| - 4..])
    ensures |t| > 14 ==> |TokenPreview(codec, Str(t)).value| == 17
    ensures |t| <= 14 ==> TokenPreview(codec, Str(t)) == Success("Invalid Token")
  {
  }

  /** Each entry of the credential listing. */
  function SafeCredential(codec: Codec, i: nat, cred: Value): Result<Value, Fault> {
    var token :- GetOr(cred, "bearer_token", Str(""));
    var preview :- TokenPreview(codec, token);
    Success(Obj([("index", Num(i)),
                 ("user_id", Lookup(cred.fields, "user_id").GetOr(Str("unknown"))),
                 ("created_at", Lookup(cred.fields, "created_at").GetOr(Num(0))),
                 ("has_token", Bool(Truthy(token))),
                 ("token_preview", Str(preview))]))
  }

  /** The listing, built credential by credential; the first one that raises ends it. */
  function ListStep(codec: Codec): (nat, Value) -> Result<Value, Fault> {
    (i: nat, cred: Value) => SafeCredential(codec, i, cred)
  }

  method ListCredentials(codec: Codec, creds: seq<Value>) returns (r: Result<seq<Value>, Fault>)
    ensures r == TryMap(ListStep(codec), creds, |creds|)
  {
    var safe: seq<Value> := [];
    for i := 0 to |creds|
      invariant TryMap(ListStep(codec), creds, i) == Success(safe)
    {
      var entry := SafeCredential(codec, i, creds[i]);
      if entry.Failure? {
        TryMapFailureSticks(ListStep(codec), creds, i + 1, |creds|);
        return Failure(entry.error);
      }
      TryMapSnoc(ListStep(codec), creds, i, safe, entry.value);
      safe := safe + [entry.value];
    }
    return Success(safe);
  }

  /** The listing has one entry per credential, in order, with its position and whether it has a token. */
  lemma ListingRule(codec: Codec, creds: seq<Value>)
    requires TryMap(ListStep(codec), creds, |creds|).Success?
    ensures |TryMap(ListStep(codec), creds, |creds|).value| == |creds|
    ensures forall i | 0 <= i < |creds| :: creds[i].Obj? &&
              var token := Lookup(creds[i].fields, "bearer_token").GetOr(Str(""));
              TokenPreview(codec, token).Success? &&
              TryMap(ListStep(codec), creds, |creds|).value[i] ==
                Obj([("index", Num(i)),
                     ("user_id", Lookup(creds[i].fields, "user_id").GetOr(Str("unknown"))),
                     ("created_at", Lookup(creds[i].fields, "created_at").GetOr(Num(0))),
                     ("has_token", Bool(Truthy(token))),
                     ("token_preview", Str(TokenPreview(codec, token).value))])
  {
    TryMapAt(ListStep(codec), creds, |creds|);
    forall i | 0 <= i < |creds| ensures creds[i].Obj? {
      assert SafeCredential(codec, i, creds[i]).Success?;
    }
  }
}
