/** The language-model analyst (`LLMAnalyst`): it keeps a running
    conversation, sends it to the text-generation client on every call, and
    turns the reply into a dictionary, either the JSON object it contains or an
    error record that keeps the raw reply. The client and the JSON parser are
    collaborators given as functions; prompts are given already rendered. */
module LlmAnalyst {
  import opened Wrappers
  import opened Json
  import opened ResponseSpan

  datatype Role = User | Assistant

  /** One `{"role": ..., "content": ...}` entry of the conversation. */
  datatype Message = Message(role: Role, content: string)

  /** The arguments of `client.messages.create`. */
  datatype Request = Request(model: string, maxTokens: nat, messages: seq<Message>)

  /** The client: the text of the first content block of the response to a
      request, or `None` when the call raises (which propagates to the caller). */
  type Client = Request -> Option<string>

  /** `json.loads` on a span that begins with `{`: the object, or `None` for
      `JSONDecodeError`. */
  type Parser = string -> Option<Dict>

  /** The three kinds of call; they differ in the token budget, the noun in
      the error messages and the key the raw reply is kept under. */
  datatype ReplyKind = SignalAnalysis | TradeSuggestion | MarketAssessment {
    function MaxTokens(): nat {
      match this
      case SignalAnalysis => 1500
      case TradeSuggestion => 1200
      case MarketAssessment => 1000
    }

    function Noun(): string {
      match this
      case SignalAnalysis => "response"
      case TradeSuggestion => "suggestion"
      case MarketAssessment => "assessment"
    }

    function RawKey(): string {
      match this
      case SignalAnalysis => "raw_response"
      case TradeSuggestion => "raw"
      case MarketAssessment => "raw"
    }
  }

  /** Why the constructor raises: the SDK is not installed (`ImportError`)
      or there is no API key (`ValueError`). */
  datatype InitError = SdkMissing | MissingApiKey

  /** What an analysis call does: the client raised, or the call returned a
      dictionary. */
  datatype CallOutcome = ClientFailed | Answered(record: Dict)

  /** The model used when the constructor's `model` argument is omitted. */
  const DEFAULT_MODEL: string := "claude-3-5-sonnet-20241022"

  /** `{"error": message, rawKey: text}`. */
  function ErrorRecord(message: string, rawKey: string, text: string): Dict {
    map["error" := JStr(message), rawKey := JStr(text)]
  }

  /** An error record of `kind` for reply `text`: exactly the keys `error` and
      the kind's raw key, the latter holding the reply unchanged. */
  ghost predicate IsErrorRecord(r: Dict, kind: ReplyKind, text: string) {
    && r.Keys == {"error", kind.RawKey()}
    && r[kind.RawKey()] == JStr(text)
    && (r["error"] == JStr("Could not parse " + kind.Noun()) || r["error"] == JStr("Invalid JSON in " + kind.Noun()))
  }

  /** The extraction step shared by the three calls. It never fails: the
      result is the parser's object for the span of the reply, or an error
      record keeping the raw reply. */
  function Interpret(kind: ReplyKind, text: string, parse: Parser): (r: Dict)
    ensures IsErrorRecord(r, kind, text) || (Span(text).Some? && parse(Span(text).value) == Some(r))
  {
    match Span(text)
    case None => ErrorRecord("Could not parse " + kind.Noun(), kind.RawKey(), text)
    case Some(span) =>
      match parse(span)
      case None => ErrorRecord("Invalid JSON in " + kind.Noun(), kind.RawKey(), text)
      case Some(obj) => obj
  }

  /** Without an opening brace before a closing one the reply is not parsed:
      the result is the "Could not parse" record, whatever the parser. */
  lemma InterpretWithoutSpan(kind: ReplyKind, text: string, parse: Parser, other: Parser)
    requires !HasBracePair(text)
    ensures Interpret(kind, text, parse) == ErrorRecord("Could not parse " + kind.Noun(), kind.RawKey(), text)
    ensures Interpret(kind, text, parse) == Interpret(kind, text, other)
  {
  }

  /** With the first `{` at `i` and the last `}` at `j > i`, exactly
      `text[i..j + 1]` is parsed; its object is the result, and a rejected
      span gives the "Invalid JSON" record with the raw reply. */
  lemma InterpretSpan(kind: ReplyKind, text: string, parse: Parser, i: nat, j: nat)
    requires i < j < |text|
    requires text[i] == '{' && '{' !in text[..i]
    requires text[j] == '}' && '}' !in text[j + 1..]
    ensures parse(text[i..j + 1]).Some? ==> Interpret(kind, text, parse) == parse(text[i..j + 1]).value
    ensures parse(text[i..j + 1]).None? ==>
      Interpret(kind, text, parse) == ErrorRecord("Invalid JSON in " + kind.Noun(), kind.RawKey(), text)
  {
    SpanIsFirstToLast(text, i, j);
  }

  /** Error records of `analyze_signal` keep the reply under `raw_response`;
      those of the other two calls keep it under `raw`. */
  lemma ErrorRecordKeys(kind: ReplyKind, text: string, r: Dict)
    requires IsErrorRecord(r, kind, text)
    ensures kind == SignalAnalysis ==> "raw_response" in r && "raw" !in r && r["raw_response"] == JStr(text)
    ensures kind != SignalAnalysis ==> "raw" in r && "raw_response" !in r && r["raw"] == JStr(text)
  {
  }

  /** `record['timestamp'] = now`: the key is set to `now` and every other
      key keeps its value. */
  function WithTimestamp(record: Dict, now: string): (r: Dict)
    ensures r.Keys == record.Keys + {"timestamp"}
    ensures r["timestamp"] == JStr(now)
    ensures forall k :: k in record && k != "timestamp" ==> r[k] == record[k]
  {
    record["timestamp" := JStr(now)]
  }

  /** `api_key or os.getenv("ANTHROPIC_API_KEY")` and the two checks of the
      constructor: the SDK check comes first, and an absent or empty key on
      both sides is refused. */
  function ResolveApiKey(sdkInstalled: bool, apiKey: Option<string>, envKey: Option<string>): (r: Result<string, InitError>)
    ensures !sdkInstalled ==> r == Failure(SdkMissing)
    ensures r.Success? ==> r.value != "" && (apiKey == Some(r.value) || envKey == Some(r.value))
    ensures sdkInstalled ==> (r.Failure? <==> (apiKey.None? || apiKey.value == "") && (envKey.None? || envKey.value == ""))
    ensures sdkInstalled && apiKey.Some? && apiKey.value != "" ==> r == Success(apiKey.value)
    ensures sdkInstalled && r.Failure? ==> r.error == MissingApiKey
  {
    if !sdkInstalled then Failure(SdkMissing)
    else
      var key := if apiKey.Some? && apiKey.value != "" then apiKey else envKey;
      if key.None? || key.value == "" then Failure(MissingApiKey) else Success(key.value)
  }

  /** The conversation alternates a user entry and an assistant entry, one
      pair per completed call. */
  ghost predicate Alternating(h: seq<Message>) {
    && |h| % 2 == 0
    && forall i :: 0 <= i < |h| ==> h[i].role == (if i % 2 == 0 then User else Assistant)
  }

  /** A completed call keeps a conversation alternating and adds one pair. */
  lemma ExchangeKeepsAlternating(h: seq<Message>, prompt: string, reply: string)
    requires Alternating(h)
    ensures Alternating(h + [Message(User, prompt), Message(Assistant, reply)])
    ensures |h + [Message(User, prompt), Message(Assistant, reply)]| == |h| + 2
  {
    var h' := h + [Message(User, prompt), Message(Assistant, reply)];
    forall i | 0 <= i < |h'|
      ensures h'[i].role == (if i % 2 == 0 then User else Assistant)
    {
      if i >= |h| {
        assert i == |h| || i == |h| + 1;
      }
    }
  }

  /** A call whose client raised leaves its user entry without an answer:
      the conversation is one entry longer and no longer alternates. */
  lemma ClientFailureLeavesPromptUnanswered(h: seq<Message>, prompt: string)
    requires Alternating(h)
    ensures After(h, prompt, None) == h + [Message(User, prompt)]
    ensures !Alternating(After(h, prompt, None))
  {
    assert |After(h, prompt, None)| == |h| + 1;
  }

  /** The conversation after a call with `prompt` whose client reply was
      `reply`: the user entry is appended before the client is called, the
      assistant entry only when the client answered. */
  function After(h: seq<Message>, prompt: string, reply: Option<string>): seq<Message> {
    h + [Message(User, prompt)] + (if reply.Some? then [Message(Assistant, reply.value)] else [])
  }

  class LLMAnalyst {
    const apiKey: string
    const model: string
    var conversationHistory: seq<Message>

    /** A successfully initialised analyst has an empty conversation. */
    constructor (apiKey: string, model: string)
      requires apiKey != ""
      ensures this.apiKey == apiKey && this.model == model
      ensures conversationHistory == []
    {
      this.apiKey := apiKey;
      this.model := model;
      conversationHistory := [];
    }

    /** `LLMAnalyst(api_key, model)`: fails as `ResolveApiKey` says, or gives
        an analyst with the resolved key and an empty conversation. `model` is
        `None` when the argument is omitted, and the analyst then uses
        `DEFAULT_MODEL`. */
    static method Create(sdkInstalled: bool, apiKey: Option<string>, envKey: Option<string>, model: Option<string>)
      returns (r: Result<LLMAnalyst, InitError>)
      ensures ResolveApiKey(sdkInstalled, apiKey, envKey).Failure? ==>
        r == Failure(ResolveApiKey(sdkInstalled, apiKey, envKey).error)
      ensures ResolveApiKey(sdkInstalled, apiKey, envKey).Success? ==>
        && r.Success? && fresh(r.value)
        && r.value.apiKey == ResolveApiKey(sdkInstalled, apiKey, envKey).value
        && r.value.model == (if model.Some? then model.value else DEFAULT_MODEL)
        && r.value.conversationHistory == []
    {
      var key := ResolveApiKey(sdkInstalled, apiKey, envKey);
      if key.Failure? {
        return Failure(key.error);
      }
      var analyst := new LLMAnalyst(key.value, if model.Some? then model.value else DEFAULT_MODEL);
      return Success(analyst);
    }

    /** Appends the user entry, sends the whole conversation (the new prompt
        included) to the client, and appends the reply as an assistant entry
        when there is one. */
    method Exchange(kind: ReplyKind, prompt: string, client: Client) returns (reply: Option<string>)
      modifies this
      ensures reply == client(Request(model, kind.MaxTokens(), old(conversationHistory) + [Message(User, prompt)]))
      ensures conversationHistory == After(old(conversationHistory), prompt, reply)
      ensures Alternating(old(conversationHistory)) && reply.Some? ==> Alternating(conversationHistory)
    {
      ghost var before := conversationHistory;
      conversationHistory := conversationHistory + [Message(User, prompt)];
      reply := client(Request(model, kind.MaxTokens(), conversationHistory));
      if reply.Some? {
        conversationHistory := conversationHistory + [Message(Assistant, reply.value)];
        if Alternating(before) {
          ExchangeKeepsAlternating(before, prompt, reply.value);
          assert conversationHistory == before + [Message(User, prompt), Message(Assistant, reply.value)];
        }
      }
    }

    /** `analyze_signal`, for the rendered prompt. */
    method AnalyzeSignal(prompt: string, client: Client, parse: Parser) returns (out: CallOutcome)
      modifies this
      ensures var reply := client(Request(model, 1500, old(conversationHistory) + [Message(User, prompt)]));
        && conversationHistory == After(old(conversationHistory), prompt, reply)
        && out == (if reply.Some? then Answered(Interpret(SignalAnalysis, reply.value, parse)) else ClientFailed)
    {
      var reply := Exchange(SignalAnalysis, prompt, client);
      if reply.None? {
        return ClientFailed;
      }
      out := Answered(Interpret(SignalAnalysis, reply.value, parse));
    }

    /** `generate_trade_suggestion`, for the rendered prompt and the ISO text
        of `datetime.now()`: the record always carries `timestamp`. */
    method GenerateTradeSuggestion(prompt: string, client: Client, parse: Parser, now: string) returns (out: CallOutcome)
      modifies this
      ensures var reply := client(Request(model, 1200, old(conversationHistory) + [Message(User, prompt)]));
        && conversationHistory == After(old(conversationHistory), prompt, reply)
        && out == (if reply.Some? then Answered(WithTimestamp(Interpret(TradeSuggestion, reply.value, parse), now)) else ClientFailed)
      ensures out.Answered? ==> "timestamp" in out.record && out.record["timestamp"] == JStr(now)
    {
      var reply := Exchange(TradeSuggestion, prompt, client);
      if reply.None? {
        return ClientFailed;
      }
      var suggestion := Interpret(TradeSuggestion, reply.value, parse);
      out := Answered(WithTimestamp(suggestion, now));
    }

    /** `assess_market_conditions`, for the rendered prompt. */
    method AssessMarketConditions(prompt: string, client: Client, parse: Parser) returns (out: CallOutcome)
      modifies this
      ensures var reply := client(Request(model, 1000, old(conversationHistory) + [Message(User, prompt)]));
        && conversationHistory == After(old(conversationHistory), prompt, reply)
        && out == (if reply.Some? then Answered(Interpret(MarketAssessment, reply.value, parse)) else ClientFailed)
    {
      var reply := Exchange(MarketAssessment, prompt, client);
      if reply.None? {
        return ClientFailed;
      }
      out := Answered(Interpret(MarketAssessment, reply.value, parse));
    }

    /** `reset_conversation`: the conversation is empty again. */
    method ResetConversation()
      modifies this
      ensures conversationHistory == []
      ensures Alternating(conversationHistory)
    {
      conversationHistory := [];
    }
  }
}
