/**
 * The drug-safety request and reply logic of YourDrugs/ClaudeAnalyzer.swift:
 * the prompt and request-body builders, the request with its bearer token,
 * the mapping from the response outcome to the one string handed to
 * `completion`, and the Keychain entry holding the OpenRouter key.
 */
module ClaudeAnalyzer {
  import opened Wrappers

  // ---------------------------------------------------------------------
  // Prompt

  const OpenQuote: char := '\U{201C}'
  const CloseQuote: char := '\U{201D}'

  /** The fixed pieces of the prompt template, in the order they appear. */
  const PromptLead: string := "Look up the medication with barcode " + [OpenQuote]
  const PromptAfterBarcode: string := [CloseQuote] + " and tell me if it is allowed for human with conditions like "
  const PromptAfterConditions: string := " and allergies "
  const PromptTail: string := ". Verify if drug with given barcode exists if yes respond with a very brief and strict statement either \"Allowed\" or \"Not allowed\" + reason. Do NOT mention the barcode, refer only to the medication name."

  /**
   * The prompt: the barcode inside curly quotes, then the conditions, then
   * the allergies (note: the parameters come as barcode, allergies,
   * conditions, but the text names the conditions first).
   */
  function Prompt(drugBarcode: string, allergies: string, conditions: string): (p: string)
    ensures |p| == |PromptLead| + |drugBarcode| + |PromptAfterBarcode| + |conditions|
                   + |PromptAfterConditions| + |allergies| + |PromptTail|
    ensures p[..|PromptLead|] == PromptLead
    ensures p[|PromptLead|..|PromptLead| + |drugBarcode|] == drugBarcode
    ensures p[|PromptLead| + |drugBarcode|] == CloseQuote
    ensures var m0 := |PromptLead| + |drugBarcode|;
            p[m0..m0 + |PromptAfterBarcode|] == PromptAfterBarcode
    ensures var c0 := |PromptLead| + |drugBarcode| + |PromptAfterBarcode|;
            p[c0..c0 + |conditions|] == conditions
    ensures var n0 := |PromptLead| + |drugBarcode| + |PromptAfterBarcode| + |conditions|;
            p[n0..n0 + |PromptAfterConditions|] == PromptAfterConditions
    ensures var a0 := |PromptLead| + |drugBarcode| + |PromptAfterBarcode| + |conditions| + |PromptAfterConditions|;
            p[a0..a0 + |allergies|] == allergies
    ensures p[|p| - |PromptTail|..] == PromptTail
  {
    var p := PromptLead + drugBarcode + PromptAfterBarcode + conditions + PromptAfterConditions + allergies + PromptTail;
    JoinLayout(PromptLead, drugBarcode, PromptAfterBarcode, conditions, PromptAfterConditions, allergies, PromptTail);
    var m0 := |PromptLead| + |drugBarcode|;
    assert p[m0] == p[m0..m0 + |PromptAfterBarcode|][0];
    p
  }

  /** `(x + y + z)[|x|..|x| + |y|]` is `y`. */
  lemma SliceOfJoin(x: string, y: string, z: string)
    ensures (x + y + z)[|x|..|x| + |y|] == y
  {
    assert forall i :: 0 <= i < |y| ==> (x + y + z)[|x| + i] == y[i];
  }

  /** Where each piece of a seven-piece join sits. */
  lemma {:induction false} JoinLayout(l: string, b: string, m1: string, c: string, m2: string, a: string, t: string)
    ensures var p := l + b + m1 + c + m2 + a + t;
            && p[..|l|] == l
            && p[|l|..|l| + |b|] == b
            && p[|l| + |b|..|l| + |b| + |m1|] == m1
            && p[|l| + |b| + |m1|..|l| + |b| + |m1| + |c|] == c
            && p[|l| + |b| + |m1| + |c|..|l| + |b| + |m1| + |c| + |m2|] == m2
            && p[|l| + |b| + |m1| + |c| + |m2|..|l| + |b| + |m1| + |c| + |m2| + |a|] == a
            && p[|p| - |t|..] == t
  {
    var p := l + b + m1 + c + m2 + a + t;
    SliceOfJoin([], l, b + m1 + c + m2 + a + t);
    assert p == [] + l + (b + m1 + c + m2 + a + t);
    assert p == l + b + (m1 + c + m2 + a + t);
    SliceOfJoin(l, b, m1 + c + m2 + a + t);
    assert p == l + b + m1 + (c + m2 + a + t);
    SliceOfJoin(l + b, m1, c + m2 + a + t);
    assert p == l + b + m1 + c + (m2 + a + t);
    SliceOfJoin(l + b + m1, c, m2 + a + t);
    assert p == l + b + m1 + c + m2 + (a + t);
    SliceOfJoin(l + b + m1 + c, m2, a + t);
    SliceOfJoin(l + b + m1 + c + m2, a, t);
    SliceOfJoin(l + b + m1 + c + m2 + a, t, []);
    assert p == l + b + m1 + c + m2 + a + t + [];
  }

  /**
   * Reads the text between the prompt's opening curly quote and the first
   * closing curly quote after it; the partner of `Prompt` for the barcode.
   */
  function ExtractBarcode(p: string): (r: Option<string>)
    ensures r.Some? ==> CloseQuote !in r.value
    ensures r.Some? ==> |p| >= |PromptLead| && p[..|PromptLead|] == PromptLead && PromptLead + r.value + [CloseQuote] <= p
  {
    if |p| >= |PromptLead| && p[..|PromptLead|] == PromptLead then
      var r := UpToCloseQuote(p[|PromptLead|..]);
      if r.Some? then
        assert p == PromptLead + p[|PromptLead|..];
        r
      else None
    else None
  }

  /** The longest prefix of `s` free of closing quotes, if a closing quote follows it. */
  function UpToCloseQuote(s: string): (r: Option<string>)
    ensures r.Some? ==> CloseQuote !in r.value && r.value + [CloseQuote] <= s
    ensures r.None? ==> CloseQuote !in s
  {
    if s == [] then None
    else if s[0] == CloseQuote then Some([])
    else
      match UpToCloseQuote(s[1..])
      case None => None
      case Some(t) =>
        assert [s[0]] + t + [CloseQuote] == [s[0]] + (t + [CloseQuote]);
        Some([s[0]] + t)
  }

  lemma {:induction false} UpToCloseQuoteOf(b: string, rest: string)
    requires CloseQuote !in b
    ensures UpToCloseQuote(b + [CloseQuote] + rest) == Some(b)
  {
    var s := b + [CloseQuote] + rest;
    if b != [] {
      assert s[1..] == b[1..] + [CloseQuote] + rest;
      UpToCloseQuoteOf(b[1..], rest);
      assert [b[0]] + b[1..] == b;
    }
  }

  /** The join read from the end of its first piece, with the third piece's first character split off. */
  lemma {:induction false} JoinAfterLead(l: string, b: string, m1: string, c: string, m2: string, a: string, t: string)
    requires m1 != []
    ensures (l + b + m1 + c + m2 + a + t)[|l|..] == b + [m1[0]] + (m1[1..] + c + m2 + a + t)
  {
    assert m1 == [m1[0]] + m1[1..];
    assert l + b + m1 + c + m2 + a + t == l + (b + [m1[0]] + (m1[1..] + c + m2 + a + t));
  }

  /** A barcode free of closing curly quotes (every EAN code) is recovered from its prompt. */
  lemma {:induction false} PromptBarcodeRoundTrip(drugBarcode: string, allergies: string, conditions: string)
    requires CloseQuote !in drugBarcode
    ensures ExtractBarcode(Prompt(drugBarcode, allergies, conditions)) == Some(drugBarcode)
  {
    var p := Prompt(drugBarcode, allergies, conditions);
    JoinAfterLead(PromptLead, drugBarcode, PromptAfterBarcode, conditions, PromptAfterConditions, allergies, PromptTail);
    var rest := PromptAfterBarcode[1..] + conditions + PromptAfterConditions + allergies + PromptTail;
    assert p[|PromptLead|..] == drugBarcode + [CloseQuote] + rest;
    UpToCloseQuoteOf(drugBarcode, rest);
  }

  // ---------------------------------------------------------------------
  // Request body and request

  const MaxTokens: int := 300
  const ModelName: string := "anthropic/claude-3-sonnet"
  const Endpoint: string := "https://openrouter.ai/api/v1/chat/completions"

  datatype Message = Message(role: string, content: string)

  /** The JSON object `{ max_tokens, model, messages }`. */
  datatype RequestBody = RequestBody(maxTokens: int, model: string, messages: seq<Message>)

  datatype Header = Header(field: string, value: string)

  datatype Request = Request(httpMethod: string, url: string, headers: seq<Header>, body: RequestBody)

  /**
   * The request body: a fixed token bound and model, and one user message
   * whose content is the prompt for these inputs.
   */
  function RequestBodyFor(drugBarcode: string, allergies: string, conditions: string): (body: RequestBody)
    ensures body.maxTokens == 300 && body.model == "anthropic/claude-3-sonnet"
    ensures |body.messages| == 1 && body.messages[0].role == "user"
    ensures body.messages[0].content == Prompt(drugBarcode, allergies, conditions)
    ensures CloseQuote !in drugBarcode ==> ExtractBarcode(body.messages[0].content) == Some(drugBarcode)
  {
    var body := RequestBody(MaxTokens, ModelName, [Message("user", Prompt(drugBarcode, allergies, conditions))]);
    if CloseQuote in drugBarcode then body
    else PromptBarcodeRoundTrip(drugBarcode, allergies, conditions); body
  }

  /** The value of the first header named `field`, if any. */
  function HeaderValue(headers: seq<Header>, field: string): (r: Option<string>)
    ensures r.Some? <==> exists i :: 0 <= i < |headers| && headers[i].field == field
    ensures r.Some? ==> exists i :: 0 <= i < |headers| && headers[i] == Header(field, r.value)
  {
    if headers == [] then None
    else if headers[0].field == field then Some(headers[0].value)
    else
      var r := HeaderValue(headers[1..], field);
      assert forall i :: 1 <= i < |headers| ==> headers[i] == headers[1..][i - 1];
      r
  }

  const BearerPrefix: string := "Bearer "

  /** The token of a "Bearer <token>" Authorization header; the partner of `RequestFor`. */
  function BearerToken(headers: seq<Header>): (r: Option<string>)
    ensures r.Some? ==> HeaderValue(headers, "Authorization") == Some(BearerPrefix + r.value)
  {
    match HeaderValue(headers, "Authorization")
    case Some(v) =>
      if |v| >= |BearerPrefix| && v[..|BearerPrefix|] == BearerPrefix then
        assert v == BearerPrefix + v[|BearerPrefix|..];
        Some(v[|BearerPrefix|..])
      else None
    case None => None
  }

  /** The POST to the chat-completion endpoint, authorised by `apiKey`. */
  function RequestFor(apiKey: string, body: RequestBody): (r: Request)
    ensures r.httpMethod == "POST" && r.url == Endpoint && r.body == body
    ensures HeaderValue(r.headers, "Content-Type") == Some("application/json")
    ensures BearerToken(r.headers) == Some(apiKey)
  {
    var r := Request("POST", Endpoint,
                     [Header("Authorization", BearerPrefix + apiKey), Header("Content-Type", "application/json")],
                     body);
    assert r.headers[1..] == [Header("Content-Type", "application/json")];
    assert (BearerPrefix + apiKey)[..|BearerPrefix|] == BearerPrefix;
    assert (BearerPrefix + apiKey)[|BearerPrefix|..] == apiKey;
    r
  }

  // ---------------------------------------------------------------------
  // Response and the completion string

  datatype ChoiceMessage = ChoiceMessage(content: string)
  datatype Choice = Choice(message: ChoiceMessage)
  /** The decoded shape `{ choices: [ { message: { content } } ] }`. */
  datatype ClaudeAPIResponse = ClaudeAPIResponse(choices: seq<Choice>)

  /** What the data task delivers: no data, a body that does not decode, or a decoded body. */
  datatype ResponseOutcome = NoData | Undecodable | Decoded(response: ClaudeAPIResponse)

  const NoResponseText: string := "No response from server."
  const DecodeErrorText: string := "Decode error."
  const NoContentText: string := "Claude do not respond."

  /** The string the data task's handler passes to `completion`. */
  function CompletionText(outcome: ResponseOutcome): (text: string)
    ensures outcome.NoData? ==> text == "No response from server."
    ensures outcome.Undecodable? ==> text == "Decode error."
    ensures outcome.Decoded? && outcome.response.choices == [] ==> text == "Claude do not respond."
    ensures outcome.Decoded? && outcome.response.choices != [] ==>
              text == outcome.response.choices[0].message.content
  {
    match outcome
    case NoData => NoResponseText
    case Undecodable => DecodeErrorText
    case Decoded(response) =>
      if response.choices == [] then NoContentText else response.choices[0].message.content
  }

  /** Only the first choice matters: later choices never change the completion string. */
  lemma LaterChoicesIgnored(first: Choice, rest: seq<Choice>, other: seq<Choice>)
    ensures CompletionText(Decoded(ClaudeAPIResponse([first] + rest)))
         == CompletionText(Decoded(ClaudeAPIResponse([first] + other)))
         == first.message.content
  {
  }

  /**
   * The completion string does not tell the failure paths from a reply:
   * a model reply reading "Decode error." is handed over exactly as a
   * body that failed to decode.
   */
  lemma ReplyIndistinguishableFromDecodeError()
    ensures CompletionText(Decoded(ClaudeAPIResponse([Choice(ChoiceMessage(DecodeErrorText))])))
         == CompletionText(Undecodable)
  {
  }

  /**
   * The data task's handler, step by step: the guard on `data`, then the
   * decode inside do/catch. Every call of `completion` is recorded in
   * `calls`; exactly one happens on every path.
   */
  method HandleResponse(outcome: ResponseOutcome) returns (calls: seq<string>)
    ensures |calls| == 1
    ensures calls[0] == CompletionText(outcome)
  {
    calls := [];
    if outcome.NoData? {
      calls := calls + [NoResponseText];
      return;
    }
    if outcome.Undecodable? {
      calls := calls + [DecodeErrorText];
      return;
    }
    var decoded := outcome.response;
    if decoded.choices != [] {
      var reply := decoded.choices[0].message.content;
      calls := calls + [reply];
    } else {
      calls := calls + [NoContentText];
    }
  }

  // ---------------------------------------------------------------------
  // The Keychain entry

  const Service: string := "com.yourdrugs.app"
  const Account: string := "openrouter_api_key"

  /** Keychain items are keyed by (service, account). */
  type Slot = (string, string)

  const KeySlot: Slot := (Service, Account)

  /** What `getAPIKey` ends in: the key, or one of its two `fatalError` calls. */
  datatype KeyOutcome = ApiKey(key: string) | FatalNoKey | FatalReadError

  /** `getAPIKey` over the item map; `readOk` is false when the Keychain read throws. */
  function KeyLookup(items: map<Slot, string>, readOk: bool): (r: KeyOutcome)
    ensures r.FatalReadError? <==> !readOk
    ensures r.ApiKey? <==> readOk && KeySlot in items && items[KeySlot] != ""
    ensures r.ApiKey? ==> r.key == items[KeySlot] && r.key != ""
  {
    if !readOk then FatalReadError
    else if KeySlot in items && items[KeySlot] != "" then ApiKey(items[KeySlot])
    else FatalNoKey
  }

  /** The Keychain as seen by this app: a map from (service, account) to a string. */
  class Keychain {
    var items: map<Slot, string>

    constructor (initial: map<Slot, string>)
      ensures items == initial
    {
      items := initial;
    }

    /** `getAPIKey`: the stored key when present and non-empty, otherwise a fatal outcome. */
    method GetAPIKey(readOk: bool) returns (r: KeyOutcome)
      ensures r == KeyLookup(items, readOk)
      ensures r.ApiKey? ==> KeySlot in items && r.key == items[KeySlot] && r.key != ""
    {
      if !readOk {
        return FatalReadError;
      }
      if KeySlot in items {
        var apiKey := items[KeySlot];
        if apiKey != "" {
          return ApiKey(apiKey);
        }
      }
      return FatalNoKey;
    }

    /**
     * `storeApiKeyInKeychain`: overwrites the one entry; a failed write
     * (`writeOk` false) leaves the Keychain as it was.
     */
    method StoreApiKeyInKeychain(key: string, writeOk: bool)
      modifies this
      ensures writeOk ==> items == old(items)[KeySlot := key]
      ensures !writeOk ==> items == old(items)
    {
      if writeOk {
        items := items[KeySlot := key];
      }
    }
  }

  /** A key stored with a successful write is what the next read returns. */
  lemma StoreThenGet(items: map<Slot, string>, key: string)
    requires key != ""
    ensures KeyLookup(items[KeySlot := key], true) == ApiKey(key)
  {
  }

  /** Storing the empty string (an empty alert field) makes the next read fatal. */
  lemma StoreEmptyThenGet(items: map<Slot, string>)
    ensures KeyLookup(items[KeySlot := ""], true) == FatalNoKey
  {
  }

  // ---------------------------------------------------------------------
  // analyzeDrugSafety

  /**
   * One run of `analyzeDrugSafety`: either `getAPIKey` ended the process
   * before any request left, or the request was sent and `completion`
   * received the listed strings.
   */
  datatype AnalysisRun =
    | Crashed(reason: KeyOutcome)
    | Sent(request: Request, completions: seq<string>)

  /**
   * `analyzeDrugSafety` with the Keychain read outcome and the network
   * outcome as parameters.
   */
  method AnalyzeDrugSafety(keychain: Keychain, readOk: bool, drugBarcode: string, allergies: string,
                           conditions: string, outcome: ResponseOutcome)
    returns (run: AnalysisRun)
    ensures run.Crashed? <==> !KeyLookup(keychain.items, readOk).ApiKey?
    ensures run.Crashed? ==> run.reason == KeyLookup(keychain.items, readOk)
    ensures run.Sent? ==>
              run.request == RequestFor(KeyLookup(keychain.items, readOk).key,
                                        RequestBodyFor(drugBarcode, allergies, conditions))
    ensures run.Sent? ==> run.completions == [CompletionText(outcome)]
  {
    var body := RequestBodyFor(drugBarcode, allergies, conditions);
    var key := keychain.GetAPIKey(readOk);
    if !key.ApiKey? {
      return Crashed(key);
    }
    var request := RequestFor(key.key, body);
    var calls := HandleResponse(outcome);
    return Sent(request, calls);
  }
}
