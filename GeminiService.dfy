/** The chat service: the API-key check, the reply's link to a subsidy
    program and to the payment screen, the answers sent back for the model's
    PADU database calls, the mapping of failures to user-facing replies, and
    the guard on speech generation. The calls into the Gemini SDK are inputs:
    the model's reply (or the error it threw) for each message sent. */
module GeminiService {
  import opened Wrappers
  import opened Seqs
  import opened Strings
  import opened Types

  // ---------------------------------------------------------------------------
  // API key

  const PlaceholderKey: string := "your_api_key_here"

  /** `process.env.API_KEY || process.env.GEMINI_API_KEY || ''`. */
  function EffectiveApiKey(apiKeyEnv: Option<string>, geminiKeyEnv: Option<string>): (k: string)
    ensures Truthy(apiKeyEnv) ==> k == apiKeyEnv.value
    ensures !Truthy(apiKeyEnv) && Truthy(geminiKeyEnv) ==> k == geminiKeyEnv.value
    ensures !Truthy(apiKeyEnv) && !Truthy(geminiKeyEnv) ==> k == ""
  {
    if Truthy(apiKeyEnv) then apiKeyEnv.value
    else if Truthy(geminiKeyEnv) then geminiKeyEnv.value
    else ""
  }

  /** The test made at start-up and again when a request fails. */
  predicate ApiKeyMissing(apiKey: string) {
    apiKey == "" || apiKey == PlaceholderKey || Trim(apiKey) == ""
  }

  /** A key is missing exactly when it is the placeholder or has no
      non-whitespace character; the empty-string test is subsumed. */
  lemma ApiKeyMissingIff(apiKey: string)
    ensures ApiKeyMissing(apiKey) <==> apiKey == PlaceholderKey || AllWhitespace(apiKey)
  {
    TrimEmptyIff(apiKey);
  }

  /** With neither variable set the key is missing. */
  lemma UnsetKeyIsMissing(apiKeyEnv: Option<string>, geminiKeyEnv: Option<string>)
    requires !Truthy(apiKeyEnv) && !Truthy(geminiKeyEnv)
    ensures ApiKeyMissing(EffectiveApiKey(apiKeyEnv, geminiKeyEnv))
  {
  }

  // ---------------------------------------------------------------------------
  // Linking a reply to a program

  const StrKeywords: seq<string> := ["str", "tunai", "cash"]
  const SaraKeywords: seq<string> := ["sara", "asas", "groceries", "makanan"]
  const BudiKeywords: seq<string> := ["budi", "petrol", "diesel", "fuel"]
  const PaymentKeywords: seq<string> := ["qr", "code", "pay", "scan", "bayar"]
  const PromptSaraKeywords: seq<string> := ["sara", "groceries"]
  const PromptBudiKeywords: seq<string> := ["petrol", "budi", "fuel"]

  /** Some keyword of `ks` occurs in `s`. */
  predicate ContainsAny(s: string, ks: seq<string>) {
    exists i :: 0 <= i < |ks| && Contains(s, ks[i])
  }

  /** The programs a reply can name, in priority order, with their keywords. */
  const ReplyTable: seq<(seq<string>, string)> :=
    [(StrKeywords, "str"), (SaraKeywords, "sara"), (BudiKeywords, "budi95")]

  /** The programs a prompt can name when the reply asks for payment without
      naming one. */
  const PromptTable: seq<(seq<string>, string)> :=
    [(PromptSaraKeywords, "sara"), (PromptBudiKeywords, "budi95")]

  /** The first row of a priority table one of whose keywords occurs in `s`. */
  function FirstMatch(s: string, table: seq<(seq<string>, string)>): (r: Option<string>)
    ensures r.None? <==> forall i :: 0 <= i < |table| ==> !ContainsAny(s, table[i].0)
    ensures r.Some? ==> exists i :: 0 <= i < |table| && ContainsAny(s, table[i].0) && r.value == table[i].1
                                    && forall j :: 0 <= j < i ==> !ContainsAny(s, table[j].0)
    decreases |table|
  {
    if table == [] then None
    else if ContainsAny(s, table[0].0) then Some(table[0].1)
    else
      var r := FirstMatch(s, table[1..]);
      assert forall i :: 1 <= i < |table| ==> table[i] == table[1..][i - 1];
      if r.Some? then
        ghost var i :| 0 <= i < |table[1..]| && ContainsAny(s, table[1..][i].0) && r.value == table[1..][i].1
                        && forall j :: 0 <= j < i ==> !ContainsAny(s, table[1..][j].0);
        assert table[i + 1] == table[1..][i];
        r
      else r
  }

  /** The program named by a reply, by the fixed priority str, sara, budi95. */
  lemma ReplyPriority(lowerText: string)
    ensures ContainsAny(lowerText, StrKeywords) ==> FirstMatch(lowerText, ReplyTable) == Some("str")
    ensures !ContainsAny(lowerText, StrKeywords) && ContainsAny(lowerText, SaraKeywords) ==>
              FirstMatch(lowerText, ReplyTable) == Some("sara")
    ensures !ContainsAny(lowerText, StrKeywords) && !ContainsAny(lowerText, SaraKeywords) && ContainsAny(lowerText, BudiKeywords) ==>
              FirstMatch(lowerText, ReplyTable) == Some("budi95")
    ensures FirstMatch(lowerText, ReplyTable).None? <==>
              !ContainsAny(lowerText, StrKeywords) && !ContainsAny(lowerText, SaraKeywords) && !ContainsAny(lowerText, BudiKeywords)
  {
    var t1 := ReplyTable[1..];
    var t2 := t1[1..];
    assert t1 == [(SaraKeywords, "sara"), (BudiKeywords, "budi95")];
    assert t2 == [(BudiKeywords, "budi95")];
    assert t2[1..] == [];
    assert FirstMatch(lowerText, t2) == if ContainsAny(lowerText, BudiKeywords) then Some("budi95") else None;
    assert FirstMatch(lowerText, t1) == if ContainsAny(lowerText, SaraKeywords) then Some("sara") else FirstMatch(lowerText, t2);
  }

  /** The fallback program of a payment reply: sara, then budi95, else str. */
  function PromptProgram(lowerPrompt: string): (id: string)
    ensures id == "sara" <==> ContainsAny(lowerPrompt, PromptSaraKeywords)
    ensures id == "budi95" <==> !ContainsAny(lowerPrompt, PromptSaraKeywords) && ContainsAny(lowerPrompt, PromptBudiKeywords)
    ensures id == "str" <==> !ContainsAny(lowerPrompt, PromptSaraKeywords) && !ContainsAny(lowerPrompt, PromptBudiKeywords)
  {
    var t1 := PromptTable[1..];
    assert t1 == [(PromptBudiKeywords, "budi95")];
    assert t1[1..] == [];
    assert FirstMatch(lowerPrompt, t1) == if ContainsAny(lowerPrompt, PromptBudiKeywords) then Some("budi95") else None;
    FirstMatch(lowerPrompt, PromptTable).GetOr("str")
  }

  lemma ContainsAny3(s: string, a: string, b: string, c: string)
    ensures ContainsAny(s, [a, b, c]) <==> Contains(s, a) || Contains(s, b) || Contains(s, c)
  {
    var ks := [a, b, c];
    assert ks[0] == a && ks[1] == b && ks[2] == c;
  }

  lemma ContainsAny4(s: string, a: string, b: string, c: string, d: string)
    ensures ContainsAny(s, [a, b, c, d]) <==> Contains(s, a) || Contains(s, b) || Contains(s, c) || Contains(s, d)
  {
    var ks := [a, b, c, d];
    assert ks[0] == a && ks[1] == b && ks[2] == c && ks[3] == d;
  }

  lemma ContainsAny5(s: string, a: string, b: string, c: string, d: string, e: string)
    ensures ContainsAny(s, [a, b, c, d, e]) <==> Contains(s, a) || Contains(s, b) || Contains(s, c) || Contains(s, d) || Contains(s, e)
  {
    var ks := [a, b, c, d, e];
    assert ks[0] == a && ks[1] == b && ks[2] == c && ks[3] == d && ks[4] == e;
  }

  lemma ContainsAny2(s: string, a: string, b: string)
    ensures ContainsAny(s, [a, b]) <==> Contains(s, a) || Contains(s, b)
  {
    var ks := [a, b];
    assert ks[0] == a && ks[1] == b;
  }

  /** The heuristic that links a reply to a program and to the payment
      screen, written as the source's chain of assignments. */
  method DetectProgramAndAction(prompt: string, text: string) returns (relatedProgramId: Option<string>, action: WalletAction)
    ensures action == Payment <==> ContainsAny(ToLower(text), PaymentKeywords)
    ensures relatedProgramId ==
              (var fromReply := FirstMatch(ToLower(text), ReplyTable);
               if fromReply.None? && action == Payment then Some(PromptProgram(ToLower(prompt))) else fromReply)
    ensures action == Payment ==> relatedProgramId.Some?
    ensures relatedProgramId.Some? ==> relatedProgramId.value in {"str", "sara", "budi95"}
    ensures FirstMatch(ToLower(text), ReplyTable).Some? ==> relatedProgramId == FirstMatch(ToLower(text), ReplyTable)
  {
    relatedProgramId := None;
    action := View;
    var lowerText := ToLower(text);

    if Contains(lowerText, "str") || Contains(lowerText, "tunai") || Contains(lowerText, "cash") {
      relatedProgramId := Some("str");
    } else if Contains(lowerText, "sara") || Contains(lowerText, "asas") || Contains(lowerText, "groceries") || Contains(lowerText, "makanan") {
      relatedProgramId := Some("sara");
    } else if Contains(lowerText, "budi") || Contains(lowerText, "petrol") || Contains(lowerText, "diesel") || Contains(lowerText, "fuel") {
      relatedProgramId := Some("budi95");
    }

    if Contains(lowerText, "qr") || Contains(lowerText, "code") || Contains(lowerText, "pay") || Contains(lowerText, "scan") || Contains(lowerText, "bayar") {
      action := Payment;
    }

    if relatedProgramId.None? && action == Payment {
      var lowerPrompt := ToLower(prompt);
      if Contains(lowerPrompt, "sara") || Contains(lowerPrompt, "groceries") {
        relatedProgramId := Some("sara");
      } else if Contains(lowerPrompt, "petrol") || Contains(lowerPrompt, "budi") || Contains(lowerPrompt, "fuel") {
        relatedProgramId := Some("budi95");
      } else {
        relatedProgramId := Some("str");
      }
      ContainsAny2(lowerPrompt, "sara", "groceries");
      ContainsAny3(lowerPrompt, "petrol", "budi", "fuel");
    }

    ContainsAny3(lowerText, "str", "tunai", "cash");
    ContainsAny4(lowerText, "sara", "asas", "groceries", "makanan");
    ContainsAny4(lowerText, "budi", "petrol", "diesel", "fuel");
    ContainsAny5(lowerText, "qr", "code", "pay", "scan", "bayar");
    ReplyPriority(lowerText);
  }

  // ---------------------------------------------------------------------------
  // PADU database calls

  const PaduFunctionName: string := "checkPaduDatabase"

  /** A function call the model requested. */
  datatype FunctionCall = FunctionCall(id: Option<string>, name: string, icNumber: Option<string>)

  /** The mock PADU record: always a success for the mock profile, stamped
      with the current date. */
  datatype PaduData = PaduData(status: string, verified: bool, lastUpdated: string, message: string)

  /** The `functionResponse` part answering one call. */
  datatype FunctionResponse = FunctionResponse(id: Option<string>, name: string, result: PaduData)

  predicate IsPaduCall(c: FunctionCall) {
    c.name == PaduFunctionName
  }

  /** `checkPaduDatabase`: the date is the part of the ISO timestamp before
      `T`; the IC number argument does not change the record. */
  function CheckPaduDatabase(nowIso: string): (d: PaduData)
    ensures d.status == "success" && d.verified
    ensures 'T' !in d.lastUpdated
    ensures StartsWith(nowIso, d.lastUpdated)
    ensures |d.lastUpdated| < |nowIso| ==> nowIso[|d.lastUpdated|] == 'T'
  {
    var k := IndexOf(nowIso, 'T');
    assert Split(nowIso, 'T')[0] == nowIso[..k];
    PaduData("success", true, Split(nowIso, 'T')[0], "Data successfully retrieved from PADU.")
  }

  /** For a timestamp `date` + `T` + `time`, the record carries `date`. */
  lemma PaduDateOfIso(date: string, time: string)
    requires 'T' !in date
    ensures CheckPaduDatabase(date + "T" + time).lastUpdated == date
  {
    assert date + "T" + time == date + ['T'] + time;
    SplitCons(date, 'T', time);
  }

  function ResponseFor(nowIso: string, c: FunctionCall): FunctionResponse {
    FunctionResponse(c.id, c.name, CheckPaduDatabase(nowIso))
  }

  /** The answers to the PADU calls among `calls`, one per such call, in
      call order. */
  function PaduResponses(calls: seq<FunctionCall>, nowIso: string): seq<FunctionResponse> {
    Map((c: FunctionCall) => ResponseFor(nowIso, c), Filter(IsPaduCall, calls))
  }

  /** The loop over the requested calls. */
  method BuildFunctionResponses(calls: seq<FunctionCall>, nowIso: string) returns (parts: seq<FunctionResponse>)
    ensures parts == PaduResponses(calls, nowIso)
  {
    parts := [];
    for i := 0 to |calls|
      invariant parts == PaduResponses(calls[..i], nowIso)
    {
      assert calls[..i + 1] == calls[..i] + [calls[i]];
      FilterAppend(IsPaduCall, calls[..i], [calls[i]]);
      if calls[i].name == PaduFunctionName {
        parts := parts + [FunctionResponse(calls[i].id, calls[i].name, CheckPaduDatabase(nowIso))];
      }
    }
    assert calls[..|calls|] == calls;
  }

  /** Every answer carries the id and name of a PADU call, and the answers
      follow the calls' order: each PADU call is answered once. */
  lemma PaduResponsesMatchCalls(calls: seq<FunctionCall>, nowIso: string)
    ensures |PaduResponses(calls, nowIso)| == |Filter(IsPaduCall, calls)|
    ensures forall k :: 0 <= k < |PaduResponses(calls, nowIso)| ==>
              PaduResponses(calls, nowIso)[k].name == PaduFunctionName
              && PaduResponses(calls, nowIso)[k].id == Filter(IsPaduCall, calls)[k].id
    ensures SubsequenceOf(Filter(IsPaduCall, calls), calls)
    ensures PaduResponses(calls, nowIso) == [] <==> forall i :: 0 <= i < |calls| ==> calls[i].name != PaduFunctionName
  {
    FilterSubsequence(IsPaduCall, calls);
    FilterEmptyIff(IsPaduCall, calls);
  }

  // ---------------------------------------------------------------------------
  // Replies and failures

  /** The grounding metadata the SDK attaches; its contents are not looked at. */
  datatype Grounding = Grounding(raw: string)

  /** What one `sendMessage` produced. */
  datatype SdkReply = SdkReply(text: Option<string>, functionCalls: Option<seq<FunctionCall>>, grounding: Option<Grounding>)

  /** The fields of a thrown error that the handler reads: `message`,
      `status`, `error.code`, `error.message` and the `retryDelay` of the
      first `RetryInfo` detail. */
  datatype ApiError = ApiError(
    message: Option<string>,
    status: Option<int>,
    innerCode: Option<int>,
    innerMessage: Option<string>,
    retryDelay: Option<string>)

  datatype SdkOutcome = Replied(reply: SdkReply) | Threw(error: ApiError)

  /** What the speech model produced: its audio part's data, or a throw. */
  datatype TtsOutcome = TtsData(data: Option<string>) | TtsThrew

  /** The value handed back to the chat screen. */
  datatype ChatResponse = ChatResponse(
    text: string,
    grounding: Option<Grounding>,
    audioData: Option<string>,
    relatedProgramId: Option<string>,
    action: WalletAction)

  /** `generateSpeech`: no request for empty text; any failure, or an empty
      audio part, gives no audio. */
  function GenerateSpeech(text: string, tts: TtsOutcome): (r: Option<string>)
    ensures text == "" ==> r.None?
    ensures r.Some? ==> tts == TtsData(r) && r.value != ""
    ensures text != "" && tts.TtsData? && Truthy(tts.data) ==> r == tts.data
  {
    if text == "" then None
    else match tts
      case TtsThrew => None
      case TtsData(d) => if Truthy(d) then d else None
  }

  datatype ErrorKind = MissingKey | AuthFailed | QuotaExceeded | NetworkFailed | GenericFailure

  /** `error?.message?.includes(sub)`: false when there is no message. */
  predicate MessageHas(e: ApiError, sub: string) {
    e.message.Some? && Contains(e.message.value, sub)
  }

  predicate IsAuthError(e: ApiError) {
    MessageHas(e, "API_KEY") || e.status == Some(401) || e.status == Some(403)
  }

  predicate IsQuotaError(e: ApiError) {
    e.status == Some(429) || e.innerCode == Some(429) || MessageHas(e, "quota") || MessageHas(e, "RESOURCE_EXHAUSTED")
  }

  predicate IsNetworkError(e: ApiError) {
    MessageHas(e, "fetch") || MessageHas(e, "network") || MessageHas(e, "CORS")
  }

  /** The first test in the handler's order that the failure meets. */
  function ClassifyError(apiKey: string, e: ApiError): (k: ErrorKind)
    ensures k == MissingKey <==> ApiKeyMissing(apiKey)
    ensures k == AuthFailed <==> !ApiKeyMissing(apiKey) && IsAuthError(e)
    ensures k == QuotaExceeded <==> !ApiKeyMissing(apiKey) && !IsAuthError(e) && IsQuotaError(e)
    ensures k == NetworkFailed <==> !ApiKeyMissing(apiKey) && !IsAuthError(e) && !IsQuotaError(e) && IsNetworkError(e)
    ensures k == GenericFailure <==> !ApiKeyMissing(apiKey) && !IsAuthError(e) && !IsQuotaError(e) && !IsNetworkError(e)
  {
    if ApiKeyMissing(apiKey) then MissingKey
    else if IsAuthError(e) then AuthFailed
    else if IsQuotaError(e) then QuotaExceeded
    else if IsNetworkError(e) then NetworkFailed
    else GenericFailure
  }

  const MissingKeyText: string := "Sorry, API key belum setup lagi. Please add your GEMINI_API_KEY to .env.local file."
  const AuthFailedText: string := "API key invalid atau expired. Please check your GEMINI_API_KEY in .env.local file."
  const QuotaTextPrefix: string := "Sorry lah, API quota sudah habis untuk hari ni. Free tier limit is 20 requests per day. Please try again tomorrow or upgrade your API plan. Wait time: "
  const NetworkFailedText: string := "Network error. Please check your internet connection and try again."
  const GenericPrefix: string := "Alamak, ada error. "
  const GenericQuotaText: string := "API quota exceeded. Please try again later."
  const GenericRetryText: string := "Try again sekejap lagi okay?"

  /** `error?.error?.message || error?.message || 'Unknown error'`. */
  function GenericErrorMessage(e: ApiError): (m: string)
    ensures Truthy(e.innerMessage) ==> m == e.innerMessage.value
    ensures !Truthy(e.innerMessage) && Truthy(e.message) ==> m == e.message.value
    ensures m != ""
  {
    if Truthy(e.innerMessage) then e.innerMessage.value
    else if Truthy(e.message) then e.message.value
    else "Unknown error"
  }

  /** The text of the reply for a failure. */
  function ErrorText(apiKey: string, e: ApiError): string {
    match ClassifyError(apiKey, e)
    case MissingKey => MissingKeyText
    case AuthFailed => AuthFailedText
    case QuotaExceeded => QuotaTextPrefix + (if Truthy(e.retryDelay) then e.retryDelay.value else "a few minutes")
    case NetworkFailed => NetworkFailedText
    case GenericFailure =>
      GenericPrefix + (if Contains(GenericErrorMessage(e), "quota") then GenericQuotaText else GenericRetryText)
  }

  /** The reply for a failure: never linked to a program, never opening
      payment, without audio or grounding. */
  function ErrorResponse(apiKey: string, e: ApiError): (r: ChatResponse)
    ensures r.relatedProgramId.None? && r.action == View
    ensures r.audioData.None? && r.grounding.None?
    ensures r.text == ErrorText(apiKey, e)
  {
    ChatResponse(ErrorText(apiKey, e), None, None, None, View)
  }

  /** The generic reply mentions the quota only when the inner error message
      does, since a top-level message mentioning it is caught earlier as a
      quota failure. */
  lemma GenericQuotaComesFromInnerMessage(apiKey: string, e: ApiError)
    requires ClassifyError(apiKey, e) == GenericFailure
    ensures ErrorText(apiKey, e) == GenericPrefix + GenericQuotaText ==>
              Truthy(e.innerMessage) && Contains(e.innerMessage.value, "quota")
  {
    var m := GenericErrorMessage(e);
    if !Contains(m, "quota") {
      assert ErrorText(apiKey, e) == GenericPrefix + GenericRetryText;
      assert (GenericPrefix + GenericRetryText)[|GenericPrefix|] == 'T';
      assert (GenericPrefix + GenericQuotaText)[|GenericPrefix|] == 'A';
    } else if !Truthy(e.innerMessage) {
      assert !MessageHas(e, "quota");
      MissingFirstChar("Unknown error", "quota");
    }
  }

  /** The quota reply quotes the retry delay when the error carries one. */
  lemma QuotaReplyQuotesDelay(apiKey: string, e: ApiError)
    requires ClassifyError(apiKey, e) == QuotaExceeded
    ensures StartsWith(ErrorText(apiKey, e), QuotaTextPrefix)
    ensures Truthy(e.retryDelay) ==> EndsWith(ErrorText(apiKey, e), e.retryDelay.value)
  {
    var d := if Truthy(e.retryDelay) then e.retryDelay.value else "a few minutes";
    assert (QuotaTextPrefix + d)[..|QuotaTextPrefix|] == QuotaTextPrefix;
    assert (QuotaTextPrefix + d)[|QuotaTextPrefix + d| - |d|..] == d;
  }

  /** The model's requested calls, none when the reply has no list. */
  function CallsOf(reply: SdkReply): seq<FunctionCall> {
    reply.functionCalls.GetOr([])
  }

  /** `generateChatResponse`: the first `sendMessage` gives `first`; when it
      asks for PADU data the answers are sent back and `second` is the model's
      final reply. `followUp` is the message of the second send, if made. */
  method GenerateChatResponse(apiKey: string, prompt: string, first: SdkOutcome, second: SdkOutcome, tts: TtsOutcome, nowIso: string)
    returns (resp: ChatResponse, followUp: Option<seq<FunctionResponse>>)
    ensures followUp.Some? <==> first.Replied? && PaduResponses(CallsOf(first.reply), nowIso) != []
    ensures followUp.Some? ==> followUp.value == PaduResponses(CallsOf(first.reply), nowIso)
    ensures first.Threw? ==> resp == ErrorResponse(apiKey, first.error)
    ensures followUp.Some? && second.Threw? ==> resp == ErrorResponse(apiKey, second.error)
    ensures resp.action == Payment ==> resp.relatedProgramId.Some?
    ensures (followUp.Some? && second.Replied?) || (first.Replied? && followUp.None?) ==>
              var final := if followUp.Some? then second.reply else first.reply;
              var text := final.text.GetOr("");
              resp.text == text && resp.grounding == final.grounding
              && resp.audioData == GenerateSpeech(text, tts)
              && (resp.action == Payment <==> ContainsAny(ToLower(text), PaymentKeywords))
              && resp.relatedProgramId ==
                   (var fromReply := FirstMatch(ToLower(text), ReplyTable);
                    if fromReply.None? && resp.action == Payment then Some(PromptProgram(ToLower(prompt))) else fromReply)
  {
    followUp := None;
    if first.Threw? {
      resp := ErrorResponse(apiKey, first.error);
      return;
    }
    var result := first.reply;
    var calls := CallsOf(result);
    if |calls| > 0 {
      var parts := BuildFunctionResponses(calls, nowIso);
      if |parts| > 0 {
        followUp := Some(parts);
        if second.Threw? {
          resp := ErrorResponse(apiKey, second.error);
          return;
        }
        result := second.reply;
      }
    } else {
      assert PaduResponses(calls, nowIso) == [];
    }
    var text := result.text.GetOr("");
    var relatedProgramId, action := DetectProgramAndAction(prompt, text);
    var audio := GenerateSpeech(text, tts);
    resp := ChatResponse(text, result.grounding, audio, relatedProgramId, action);
  }
}
