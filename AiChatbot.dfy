/** The chat tab: the message list, sending a prompt with the earlier
    messages as history, the eligibility card and the automatic opening of a
    program for payment, the mock voice input, the avatar's fallback cascade,
    and the decoding of the reply audio into bytes. */
module AiChatbot {
  import opened Wrappers
  import opened Seqs
  import opened Strings
  import opened Types
  import GeminiService

  // ---------------------------------------------------------------------------
  // audio bytes

  /** The byte a `Uint8Array` stores for a character code: the code modulo
      256. */
  function ByteOf(c: char): bv8 {
    ((c as int) % 256) as bv8
  }

  /** `decode`, from the string `atob` returns: one byte per character, byte
      `i` the code of character `i`. */
  method Decode(binary: string) returns (bytes: array<bv8>)
    ensures fresh(bytes)
    ensures bytes.Length == |binary|
    ensures forall i :: 0 <= i < |binary| ==> bytes[i] == ByteOf(binary[i])
    ensures (forall i :: 0 <= i < |binary| ==> binary[i] as int < 256) ==>
              forall i :: 0 <= i < |binary| ==> bytes[i] as int == binary[i] as int
  {
    bytes := new bv8[|binary|];
    for i := 0 to |binary|
      invariant forall j :: 0 <= j < i ==> bytes[j] == ByteOf(binary[j])
    {
      bytes[i] := ByteOf(binary[i]);
    }
  }

  // ---------------------------------------------------------------------------
  // the avatar cascade

  datatype AvatarSrc = Primary | Secondary | Fallback

  const PrimaryUrl: string := "/malay_girl.glb"
  const SecondaryUrl: string := "https://modelviewer.dev/shared-assets/models/RobotExpressive.webp"
  const FallbackUrl: string := "https://api.dicebear.com/9.x/bottts/svg?seed=MBot"

  function Url(src: AvatarSrc): string {
    match src
    case Primary => PrimaryUrl
    case Secondary => SecondaryUrl
    case Fallback => FallbackUrl
  }

  /** `avatarSrc`, `imgError` and `useModelViewer`. */
  datatype Avatar = Avatar(src: AvatarSrc, imgError: bool, useModelViewer: bool)

  const InitialAvatar: Avatar := Avatar(Primary, false, true)

  /** The model viewer is on exactly while the primary source is in use,
      and the icon replaces only the last source. */
  predicate AvatarValid(a: Avatar) {
    (a.useModelViewer <==> a.src == Primary)
    && (a.imgError ==> a.src == Fallback)
  }

  /** The 3D viewer is shown for the primary model with the viewer on;
      otherwise an image, until every source has failed. */
  predicate ShowsModelViewer(a: Avatar) {
    !a.imgError && a.useModelViewer && a.src == Primary
  }

  predicate ShowsImage(a: Avatar) {
    !a.imgError && !(a.useModelViewer && a.src == Primary)
  }

  /** How far down the cascade the avatar is. */
  function AvatarRank(a: Avatar): nat {
    if a.imgError then 3 else match a.src
      case Primary => 0
      case Secondary => 1
      case Fallback => 2
  }

  /** The model viewer's `error` listener. */
  function ModelError(a: Avatar): (b: Avatar)
    requires ShowsModelViewer(a)
    ensures AvatarValid(b) && AvatarRank(b) == AvatarRank(a) + 1
    ensures b == Avatar(Secondary, false, false)
  {
    a.(useModelViewer := false, src := Secondary)
  }

  /** `handleImgError`, the image's `onError`. */
  function ImgError(a: Avatar): (b: Avatar)
    requires ShowsImage(a)
    ensures AvatarValid(a) ==> AvatarValid(b)
    ensures AvatarRank(b) == AvatarRank(a) + 1
    ensures a.src == Primary ==> b == Avatar(Secondary, false, false)
    ensures a.src == Secondary ==> b == a.(src := Fallback)
    ensures a.src == Fallback ==> b == a.(imgError := true)
  {
    if a.src == Primary then a.(useModelViewer := false, src := Secondary)
    else if a.src == Secondary then a.(src := Fallback)
    else a.(imgError := true)
  }

  /** In the states the cascade reaches, an image is only ever shown for the
      secondary or the fallback source, so the first branch of
      `handleImgError` is never taken. */
  lemma ImgErrorNeverSeesPrimary(a: Avatar)
    requires AvatarValid(a) && ShowsImage(a)
    ensures a.src != Primary
  {
  }

  /** A sequence of load failures. */
  datatype AvatarFailure = ModelFailed | ImageFailed

  /** The avatar after the failures in `fs`, skipping any that the current
      element could not raise. */
  function AvatarAfter(a: Avatar, fs: seq<AvatarFailure>): Avatar
    decreases |fs|
  {
    if fs == [] then a
    else
      var b := if fs[0] == ModelFailed && ShowsModelViewer(a) then ModelError(a)
               else if fs[0] == ImageFailed && ShowsImage(a) then ImgError(a)
               else a;
      AvatarAfter(b, fs[1..])
  }

  /** The cascade only moves forward, keeps the model viewer off once the
      primary source is left, and ends at the icon after at most three
      effective failures. */
  lemma {:induction false} AvatarForwardOnly(a: Avatar, fs: seq<AvatarFailure>)
    requires AvatarValid(a)
    ensures AvatarValid(AvatarAfter(a, fs))
    ensures AvatarRank(AvatarAfter(a, fs)) >= AvatarRank(a)
    ensures AvatarRank(AvatarAfter(a, fs)) <= AvatarRank(a) + |fs|
    decreases |fs|
  {
    if fs != [] {
      var b := if fs[0] == ModelFailed && ShowsModelViewer(a) then ModelError(a)
               else if fs[0] == ImageFailed && ShowsImage(a) then ImgError(a)
               else a;
      AvatarForwardOnly(b, fs[1..]);
    }
  }

  // ---------------------------------------------------------------------------
  // the conversation

  /** One history entry: `{ role, parts: [{ text }] }`. */
  datatype HistoryEntry = HistoryEntry(role: Role, text: string)

  function HistoryOf(m: ChatMessage): HistoryEntry {
    HistoryEntry(m.role, m.text)
  }

  /** The history sent with a prompt: the earlier messages, one entry each,
      in order. */
  function History(messages: seq<ChatMessage>): (h: seq<HistoryEntry>)
    ensures |h| == |messages|
    ensures forall i :: 0 <= i < |h| ==> h[i].role == messages[i].role && h[i].text == messages[i].text
  {
    Map(HistoryOf, messages)
  }

  /** The text a send uses: the override when it is a non-empty string, else
      the input box. */
  function TextToSend(textOverride: Option<string>, input: string): (t: string)
    ensures Truthy(textOverride) ==> t == textOverride.value
    ensures !Truthy(textOverride) ==> t == input
  {
    if Truthy(textOverride) then textOverride.value else input
  }

  /** The model's message for a reply: it carries the eligibility card
      exactly when the reply names a program. */
  function BotMessage(id: string, r: GeminiService.ChatResponse): (m: ChatMessage)
    ensures m.role == Model && m.text == r.text && m.relatedProgramId == r.relatedProgramId
    ensures m.isEligibilityCard == Some(Truthy(r.relatedProgramId))
  {
    ChatMessage(id, Model, r.text, Some(Truthy(r.relatedProgramId)), r.relatedProgramId)
  }

  /** A reply opens its program by itself only when it names one and asks for
      payment. */
  predicate AutoOpens(r: GeminiService.ChatResponse) {
    Truthy(r.relatedProgramId) && r.action == Payment
  }

  /** The prompt the mock voice input sends. */
  function MockPrompt(noMessages: bool): (p: string)
    ensures noMessages ==> p == "Check my STR eligibility status."
    ensures !noMessages ==> p == "Open QR payment."
  {
    if noMessages then "Check my STR eligibility status." else "Open QR payment."
  }

  /** A prompt awaiting its reply, with the history it was sent with. */
  datatype Request = Request(prompt: string, history: seq<HistoryEntry>)

  /** A pending voice send: the prompt fixed when listening started, and the
      message list the timer's closure holds. */
  datatype VoiceSend = VoiceSend(prompt: string, messages: seq<ChatMessage>)

  /** A call of `onOpenProgram(id, action)`. */
  datatype OpenCall = OpenCall(programId: string, action: WalletAction)

  /** The chat screen. `requests` are the prompts sent and not yet answered,
      `voiceSends` the pending 2000ms voice timers, `openTimers` the pending
      1500ms automatic openings, and `openCalls` the calls of `onOpenProgram`. */
  class Chatbot {
    var messages: seq<ChatMessage>
    var input: string
    var isListening: bool
    var isLoading: bool
    var avatar: Avatar
    var requests: seq<Request>
    var voiceSends: seq<VoiceSend>
    var openTimers: seq<OpenCall>
    var openCalls: seq<OpenCall>

    ghost predicate Valid()
      reads this
    {
      AvatarValid(avatar)
      && (forall i :: 0 <= i < |openTimers| ==> openTimers[i].action == Payment && openTimers[i].programId != "")
      && (forall i :: 0 <= i < |voiceSends| ==> voiceSends[i].prompt == MockPrompt(true) || voiceSends[i].prompt == MockPrompt(false))
    }

    constructor ()
      ensures Valid()
      ensures messages == [] && input == "" && !isListening && !isLoading && avatar == InitialAvatar
      ensures requests == [] && voiceSends == [] && openTimers == [] && openCalls == []
    {
      messages := [];
      input := "";
      isListening := false;
      isLoading := false;
      avatar := InitialAvatar;
      requests := [];
      voiceSends := [];
      openTimers := [];
      openCalls := [];
    }

    /** Typing into the box, or the "+" button clearing it. */
    method SetInput(v: string)
      requires Valid()
      modifies this
      ensures Valid()
      ensures input == v
      ensures messages == old(messages) && isListening == old(isListening) && isLoading == old(isLoading)
      ensures avatar == old(avatar) && requests == old(requests) && voiceSends == old(voiceSends)
      ensures openTimers == old(openTimers) && openCalls == old(openCalls)
    {
      input := v;
    }

    /** The synchronous part of `handleSend`, where `history` holds the
        messages the calling closure sees. A blank text changes nothing;
        otherwise the user message is appended, the input cleared, loading
        shown and the request sent with those messages as history. */
    method BeginSend(textOverride: Option<string>, history: seq<ChatMessage>, id: string)
      requires Valid()
      modifies this
      ensures Valid()
      ensures IsBlank(TextToSend(textOverride, old(input))) ==>
                messages == old(messages) && input == old(input) && isLoading == old(isLoading) && requests == old(requests)
      ensures !IsBlank(TextToSend(textOverride, old(input))) ==>
                messages == old(messages) + [ChatMessage(id, User, TextToSend(textOverride, old(input)), None, None)]
                && input == "" && isLoading
                && requests == old(requests) + [Request(TextToSend(textOverride, old(input)), History(history))]
      ensures isListening == old(isListening) && avatar == old(avatar) && voiceSends == old(voiceSends)
      ensures openTimers == old(openTimers) && openCalls == old(openCalls)
    {
      var text := if Truthy(textOverride) then textOverride.value else input;
      if !IsBlank(text) {
        messages := messages + [ChatMessage(id, User, text, None, None)];
        input := "";
        isLoading := true;
        requests := requests + [Request(text, Map(HistoryOf, history))];
      }
    }

    /** The send button or Enter: the screen's current messages are the
        history. */
    method Send(id: string)
      requires Valid()
      modifies this
      ensures Valid()
      ensures IsBlank(old(input)) ==> messages == old(messages) && isLoading == old(isLoading) && requests == old(requests)
      ensures !IsBlank(old(input)) ==>
                messages == old(messages) + [ChatMessage(id, User, old(input), None, None)]
                && input == "" && isLoading
                && requests == old(requests) + [Request(old(input), History(old(messages)))]
      ensures isListening == old(isListening) && avatar == old(avatar) && voiceSends == old(voiceSends)
      ensures openTimers == old(openTimers) && openCalls == old(openCalls)
    {
      BeginSend(None, messages, id);
    }

    /** A suggestion chip sends its text. */
    method SendSuggestion(text: string, id: string)
      requires Valid()
      requires |messages| == 0  // the chips are shown only before the chat starts
      modifies this
      ensures Valid()
      ensures !IsBlank(TextToSend(Some(text), old(input))) ==>
                messages == old(messages) + [ChatMessage(id, User, TextToSend(Some(text), old(input)), None, None)]
                && requests == old(requests) + [Request(TextToSend(Some(text), old(input)), History(old(messages)))]
      ensures IsBlank(TextToSend(Some(text), old(input))) ==> messages == old(messages) && requests == old(requests)
      ensures isListening == old(isListening) && avatar == old(avatar) && voiceSends == old(voiceSends)
      ensures openTimers == old(openTimers) && openCalls == old(openCalls)
    {
      BeginSend(Some(text), messages, id);
    }

    /** The reply to request `k` arrives: the model's message is appended,
        loading ends, and a payment reply naming a program schedules its
        opening. */
    method ReplyArrives(k: nat, r: GeminiService.ChatResponse, id: string)
      requires Valid() && k < |requests|
      modifies this
      ensures Valid()
      ensures messages == old(messages) + [BotMessage(id, r)]
      ensures !isLoading
      ensures requests == old(requests)[..k] + old(requests)[k + 1..]
      ensures AutoOpens(r) ==> openTimers == old(openTimers) + [OpenCall(r.relatedProgramId.value, Payment)]
      ensures !AutoOpens(r) ==> openTimers == old(openTimers)
      ensures input == old(input) && isListening == old(isListening) && avatar == old(avatar)
      ensures voiceSends == old(voiceSends) && openCalls == old(openCalls)
    {
      messages := messages + [BotMessage(id, r)];
      isLoading := false;
      requests := requests[..k] + requests[k + 1..];
      if AutoOpens(r) {
        openTimers := openTimers + [OpenCall(r.relatedProgramId.value, r.action)];
      }
    }

    /** A 1500ms opening timer fires and calls `onOpenProgram`. */
    method OpenTimerFires(k: nat)
      requires Valid() && k < |openTimers|
      modifies this
      ensures Valid()
      ensures openCalls == old(openCalls) + [old(openTimers)[k]]
      ensures openTimers == old(openTimers)[..k] + old(openTimers)[k + 1..]
      ensures messages == old(messages) && input == old(input) && isListening == old(isListening)
      ensures isLoading == old(isLoading) && avatar == old(avatar) && requests == old(requests)
      ensures voiceSends == old(voiceSends)
    {
      openCalls := openCalls + [openTimers[k]];
      openTimers := openTimers[..k] + openTimers[k + 1..];
    }

    /** The card's Open Wallet button opens its program for viewing. */
    method OpenWalletClick(k: nat)
      requires Valid() && k < |messages| && messages[k].isEligibilityCard == Some(true)
      modifies this
      ensures Valid()
      ensures Truthy(old(messages[k]).relatedProgramId) ==>
                openCalls == old(openCalls) + [OpenCall(old(messages[k]).relatedProgramId.value, View)]
      ensures !Truthy(old(messages[k]).relatedProgramId) ==> openCalls == old(openCalls)
      ensures messages == old(messages) && input == old(input) && isListening == old(isListening)
      ensures isLoading == old(isLoading) && avatar == old(avatar) && requests == old(requests)
      ensures voiceSends == old(voiceSends) && openTimers == old(openTimers)
    {
      if Truthy(messages[k].relatedProgramId) {
        openCalls := openCalls + [OpenCall(messages[k].relatedProgramId.value, View)];
      }
    }

    /** The microphone button. While listening it only stops listening; the
        pending voice send is not cancelled. Otherwise listening starts and a
        voice send is scheduled with the prompt the current messages
        select. */
    method ToggleListening()
      requires Valid()
      requires IsBlank(input)  // the microphone button replaces send while the input is blank
      modifies this
      ensures Valid()
      ensures old(isListening) ==> !isListening && voiceSends == old(voiceSends)
      ensures !old(isListening) ==>
                isListening && voiceSends == old(voiceSends) + [VoiceSend(MockPrompt(|old(messages)| == 0), old(messages))]
      ensures messages == old(messages) && input == old(input) && isLoading == old(isLoading)
      ensures avatar == old(avatar) && requests == old(requests)
      ensures openTimers == old(openTimers) && openCalls == old(openCalls)
    {
      if isListening {
        isListening := false;
      } else {
        isListening := true;
        voiceSends := voiceSends + [VoiceSend(if |messages| == 0 then "Check my STR eligibility status." else "Open QR payment.", messages)];
      }
    }

    /** A voice timer fires: listening stops and its prompt is sent, with the
        messages its closure captured as history. */
    method VoiceTimerFires(k: nat, id: string)
      requires Valid() && k < |voiceSends|
      modifies this
      ensures Valid()
      ensures !isListening
      ensures voiceSends == old(voiceSends)[..k] + old(voiceSends)[k + 1..]
      ensures messages == old(messages) + [ChatMessage(id, User, old(voiceSends)[k].prompt, None, None)]
      ensures requests == old(requests) + [Request(old(voiceSends)[k].prompt, History(old(voiceSends)[k].messages))]
      ensures input == "" && isLoading
      ensures avatar == old(avatar) && openTimers == old(openTimers) && openCalls == old(openCalls)
    {
      var v := voiceSends[k];
      var rest := voiceSends[..k] + voiceSends[k + 1..];
      assert forall i :: 0 <= i < |rest| ==> rest[i] == voiceSends[if i < k then i else i + 1];
      voiceSends := rest;
      isListening := false;
      assert !IsBlank(v.prompt) by {
        VoicePromptNotBlank(v.prompt);
      }
      assert TextToSend(Some(v.prompt), input) == v.prompt;
      BeginSend(Some(v.prompt), v.messages, id);
    }

    /** The model viewer reports a load failure. */
    method ModelViewerError()
      requires Valid() && ShowsModelViewer(avatar)
      modifies this
      ensures Valid()
      ensures avatar == ModelError(old(avatar))
      ensures messages == old(messages) && input == old(input) && isListening == old(isListening)
      ensures isLoading == old(isLoading) && requests == old(requests) && voiceSends == old(voiceSends)
      ensures openTimers == old(openTimers) && openCalls == old(openCalls)
    {
      avatar := avatar.(useModelViewer := false, src := Secondary);
    }

    /** The avatar image fails to load. */
    method ImageError()
      requires Valid() && ShowsImage(avatar)
      modifies this
      ensures Valid()
      ensures avatar == ImgError(old(avatar))
      ensures messages == old(messages) && input == old(input) && isListening == old(isListening)
      ensures isLoading == old(isLoading) && requests == old(requests) && voiceSends == old(voiceSends)
      ensures openTimers == old(openTimers) && openCalls == old(openCalls)
    {
      avatar := ImgError(avatar);
    }
  }

  /** The mock prompts are never blank, so a voice send always sends. */
  lemma VoicePromptNotBlank(p: string)
    requires p == MockPrompt(true) || p == MockPrompt(false)
    ensures !IsBlank(p)
  {
    TrimEmptyIff(p);
    assert !IsWhitespace(p[0]);
  }

  /** Stopping the microphone does not stop the voice send: two seconds
      after listening started the prompt is still sent. */
  method StopDoesNotCancel() returns (c: Chatbot)
    ensures |c.messages| == 1 && c.messages[0].text == "Check my STR eligibility status."
    ensures !c.isListening
  {
    c := new Chatbot();
    c.ToggleListening();
    c.ToggleListening();
    c.VoiceTimerFires(0, "1");
  }
}
