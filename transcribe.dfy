/** The transcription route: validates the uploaded tracks, picks the
    prompt, builds the request payload, and tries a fixed list of models in
    order until one answers. The answers of the model service are given as
    one outcome per model. */
module Transcribe {
  import opened Wrappers
  import Text
  import Base64

  /** Which prompt the request carries: both tracks, the user's only, or
      the assistant's only. */
  datatype Prompt = PromptBoth | PromptSingleUser | PromptSingleAI

  /** A part of the request: the prompt text, or an inline WAV track in
      base64. */
  datatype Part = PromptPart(prompt: Prompt) | InlineAudio(mimeType: string, data: string)

  datatype ModelAttempt = ModelAttempt(version: string, model: string)

  const ModelAttempts: seq<ModelAttempt> := [
    ModelAttempt("v1beta", "gemini-2.0-flash-exp"),
    ModelAttempt("v1beta", "gemini-1.5-pro-002"),
    ModelAttempt("v1beta", "gemini-1.5-flash-002"),
    ModelAttempt("v1beta", "gemini-1.5-flash")
  ]

  /** The parsed JSON of an answer: `null`, or an object whose
      `candidates[0].content.parts[0].text` may be missing. */
  datatype Body = NullBody | Body(firstText: Option<string>)

  /** What one model call yields: an ok answer with its body, an HTTP error
      with its status and text, or a thrown error (a network failure or a
      body that is not JSON) with its text. */
  datatype Outcome = Answered(body: Body) | HttpError(status: int, text: string) | Threw(message: string)

  datatype TranscribeReply =
    | Transcript(transcript: string)
    | Failed(status: int, error: string, details: string)

  /** The uploaded form: each track's bytes if it was supplied. */
  datatype Form = Form(userAudio: Option<seq<Base64.Byte>>, aiAudio: Option<seq<Base64.Byte>>)

  /** The prompt for the tracks supplied. */
  function ChoosePrompt(form: Form): (p: Prompt)
    requires form.userAudio.Some? || form.aiAudio.Some?
    ensures p == PromptBoth <==> form.userAudio.Some? && form.aiAudio.Some?
    ensures p == PromptSingleUser <==> form.userAudio.Some? && form.aiAudio.None?
    ensures p == PromptSingleAI <==> form.userAudio.None? && form.aiAudio.Some?
  {
    if form.userAudio.Some? && form.aiAudio.Some? then PromptBoth
    else if form.userAudio.Some? then PromptSingleUser
    else PromptSingleAI
  }

  function AudioParts(track: Option<seq<Base64.Byte>>): seq<Part>
  {
    match track
    case Some(bytes) => [InlineAudio("audio/wav", Base64.Encode(bytes))]
    case None => []
  }

  /** `buildPayload`'s parts: the prompt, then the user's track, then the
      assistant's, each track only if supplied. */
  function BuildParts(prompt: Prompt, form: Form): (parts: seq<Part>)
  {
    [PromptPart(prompt)] + AudioParts(form.userAudio) + AudioParts(form.aiAudio)
  }

  /** A supplied track becomes one WAV part whose data decodes back to its
      bytes; an absent one becomes nothing. */
  lemma AudioPartsDecode(track: Option<seq<Base64.Byte>>)
    ensures |AudioParts(track)| == (if track.Some? then 1 else 0)
    ensures track.Some? ==>
      AudioParts(track)[0].InlineAudio? && AudioParts(track)[0].mimeType == "audio/wav"
      && Base64.Decode(AudioParts(track)[0].data) == track
  {
    if track.Some? {
      Base64.RoundTrip(track.value);
    }
  }

  /** The prompt comes first and the tracks follow in order, each one
      decoding back to the uploaded bytes. */
  lemma PartsOrder(prompt: Prompt, form: Form)
    ensures var parts := BuildParts(prompt, form);
      var n := (if form.userAudio.Some? then 1 else 0) + (if form.aiAudio.Some? then 1 else 0);
      && |parts| == 1 + n
      && parts[0] == PromptPart(prompt)
      && (form.userAudio.Some? ==> parts[1] == AudioParts(form.userAudio)[0])
      && (form.aiAudio.Some? ==> parts[|parts| - 1] == AudioParts(form.aiAudio)[0])
      && forall k :: 1 <= k < |parts| ==> parts[k].InlineAudio? && parts[k].mimeType == "audio/wav"
  {
    AudioPartsDecode(form.userAudio);
    AudioPartsDecode(form.aiAudio);
  }

  /** A call to the model service: the URL and the payload's parts. */
  datatype Request = Request(url: string, parts: seq<Part>)

  /** The URL called for a model. */
  function Url(a: ModelAttempt, apiKey: string): string
  {
    "https://generativelanguage.googleapis.com/" + a.version + "/models/" + a.model + ":generateContent?key=" + apiKey
  }

  /** The text `lastErr` records for a failed call. */
  function FailureText(o: Outcome): string
    requires !o.Answered?
  {
    match o
    case HttpError(status, text) => "Gemini API error: " + Text.IntToString(status) + " " + text
    case Threw(message) => message
  }

  /** The index of the first ok answer at or after `i`, or the end. */
  function FirstAnswer(outcomes: seq<Outcome>, i: nat): (k: nat)
    requires i <= |outcomes|
    ensures i <= k <= |outcomes|
    ensures k < |outcomes| ==> outcomes[k].Answered?
    ensures forall j :: i <= j < k ==> !outcomes[j].Answered?
    decreases |outcomes| - i
  {
    if i == |outcomes| || outcomes[i].Answered? then i else FirstAnswer(outcomes, i + 1)
  }

  /** The attempt loop. `outcomes[i]` is what the `i`-th model answers.
      The loop calls the models in order up to and including the first
      that answers, and never one after it; `data` is that answer's body,
      and `lastErr` the text of the last failure before it. */
  method AttemptModels(apiKey: string, parts: seq<Part>, outcomes: seq<Outcome>)
    returns (data: Option<Body>, lastErr: Option<string>, called: seq<Request>)
    requires |outcomes| == |ModelAttempts|
    ensures var k := FirstAnswer(outcomes, 0);
      && (k < |outcomes| ==> data == Some(outcomes[k].body) && |called| == k + 1)
      && (k == |outcomes| ==> data.None? && |called| == |outcomes|)
      && (forall j :: 0 <= j < |called| ==> called[j] == Request(Url(ModelAttempts[j], apiKey), parts))
      && lastErr == (if k == 0 then None else Some(FailureText(outcomes[k - 1])))
  {
    data := None;
    lastErr := None;
    called := [];
    var i := 0;
    while i < |ModelAttempts|
      invariant 0 <= i <= |ModelAttempts|
      invariant FirstAnswer(outcomes, 0) == FirstAnswer(outcomes, i)
      invariant |called| == i
      invariant forall j :: 0 <= j < i ==> called[j] == Request(Url(ModelAttempts[j], apiKey), parts)
      invariant lastErr == (if i == 0 then None else Some(FailureText(outcomes[i - 1])))
      invariant data.None?
    {
      called := called + [Request(Url(ModelAttempts[i], apiKey), parts)];
      var outcome := outcomes[i];
      if outcome.Answered? {
        data := Some(outcome.body);
        return;
      }
      lastErr := Some(FailureText(outcome));
      i := i + 1;
    }
  }

  /** The message thrown when no answer carries data: the last failure's
      text, or a fixed text when there is none or it is empty. */
  function ThrownMessage(outcomes: seq<Outcome>, k: nat): string
    requires k <= |outcomes| && forall j :: 0 <= j < k ==> !outcomes[j].Answered?
  {
    if k == 0 then "Gemini transcription failed"
    else
      var text := FailureText(outcomes[k - 1]);
      if text != [] then text else "Gemini transcription failed"
  }

  /** What `String(new Error(m))` shows. */
  function ErrorString(message: string): string
  {
    "Error: " + message
  }

  /** `POST`. `form` is the parsed form or the text of the error parsing
      it threw. */
  method Post(apiKey: Option<string>, form: Result<Form>, outcomes: seq<Outcome>)
    returns (reply: TranscribeReply, called: seq<Request>)
    requires |outcomes| == |ModelAttempts|
    ensures apiKey.None? || apiKey.value == [] ==>
      reply == Failed(500, "GOOGLE_GEMINI_API_KEY not configured", "") && called == []
    ensures apiKey.Some? && apiKey.value != [] && form.Failure? ==>
      reply == Failed(500, "Transcription failed", form.error) && called == []
    ensures apiKey.Some? && apiKey.value != [] && form.Success?
            && form.value.userAudio.None? && form.value.aiAudio.None? ==>
      reply == Failed(400, "No audio provided", "") && called == []
    ensures apiKey.Some? && apiKey.value != [] && form.Success?
            && (form.value.userAudio.Some? || form.value.aiAudio.Some?) ==>
      var k := FirstAnswer(outcomes, 0);
      && 1 <= |called| <= |ModelAttempts|
      && (forall j :: 0 <= j < |called| ==>
            called[j] == Request(Url(ModelAttempts[j], apiKey.value), BuildParts(ChoosePrompt(form.value), form.value)))
      && (k == |outcomes| ==>
            |called| == |ModelAttempts|
            && reply == Failed(500, "Transcription failed", ErrorString(ThrownMessage(outcomes, k))))
      && (k < |outcomes| && outcomes[k].body.NullBody? ==>
            |called| == k + 1
            && reply == Failed(500, "Transcription failed", ErrorString(ThrownMessage(outcomes, k))))
      && (k < |outcomes| && outcomes[k].body.Body? ==>
            |called| == k + 1
            && var text := outcomes[k].body.firstText;
            reply == Transcript(if text.Some? && text.value != [] then text.value else "No transcript generated"))
  {
    called := [];
    if apiKey.None? || apiKey.value == [] {
      return Failed(500, "GOOGLE_GEMINI_API_KEY not configured", ""), called;
    }
    if form.Failure? {
      return Failed(500, "Transcription failed", form.error), called;
    }
    var f := form.value;
    if f.userAudio.None? && f.aiAudio.None? {
      return Failed(400, "No audio provided", ""), called;
    }
    var prompt := ChoosePrompt(f);
    var parts := BuildParts(prompt, f);
    var data, lastErr;
    data, lastErr, called := AttemptModels(apiKey.value, parts, outcomes);
    if data.None? || data.value.NullBody? {
      var message := if lastErr.Some? && lastErr.value != [] then lastErr.value else "Gemini transcription failed";
      return Failed(500, "Transcription failed", ErrorString(message)), called;
    }
    var text := data.value.firstText;
    reply := Transcript(if text.Some? && text.value != [] then text.value else "No transcript generated");
  }
}
