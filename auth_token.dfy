/** The ephemeral-token route: validates the request, builds the token
    configuration locked to one voice and prompt, and reports the two expiry
    times. Times are milliseconds; the issuing service is a parameter. */
module AuthToken {
  import opened Wrappers

  /** Thirty minutes, then one minute. */
  const ExpireAfter: int := 30 * 60 * 1000
  const NewSessionWindow: int := 1 * 60 * 1000

  const LiveModel: string := "gemini-2.5-flash-native-audio-preview-09-2025"

  /** The parsed request body; absent fields are `None`. */
  datatype TokenBody = TokenBody(characterId: Option<string>, systemInstruction: Option<string>, voiceName: Option<string>)

  /** The configuration handed to the token service. */
  datatype TokenConfig = TokenConfig(
    uses: nat,
    expireTime: int,
    newSessionExpireTime: int,
    model: string,
    sessionResumption: bool,
    audioOnly: bool,
    voiceName: string,
    systemInstruction: string,
    apiVersion: string)

  datatype TokenReply =
    | Issued(token: string, expireTime: int, newSessionExpireTime: int)
    | TokenError(status: int, error: string)

  /** JavaScript truthiness of an optional string. */
  predicate Present(s: Option<string>)
  {
    s.Some? && s.value != []
  }

  /** The request the route sends for a validated body at time `now`. */
  function TokenRequest(body: TokenBody, now: int): (c: TokenConfig)
    requires Present(body.systemInstruction) && Present(body.voiceName)
  {
    TokenConfig(1, now + ExpireAfter, now + NewSessionWindow, LiveModel, true, true,
                body.voiceName.value, body.systemInstruction.value, "v1alpha")
  }

  /** `POST`. `apiKey` is the server's key, `body` the parsed body or the
      message of one that does not parse, and `issue` what the token
      service answers to the request: the token's name or an error message. */
  function Post(apiKey: Option<string>, body: Result<TokenBody>, now: int, issue: Result<string>)
    : (r: TokenReply)
  {
    if !Present(apiKey) then TokenError(500, "Server configuration error: API key not configured")
    else if body.Failure? then
      TokenError(500, if body.error != [] then body.error else "Failed to generate token")
    else if !Present(body.value.systemInstruction) || !Present(body.value.voiceName) then
      TokenError(400, "Missing required parameters: systemInstruction and voiceName")
    else
      var config := TokenRequest(body.value, now);
      match issue
      case Success(name) => Issued(name, config.expireTime, config.newSessionExpireTime)
      case Failure(message) => TokenError(500, if message != [] then message else "Failed to generate token")
  }

  /** A missing key is a 500 whatever the request; a missing prompt or
      voice is a 400; a valid request answers with the issued token and the
      two times, or with a 500 when issuing fails. */
  lemma PostOutcome(apiKey: Option<string>, body: Result<TokenBody>, now: int, issue: Result<string>)
    ensures var r := Post(apiKey, body, now, issue);
      && (!Present(apiKey) ==> r.TokenError? && r.status == 500)
      && (Present(apiKey) && body.Success? ==>
            (r == TokenError(400, "Missing required parameters: systemInstruction and voiceName") <==>
               !Present(body.value.systemInstruction) || !Present(body.value.voiceName)))
      && (r.Issued? <==> Present(apiKey) && body.Success? && Present(body.value.systemInstruction)
                         && Present(body.value.voiceName) && issue.Success?)
      && (r.Issued? ==> issue.Success? && r.token == issue.value && r.expireTime == now + 1800000
                        && r.newSessionExpireTime == now + 60000)
      && (r.TokenError? ==> r.status == 400 || r.status == 500)
  {
    var r := Post(apiKey, body, now, issue);
    if !Present(apiKey) {
      assert r.TokenError? && r.status == 500;
    } else if body.Failure? {
      assert r.TokenError? && r.status == 500;
    } else if !Present(body.value.systemInstruction) || !Present(body.value.voiceName) {
      assert r == TokenError(400, "Missing required parameters: systemInstruction and voiceName");
    } else if issue.Success? {
      assert r == Issued(issue.value, now + ExpireAfter, now + NewSessionWindow);
    } else {
      assert r.TokenError? && r.status == 500;
    }
  }

  /** The token is good for one use, locked to the requested voice and
      prompt and to the live model, and its window for starting a session
      closes 29 minutes before it expires. */
  lemma TokenLocked(body: TokenBody, now: int)
    requires Present(body.systemInstruction) && Present(body.voiceName)
    ensures var c := TokenRequest(body, now);
      && c.uses == 1
      && c.voiceName == body.voiceName.value && c.systemInstruction == body.systemInstruction.value
      && c.model == LiveModel
      && now < c.newSessionExpireTime < c.expireTime
      && c.expireTime - c.newSessionExpireTime == 29 * 60 * 1000
  {
  }
}
