/** The admin sync route: a bearer-token gate in front of the sync status
    report (`GET`) and of a manual sync of one character (`POST`). */
module AdminSync {
  import opened Wrappers
  import Text
  import Characters
  import InstructionStore
  import AdminVerify
  import SyncInstructions

  const BearerPrefix: string := "Bearer "

  /** `pat` occurs in `s` at `i`. */
  predicate Occurs(s: string, pat: string, i: nat)
  {
    i + |pat| <= |s| && s[i..i + |pat|] == pat
  }

  /** The first position at or after `i` where `pat` occurs. */
  function FindFrom(s: string, pat: string, i: nat): (r: Option<nat>)
    requires i <= |s|
    ensures r.Some? ==> i <= r.value && Occurs(s, pat, r.value)
    ensures r.Some? ==> forall j :: i <= j < r.value ==> !Occurs(s, pat, j)
    ensures r.None? <==> forall j :: i <= j <= |s| ==> !Occurs(s, pat, j)
    decreases |s| - i
  {
    if Occurs(s, pat, i) then Some(i)
    else if i == |s| then None
    else FindFrom(s, pat, i + 1)
  }

  /** `String.prototype.replace` with a string pattern: only the first
      occurrence, wherever it is, is replaced. */
  function ReplaceFirst(s: string, pat: string, rep: string): string
  {
    match FindFrom(s, pat, 0)
    case None => s
    case Some(i) => s[..i] + rep + s[i + |pat|..]
  }

  /** `request.headers.get('Authorization')?.replace('Bearer ', '')`. */
  function BearerToken(header: Option<string>): (token: Option<string>)
    ensures token.Some? <==> header.Some?
  {
    match header
    case None => None
    case Some(h) => Some(ReplaceFirst(h, BearerPrefix, ""))
  }

  /** A header that starts with `Bearer ` yields the rest of it; a header
      without `Bearer ` anywhere is taken whole; and a `Bearer ` further in
      is removed as well, so the prefix is not anchored. */
  lemma BearerTokenShape(h: string)
    ensures Text.StartsWith(h, BearerPrefix) ==> BearerToken(Some(h)) == Some(h[|BearerPrefix|..])
    ensures (forall j :: 0 <= j <= |h| ==> !Occurs(h, BearerPrefix, j)) ==> BearerToken(Some(h)) == Some(h)
    ensures BearerToken(Some("x" + BearerPrefix + "t")) == Some("xt")
  {
    if Text.StartsWith(h, BearerPrefix) {
      assert Occurs(h, BearerPrefix, 0);
      assert FindFrom(h, BearerPrefix, 0) == Some(0);
      assert h[..0] + "" + h[|BearerPrefix|..] == h[|BearerPrefix|..];
    }
    var x := "x" + BearerPrefix + "t";
    assert !Occurs(x, BearerPrefix, 0) by {
      assert x[0] != BearerPrefix[0];
    }
    assert Occurs(x, BearerPrefix, 1) by {
      assert x[1..1 + |BearerPrefix|] == BearerPrefix;
    }
    assert FindFrom(x, BearerPrefix, 0) == Some(1);
    assert x[..1] + "" + x[1 + |BearerPrefix|..] == "xt";
  }

  /** The token passes the gate: it is present, non-empty, and names a
      session `verifySession` accepts. */
  predicate Authorized(header: Option<string>, sessions: map<string, int>, now: int)
  {
    var token := BearerToken(header);
    token.Some? && token.value != [] && AdminVerify.Valid(sessions, token.value, now)
  }

  /** A request without an `Authorization` header, or whose header is
      exactly `Bearer `, never passes; one carrying a stored token younger
      than the lifetime always does. */
  lemma AuthorizedIff(sessions: map<string, int>, token: string, now: int)
    ensures !Authorized(None, sessions, now)
    ensures !Authorized(Some(BearerPrefix), sessions, now)
    ensures token != [] ==>
      (Authorized(Some(BearerPrefix + token), sessions, now) <==>
         token in sessions && now - sessions[token] < AdminVerify.SessionLifetime)
  {
    BearerTokenShape(BearerPrefix);
    assert BearerPrefix[|BearerPrefix|..] == [];
    var h := BearerPrefix + token;
    BearerTokenShape(h);
    assert h[|BearerPrefix|..] == token;
    AdminVerify.ValidIff(sessions, token, now);
  }

  /** The parsed `POST` body: `characterId` and `force` if present. */
  datatype SyncBody = SyncBody(characterId: Option<string>, force: Option<bool>)

  datatype SyncReply =
    | Unauthorized
    | BadRequest(error: string)
    | StatusReport(status: seq<SyncInstructions.SyncStatus>)
    | SyncDone(result: SyncInstructions.SyncResult)
    | ServerError(error: string)

  /** The session table after the gate: `verifySession` (and its clean-up)
      only runs for a non-empty token. */
  function SessionsAfterGate(header: Option<string>, sessions: map<string, int>, now: int): map<string, int>
  {
    var token := BearerToken(header);
    if token.Some? && token.value != [] then AdminVerify.Live(sessions, now) else sessions
  }

  /** The bearer-token gate both handlers open with. */
  method Gate(header: Option<string>, admin: AdminVerify.Sessions, now: int) returns (ok: bool)
    modifies admin
    ensures ok == Authorized(header, old(admin.sessions), now)
    ensures admin.sessions == SessionsAfterGate(header, old(admin.sessions), now)
  {
    var token := BearerToken(header);
    if token.None? || token.value == [] {
      return false;
    }
    ok := admin.VerifySession(token.value, now);
  }

  /** `GET`: 401 without a valid session, else the status of every
      character. */
  method Get(header: Option<string>, admin: AdminVerify.Sessions, table: seq<Characters.Character>,
             store: InstructionStore.Store, now: int)
    returns (reply: SyncReply)
    modifies admin
    ensures admin.sessions == SessionsAfterGate(header, old(admin.sessions), now)
    ensures !Authorized(header, old(admin.sessions), now) ==> reply == Unauthorized
    ensures Authorized(header, old(admin.sessions), now) ==>
      reply == StatusReport(SyncInstructions.GetSyncStatus(table, store.instructions))
  {
    var ok := Gate(header, admin, now);
    if !ok {
      return Unauthorized;
    }
    reply := StatusReport(SyncInstructions.GetSyncStatus(table, store.instructions));
  }

  /** `POST`: 401 without a valid session, 500 for a body that does not
      parse, 400 without a `characterId`, and otherwise exactly the result
      of syncing that character, `force` defaulting to false. */
  method Post(header: Option<string>, body: Result<SyncBody>, admin: AdminVerify.Sessions,
              table: seq<Characters.Character>, store: InstructionStore.Store, now: int)
    returns (reply: SyncReply)
    modifies admin, store
    ensures admin.sessions == SessionsAfterGate(header, old(admin.sessions), now)
    ensures !Authorized(header, old(admin.sessions), now) ==>
      reply == Unauthorized && store.instructions == old(store.instructions)
    ensures Authorized(header, old(admin.sessions), now) && body.Failure? ==>
      reply == ServerError(if body.error != [] then body.error else "Failed to sync instruction")
      && store.instructions == old(store.instructions)
    ensures Authorized(header, old(admin.sessions), now) && body.Success?
            && (body.value.characterId.None? || body.value.characterId.value == []) ==>
      reply == BadRequest("characterId is required") && store.instructions == old(store.instructions)
    ensures Authorized(header, old(admin.sessions), now) && body.Success?
            && body.value.characterId.Some? && body.value.characterId.value != [] ==>
      var o := SyncInstructions.SyncStep(table, old(store.instructions), body.value.characterId.value,
                                         body.value.force.GetOr(false), now);
      reply == SyncDone(o.0) && store.instructions == o.1
  {
    var ok := Gate(header, admin, now);
    if !ok {
      return Unauthorized;
    }
    if body.Failure? {
      return ServerError(if body.error != [] then body.error else "Failed to sync instruction");
    }
    var characterId := body.value.characterId;
    var force := body.value.force.GetOr(false);
    if characterId.None? || characterId.value == [] {
      return BadRequest("characterId is required");
    }
    var result := SyncInstructions.SyncCharacterInstruction(table, store, characterId.value, force, now);
    reply := SyncDone(result);
  }
}
