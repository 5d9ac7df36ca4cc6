/**
 * The API client of src/shared/api/api.ts: the process-wide "local update in
 * progress" flag that suppresses reads after a write, the cached auth token, the
 * headers every request carries, and the requests each call issues.
 *
 * The network is not modelled: a call appends the request it would hand to `fetch`
 * to `sent`, and whatever the server answers reaches the awaiting caller as an input
 * of a later event. Timers are events too: each settled mutating call adds one
 * pending reset, and `FireReset` is that 500 ms timer going off.
 */
module Api {
  import opened Wrappers
  import opened Types
  import Strings

  /** The message of the error a read throws while a local update is in progress. */
  const LocalUpdateMessage := "Local update in progress"
  /** The localStorage key the token is persisted under. */
  const AuthTokenKey := "authToken"
  const JsonContentType := "application/json"
  const ContentTypeHeader := "Content-Type"
  const AuthorizationHeader := "Authorization"
  const BearerPrefix := "Bearer "
  /** The messages `auth` throws with. */
  const AuthFailedMessage := "Authentication failed"
  const InvalidAuthMessage := "Invalid authentication response"

  datatype Verb = Get | Patch | Post | Delete

  /** The `File` chosen in the upload dialog. */
  datatype LocalFile = LocalFile(name: string)

  datatype Body =
    | NoBody
    | CompanyFields(company: CompanyPatch)
    | ContactFields(contact: ContactPatch)
    | ImageFile(file: LocalFile)

  /** A request handed to `fetch`; the path leaves out the host and the cache-busting query. */
  datatype Request = Request(verb: Verb, path: string, headers: map<string, string>, body: Body)

  /** How a read call starts: it throws before any request, or its request is sent. */
  datatype ReadStart = Rejected(message: string) | Sent

  /** What the awaiting caller eventually gets from a request: the parsed body, or a thrown error. */
  datatype Response<T> = Delivered(value: T) | Failed

  /** The parsed JSON body of an auth response. */
  datatype AuthBody =
    | NotJson                                                   // response.json() throws
    | JsonNull                                                  // reading a field of null throws
    | JsonText(text: string)
    | JsonObject(authorization: Option<string>, token: Option<string>)
    | JsonOther                                                 // a number, a boolean or an array

  datatype AuthResponse = AuthResponse(ok: bool, authorizationHeader: Option<string>, body: AuthBody)

  datatype AuthFailure = NotOk | BodyNotJson | BodyNull | NoTokenFound

  /** The outcome of `auth`; `Token(None)` is a resolved `undefined`. */
  datatype AuthOutcome = Token(token: Option<string>) | AuthError(reason: AuthFailure)

  /** The message `auth` rejects with, where the source fixes it. */
  function AuthFailureMessage(f: AuthFailure): Option<string> {
    match f
    case NotOk => Some(AuthFailedMessage)
    case NoTokenFound => Some(InvalidAuthMessage)
    case _ => None
  }

  predicate StartsWith(s: string, prefix: string) {
    |prefix| <= |s| && s[..|prefix|] == prefix
  }

  /** `id.split("?")[0]`: the company id without any query part. */
  function BaseId(id: string): (r: string)
    ensures r <= id
    ensures '?' !in r
    ensures '?' !in id ==> r == id
  {
    var pieces := Strings.Split(id, '?');
    assert '?' !in id ==> pieces == [id] by {
      if '?' !in id { Strings.SplitWithoutSeparator(id, '?'); }
    }
    pieces[0]
  }

  /** Whatever follows the first `?` is dropped. */
  lemma BaseIdDropsQuery(base: string, query: string)
    requires '?' !in base
    ensures BaseId(base + "?" + query) == base
  {
    Strings.SplitAfterFirst(base, '?', query);
  }

  /** `s.split(" ")[1]`: the second space-separated word, `undefined` (None) when `s` has no space. */
  function SecondWord(s: string): (r: Option<string>)
    ensures r.None? <==> ' ' !in s
    ensures r.Some? ==> ' ' !in r.value
  {
    var pieces := Strings.Split(s, ' ');
    if |pieces| >= 2 then Some(pieces[1]) else None
  }

  /** The second word is the text between the first space and the next one (or the end). */
  lemma SecondWordAfterFirstSpace(a: string, b: string)
    requires ' ' !in a
    ensures SecondWord(a + " " + b) == Some(Strings.Split(b, ' ')[0])
  {
    assert a + " " + b == a + [' '] + b;
    Strings.SplitAfterFirst(a, ' ', b);
  }

  /** The token of `"Bearer <token>"` is `<token>` when it has no space. */
  lemma BearerTokenRoundTrip(token: string)
    requires ' ' !in token
    ensures SecondWord(BearerPrefix + token) == Some(token)
  {
    assert BearerPrefix + token == "Bearer" + [' '] + token;
    Strings.SplitAfterFirst("Bearer", ' ', token);
    Strings.SplitWithoutSeparator(token, ' ');
  }

  /**
   * Where `auth` takes the token from, in priority order: the `Authorization` response
   * header, the body's `Authorization` field, a string body starting with "Bearer ",
   * the body's `token` field. The body is looked at only when the header is empty.
   */
  function TokenFromResponse(header: Option<string>, body: AuthBody): (r: AuthOutcome)
    ensures Truthy(header) ==> r == Token(SecondWord(header.value))
    ensures !Truthy(header) && body.JsonText? ==>
              (r.Token? <==> StartsWith(body.text, BearerPrefix)) && (r.Token? ==> r.token.Some?)
    ensures !Truthy(header) && body.JsonText? && StartsWith(body.text, BearerPrefix) ==>
              r == Token(SecondWord(body.text))
    ensures !Truthy(header) && body.JsonObject? && Truthy(body.authorization) ==>
              r == Token(SecondWord(body.authorization.value))
    ensures !Truthy(header) && body.JsonObject? && !Truthy(body.authorization) ==>
              (r.Token? <==> Truthy(body.token)) && (r.Token? ==> r.token == body.token)
    ensures r.AuthError? ==> !Truthy(header)
    ensures !Truthy(header) && body == NotJson ==> r == AuthError(BodyNotJson)
    ensures !Truthy(header) && body == JsonNull ==> r == AuthError(BodyNull)
    ensures !Truthy(header) && body == JsonOther ==> r == AuthError(NoTokenFound)
    ensures r.AuthError? && (body.JsonText? || body.JsonObject? || body.JsonOther?) ==>
              AuthFailureMessage(r.reason) == Some(InvalidAuthMessage)
  {
    if Truthy(header) then Token(SecondWord(header.value))
    else
      match body
      case NotJson => AuthError(BodyNotJson)
      case JsonNull => AuthError(BodyNull)
      case JsonObject(authorization, token) =>
        if Truthy(authorization) then Token(SecondWord(authorization.value))
        else if Truthy(token) then Token(token)
        else AuthError(NoTokenFound)
      case JsonText(text) =>
        if StartsWith(text, BearerPrefix) then
          assert text[6] == ' ';
          Token(SecondWord(text))
        else AuthError(NoTokenFound)
      case JsonOther => AuthError(NoTokenFound)
  }

  /** A header `Bearer <token>` yields `<token>`, whatever the body holds. */
  lemma HeaderTokenWins(token: string, body: AuthBody)
    requires ' ' !in token
    ensures TokenFromResponse(Some(BearerPrefix + token), body) == Token(Some(token))
  {
    BearerTokenRoundTrip(token);
  }

  /** The body field `Authorization: Bearer <token>` yields `<token>` when no header came. */
  lemma BodyAuthorizationToken(token: string, other: Option<string>)
    requires ' ' !in token
    ensures TokenFromResponse(None, JsonObject(Some(BearerPrefix + token), other)) == Token(Some(token))
  {
    BearerTokenRoundTrip(token);
  }

  /** What `localStorage.setItem` stores for a token: `undefined` becomes the text "undefined". */
  function StoredText(token: Option<string>): string {
    match token
    case Some(t) => t
    case None => "undefined"
  }

  /** `${token}` in a template literal, for the `null` that `getAuthToken` returns when nothing is stored. */
  function TemplateText(token: Option<string>): string {
    match token
    case Some(t) => t
    case None => "null"
  }

  /** `localStorage.getItem("authToken")`. */
  function StoredToken(storage: map<string, string>): Option<string> {
    if AuthTokenKey in storage then Some(storage[AuthTokenKey]) else None
  }

  /** The token `getAuthToken` returns, and caches, given the cache and the storage. */
  function CachedToken(cache: Option<string>, storage: map<string, string>): Option<string> {
    if Truthy(cache) then cache else StoredToken(storage)
  }

  /** Asking again returns what the first call cached. */
  lemma CachedTokenStable(cache: Option<string>, storage: map<string, string>)
    ensures CachedToken(CachedToken(cache, storage), storage) == CachedToken(cache, storage)
  {
  }

  /** The headers of `getHeaders(contentType)` for the token `getAuthToken()` returned. */
  function HeadersFor(contentType: string, token: Option<string>): (h: map<string, string>)
    ensures ContentTypeHeader in h && h[ContentTypeHeader] == contentType
    ensures AuthorizationHeader in h <==> Truthy(token)
    ensures Truthy(token) ==> h[AuthorizationHeader] == BearerPrefix + token.value
    ensures h.Keys <= {ContentTypeHeader, AuthorizationHeader}
  {
    var base := map[ContentTypeHeader := contentType];
    if Truthy(token) then base[AuthorizationHeader := BearerPrefix + token.value] else base
  }

  /**
   * `dataToSend` of `updateCompany`: an absent `type` stays absent, an array is kept,
   * anything else becomes `[]`; every other key is sent as given.
   */
  function NormalizeType(data: CompanyPatch): (r: CompanyPatch)
    ensures r.types.None? <==> data.types.None?
    ensures data.types.Some? && data.types.value.TypeList? ==> r.types == data.types
    ensures data.types == Some(NotArray) ==> r.types == Some(TypeList([]))
    ensures r.(types := data.types) == data
  {
    if data.types == Some(NotArray) then data.(types := Some(TypeList([]))) else data
  }

  /** After normalising, `type` is absent or an array, and normalising again changes nothing. */
  lemma NormalizeTypeIdempotent(data: CompanyPatch)
    ensures var r := NormalizeType(data); (r.types.None? || r.types.value.TypeList?) && NormalizeType(r) == r
  {
  }

  function CompanyPath(id: string): string { "/companies/" + id }
  function CompanyImagePath(id: string): string { "/companies/" + id + "/image" }
  function CompanyImageNamePath(id: string, imageName: string): string { "/companies/" + id + "/image/" + imageName }
  function ContactPath(id: string): string { "/contacts/" + id }
  function AuthPath(username: string): string { "/auth?user=" + username }

  class ApiClient {
    /** `isLocalUpdateInProgress`, shared by every page and every entity. */
    var localUpdateInProgress: bool
    /** `authToken`; None is `null` or `undefined`. */
    var authToken: Option<string>
    /** The browser's localStorage, as a key/value map. */
    var storage: map<string, string>
    /** Every request handed to `fetch` so far, oldest first. */
    var sent: seq<Request>
    /** Mutating calls whose request has not settled yet. */
    var inFlight: nat
    /** Scheduled `setLocalUpdateFlag(false)` timers that have not fired yet. */
    var pendingResets: nat

    constructor (storage: map<string, string>)
      ensures !localUpdateInProgress && authToken == None && this.storage == storage
      ensures sent == [] && inFlight == 0 && pendingResets == 0
    {
      localUpdateInProgress := false;
      authToken := None;
      this.storage := storage;
      sent := [];
      inFlight := 0;
      pendingResets := 0;
    }

    method SetLocalUpdateFlag(value: bool)
      modifies this`localUpdateInProgress
      ensures localUpdateInProgress == value
    {
      localUpdateInProgress := value;
    }

    method GetLocalUpdateFlag() returns (value: bool)
      ensures value == localUpdateInProgress
    {
      value := localUpdateInProgress;
    }

    /** `setAuthToken`; `token` is None when `auth` passes on the `undefined` of a value without a space. */
    method SetAuthToken(token: Option<string>)
      modifies this`authToken, this`storage
      ensures authToken == token
      ensures storage == old(storage)[AuthTokenKey := StoredText(token)]
    {
      authToken := token;
      storage := storage[AuthTokenKey := StoredText(token)];
    }

    /** `getAuthToken`: an empty cache is refilled from storage before it is returned. */
    method GetAuthToken() returns (token: Option<string>)
      modifies this`authToken
      ensures Truthy(old(authToken)) ==> token == old(authToken)
      ensures !Truthy(old(authToken)) ==> token == StoredToken(storage)
      ensures authToken == token
    {
      if !Truthy(authToken) {
        authToken := StoredToken(storage);
      }
      token := authToken;
    }

    /** `getHeaders(contentType)`, built one header at a time. */
    method GetHeaders(contentType: string) returns (h: map<string, string>)
      modifies this`authToken
      ensures authToken == CachedToken(old(authToken), storage)
      ensures h == HeadersFor(contentType, authToken)
    {
      h := map[ContentTypeHeader := contentType];
      var token := GetAuthToken();
      if Truthy(token) {
        h := h[AuthorizationHeader := BearerPrefix + token.value];
      }
    }

    /** `api.auth(username)` answered by `response`. */
    method Auth(username: string, response: AuthResponse) returns (outcome: AuthOutcome)
      modifies this`authToken, this`storage, this`sent
      ensures sent == old(sent) + [Request(Get, AuthPath(username),
                HeadersFor(JsonContentType, CachedToken(old(authToken), old(storage))), NoBody)]
      ensures !response.ok ==> outcome == AuthError(NotOk)
      ensures outcome.AuthError? ==> (AuthFailureMessage(outcome.reason) == Some(AuthFailedMessage) <==> !response.ok)
      ensures response.ok ==> outcome == TokenFromResponse(response.authorizationHeader, response.body)
      ensures outcome.Token? ==> authToken == outcome.token
                                 && storage == old(storage)[AuthTokenKey := StoredText(outcome.token)]
      ensures outcome.AuthError? ==> authToken == CachedToken(old(authToken), old(storage))
                                     && storage == old(storage)
    {
      var headers := GetHeaders(JsonContentType);
      sent := sent + [Request(Get, AuthPath(username), headers, NoBody)];
      if !response.ok {
        outcome := AuthError(NotOk);
        return;
      }
      outcome := TokenFromResponse(response.authorizationHeader, response.body);
      if outcome.Token? {
        SetAuthToken(outcome.token);
      }
    }

    /** `api.getCompany(id)` up to its request. */
    method GetCompany(id: string) returns (r: ReadStart)
      modifies this`authToken, this`sent
      ensures localUpdateInProgress ==>
                r == Rejected(LocalUpdateMessage) && sent == old(sent) && authToken == old(authToken)
      ensures !localUpdateInProgress ==>
                && r == Sent
                && authToken == CachedToken(old(authToken), storage)
                && sent == old(sent) + [Request(Get, CompanyPath(BaseId(id)), HeadersFor(JsonContentType, authToken), NoBody)]
    {
      if localUpdateInProgress {
        return Rejected(LocalUpdateMessage);
      }
      var baseId := BaseId(id);
      var headers := GetHeaders(JsonContentType);
      sent := sent + [Request(Get, CompanyPath(baseId), headers, NoBody)];
      r := Sent;
    }

    /** `api.getContact(id)` up to its request. */
    method GetContact(id: string) returns (r: ReadStart)
      modifies this`authToken, this`sent
      ensures localUpdateInProgress ==>
                r == Rejected(LocalUpdateMessage) && sent == old(sent) && authToken == old(authToken)
      ensures !localUpdateInProgress ==>
                && r == Sent
                && authToken == CachedToken(old(authToken), storage)
                && sent == old(sent) + [Request(Get, ContactPath(id), HeadersFor(JsonContentType, authToken), NoBody)]
    {
      if localUpdateInProgress {
        return Rejected(LocalUpdateMessage);
      }
      var headers := GetHeaders(JsonContentType);
      sent := sent + [Request(Get, ContactPath(id), headers, NoBody)];
      r := Sent;
    }

    /** `api.updateCompany(id, data)` up to its request: the flag goes up first. */
    method UpdateCompany(id: string, data: CompanyPatch)
      modifies this`localUpdateInProgress, this`authToken, this`sent, this`inFlight
      ensures localUpdateInProgress && inFlight == old(inFlight) + 1
      ensures authToken == CachedToken(old(authToken), storage)
      ensures sent == old(sent) + [Request(Patch, CompanyPath(id), HeadersFor(JsonContentType, authToken),
                                           CompanyFields(NormalizeType(data)))]
    {
      SetLocalUpdateFlag(true);
      inFlight := inFlight + 1;
      var dataToSend := NormalizeType(data);
      var headers := GetHeaders(JsonContentType);
      sent := sent + [Request(Patch, CompanyPath(id), headers, CompanyFields(dataToSend))];
    }

    /** `api.deleteCompany(id)` up to its request; the flag is left alone. */
    method DeleteCompany(id: string)
      modifies this`authToken, this`sent
      ensures localUpdateInProgress == old(localUpdateInProgress)
      ensures authToken == CachedToken(old(authToken), storage)
      ensures sent == old(sent) + [Request(Delete, CompanyPath(id), HeadersFor(JsonContentType, authToken), NoBody)]
    {
      var headers := GetHeaders(JsonContentType);
      sent := sent + [Request(Delete, CompanyPath(id), headers, NoBody)];
    }

    /**
     * `api.uploadCompanyImage(id, file)` up to its request. Its only header is
     * `Authorization`, present even without a token ("Bearer null").
     */
    method UploadCompanyImage(id: string, file: LocalFile)
      modifies this`localUpdateInProgress, this`authToken, this`sent, this`inFlight
      ensures localUpdateInProgress && inFlight == old(inFlight) + 1
      ensures authToken == CachedToken(old(authToken), storage)
      ensures sent == old(sent) + [Request(Post, CompanyImagePath(id),
                                           map[AuthorizationHeader := BearerPrefix + TemplateText(authToken)],
                                           ImageFile(file))]
    {
      SetLocalUpdateFlag(true);
      inFlight := inFlight + 1;
      var token := GetAuthToken();
      sent := sent + [Request(Post, CompanyImagePath(id), map[AuthorizationHeader := BearerPrefix + TemplateText(token)], ImageFile(file))];
    }

    /** `api.deleteCompanyImage(companyId, imageName)` up to its request. */
    method DeleteCompanyImage(companyId: string, imageName: string)
      modifies this`localUpdateInProgress, this`authToken, this`sent, this`inFlight
      ensures localUpdateInProgress && inFlight == old(inFlight) + 1
      ensures authToken == CachedToken(old(authToken), storage)
      ensures sent == old(sent) + [Request(Delete, CompanyImageNamePath(companyId, imageName),
                                           HeadersFor(JsonContentType, authToken), NoBody)]
    {
      SetLocalUpdateFlag(true);
      inFlight := inFlight + 1;
      var headers := GetHeaders(JsonContentType);
      sent := sent + [Request(Delete, CompanyImageNamePath(companyId, imageName), headers, NoBody)];
    }

    /** `api.updateContact(id, data)` up to its request; the data is sent as given. */
    method UpdateContact(id: string, data: ContactPatch)
      modifies this`localUpdateInProgress, this`authToken, this`sent, this`inFlight
      ensures localUpdateInProgress && inFlight == old(inFlight) + 1
      ensures authToken == CachedToken(old(authToken), storage)
      ensures sent == old(sent) + [Request(Patch, ContactPath(id), HeadersFor(JsonContentType, authToken),
                                           ContactFields(data))]
    {
      SetLocalUpdateFlag(true);
      inFlight := inFlight + 1;
      var headers := GetHeaders(JsonContentType);
      sent := sent + [Request(Patch, ContactPath(id), headers, ContactFields(data))];
    }

    /**
     * A mutating call's request settles, with success or failure alike: its `finally`
     * schedules exactly one reset. The flag itself is not touched yet.
     */
    method Settle()
      requires inFlight > 0
      modifies this`inFlight, this`pendingResets
      ensures inFlight == old(inFlight) - 1 && pendingResets == old(pendingResets) + 1
    {
      inFlight := inFlight - 1;
      pendingResets := pendingResets + 1;
    }

    /** The oldest pending 500 ms timer fires and clears the flag, whatever else is still pending. */
    method FireReset()
      requires pendingResets > 0
      modifies this`localUpdateInProgress, this`pendingResets
      ensures !localUpdateInProgress && pendingResets == old(pendingResets) - 1
    {
      SetLocalUpdateFlag(false);
      pendingResets := pendingResets - 1;
    }
  }

  /**
   * The inherited behaviour kept by the model: a company update settles, a contact
   * update starts, and the company update's timer then clears the flag although the
   * contact update is still in flight.
   */
  method ResetDuringLaterMutation(storage: map<string, string>, company: string, companyData: CompanyPatch,
                                  contact: string, contactData: ContactPatch)
    returns (flag: bool, inFlight: nat)
    ensures !flag && inFlight == 1
  {
    var api := new ApiClient(storage);
    api.UpdateCompany(company, companyData);
    api.Settle();
    api.UpdateContact(contact, contactData);
    api.FireReset();
    flag, inFlight := api.localUpdateInProgress, api.inFlight;
  }

  /** The flag is shared: a contact update in flight suppresses a read of any company, without a request. */
  method ContactWriteSuppressesCompanyRead(storage: map<string, string>, contact: string, contactData: ContactPatch,
                                           company: string)
    returns (r: ReadStart, requests: nat)
    ensures r == Rejected(LocalUpdateMessage) && requests == 1
  {
    var api := new ApiClient(storage);
    api.UpdateContact(contact, contactData);
    r := api.GetCompany(company);
    requests := |api.sent|;
  }

  /** A token received as `Authorization: Bearer <token>` is attached as such to the next request. */
  method AuthThenNextRequest(storage: map<string, string>, username: string, token: string, body: AuthBody, id: string)
    returns (authorization: Option<string>)
    requires ' ' !in token && token != ""
    ensures authorization == Some(BearerPrefix + token)
  {
    var api := new ApiClient(storage);
    HeaderTokenWins(token, body);
    var outcome := api.Auth(username, AuthResponse(true, Some(BearerPrefix + token), body));
    var start := api.GetCompany(id);
    var h := api.sent[|api.sent| - 1].headers;
    authorization := if AuthorizationHeader in h then Some(h[AuthorizationHeader]) else None;
  }

  /**
   * `setAuthToken(t)` then `getAuthToken()`: a truthy token comes back as it was set;
   * an empty or undefined one is reloaded from storage as the text that was stored,
   * so `undefined` comes back as the string "undefined".
   */
  method SetThenGetToken(storage: map<string, string>, token: Option<string>) returns (got: Option<string>)
    ensures Truthy(token) ==> got == token
    ensures token == None ==> got == Some("undefined")
    ensures token == Some("") ==> got == Some("")
  {
    var api := new ApiClient(storage);
    api.SetAuthToken(token);
    got := api.GetAuthToken();
  }
}
