/** The SAML relay of routes/saml.js: the per-browser session, the handlers that drive
    one exchange (intake, upstream login, completion, validation, logout) and the pure
    assembly of the legacy SAML response. Parsing, signing, validation and base64 are
    done by libraries and enter the model as inputs: a parse outcome, a `Signer`
    function, an `encode` function and a validation outcome. */
module Saml {
  import opened Options
  import opened Ttl
  import opened Store

  /** The value a legacy intake leaves in `requests` in place of a user id. */
  const Placeholder: string := "SAML:legacy:placeholder"
  const ParseErrorPrefix: string := "SAML AuthnRequest parse error: "
  /** The issuer of the responses this service signs as an identity provider. */
  const IdpIssuer: string := "urn:auth-service:idp"
  const ResponseLifetimeSeconds: nat := 3600

  /** What the upstream identity provider reported about the subject. */
  datatype Profile = Profile(
    issuer: Option<string>,
    sessionIndex: Option<string>,
    nameID: string,
    nameIDFormat: Option<string>,
    nameQualifier: Option<string>,
    spNameQualifier: Option<string>,
    attributes: map<string, string>)

  /** The logged-in user kept in the session: what SAML logout needs, nothing more. */
  datatype User = User(nameID: string, nameIDFormat: Option<string>, sessionIndex: Option<string>)

  /** The strategy's verify callback. */
  function UserOf(p: Profile): (u: User)
    ensures u.nameID == p.nameID && u.nameIDFormat == p.nameIDFormat && u.sessionIndex == p.sessionIndex
  {
    User(p.nameID, p.nameIDFormat, p.sessionIndex)
  }

  /** The user depends on those three profile fields alone. */
  lemma UserOfIgnoresOtherAttributes(p: Profile, q: Profile)
    requires p.nameID == q.nameID && p.nameIDFormat == q.nameIDFormat && p.sessionIndex == q.sessionIndex
    ensures UserOf(p) == UserOf(q)
  {
  }

  datatype Context = Context(authnContextClassRef: Option<string>)

  /** The fields of a parsed AuthnRequest that the relay uses. */
  datatype AuthnRequest = AuthnRequest(
    id: string,
    issuer: Option<string>,
    destination: Option<string>,
    assertionConsumerServiceURL: Option<string>,
    forceAuthn: Option<string>,
    requestedAuthnContext: Option<Context>)

  /** The callback arguments of the request parser: an error, data, or neither. */
  datatype ParseResult = ParseFailed(message: string) | Parsed(data: AuthnRequest) | NothingParsed

  /** The session's record of a legacy AuthnRequest. */
  datatype Descriptor = Descriptor(
    relayState: Option<string>,
    id: string,
    issuer: Option<string>,
    destination: Option<string>,
    acsUrl: Option<string>,
    forceAuthn: bool,
    context: Option<Context>)

  /** The descriptor a legacy intake records: copies of the parsed fields and of the
      query's RelayState; `forceAuthn` holds only for the exact string "true". */
  function Describe(data: AuthnRequest, relayState: Option<string>): (d: Descriptor)
    ensures d.relayState == relayState && d.id == data.id
    ensures d.issuer == data.issuer && d.destination == data.destination
    ensures d.acsUrl == data.assertionConsumerServiceURL && d.context == data.requestedAuthnContext
    ensures d.forceAuthn <==> data.forceAuthn == Some("true")
  {
    Descriptor(relayState, data.id, data.issuer, data.destination,
               data.assertionConsumerServiceURL, data.forceAuthn == Some("true"),
               data.requestedAuthnContext)
  }

  /** `idpOptions.getPostURL`: the ACS URL of `req.authnRequest` when that object exists
      and has a truthy one, otherwise the configured service-provider ACS URL (possibly
      unset). The argument is `req.authnRequest`, which the handlers modelled here never
      set; it is not the session's descriptor. */
  function PostUrl(authnRequest: Option<Descriptor>, spAcsUrl: Option<string>): (url: Option<string>)
    ensures authnRequest.Some? && Truthy(authnRequest.value.acsUrl) ==> url == authnRequest.value.acsUrl
    ensures !(authnRequest.Some? && Truthy(authnRequest.value.acsUrl)) ==> url == spAcsUrl
  {
    if authnRequest.Some? && Truthy(authnRequest.value.acsUrl) then authnRequest.value.acsUrl else spAcsUrl
  }

  /** The options handed to the response signer. */
  datatype ResponseOptions = ResponseOptions(
    issuer: string,
    lifetimeInSeconds: nat,
    audiences: Option<string>,
    recipient: Option<string>,
    inResponseTo: string,
    authnContextClassRef: Option<string>,
    sessionIndex: Option<string>,
    includeAttributeNameFormat: bool)

  /** A property read on `undefined` in a handler. */
  datatype Fault = TypeError

  /** The options of a legacy response, built from the session's descriptor. Reading the
      descriptor when the session has none, or its context when the request had none,
      throws. */
  function LegacyResponseOptions(d: Option<Descriptor>): (r: Result<ResponseOptions, Fault>)
    ensures r.Err? <==> d.None? || d.value.context.None?
    ensures r.Ok? ==>
      && r.value.audiences == d.value.issuer
      && r.value.recipient == d.value.acsUrl
      && r.value.inResponseTo == d.value.id
      && r.value.authnContextClassRef == d.value.context.value.authnContextClassRef
      && r.value.lifetimeInSeconds == ResponseLifetimeSeconds
      && r.value.sessionIndex == None
      && r.value.issuer == IdpIssuer
  {
    if d.None? || d.value.context.None? then Err(TypeError)
    else
      Ok(ResponseOptions(IdpIssuer, ResponseLifetimeSeconds, d.value.issuer, d.value.acsUrl,
                         d.value.id, d.value.context.value.authnContextClassRef, None, true))
  }

  datatype Name = Name(givenName: string, familyName: string)

  /** The user object the signer is given: the session user with the id and the empty
      profile fields the signer expects. */
  datatype SamlpUser = SamlpUser(
    nameID: string,
    nameIDFormat: Option<string>,
    sessionIndex: Option<string>,
    id: string,
    emails: seq<Option<string>>,
    displayName: string,
    name: Name)

  function SamlpUserOf(u: User): (s: SamlpUser)
    ensures s.id == u.nameID && s.nameID == u.nameID
    ensures s.nameIDFormat == u.nameIDFormat && s.sessionIndex == u.sessionIndex
    ensures s.emails == [None] && s.displayName == "" && s.name == Name("", "")
  {
    SamlpUser(u.nameID, u.nameIDFormat, u.sessionIndex, u.nameID, [None], "", Name("", ""))
  }

  /** `samlp.getSamlResponse`: signs a response for the options and the user, or fails. */
  type Signer = (ResponseOptions, SamlpUser) -> Result<string, string>

  /** What a handler sends back. */
  datatype Outcome =
    | Redirect(location: string)
    | RenderError(message: string)
    | RenderResponseForm(acsUrl: Option<string>, samlResponse: string, relayState: Option<string>)
    | RenderDetails(name: string)
    // control passes on to the upstream SAML login, which redirects to the identity provider
    | Authenticate
    // `next()`: this handler sends nothing itself
    | PassOn
    // the handler returns without answering
    | NoReply
    // an exception thrown in the handler, answered by the framework's error handler
    | ServerError
    | Reply(status: nat, body: string)
    | ReplyJson(profile: Option<Profile>)

  /** The answer of the legacy completion branch: a self-submitting form carrying the
      encoded signed response to the request's ACS URL with its RelayState; nothing when
      signing fails; an exception when the descriptor or its context is missing. */
  function LegacyReply(d: Option<Descriptor>, u: User, sign: Signer, encode: string -> string): (o: Outcome)
    ensures o == ServerError <==> LegacyResponseOptions(d).Err?
    ensures o.PassOn? <==>
      LegacyResponseOptions(d).Ok? && sign(LegacyResponseOptions(d).value, SamlpUserOf(u)).Err?
    ensures o.RenderResponseForm? ==>
      && d.Some? && LegacyResponseOptions(d).Ok?
      && sign(LegacyResponseOptions(d).value, SamlpUserOf(u)).Ok?
      && o.acsUrl == d.value.acsUrl && o.relayState == d.value.relayState
      && o.samlResponse == encode(sign(LegacyResponseOptions(d).value, SamlpUserOf(u)).value)
    ensures o == ServerError || o.PassOn? || o.RenderResponseForm?
  {
    match LegacyResponseOptions(d)
    case Err(_) => ServerError
    case Ok(options) =>
      match sign(options, SamlpUserOf(u))
      case Err(_) => PassOn
      case Ok(response) => RenderResponseForm(d.value.acsUrl, encode(response), d.value.relayState)
  }

  /** The response answers the request it was built for: audience, recipient and
      in-response-to come from the parsed request, and the form goes back to its ACS URL
      with the RelayState the request came with. */
  lemma LegacyReplyAnswersRequest(data: AuthnRequest, relayState: Option<string>, u: User,
                                  sign: Signer, encode: string -> string)
    ensures var d := Describe(data, relayState);
            var r := LegacyResponseOptions(Some(d));
            && (r.Ok? <==> data.requestedAuthnContext.Some?)
            && (r.Ok? ==> r.value.audiences == data.issuer
                          && r.value.recipient == data.assertionConsumerServiceURL
                          && r.value.inResponseTo == data.id)
    ensures var o := LegacyReply(Some(Describe(data, relayState)), u, sign, encode);
            o.RenderResponseForm? ==>
              o.acsUrl == data.assertionConsumerServiceURL && o.relayState == relayState
  {
  }

  /** The outcome of the direct-validation callback. */
  datatype Validation = Validation(err: Option<string>, profile: Option<Profile>, loggedOut: bool)

  /** `/validate`: an error wins over a logout indication; both answer 400; otherwise the
      profile is returned as JSON. */
  function ValidateReply(v: Validation): (o: Outcome)
    ensures v.err.Some? ==> o == Reply(400, "error: " + v.err.value)
    ensures v.err.None? && v.loggedOut ==> o == Reply(400, "error: logged out?")
    ensures o.ReplyJson? <==> v.err.None? && !v.loggedOut
    ensures o.ReplyJson? ==> o.profile == v.profile
    ensures o.Reply? || o.ReplyJson?
  {
    if v.err.Some? then Reply(400, "error: " + v.err.value)
    else if v.loggedOut then Reply(400, "error: logged out?")
    else ReplyJson(v.profile)
  }

  /** The per-browser session. */
  class Session {
    var requestId: Option<string>
    var authnRequest: Option<Descriptor>
    var user: Option<User>

    constructor ()
      ensures requestId == None && authnRequest == None && user == None
    {
      requestId, authnRequest, user := None, None, None;
    }
  }

  /** `req.session.requestId`, looked up in `requests`: absent when the session has none. */
  function PendingValue(m: map<string, Entry<string>>, requestId: Option<string>, now: nat): (r: Option<string>)
    ensures r.Some? <==> requestId.Some? && requestId.value in m && Live(RequestsPolicy, m[requestId.value], now)
    ensures r.Some? ==> r.value == m[requestId.value].value
  {
    if requestId.None? then None else Lookup(RequestsPolicy, m, requestId.value, now)
  }

  /** `/login/:id`: remembers the request id and goes on to the upstream login. */
  method LoginWithId(session: Session, id: string) returns (o: Outcome)
    modifies session
    ensures session.requestId == Some(id)
    ensures session.authnRequest == old(session.authnRequest) && session.user == old(session.user)
    ensures o == Authenticate
  {
    session.requestId := Some(id);
    o := Authenticate;
  }

  /** A successful upstream login at `/sso`: the verify callback's user is kept in the
      session as it is, and the browser is sent to `/success`. */
  method SsoLogin(session: Session, profile: Profile) returns (o: Outcome)
    modifies session
    ensures session.user == Some(UserOf(profile))
    ensures session.requestId == old(session.requestId) && session.authnRequest == old(session.authnRequest)
    ensures o == Redirect("/saml/success")
  {
    session.user := Some(UserOf(profile));
    o := Redirect("/saml/success");
  }

  /** `/login` with a raw AuthnRequest: on success the descriptor goes into the session,
      the placeholder goes into `requests` under the request's id, and the browser is
      sent to `login/<id>`. A parse error renders a diagnostic and writes nothing. */
  method LegacyLogin(session: Session, caches: Caches<User>, parsed: ParseResult,
                     relayState: Option<string>, now: nat) returns (o: Outcome)
    requires caches.Valid()
    modifies session, caches.requests
    ensures caches.Valid()
    ensures session.requestId == old(session.requestId) && session.user == old(session.user)
    ensures parsed.ParseFailed? ==>
      && o == RenderError(ParseErrorPrefix + parsed.message)
      && session.authnRequest == old(session.authnRequest)
      && caches.requests.entries == old(caches.requests.entries)
    ensures parsed.NothingParsed? ==>
      && o == NoReply
      && session.authnRequest == old(session.authnRequest)
      && caches.requests.entries == old(caches.requests.entries)
    ensures parsed.Parsed? ==>
      && session.authnRequest == Some(Describe(parsed.data, relayState))
      && caches.requests.entries == Written(old(caches.requests.entries), parsed.data.id, Placeholder, now)
      && o == Redirect("login/" + parsed.data.id)
  {
    match parsed
    case ParseFailed(message) =>
      o := RenderError(ParseErrorPrefix + message);
    case NothingParsed =>
      o := NoReply;
    case Parsed(data) =>
      session.authnRequest := Some(Describe(data, relayState));
      caches.requests.Set(data.id, Placeholder, now);
      o := Redirect("login/" + data.id);
  }

  /** `/success`. Without a logged-in user: back to `/`, no cache touched. Otherwise the
      session's request id is looked up in `requests` (refreshing its read stamp, never
      removing it). The placeholder means a legacy exchange: the user is cached under its
      name id and a response is built from the session's descriptor. Anything else,
      absent included, is used as the key the user is cached under. */
  method Success(session: Session, caches: Caches<User>, now: nat, sign: Signer,
                 encode: string -> string) returns (o: Outcome)
    requires caches.Valid()
    modifies caches.users, caches.requests
    ensures caches.Valid()
    ensures session.user.None? ==>
      o == Redirect("/") && unchanged(caches.users) && unchanged(caches.requests)
    ensures session.user.Some? ==>
      var u := session.user.value;
      var pending := PendingValue(old(caches.requests.entries), session.requestId, now);
      && caches.requests.entries ==
           (if session.requestId.None? then old(caches.requests.entries)
            else Touched(RequestsPolicy, old(caches.requests.entries), session.requestId.value, now))
      && (pending == Some(Placeholder) ==>
            && caches.users.entries == Written(old(caches.users.entries), Some(u.nameID), u, now)
            && o == LegacyReply(session.authnRequest, u, sign, encode))
      && (pending != Some(Placeholder) ==>
            && caches.users.entries == Written(old(caches.users.entries), pending, u, now)
            && o == RenderDetails(u.nameID))
    ensures caches.requests.entries.Keys == old(caches.requests.entries.Keys)
  {
    if session.user.None? {
      return Redirect("/");
    }
    var u := session.user.value;
    var pending: Option<string> := None;
    if session.requestId.Some? {
      pending := caches.requests.Get(session.requestId.value, now);
    }
    if pending == Some(Placeholder) {
      caches.users.Set(Some(u.nameID), u, now);
      o := LegacyReply(session.authnRequest, u, sign, encode);
    } else {
      caches.users.Set(pending, u, now);
      o := RenderDetails(u.nameID);
    }
  }

  /** Single logout: the session is destroyed and the browser sent to `/`. The caches are
      not touched. */
  method HandleSlo(session: Session) returns (o: Outcome)
    modifies session
    ensures session.requestId == None && session.authnRequest == None && session.user == None
    ensures o == Redirect("/")
  {
    session.requestId, session.authnRequest, session.user := None, None, None;
    o := Redirect("/");
  }
}
