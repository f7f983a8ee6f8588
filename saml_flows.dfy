/** Whole exchanges through the handlers of routes/saml.js, each on a fresh session and a
    fresh pair of caches, showing what the handlers' contracts add up to. */
module SamlFlows {
  import opened Options
  import opened Ttl
  import opened Store
  import opened Saml

  /** A legacy exchange completed within five minutes of intake: the response answers the
      parsed request and goes back with its RelayState, the user is cached under its name
      id, and the request id stays in `requests`. */
  method LegacyExchange(data: AuthnRequest, relayState: Option<string>, profile: Profile,
                        t: nat, elapsed: nat, sign: Signer, encode: string -> string)
    returns (intake: Outcome, completion: Outcome, cached: Option<User>, pending: Option<string>)
    requires elapsed < 5 * Minute
    ensures intake == Redirect("login/" + data.id)
    ensures completion == LegacyReply(Some(Describe(data, relayState)), UserOf(profile), sign, encode)
    ensures completion == ServerError <==> data.requestedAuthnContext.None?
    ensures completion.RenderResponseForm? ==>
      completion.acsUrl == data.assertionConsumerServiceURL && completion.relayState == relayState
    ensures cached == Some(UserOf(profile))
    ensures pending == Some(Placeholder)
  {
    var session := new Session();
    var caches := new Caches<User>();
    intake := LegacyLogin(session, caches, Parsed(data), relayState, t);
    var _ := LoginWithId(session, data.id);
    var _ := SsoLogin(session, profile);
    completion := Success(session, caches, t + elapsed, sign, encode);
    LegacyReplyAnswersRequest(data, relayState, UserOf(profile), sign, encode);
    cached := caches.users.Get(Some(profile.nameID), t + elapsed);
    pending := caches.requests.Get(data.id, t + elapsed);
  }

  /** The same legacy session completing twice yields a second legacy reply, from its own
      signing call, to the same ACS URL and RelayState: the request id is not single-use. */
  method ReplayedLegacyCompletion(data: AuthnRequest, relayState: Option<string>, profile: Profile,
                                  t: nat, first: nat, second: nat, sign1: Signer, sign2: Signer,
                                  encode: string -> string)
    returns (o1: Outcome, o2: Outcome)
    requires first <= second < first + 5 * Minute && first < 5 * Minute
    ensures o1 == LegacyReply(Some(Describe(data, relayState)), UserOf(profile), sign1, encode)
    ensures o2 == LegacyReply(Some(Describe(data, relayState)), UserOf(profile), sign2, encode)
    ensures o1.RenderResponseForm? ==>
      o1.acsUrl == data.assertionConsumerServiceURL && o1.relayState == relayState
    ensures o2.RenderResponseForm? ==>
      o2.acsUrl == data.assertionConsumerServiceURL && o2.relayState == relayState
  {
    var session := new Session();
    var caches := new Caches<User>();
    var _ := LegacyLogin(session, caches, Parsed(data), relayState, t);
    var _ := LoginWithId(session, data.id);
    var _ := SsoLogin(session, profile);
    o1 := Success(session, caches, t + first, sign1, encode);
    o2 := Success(session, caches, t + second, sign2, encode);
    LegacyReplyAnswersRequest(data, relayState, UserOf(profile), sign1, encode);
    LegacyReplyAnswersRequest(data, relayState, UserOf(profile), sign2, encode);
  }

  /** A legacy exchange completed five minutes or more after intake finds no pending
      request: it takes the normal branch and caches the user under an absent key, rather
      than failing. */
  method LateLegacyCompletion(data: AuthnRequest, relayState: Option<string>, profile: Profile,
                              t: nat, elapsed: nat, sign: Signer, encode: string -> string)
    returns (completion: Outcome, cached: Option<User>)
    requires elapsed >= 5 * Minute
    ensures completion == RenderDetails(profile.nameID)
    ensures cached == Some(UserOf(profile))
  {
    var session := new Session();
    var caches := new Caches<User>();
    var _ := LegacyLogin(session, caches, Parsed(data), relayState, t);
    var _ := LoginWithId(session, data.id);
    var _ := SsoLogin(session, profile);
    completion := Success(session, caches, t + elapsed, sign, encode);
    cached := caches.users.Get(None, t + elapsed);
  }

  /** A normal exchange: a request id already mapped to a user id in `requests` leads to
      the user being cached under that user id; logging out afterwards leaves that entry
      in place. */
  method NormalExchangeThenLogout(requestId: string, userId: string, profile: Profile,
                                  t: nat, elapsed: nat, sign: Signer, encode: string -> string)
    returns (completion: Outcome, logout: Outcome, cached: Option<User>)
    requires userId != Placeholder && elapsed < 5 * Minute
    ensures completion == RenderDetails(profile.nameID)
    ensures logout == Redirect("/")
    ensures cached == Some(UserOf(profile))
  {
    var session := new Session();
    var caches := new Caches<User>();
    caches.requests.Set(requestId, userId, t);
    var _ := LoginWithId(session, requestId);
    var _ := SsoLogin(session, profile);
    completion := Success(session, caches, t + elapsed, sign, encode);
    logout := HandleSlo(session);
    cached := caches.users.Get(Some(userId), t + elapsed);
  }

  /** A parse error leaves the session and the caches as they were. */
  method ParseErrorWritesNothing(message: string, relayState: Option<string>, t: nat)
    returns (o: Outcome, pending: map<string, Entry<string>>, descriptor: Option<Descriptor>)
    ensures o == RenderError(ParseErrorPrefix + message)
    ensures pending == map[] && descriptor == None
  {
    var session := new Session();
    var caches := new Caches<User>();
    o := LegacyLogin(session, caches, ParseFailed(message), relayState, t);
    pending := caches.requests.entries;
    descriptor := session.authnRequest;
  }

  /** Without a logged-in user `/success` only redirects home. */
  method UnauthenticatedSuccess(requestId: string, userId: string, t: nat, sign: Signer,
                                encode: string -> string)
    returns (o: Outcome, users: map<Option<string>, Entry<User>>, pending: map<string, Entry<string>>)
    ensures o == Redirect("/")
    ensures users == map[] && pending == map[requestId := Entry(userId, t, t)]
  {
    var session := new Session();
    var caches := new Caches<User>();
    caches.requests.Set(requestId, userId, t);
    var _ := LoginWithId(session, requestId);
    o := Success(session, caches, t, sign, encode);
    users := caches.users.entries;
    pending := caches.requests.entries;
  }
}
