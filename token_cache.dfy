/**
 * The process-wide bearer-token cache of write_test.py (`_token_cache` and
 * `get_token`).  The identity provider, the clock and the environment are not
 * called: their answers are parameters of each call.
 */
module TokenCache {
  import opened Wrappers

  /** A cached token is reused only while `now < expiresAt - ExpiryMargin`. */
  const ExpiryMargin: int := 60
  /** Lifetime assumed when the provider's reply carries no `expires_in`. */
  const DefaultExpiresIn: int := 3599

  /** Python truthiness of an optional string: `None` and `""` are both false. */
  predicate Truthy(s: Option<string>) {
    s.Some? && s.value != ""
  }

  /** The three identity settings read from the environment; each may be unset. */
  datatype Credentials = Credentials(clientId: Option<string>, clientSecret: Option<string>, tenantId: Option<string>)

  predicate HasCredentials(c: Credentials) {
    Truthy(c.clientId) && Truthy(c.clientSecret) && Truthy(c.tenantId)
  }

  /** The `expires_in` field of a granted reply: absent, a number of seconds, or a value that is not a number. */
  datatype Lifetime = Absent | Seconds(n: int) | NotANumber

  /**
   * What a client-credential request to the identity provider yields.
   * `Granted` holds `access_token`, the `expires_in` field and `clock`, the clock
   * reading taken after the reply arrived. `Refused` stands both for a reply without
   * `access_token` and for an exception raised while asking.
   */
  datatype ProviderReply = Granted(accessToken: string, expiresIn: Lifetime, clock: int) | Refused

  /** The contents of `_token_cache`: `{access_token, expires_at}`. */
  datatype Entry = Entry(accessToken: Option<string>, expiresAt: int)

  /** The cache as the module starts: `{None, 0}`. */
  const Initial: Entry := Entry(None, 0)

  /** The cached token may be handed out at `now` without asking the provider. */
  predicate Fresh(e: Entry, now: int) {
    Truthy(e.accessToken) && now < e.expiresAt - ExpiryMargin
  }

  /** What one `get_token` call returns, whether it asked the provider, and the cache after it. */
  datatype Step = Step(token: Option<string>, requested: bool, cache: Entry)

  /**
   * One call of `get_token` at clock `now`, with `reply` the provider's answer should it be asked.
   * The new token is stored before its expiry is computed, so a non-numeric `expires_in`
   * raises after the token field has been overwritten: the call then returns nothing and
   * the cache holds the new token with the old expiry.
   */
  function GetTokenStep(e: Entry, creds: Credentials, now: int, reply: ProviderReply): (s: Step)
    // the provider is asked exactly when credentials are set and the cache cannot serve
    ensures s.requested <==> HasCredentials(creds) && !Fresh(e, now)
    // a returned token is always the one the cache holds afterwards
    ensures s.token.Some? ==> s.cache.accessToken == s.token
    // the cache changes only through a request the provider granted, whose token it then holds
    ensures s.cache != e ==> s.requested && reply.Granted?
    ensures s.requested && reply.Granted? ==> s.cache.accessToken == Some(reply.accessToken)
    // with a usable lifetime the token is returned and expires that long after the reply arrived
    ensures s.requested && reply.Granted? && reply.expiresIn.Seconds? ==>
      s.token == Some(reply.accessToken) && s.cache.expiresAt == reply.clock + reply.expiresIn.n
    ensures s.requested && reply.Granted? && reply.expiresIn.Absent? ==>
      s.token == Some(reply.accessToken) && s.cache.expiresAt == reply.clock + DefaultExpiresIn
    // a call that returns nothing keeps the expiry, and the whole cache unless the lifetime was not a number
    ensures s.token.None? ==> s.cache.expiresAt == e.expiresAt
    ensures s.token.None? && !(reply.Granted? && reply.expiresIn.NotANumber?) ==> s.cache == e
  {
    if !HasCredentials(creds) then
      Step(None, false, e)
    else if Fresh(e, now) then
      Step(e.accessToken, false, e)
    else
      match reply
      case Granted(t, Absent, clock) =>
        Step(Some(t), true, Entry(Some(t), clock + DefaultExpiresIn))
      case Granted(t, Seconds(n), clock) =>
        Step(Some(t), true, Entry(Some(t), clock + n))
      case Granted(t, NotANumber, _) =>
        Step(None, true, Entry(Some(t), e.expiresAt))
      case Refused =>
        Step(None, true, e)
  }

  lemma MissingCredentialsReturnNothing(e: Entry, creds: Credentials, now: int, reply: ProviderReply)
    requires !HasCredentials(creds)
    ensures GetTokenStep(e, creds, now, reply) == Step(None, false, e)
  {
  }

  lemma FreshTokenIsReused(e: Entry, creds: Credentials, now: int, reply: ProviderReply)
    requires HasCredentials(creds) && Fresh(e, now)
    ensures GetTokenStep(e, creds, now, reply) == Step(e.accessToken, false, e)
  {
  }

  lemma StaleOrEmptyCacheAsksProvider(e: Entry, creds: Credentials, now: int, reply: ProviderReply)
    requires HasCredentials(creds)
    requires e.accessToken == None || e.accessToken == Some("") || now >= e.expiresAt - ExpiryMargin
    ensures GetTokenStep(e, creds, now, reply).requested
  {
  }

  lemma GrantedTokenIsCached(e: Entry, creds: Credentials, now: int, t: string, expiresIn: Lifetime, clock: int)
    requires HasCredentials(creds) && !Fresh(e, now) && !expiresIn.NotANumber?
    ensures var s := GetTokenStep(e, creds, now, Granted(t, expiresIn, clock));
      s.token == Some(t) &&
      s.cache.accessToken == Some(t) &&
      s.cache.expiresAt == (if expiresIn.Seconds? then clock + expiresIn.n else clock + 3599)
  {
  }

  /** A non-numeric `expires_in` makes the call return nothing after the new token has replaced the old one. */
  lemma NonNumericLifetimeStoresTokenOnly(e: Entry, creds: Credentials, now: int, t: string, clock: int)
    requires HasCredentials(creds) && !Fresh(e, now)
    ensures GetTokenStep(e, creds, now, Granted(t, NotANumber, clock)) == Step(None, true, Entry(Some(t), e.expiresAt))
  {
  }

  lemma RefusalLeavesCache(e: Entry, creds: Credentials, now: int)
    requires HasCredentials(creds) && !Fresh(e, now)
    ensures GetTokenStep(e, creds, now, Refused) == Step(None, true, e)
  {
  }

  /** One call in a sequence of calls: the clock reading and the provider's answer. */
  datatype Call = Call(now: int, reply: ProviderReply)

  /** What a sequence of `get_token` calls returns, how many reached the provider, and the final cache. */
  datatype Trace = Trace(tokens: seq<Option<string>>, requests: nat, cache: Entry)

  function Run(e: Entry, creds: Credentials, calls: seq<Call>): (t: Trace)
    ensures |t.tokens| == |calls|
    ensures t.requests <= |calls|
    decreases |calls|
  {
    if calls == [] then
      Trace([], 0, e)
    else
      var s := GetTokenStep(e, creds, calls[0].now, calls[0].reply);
      var rest := Run(s.cache, creds, calls[1..]);
      Trace([s.token] + rest.tokens, (if s.requested then 1 else 0) + rest.requests, rest.cache)
  }

  /** Calls made while the cached token is fresh all return it, none asks the provider, and the cache stays. */
  lemma {:induction false} RunWithinWindow(e: Entry, creds: Credentials, calls: seq<Call>)
    requires HasCredentials(creds)
    requires forall i :: 0 <= i < |calls| ==> Fresh(e, calls[i].now)
    ensures var t := Run(e, creds, calls);
      t.requests == 0 && t.cache == e &&
      forall i :: 0 <= i < |calls| ==> t.tokens[i] == e.accessToken
  {
    if calls != [] {
      FreshTokenIsReused(e, creds, calls[0].now, calls[0].reply);
      RunWithinWindow(e, creds, calls[1..]);
      var rest := Run(e, creds, calls[1..]);
      forall i | 0 <= i < |calls|
        ensures Run(e, creds, calls).tokens[i] == e.accessToken
      {
        if i > 0 {
          assert Run(e, creds, calls).tokens[i] == rest.tokens[i - 1];
        }
      }
    }
  }

  /**
   * After a call hands out a non-empty token, every further call made before that token's
   * expiry less the margin returns the same token: of the whole run at most the first call
   * contacted the provider.
   */
  lemma ConsecutiveCallsShareToken(e: Entry, creds: Credentials, calls: seq<Call>)
    requires HasCredentials(creds) && |calls| > 0
    requires var s := GetTokenStep(e, creds, calls[0].now, calls[0].reply);
      Truthy(s.token) &&
      forall i :: 1 <= i < |calls| ==> calls[i].now < s.cache.expiresAt - ExpiryMargin
    ensures var t := Run(e, creds, calls);
      t.requests <= 1 &&
      forall i :: 0 <= i < |calls| ==> t.tokens[i] == t.tokens[0]
    ensures Run(GetTokenStep(e, creds, calls[0].now, calls[0].reply).cache, creds, calls[1..]).requests == 0
  {
    var s := GetTokenStep(e, creds, calls[0].now, calls[0].reply);
    var tail := calls[1..];
    forall i | 0 <= i < |tail| ensures Fresh(s.cache, tail[i].now) {
      assert tail[i] == calls[i + 1];
    }
    RunWithinWindow(s.cache, creds, tail);
    var t := Run(e, creds, calls);
    var rest := Run(s.cache, creds, tail);
    forall i | 0 <= i < |calls| ensures t.tokens[i] == t.tokens[0] {
      if i > 0 {
        assert t.tokens[i] == rest.tokens[i - 1];
      }
    }
  }

  /** `_token_cache` as an object whose two fields `get_token` overwrites. */
  class Cache {
    var accessToken: Option<string>
    var expiresAt: int

    function State(): Entry
      reads this
    {
      Entry(accessToken, expiresAt)
    }

    constructor ()
      ensures State() == Initial
    {
      accessToken := None;
      expiresAt := 0;
    }

    /** `get_token`: returns the token (or nothing) and whether the provider was asked. */
    method GetToken(creds: Credentials, now: int, reply: ProviderReply) returns (token: Option<string>, requested: bool)
      modifies this
      ensures Step(token, requested, State()) == GetTokenStep(old(State()), creds, now, reply)
      ensures !HasCredentials(creds) ==> token == None && !requested && unchanged(this)
      ensures token.None? ==> expiresAt == old(expiresAt)
      ensures reply.Refused? ==> unchanged(this)
    {
      if !HasCredentials(creds) {
        return None, false;
      }
      if accessToken.Some? && accessToken.value != "" && now < expiresAt - ExpiryMargin {
        return accessToken, false;
      }
      requested := true;
      match reply {
        case Granted(t, lifetime, clock) =>
          accessToken := Some(t);
          match lifetime {
            case Absent =>
              expiresAt := clock + DefaultExpiresIn;
              token := Some(t);
            case Seconds(n) =>
              expiresAt := clock + n;
              token := Some(t);
            case NotANumber =>
              // adding it to the clock raises, and the handler returns nothing
              token := None;
          }
        case Refused =>
          token := None;
      }
    }
  }
}
