/** `DocuSignService`: the cached access token, the envelope definition
    built from a template and its signers, the recipient-status report and
    the webhook signature check. The DocuSign API and HMAC-SHA256 are
    parameters. */
module DocuSignService {
  import opened Wrappers
  import opened Values
  import opened Redis

  // ---------------------------------------------------------------------
  // Access token

  function TokenKey(userId: string): string { "docusign:access_token:" + userId }

  /** Tokens are cached for 50 minutes, ten less than their lifetime. */
  const TokenTtl: nat := 3000

  /** The cached token as `redis.get` returns it, when it is truthy. */
  function CachedToken(entries: map<string, Entry>, userId: string, now: int): Option<string>
  {
    match Live(entries, TokenKey(userId), now)
    case Some(Str(s)) => if s != "" then Some(s) else None
    case _ => None
  }

  /** The token `getAccessToken` returns: the cached one, or else the
      outcome of the JWT request. */
  function TokenOutcome(entries: map<string, Entry>, userId: string, now: int, jwt: Result<string>): Result<string>
  {
    if CachedToken(entries, userId, now).Some? then Ok(CachedToken(entries, userId, now).value) else jwt
  }

  /** The cache after `getAccessToken`: a fetched token is stored. */
  function TokenEntries(entries: map<string, Entry>, userId: string, now: int, jwt: Result<string>): map<string, Entry>
  {
    if CachedToken(entries, userId, now).None? && jwt.Ok? then Stored(entries, TokenKey(userId), Str(jwt.value), TokenTtl, now)
    else entries
  }

  /** A cached token is returned without a JWT request and the cache is
      left as it is; on a miss the request's token is stored for
      `TokenTtl` seconds and returned, and its failure is rethrown. */
  lemma TokenCachePolicy(entries: map<string, Entry>, userId: string, now: int, jwt: Result<string>, other: Result<string>)
    ensures CachedToken(entries, userId, now).Some? ==>
      && TokenOutcome(entries, userId, now, jwt) == TokenOutcome(entries, userId, now, other)
      && TokenEntries(entries, userId, now, jwt) == entries
    ensures CachedToken(entries, userId, now).None? && jwt.Ok? ==>
      && TokenOutcome(entries, userId, now, jwt) == jwt
      && Live(TokenEntries(entries, userId, now, jwt), TokenKey(userId), now) == Some(Str(jwt.value))
      && TokenEntries(entries, userId, now, jwt)[TokenKey(userId)].expiresAt == now + 3000
    ensures CachedToken(entries, userId, now).None? && jwt.Err? ==>
      TokenOutcome(entries, userId, now, jwt) == jwt && TokenEntries(entries, userId, now, jwt) == entries
  {
  }

  /** `getAccessToken`; `jwt` is the outcome of the JWT token request. */
  method GetAccessToken(redis: Cache, userId: string, now: int, jwt: Result<string>) returns (r: Result<string>)
    modifies redis
    ensures r == TokenOutcome(old(redis.entries), userId, now, jwt)
    ensures redis.entries == TokenEntries(old(redis.entries), userId, now, jwt)
  {
    var key := TokenKey(userId);
    var cached := redis.Get(key, now);
    if cached.Some? && cached.value.Str? && cached.value.s != "" {
      return Ok(cached.value.s);
    }
    if jwt.Err? {
      return jwt;
    }
    redis.Set(key, Str(jwt.value), TokenTtl, now);
    r := Ok(jwt.value);
  }

  /** A non-empty token fetched after a miss is served by every later call
      within its time-to-live, with no further JWT request. */
  lemma TokenReused(entries: map<string, Entry>, userId: string, now: int, later: int, token: string)
    requires token != "" && now <= later < now + TokenTtl
    ensures CachedToken(Stored(entries, TokenKey(userId), Str(token), TokenTtl, now), userId, later) == Some(token)
  {
  }

  // ---------------------------------------------------------------------
  // Envelope definition

  /** A signer as `createEnvelope` receives it; `tabs` is optional. */
  datatype EnvelopeSigner = EnvelopeSigner(email: string, name: string, role: string, tabs: Option<Record>)

  /** A DocuSign template role: text tabs by label, absent when the signer
      has no tabs. */
  datatype TemplateRole = TemplateRole(email: string, name: string, roleName: string, tabs: Option<map<string, string>>)

  datatype EnvelopeDefinition = EnvelopeDefinition(templateId: string, templateRoles: seq<TemplateRole>, status: string)

  /** One text tab per entry, the value converted with `String(value)`. */
  function TextTabs(values: Record): (tabs: map<string, string>)
    ensures tabs.Keys == values.Keys
    ensures forall k :: k in tabs ==> tabs[k] == ToJsString(values[k])
  {
    map k | k in values :: ToJsString(values[k])
  }

  function RoleOf(s: EnvelopeSigner): TemplateRole
  {
    TemplateRole(s.email, s.name, s.role, if s.tabs.Some? then Some(TextTabs(s.tabs.value)) else None)
  }

  /** The roles, one per signer in order (`signers.map`). */
  function Roles(signers: seq<EnvelopeSigner>): (roles: seq<TemplateRole>)
    ensures |roles| == |signers|
    ensures forall i :: 0 <= i < |signers| ==>
      && roles[i].email == signers[i].email && roles[i].name == signers[i].name
      && roles[i].roleName == signers[i].role
      && (roles[i].tabs.Some? <==> signers[i].tabs.Some?)
      && (signers[i].tabs.Some? ==> roles[i].tabs == Some(TextTabs(signers[i].tabs.value)))
    decreases |signers|
  {
    if signers == [] then [] else Roles(signers[..|signers| - 1]) + [RoleOf(signers[|signers| - 1])]
  }

  /** The definition `createEnvelope` submits: always with status `sent`. */
  function Definition(templateId: string, signers: seq<EnvelopeSigner>): (d: EnvelopeDefinition)
    ensures d.status == "sent" && d.templateId == templateId && |d.templateRoles| == |signers|
    ensures d.templateRoles == Roles(signers)
  {
    EnvelopeDefinition(templateId, Roles(signers), "sent")
  }

  /** What `createEnvelope` returns: the token's failure or DocuSign's
      answer to the definition. */
  function EnvelopeOutcome(entries: map<string, Entry>, userId: string, now: int, jwt: Result<string>,
                           templateId: string, signers: seq<EnvelopeSigner>,
                           createApi: EnvelopeDefinition -> Result<string>): Result<string>
  {
    var token := TokenOutcome(entries, userId, now, jwt);
    if token.Err? then Err(token.error) else createApi(Definition(templateId, signers))
  }

  /** `createEnvelope`: authorise with the (possibly cached) token, then
      submit the definition; `createApi` is DocuSign's answer to it. */
  method CreateEnvelope(redis: Cache, userId: string, now: int, jwt: Result<string>,
                        templateId: string, signers: seq<EnvelopeSigner>,
                        createApi: EnvelopeDefinition -> Result<string>) returns (r: Result<string>)
    modifies redis
    ensures redis.entries == TokenEntries(old(redis.entries), userId, now, jwt)
    ensures r == EnvelopeOutcome(old(redis.entries), userId, now, jwt, templateId, signers, createApi)
  {
    var token := GetAccessToken(redis, userId, now, jwt);
    if token.Err? {
      return Err(token.error);
    }
    r := createApi(Definition(templateId, signers));
  }

  // ---------------------------------------------------------------------
  // Envelope status

  /** One recipient as DocuSign lists it. */
  datatype Recipient = Recipient(email: string, name: string, status: string, signedDateTime: Option<string>)

  /** The `listRecipients` answer; both members may be missing. */
  datatype Recipients = Recipients(status: Option<string>, signers: Option<seq<Recipient>>)

  datatype EnvelopeStatus = EnvelopeStatus(status: string, signers: seq<Recipient>)

  /** The report `getEnvelopeStatus` returns: `status || 'unknown'`,
      `signers || []`. */
  function StatusReport(res: Recipients): (s: EnvelopeStatus)
    ensures s.status == (if res.status.Some? && res.status.value != "" then res.status.value else "unknown")
    ensures s.signers == (if res.signers.Some? then res.signers.value else [])
    ensures s.status != ""
  {
    EnvelopeStatus(if res.status.Some? && res.status.value != "" then res.status.value else "unknown",
                   if res.signers.Some? then res.signers.value else [])
  }

  /** What `getEnvelopeStatus` returns: the token's failure, the
      recipient listing's failure, or the report. */
  function StatusOutcome(entries: map<string, Entry>, userId: string, now: int, jwt: Result<string>,
                         listRecipients: Result<Recipients>): Result<EnvelopeStatus>
  {
    var token := TokenOutcome(entries, userId, now, jwt);
    if token.Err? then Err(token.error)
    else if listRecipients.Err? then Err(listRecipients.error)
    else Ok(StatusReport(listRecipients.value))
  }

  /** `getEnvelopeStatus`; `listRecipients` is DocuSign's answer. */
  method GetEnvelopeStatus(redis: Cache, userId: string, now: int, jwt: Result<string>,
                           listRecipients: Result<Recipients>) returns (r: Result<EnvelopeStatus>)
    modifies redis
    ensures redis.entries == TokenEntries(old(redis.entries), userId, now, jwt)
    ensures r == StatusOutcome(old(redis.entries), userId, now, jwt, listRecipients)
  {
    var token := GetAccessToken(redis, userId, now, jwt);
    if token.Err? {
      return Err(token.error);
    }
    if listRecipients.Err? {
      return Err(listRecipients.error);
    }
    r := Ok(StatusReport(listRecipients.value));
  }

  // ---------------------------------------------------------------------
  // Webhook signature

  /** `process.env.DOCUSIGN_WEBHOOK_SECRET || ''`. */
  function SecretOrEmpty(secret: Option<string>): string
  {
    if secret.Some? then secret.value else ""
  }

  /** `validateWebhookSignature`: `hmac(key, payload)` is the hex digest,
      `None` when computing it throws. The header is compared with `===`;
      a missing header is `undefined`, which equals no digest. */
  function ValidateWebhookSignature(signature: Option<string>, payload: string, secret: Option<string>,
                                    hmac: (string, string) -> Option<string>): (ok: bool)
    ensures ok ==> signature.Some? && hmac(SecretOrEmpty(secret), payload) == signature
    ensures signature.Some? && hmac(SecretOrEmpty(secret), payload) == signature ==> ok
  {
    match hmac(SecretOrEmpty(secret), payload)
    case None => false
    case Some(calculated) => signature == Some(calculated)
  }

  /** A missing header, or a digest that throws, is always rejected; an
      unset secret and an empty one are the same key. */
  lemma SignatureRejections(payload: string, secret: Option<string>, sig: Option<string>, hmac: (string, string) -> Option<string>)
    ensures !ValidateWebhookSignature(None, payload, secret, hmac)
    ensures hmac(SecretOrEmpty(secret), payload).None? ==> !ValidateWebhookSignature(sig, payload, secret, hmac)
    ensures ValidateWebhookSignature(sig, payload, None, hmac) == ValidateWebhookSignature(sig, payload, Some(""), hmac)
  {
  }
}
