/** What becomes of a credential, field by field (internal/app/vault_service.go and
    internal/app/vault_oauth.go): its public part, and the secret its envelope opens to. */
module VaultChanges {
  import opened Conversation
  import opened Text
  import opened VaultCredentials

  /** A secret is kept, cleared, or replaced by a text. */
  predicate SecretBecomes(p: Patch<string>, was: string, made: string) {
    match p
    case Absent => made == was
    case Present(None) => made == ""
    case Present(Some(text)) => text != "" && made == text
  }

  predicate Becomes<T(==)>(p: Patch<T>, was: Option<T>, made: Option<T>) {
    match p
    case Absent => made == was
    case Present(value) => made == value
  }

  /** An expiry is kept, removed, or moved to an instant, in UTC. */
  predicate ExpiryBecomes(p: Patch<Time>, was: Option<Time>, made: Option<Time>) {
    match p
    case Absent => made == was
    case Present(None) => made == None
    case Present(Some(t)) => made == Some(Time(t.instant, 0))
  }

  predicate MetadataBecomes(p: Patch<map<string, Option<string>>>, was: map<string, string>,
      made: map<string, string>) {
    match p
    case Absent => made == was
    case Present(None) => made == map[]
    case Present(Some(patch)) =>
      && (forall k | k in made :: if k in patch then patch[k] == Some(made[k]) else k in was && made[k] == was[k])
      && (forall k | k in patch :: patch[k] == None <==> k !in made)
      && (forall k | k in was && k !in patch :: k in made)
  }

  // ---------------------------------------------------------------- updates

  /** UTF-8 without a null character. */
  ghost predicate IsText(s: string) {
    (exists rs :: Encodes(s, rs)) && '\0' !in s
  }

  predicate Setting(p: Patch<string>) {
    p.Present? && p.value.Some?
  }

  /** An endpoint update names one of the two client secret schemes, and no empty secret. */
  ghost predicate Acceptable(u: RefreshUpdate) {
    && u.refreshToken != Present(Some(""))
    && (Setting(u.scope) ==> IsText(u.scope.value.value))
    && (u.endpointAuth.Some? ==>
          u.endpointAuth.value.kind in {"client_secret_basic", "client_secret_post"}
          && u.endpointAuth.value.clientSecret != Present(Some("")))
  }

  /** A patch of the public part and the secret is accepted. */
  ghost predicate Accepted(c: Credential, input: AuthUpdate) {
    && input.kind == c.auth.kind
    && (input.kind == "static_bearer" ==> input.token != Present(Some("")))
    && (input.kind != "static_bearer" ==>
          && input.kind == "mcp_oauth" && input.accessToken != Present(Some(""))
          && (input.refresh.Present? && input.refresh.value.Some? ==>
                c.auth.refresh.Some? && Acceptable(input.refresh.value.value)))
  }

  /** What an update of a refresh grant makes of it. */
  predicate RefreshBecomes(u: RefreshUpdate, was: Refresh, made: Refresh, secret: Secret, secret': Secret) {
    && made == was.(scope := made.scope, endpointAuth := made.endpointAuth)
    && Becomes(u.scope, was.scope, made.scope)
    && SecretBecomes(u.refreshToken, secret.refreshToken, secret'.refreshToken)
    && match u.endpointAuth
       case None => made.endpointAuth == was.endpointAuth && secret'.clientSecret == secret.clientSecret
       case Some(e) =>
         made.endpointAuth == e.kind && SecretBecomes(e.clientSecret, secret.clientSecret, secret'.clientSecret)
  }

  /** What a patch makes of the public part and the secret. */
  predicate AuthBecomes(input: AuthUpdate, was: Auth, made: Auth, secret: Secret, secret': Secret) {
    if input.kind == "static_bearer" then
      && made == was && SecretBecomes(input.token, secret.token, secret'.token)
      && secret' == secret.(token := secret'.token)
    else
      && made == was.(expiresAt := made.expiresAt, refresh := made.refresh) && secret'.token == secret.token
      && SecretBecomes(input.accessToken, secret.accessToken, secret'.accessToken)
      && ExpiryBecomes(input.expiresAt, was.expiresAt, made.expiresAt)
      && match input.refresh
         case Absent =>
           && made.refresh == was.refresh
           && secret'.refreshToken == secret.refreshToken && secret'.clientSecret == secret.clientSecret
         case Present(None) => made.refresh == None && secret'.refreshToken == secret'.clientSecret == ""
         case Present(Some(u)) =>
           && was.refresh.Some? && made.refresh.Some?
           && RefreshBecomes(u, was.refresh.value, made.refresh.value, secret, secret')
  }

  /** An update is refused exactly when the credential is archived, the metadata grow past 16
      entries, or the patch is not accepted; otherwise every field is what it asks for. */
  lemma {:induction false} UpdateSays(c: Credential, input: Update, now: int)
    requires Bindable(c)
    ensures Updated(c, input, now).Ok? <==>
      && !c.archived && |PatchedMetadata(c.metadata, input.metadata)| <= 16
      && (input.auth.Some? ==> Accepted(c, input.auth.value))
    ensures Updated(c, input, now).Ok? ==>
      var next := Updated(c, input, now).value.0;
      && Opened(c).Ok? && Opened(next).Ok?
      && Becomes(input.displayName, c.displayName, next.displayName)
      && MetadataBecomes(input.metadata, c.metadata, next.metadata)
      && match input.auth
         case None => next.auth == c.auth && Opened(next) == Opened(c)
         case Some(patch) => AuthBecomes(patch, c.auth, next.auth, Opened(c).value, Opened(next).value)
  {
    if input.auth.Some? { AcceptedExactly(c, input.auth.value); }
    if Updated(c, input, now).Ok? {
      UpdateKeepsBinding(c, input, now);
      UpdatedFields(c, input, now);
      MetadataIs(c.metadata, input.metadata);
      if input.auth.Some? { AuthIs(c.auth, Opened(c).value, input.auth.value); }
    }
  }

  lemma {:induction false} TextExactly(s: string)
    ensures ValidText(s) <==> IsText(s)
  {
    ValidExactly(s);
  }

  lemma {:induction false} AcceptableExactly(u: RefreshUpdate)
    ensures Acceptable(u) <==> ValidRefreshUpdate(u)
  {
    if Setting(u.scope) { TextExactly(u.scope.value.value); }
  }

  lemma {:induction false} AcceptedExactly(c: Credential, input: AuthUpdate)
    requires Bindable(c)
    ensures Accepted(c, input) <==> input.kind == c.auth.kind && ValidUpdate(CloneAuth(c.auth), input)
  {
    if input.refresh.Present? && input.refresh.value.Some? { AcceptableExactly(input.refresh.value.value); }
  }

  lemma {:induction false} UpdatedFields(c: Credential, input: Update, now: int)
    requires Updated(c, input, now).Ok?
    ensures var next := Updated(c, input, now).value.0;
      && next.metadata == PatchedMetadata(c.metadata, input.metadata)
      && next.displayName == PatchedOption(input.displayName, c.displayName)
      && (input.auth.Some? ==> input.auth.value.kind == c.auth.kind && ValidUpdate(CloneAuth(c.auth), input.auth.value))
  {
  }

  lemma {:induction false} MetadataIs(m: map<string, string>, p: Patch<map<string, Option<string>>>)
    ensures MetadataBecomes(p, m, PatchedMetadata(m, p))
  {
  }

  lemma {:induction false} AuthIs(auth: Auth, secret: Secret, input: AuthUpdate)
    requires IsUtc(auth.expiresAt) && input.kind == auth.kind && ValidUpdate(CloneAuth(auth), input)
    ensures AuthBecomes(input, auth, PatchedAuth(auth, input), secret, PatchedSecrets(secret, input))
  {
  }

  // ---------------------------------------------------------------- refreshes and archives

  /** A refresh stores the new tokens and the new expiry, and nothing else but the version. */
  lemma {:induction false} PersistSays(c: Credential, used: string, result: RefreshResult, now: int)
    requires Bindable(c)
    ensures Persisted(c, used, result, now).Ok? <==>
      !c.archived && c.auth.kind == "mcp_oauth" && c.auth.refresh.Some? && Opened(c).value.refreshToken == used
    ensures Persisted(c, used, result, now).Ok? ==>
      var next := Persisted(c, used, result, now).value;
      && Opened(c).Ok? && Opened(next).Ok?
      && next == c.(auth := next.auth, envelope := next.envelope, version := c.version + 1, updatedAt := now)
      && next.auth == c.auth.(expiresAt := next.auth.expiresAt)
      && next.auth.expiresAt == (match result.expiresIn case None => None case Some(d) => Some(Time(now + d, 0)))
      && var (was, made) := (Opened(c).value, Opened(next).value);
         && made == was.(accessToken := result.accessToken, refreshToken := made.refreshToken)
         && made.refreshToken == (match result.refreshToken case None => used case Some(token) => token)
  {
    PersistKeepsBinding(c, used, result, now);
  }

  // ---------------------------------------------------------------- creation

  /** A refresh grant that can be created: what identifies it is given, its endpoint is an HTTPS
      URL, and there is a client secret exactly when the endpoint's scheme needs one. */
  ghost predicate Grantable(r: RefreshCreate, check: UrlCheck) {
    && r.clientId != "" && IsText(r.clientId) && r.refreshToken != ""
    && r.tokenEndpoint != "" && check(r.tokenEndpoint).Some?
    && (r.resource.Some? ==> IsText(r.resource.value)) && (r.scope.Some? ==> IsText(r.scope.value))
    && if r.endpointAuth == "none" then r.clientSecret == None
       else
         && r.endpointAuth in {"client_secret_basic", "client_secret_post"}
         && r.clientSecret.Some? && |r.clientSecret.value| > 0
  }

  ghost predicate Creatable(input: AuthCreate, check: UrlCheck) {
    && check(input.url).Some?
    && if input.kind == "static_bearer" then input.token != ""
       else
         && input.kind == "mcp_oauth" && input.accessToken != ""
         && (input.refresh.Some? ==> Grantable(input.refresh.value, check))
  }

  /** A new credential is active, of version 1, with exactly the public part and the secret given. */
  predicate IsCreated(c: Credential, secret: Secret, input: AuthCreate, check: UrlCheck, now: int)
    requires check(input.url).Some?
  {
    var (url, key) := check(input.url).value;
    && c.key == key && c.version == 1 && c.updatedAt == now && !c.archived
    && if input.kind == "static_bearer" then
         c.auth == Auth("static_bearer", url, None, None) && secret == Secret(input.token, "", "", "")
       else
         && c.auth == Auth("mcp_oauth", url, c.auth.expiresAt, c.auth.refresh)
         && c.auth.expiresAt == (match input.expiresAt case None => None case Some(t) => Some(Time(t.instant, 0)))
         && secret.token == "" && secret.accessToken == input.accessToken
         && match input.refresh
            case None => c.auth.refresh == None && secret.refreshToken == secret.clientSecret == ""
            case Some(r) =>
              && check(r.tokenEndpoint).Some?
              && c.auth.refresh
                   == Some(Refresh(r.clientId, check(r.tokenEndpoint).value.0, r.endpointAuth, r.resource, r.scope))
              && secret.refreshToken == r.refreshToken
              && secret.clientSecret == (match r.clientSecret case None => "" case Some(s) => s)
  }

  lemma {:induction false} CreateSays(id: string, vault: string, displayName: Option<string>,
      metadata: map<string, string>, input: AuthCreate, check: UrlCheck, now: int)
    ensures Created(id, vault, displayName, metadata, input, check, now).Ok? <==> Creatable(input, check)
    ensures Creatable(input, check) ==>
      var c := Created(id, vault, displayName, metadata, input, check, now).value;
      && c.id == id && c.vault == vault && c.displayName == displayName && c.metadata == metadata
      && Opened(c).Ok? && IsCreated(c, Opened(c).value, input, check, now)
  {
    CreatableExactly(input, check);
  }

  lemma {:induction false} CreatableExactly(input: AuthCreate, check: UrlCheck)
    ensures Creatable(input, check) <==> ValidCreate(input, check)
  {
    if input.refresh.Some? { GrantableExactly(input.refresh.value, check); }
  }

  lemma {:induction false} GrantableExactly(r: RefreshCreate, check: UrlCheck)
    ensures Grantable(r, check) <==> ValidRefreshCreate(r, check)
  {
    TextExactly(r.clientId);
    if r.resource.Some? { TextExactly(r.resource.value); }
    if r.scope.Some? { TextExactly(r.scope.value); }
  }

  // ---------------------------------------------------------------- the store

  /** Two keys name one server: they are equal, or canonically so. */
  predicate OneServer(a: string, b: string, check: UrlCheck) {
    a == b || match (check(a), check(b))
              case (Some((_, x)), Some((_, y))) => x == y
              case _ => false
  }

  /** The vault has a place left, archived credentials included, and none active for the server. */
  ghost predicate HasPlace(items: Store, vault: string, key: string, check: UrlCheck) {
    && |InVault(items, vault)| < 20
    && !exists id | id in items ::
         items[id].vault == vault && !items[id].archived && OneServer(items[id].key, key, check)
  }

  /** What one operation makes of the store: a credential more, or changed, or gone, or nothing. */
  lemma {:induction false} StepSays(items: Store, op: Op, check: UrlCheck)
    ensures var next := Step(items, op, check);
      match op
      case CreateOp(id, vault, displayName, metadata, input, now) =>
        var c := Created(id, vault, displayName, metadata, input, check, now);
        if id !in items && c.Ok? && HasPlace(items, vault, c.value.key, check) then next == items[id := c.value]
        else next == items
      case UpdateOp(id, update, now) =>
        if id in items && Updated(items[id], update, now).Ok? && Updated(items[id], update, now).value.1 then
          next == items[id := Updated(items[id], update, now).value.0]
        else next == items
      case PersistOp(id, used, result, now) =>
        if id in items && Persisted(items[id], used, result, now).Ok? then
          next == items[id := Persisted(items[id], used, result, now).value]
        else next == items
      case ArchiveOp(id, now) =>
        if id in items then
          var (c, a) := (items[id], next[id]);
          && next == items[id := a] && a.archived && a.envelope == None
          && a == c.(archived := true, envelope := None, version := a.version, updatedAt := a.updatedAt)
          && (if c.archived then a.version == c.version && a.updatedAt == c.updatedAt
              else a.version == c.version + 1 && a.updatedAt == now)
        else next == items
      case DeleteOp(id) => next == map x | x in items && x != id :: items[x]
  {
    if op.CreateOp? { PlaceExactly(items, op, check); }
  }

  lemma {:induction false} PlaceExactly(items: Store, op: Op, check: UrlCheck)
    requires op.CreateOp?
    ensures forall key :: Admits(items, op.vault, key, check) <==> HasPlace(items, op.vault, key, check)
  {
    forall key ensures Admits(items, op.vault, key, check) <==> HasPlace(items, op.vault, key, check) {
      forall id | id in items
        ensures SameServer(items[id].key, key, check) <==> OneServer(items[id].key, key, check)
      {
      }
    }
  }
}
