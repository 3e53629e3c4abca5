/** Vault credentials and the binding of their sealed payload to their public part
    (internal/app/vault_service.go, internal/app/vault_oauth.go, over the transactions of
    internal/pg/vault.go).

    The cipher is ideal: an envelope opens only under the data it was sealed with. That data
    is the encoding of the public part, in which a time keeps its zone, so a time is an
    instant and an offset from UTC. A secret that is absent is the empty string. */
module VaultCredentials {
  import opened Conversation
  import opened Text

  datatype Result<+T> = Ok(value: T) | Invalid | Unavailable | Changed

  datatype Time = Time(instant: int, offset: int)

  function Utc(t: Time): Time {
    Time(t.instant, 0)
  }

  function UtcOption(t: Option<Time>): Option<Time> {
    if t.Some? then Some(Utc(t.value)) else None
  }

  datatype Refresh = Refresh(clientId: string, tokenEndpoint: string, endpointAuth: string, resource: Option<string>,
      scope: Option<string>)

  datatype Auth = Auth(kind: string, url: string, expiresAt: Option<Time>, refresh: Option<Refresh>)

  datatype Secret = Secret(token: string, accessToken: string, refreshToken: string, clientSecret: string)

  /** What the payload is bound to. */
  datatype Bound = Bound(vault: string, id: string, key: string, auth: Auth)

  datatype Envelope = Envelope(secret: Secret, bound: Bound)

  datatype Credential = Credential(
    id: string,
    vault: string,
    displayName: Option<string>,
    metadata: map<string, string>,
    auth: Auth,
    key: string,
    envelope: Option<Envelope>,
    version: nat,
    updatedAt: int,
    archived: bool)

  function BoundOf(c: Credential): Bound {
    Bound(c.vault, c.id, c.key, c.auth)
  }

  function Sealed(c: Credential, secret: Secret): Envelope {
    Envelope(secret, BoundOf(c))
  }

  function Opened(c: Credential): Result<Secret> {
    if c.envelope.Some? && c.envelope.value.bound == BoundOf(c) then Ok(c.envelope.value.secret) else Unavailable
  }

  // ---------------------------------------------------------------- patches

  /** A field of a patch: absent, or present and possibly null. */
  datatype Patch<+T> = Absent | Present(value: Option<T>)

  datatype EndpointAuthUpdate = EndpointAuthUpdate(kind: string, clientSecret: Patch<string>)

  datatype RefreshUpdate = RefreshUpdate(refreshToken: Patch<string>, scope: Patch<string>,
      endpointAuth: Option<EndpointAuthUpdate>)

  datatype AuthUpdate = AuthUpdate(kind: string, token: Patch<string>, accessToken: Patch<string>,
      expiresAt: Patch<Time>,
                                   refresh: Patch<RefreshUpdate>)

  const STATIC := "static_bearer"
  const OAUTH := "mcp_oauth"

  predicate ValidText(s: string) {
    ValidUtf8(s) && '\0' !in s
  }

  /** A secret may be replaced or cleared, not set to the empty string. */
  predicate ValidSecretPatch(p: Patch<string>) {
    p.Present? && p.value.Some? ==> p.value.value != ""
  }

  function PatchedSecret(p: Patch<string>, s: string): string {
    if p.Absent? then s else if p.value.Some? then p.value.value else ""
  }

  function PatchedOption(p: Patch<string>, s: Option<string>): Option<string> {
    if p.Absent? then s else p.value
  }

  predicate SameInstant(a: Option<Time>, b: Option<Time>) {
    (a.None? && b.None?) || (a.Some? && b.Some? && a.value.instant == b.value.instant)
  }

  function PatchedExpiry(p: Patch<Time>, t: Option<Time>): Option<Time> {
    if p.Absent? || SameInstant(p.value, t) then t else UtcOption(p.value)
  }

  predicate ValidEndpointUpdate(u: EndpointAuthUpdate) {
    (u.kind == "client_secret_basic" || u.kind == "client_secret_post") && ValidSecretPatch(u.clientSecret)
  }

  predicate ValidRefreshUpdate(u: RefreshUpdate) {
    && ValidSecretPatch(u.refreshToken)
    && (u.scope.Present? && u.scope.value.Some? ==> ValidText(u.scope.value.value))
    && (u.endpointAuth.Some? ==> ValidEndpointUpdate(u.endpointAuth.value))
  }

  predicate ValidUpdate(auth: Auth, input: AuthUpdate) {
    if input.kind == STATIC then ValidSecretPatch(input.token)
    else
      && input.kind == OAUTH
      && ValidSecretPatch(input.accessToken)
      && (input.refresh.Present? && input.refresh.value.Some? ==>
          auth.refresh.Some? && ValidRefreshUpdate(input.refresh.value.value))
  }

  /** The public part an update asks for. */
  function PatchedAuth(auth: Auth, input: AuthUpdate): Auth {
    if input.kind == STATIC then auth
    else
      var auth := auth.(expiresAt := PatchedExpiry(input.expiresAt, auth.expiresAt));
      if input.refresh.Absent? then auth
      else if input.refresh.value.None? then auth.(refresh := None)
      else if auth.refresh.None? then auth
      else
        var u, r := input.refresh.value.value, auth.refresh.value;
        auth.(refresh := Some(r.(scope := PatchedOption(u.scope, r.scope),
                                 endpointAuth := if u.endpointAuth.Some? then u.endpointAuth.value.kind
                                     else r.endpointAuth)))
  }

  /** The secret an update asks for. */
  function PatchedSecrets(secret: Secret, input: AuthUpdate): Secret {
    if input.kind == STATIC then secret.(token := PatchedSecret(input.token, secret.token))
    else
      var secret := secret.(accessToken := PatchedSecret(input.accessToken, secret.accessToken));
      if input.refresh.Absent? then secret
      else if input.refresh.value.None? then secret.(refreshToken := "", clientSecret := "")
      else
        var u := input.refresh.value.value;
        secret.(refreshToken := PatchedSecret(u.refreshToken, secret.refreshToken),
                clientSecret := if u.endpointAuth.Some? then
                    PatchedSecret(u.endpointAuth.value.clientSecret, secret.clientSecret)
                                else secret.clientSecret)
  }

  /** Applies an update in place and reports whether anything changed; the report is exact. */
  method ApplyCredentialAuthUpdate(auth0: Auth, secret0: Secret, input: AuthUpdate)
    returns (ok: bool, auth: Auth, secret: Secret, changed: bool)
    ensures ok <==> ValidUpdate(auth0, input)
    ensures ok ==> auth == PatchedAuth(auth0, input) && secret == PatchedSecrets(secret0, input)
    ensures ok ==> (changed <==> auth != auth0 || secret != secret0)
  {
    ok, auth, secret, changed := false, auth0, secret0, false;
    if input.kind == STATIC {
      if input.token.Present? {
        if input.token.value.Some? && input.token.value.value == "" { return; }
        var replacement := "";
        if input.token.value.Some? { replacement := input.token.value.value; }
        if secret.token != replacement {
          secret, changed := secret.(token := replacement), true;
        }
      }
    } else if input.kind == OAUTH {
      if input.accessToken.Present? {
        if input.accessToken.value.Some? && input.accessToken.value.value == "" { return; }
        var replacement := "";
        if input.accessToken.value.Some? { replacement := input.accessToken.value.value; }
        if secret.accessToken != replacement {
          secret, changed := secret.(accessToken := replacement), true;
        }
      }
      if input.expiresAt.Present? && !SameInstant(input.expiresAt.value, auth.expiresAt) {
        auth, changed := auth.(expiresAt := UtcOption(input.expiresAt.value)), true;
      }
      if input.refresh.Present? {
        if input.refresh.value.None? {
          if auth.refresh.Some? || secret.refreshToken != "" || secret.clientSecret != "" {
            auth, secret, changed := auth.(refresh := None), secret.(refreshToken := "", clientSecret := ""), true;
          }
        } else {
          if auth.refresh.None? { return; }
          var refreshed, refresh, moved;
          refreshed, refresh, secret, moved := ApplyRefreshUpdate(auth.refresh.value, secret,
              input.refresh.value.value);
          if !refreshed { return; }
          auth, changed := auth.(refresh := Some(refresh)), changed || moved;
        }
      }
    } else {
      return;
    }
    ok := true;
  }

  method ApplyRefreshUpdate(refresh0: Refresh, secret0: Secret, u: RefreshUpdate)
    returns (ok: bool, refresh: Refresh, secret: Secret, changed: bool)
    ensures ok <==> ValidRefreshUpdate(u)
    ensures ok ==> refresh == refresh0.(scope := PatchedOption(u.scope, refresh0.scope),
      endpointAuth := if u.endpointAuth.Some? then u.endpointAuth.value.kind else refresh0.endpointAuth)
    ensures ok ==> secret == secret0.(refreshToken := PatchedSecret(u.refreshToken, secret0.refreshToken),
      clientSecret := if u.endpointAuth.Some? then
          PatchedSecret(u.endpointAuth.value.clientSecret, secret0.clientSecret) else secret0.clientSecret)
    ensures ok ==> (changed <==> refresh != refresh0 || secret != secret0)
  {
    ok, refresh, secret, changed := false, refresh0, secret0, false;
    if u.refreshToken.Present? {
      if u.refreshToken.value.Some? && u.refreshToken.value.value == "" { return; }
      var replacement := "";
      if u.refreshToken.value.Some? { replacement := u.refreshToken.value.value; }
      if secret.refreshToken != replacement {
        secret, changed := secret.(refreshToken := replacement), true;
      }
    }
    if u.scope.Present? {
      if u.scope.value.Some? && !ValidText(u.scope.value.value) { return; }
      if u.scope.value != refresh.scope {
        refresh, changed := refresh.(scope := u.scope.value), true;
      }
    }
    if u.endpointAuth.Some? {
      var e := u.endpointAuth.value;
      if e.kind != "client_secret_basic" && e.kind != "client_secret_post" { return; }
      if e.clientSecret.Present? && e.clientSecret.value.Some? && e.clientSecret.value.value == "" { return; }
      if refresh.endpointAuth != e.kind {
        refresh, changed := refresh.(endpointAuth := e.kind), true;
      }
      if e.clientSecret.Present? {
        var replacement := "";
        if e.clientSecret.value.Some? { replacement := e.clientSecret.value.value; }
        if secret.clientSecret != replacement {
          secret, changed := secret.(clientSecret := replacement), true;
        }
      }
    }
    ok := true;
  }

  // ---------------------------------------------------------------- metadata

  /** Applies a metadata patch: a null removes a key, a null patch removes all. */
  function PatchedMetadata(m: map<string, string>, p: Patch<map<string, Option<string>>>): map<string, string> {
    if p.Absent? then m
    else if p.value.None? then map[]
    else
      var patch := p.value.value;
      map k | k in m.Keys + patch.Keys && (k in patch ==> patch[k].Some?) :: if k in patch then patch[k].value else m[k]
  }

  /** The source's comparison: a key missing on the right reads as the empty string. */
  predicate LooksEqual(a: map<string, string>, b: map<string, string>) {
    |a| == |b| && forall k | k in a :: a[k] == if k in b then b[k] else ""
  }

  /** The comparison is wrong exactly for maps of the same size where every entry of the new
      map that the old one lacks is empty. */
  lemma ComparisonMisses(a: map<string, string>, b: map<string, string>)
    ensures LooksEqual(a, b) && a != b <==>
      |a| == |b| && (forall k | k in a && k in b :: a[k] == b[k]) && (forall k | k in a && k !in b :: a[k] == "")
          && (exists k :: k in a && k !in b)
  {
    if |a| == |b| && (forall k | k in a :: k in b && a[k] == b[k]) {
      SameKeys(a.Keys, b.Keys);
      assert a == b;
    }
  }

  lemma SameKeys(a: set<string>, b: set<string>)
    requires a <= b && |a| == |b|
    ensures a == b
  {
    assert b == a + (b - a);
  }

  // ---------------------------------------------------------------- create

  datatype RefreshCreate = RefreshCreate(clientId: string, refreshToken: string, tokenEndpoint: string,
      endpointAuth: string,
                                         clientSecret: Option<string>, resource: Option<string>, scope: Option<string>)

  datatype AuthCreate = AuthCreate(kind: string, url: string, token: string, accessToken: string,
      expiresAt: Option<Time>,
                                   refresh: Option<RefreshCreate>)

  /** Validates an HTTPS URL: its public form and its canonical form. */
  type UrlCheck = string -> Option<(string, string)>

  predicate ValidOptionalText(s: Option<string>) {
    s.Some? ==> ValidText(s.value)
  }

  predicate ValidEndpointCreate(kind: string, clientSecret: Option<string>) {
    if kind == "none" then clientSecret.None?
    else
      (kind == "client_secret_basic" || kind == "client_secret_post") && clientSecret.Some? && clientSecret.value != ""
  }

  predicate ValidRefreshCreate(r: RefreshCreate, check: UrlCheck) {
    && r.clientId != "" && r.refreshToken != "" && r.tokenEndpoint != "" && r.endpointAuth != ""
    && ValidText(r.clientId) && ValidOptionalText(r.resource) && ValidOptionalText(r.scope)
    && check(r.tokenEndpoint).Some? && ValidEndpointCreate(r.endpointAuth, r.clientSecret)
  }

  predicate ValidCreate(input: AuthCreate, check: UrlCheck) {
    && check(input.url).Some?
    && if input.kind == STATIC then input.token != ""
       else
         && input.kind == OAUTH && input.accessToken != ""
         && (input.refresh.Some? ==> ValidRefreshCreate(input.refresh.value, check))
  }

  function CreatedAuth(input: AuthCreate, check: UrlCheck): Auth
    requires ValidCreate(input, check)
  {
    var auth := Auth(input.kind, check(input.url).value.0, None, None);
    if input.kind == STATIC then auth
    else
      var auth := auth.(expiresAt := UtcOption(input.expiresAt));
      if input.refresh.None? then auth
      else
        var r := input.refresh.value;
        auth.(refresh := Some(Refresh(r.clientId, check(r.tokenEndpoint).value.0, r.endpointAuth, r.resource, r.scope)))
  }

  function CreatedSecret(input: AuthCreate): Secret {
    if input.kind == STATIC then Secret(input.token, "", "", "")
    else if input.refresh.None? then Secret("", input.accessToken, "", "")
    else
      var r := input.refresh.value;
      Secret("", input.accessToken, r.refreshToken, if r.clientSecret.Some? then r.clientSecret.value else "")
  }

  function Created(id: string, vault: string, displayName: Option<string>, metadata: map<string, string>,
      input: AuthCreate,
                   check: UrlCheck, now: int): Result<Credential>
  {
    if !ValidCreate(input, check) then Invalid
    else
      var auth := CreatedAuth(input, check);
      var c := Credential(id, vault, displayName, metadata, auth, check(input.url).value.1, None, 1, now, false);
      Ok(c.(envelope := Some(Sealed(c, CreatedSecret(input)))))
  }

  // ---------------------------------------------------------------- update, refresh, archive

  datatype Update = Update(displayName: Patch<string>, metadata: Patch<map<string, Option<string>>>,
      auth: Option<AuthUpdate>)

  const MAX_METADATA: nat := 16

  function CloneAuth(auth: Auth): Auth {
    auth.(expiresAt := UtcOption(auth.expiresAt))
  }

  /** An update of the secret or the public part seals the payload again. */
  function Reauthorized(c: Credential, secret: Secret, input: Option<AuthUpdate>): Result<Credential> {
    var cloned := c.(auth := CloneAuth(c.auth));
    if input.None? then Ok(cloned)
    else if input.value.kind != c.auth.kind || !ValidUpdate(cloned.auth, input.value) then Invalid
    else
      var next := cloned.(auth := PatchedAuth(cloned.auth, input.value));
      var secret' := PatchedSecrets(secret, input.value);
      if next.auth != cloned.auth || secret' != secret then Ok(next.(envelope := Some(Sealed(next, secret'))))
          else Ok(next)
  }

  /** Whether UpdateCredential takes its result for a change. */
  predicate TakenForChange(c: Credential, next: Credential) {
    next.envelope != c.envelope || next.displayName != c.displayName || !LooksEqual(next.metadata, c.metadata)
        || next.auth != c.auth
  }

  /** What the update callback makes of the stored credential; the flag is its report. */
  function Updated(c: Credential, input: Update, now: int): Result<(Credential, bool)> {
    if c.archived || c.envelope.None? then Invalid
    else if !Opened(c).Ok? then Unavailable
    else
      var metadata := PatchedMetadata(c.metadata, input.metadata);
      if |metadata| > MAX_METADATA then Invalid
      else
        var named := c.(displayName := PatchedOption(input.displayName, c.displayName), metadata := metadata);
        var next := Reauthorized(named, Opened(c).value, input.auth);
        if !next.Ok? then Invalid
        else if TakenForChange(c, next.value) then Ok((next.value.(version := c.version + 1, updatedAt := now), true))
        else Ok((next.value, false))
  }

  datatype RefreshResult = RefreshResult(accessToken: string, refreshToken: Option<string>, expiresIn: Option<int>)

  /** Stores a refresh result if the refresh token it used is still the stored one. */
  function Persisted(c: Credential, used: string, result: RefreshResult, now: int): Result<Credential> {
    if c.archived || c.envelope.None? || c.auth.kind != OAUTH || c.auth.refresh.None? then Changed
    else if !Opened(c).Ok? then Unavailable
    else if Opened(c).value.refreshToken != used then Changed
    else
      var secret := Opened(c).value;
      var expiry := if result.expiresIn.Some? then Some(Time(now + result.expiresIn.value, 0)) else None;
      var next := c.(auth := CloneAuth(c.auth).(expiresAt := expiry), version := c.version + 1, updatedAt := now);
      var secret' := secret.(accessToken := result.accessToken,
                             refreshToken := if result.refreshToken.Some? then result.refreshToken.value
                                 else secret.refreshToken);
      Ok(next.(envelope := Some(Sealed(next, secret'))))
  }

  function Archived(c: Credential, now: int): Credential {
    if c.archived then c.(envelope := None) else c.(envelope := None, archived := true, version :=
        c.version + 1, updatedAt := now)
  }

  // ---------------------------------------------------------------- the binding

  predicate IsUtc(t: Option<Time>) {
    t.Some? ==> t.value.offset == 0
  }

  /** The envelope opens under the data built from the currently stored public part. */
  predicate Bindable(c: Credential) {
    && IsUtc(c.auth.expiresAt)
    && (if c.archived then c.envelope.None? else c.envelope.Some? && c.envelope.value.bound == BoundOf(c))
  }

  lemma CloneSame(auth: Auth)
    requires IsUtc(auth.expiresAt)
    ensures CloneAuth(auth) == auth
  {
  }

  lemma PatchedUtc(auth: Auth, input: AuthUpdate)
    requires IsUtc(auth.expiresAt)
    ensures IsUtc(PatchedAuth(auth, input).expiresAt)
    ensures PatchedAuth(auth, input).kind == auth.kind && PatchedAuth(auth, input).url == auth.url
  {
  }

  /** Updating keeps the payload openable and it holds exactly the secret asked for; nothing
      immutable moves, and the version advances by one exactly when the update is reported. */
  lemma UpdateKeepsBinding(c: Credential, input: Update, now: int)
    requires Bindable(c) && Updated(c, input, now).Ok?
    ensures var (next, changed) := Updated(c, input, now).value;
      && Bindable(next)
      && Opened(next) == Ok(if input.auth.Some? then PatchedSecrets(Opened(c).value, input.auth.value)
          else Opened(c).value)
      && next.auth == (if input.auth.Some? then PatchedAuth(c.auth, input.auth.value) else c.auth)
      && next.id == c.id && next.vault == c.vault && next.key == c.key && next.auth.kind == c.auth.kind
          && next.auth.url == c.auth.url
      && next.version == c.version + if changed then 1 else 0
  {
    CloneSame(c.auth);
    if input.auth.Some? { PatchedUtc(c.auth, input.auth.value); }
  }

  /** The report is exact but for metadata: a change goes unreported, and is dropped, exactly
      when nothing else changed and the source's comparison misses the new metadata. */
  lemma UpdateReport(c: Credential, input: Update, now: int)
    requires Bindable(c) && Updated(c, input, now).Ok?
    ensures var (next, changed) := Updated(c, input, now).value;
      var asked := next.displayName != c.displayName || next.metadata != c.metadata || next.auth != c.auth
          || Opened(next) != Opened(c);
      && (changed ==> asked)
      && (asked && !changed <==>
            next.metadata != c.metadata && LooksEqual(next.metadata, c.metadata)
            && next.displayName == c.displayName && next.auth == c.auth && Opened(next) == Opened(c))
  {
    CloneSame(c.auth);
    if input.auth.Some? { PatchedUtc(c.auth, input.auth.value); }
    var (next, changed) := Updated(c, input, now).value;
    SealedSame(c, next);
  }

  /** A patch that replaces an entry `y` by an empty entry `x` and does nothing else. */
  function Renaming(y: string, x: string): Update {
    Update(Absent, Present(Some(map[y := None, x := Some("")])), None)
  }

  lemma RenamedSize(m: map<string, string>, y: string, x: string)
    requires y in m && x !in m
    ensures var m' := (m - {y})[x := ""]; m' != m && |m'| == |m| && LooksEqual(m', m)
  {
    var m' := (m - {y})[x := ""];
    assert m'.Keys == m.Keys - {y} + {x};
    assert |m.Keys| == |m| && |m'.Keys| == |m'|;
    assert x in m';
  }

  lemma RenamedMetadata(m: map<string, string>, y: string, x: string)
    requires y in m && x !in m
    ensures PatchedMetadata(m, Renaming(y, x).metadata) == (m - {y})[x := ""]
  {
    var patch: map<string, Option<string>> := map[y := None, x := Some("")];
    assert Renaming(y, x).metadata.value.value == patch;
    assert PatchedMetadata(m, Renaming(y, x).metadata).Keys == m.Keys - {y} + {x};
  }

  /** Whatever credential, replacing any metadata entry by an empty one under a new key is
      accepted and lost. */
  lemma RenamingDropped(c: Credential, y: string, x: string, now: int)
    requires Bindable(c) && !c.archived && |c.metadata| <= MAX_METADATA && y in c.metadata && x !in c.metadata
    ensures var u := Updated(c, Renaming(y, x), now);
      u.Ok? && !u.value.1 && u.value.0.metadata == (c.metadata - {y})[x := ""] != c.metadata
  {
    RenamedMetadata(c.metadata, y, x);
    RenamedSize(c.metadata, y, x);
    CloneSame(c.auth);
  }

  lemma SealedSame(c: Credential, next: Credential)
    requires Bindable(c) && Bindable(next) && !c.archived && !next.archived && c.id == next.id && c.vault == next.vault
        && c.key == next.key
    ensures next.envelope == c.envelope <==> next.auth == c.auth && Opened(next) == Opened(c)
  {
  }

  lemma PersistKeepsBinding(c: Credential, used: string, result: RefreshResult, now: int)
    requires Bindable(c)
    ensures var p := Persisted(c, used, result, now);
      && p != Unavailable && p != Invalid
      && (p.Ok? <==>
        !c.archived && c.auth.kind == OAUTH && c.auth.refresh.Some? && Opened(c).value.refreshToken == used)
      && (p.Ok? ==>
            && Bindable(p.value)
            && Opened(p.value) == Ok(Opened(c).value.(accessToken := result.accessToken,
                 refreshToken := if result.refreshToken.Some? then result.refreshToken.value else used))
            && p.value.auth == c.auth.(expiresAt := p.value.auth.expiresAt) && p.value.version == c.version + 1)
  {
    CloneSame(c.auth);
  }

  lemma CreateBinds(id: string, vault: string, displayName: Option<string>, metadata: map<string, string>,
      input: AuthCreate,
                    check: UrlCheck, now: int)
    requires Created(id, vault, displayName, metadata, input, check, now).Ok?
    ensures var c := Created(id, vault, displayName, metadata, input, check, now).value;
      Bindable(c) && Opened(c) == Ok(CreatedSecret(input)) && c.id == id && !c.archived
  {
  }

  /** A patch asks for a public part or a secret other than the stored ones, times compared
      as instants. */
  predicate AsksAnew(auth: Auth, secret: Secret, input: Option<AuthUpdate>) {
    input.Some? && (PatchedAuth(CloneAuth(auth), input.value) != CloneAuth(auth)
        || PatchedSecrets(secret, input.value) != secret)
  }

  /** The binding rests on stored times being in UTC: an update that only renames a credential
      whose expiry is kept in another zone rewrites the zone without sealing again, and the
      payload no longer opens. A stored update of an openable credential keeps it openable
      exactly when the expiry was in UTC or the patch asks for a new public part or secret. */
  lemma ZoneMatters(c: Credential, input: Update, now: int)
    requires !c.archived && Opened(c).Ok? && Updated(c, input, now).Ok? && Updated(c, input, now).value.1
    ensures Opened(Updated(c, input, now).value.0).Ok? <==>
      IsUtc(c.auth.expiresAt) || AsksAnew(c.auth, Opened(c).value, input.auth)
  {
  }

  // ---------------------------------------------------------------- every run

  datatype Op =
    | CreateOp(id: string, vault: string, displayName: Option<string>, metadata: map<string, string>, input: AuthCreate,
        now: int)
    | UpdateOp(id: string, update: Update, now: int)
    | PersistOp(id: string, used: string, result: RefreshResult, now: int)
    | ArchiveOp(id: string, now: int)
    | DeleteOp(id: string)

  type Store = map<string, Credential>

  const MAX_CREDENTIALS: nat := 20

  /** The credentials of a vault, archived ones included. */
  function InVault(items: Store, vault: string): set<string> {
    set id | id in items && items[id].vault == vault :: id
  }

  predicate SameServer(a: string, b: string, check: UrlCheck) {
    a == b || (check(a).Some? && check(b).Some? && check(a).value.1 == check(b).value.1)
  }

  /** The vault has room, and no active credential for the same server. */
  predicate Admits(items: Store, vault: string, key: string, check: UrlCheck) {
    && |InVault(items, vault)| < MAX_CREDENTIALS
    && forall id | id in items && items[id].vault == vault
        && !items[id].archived :: !SameServer(items[id].key, key, check)
  }

  /** One committed operation; a rejected one leaves the store as it was. */
  function Step(items: Store, op: Op, check: UrlCheck): Store {
    match op
    case CreateOp(id, vault, displayName, metadata, input, now) =>
      var c := Created(id, vault, displayName, metadata, input, check, now);
      if id in items || !c.Ok? || !Admits(items, vault, c.value.key, check) then items else items[id := c.value]
    case UpdateOp(id, update, now) =>
      if id !in items then items
      else
        var u := Updated(items[id], update, now);
        if u.Ok? && u.value.1 then items[id := u.value.0] else items
    case PersistOp(id, used, result, now) =>
      if id !in items then items
      else
        var p := Persisted(items[id], used, result, now);
        if p.Ok? then items[id := p.value] else items
    case ArchiveOp(id, now) => if id in items then items[id := Archived(items[id], now)] else items
    case DeleteOp(id) => items - {id}
  }

  function Run(items: Store, ops: seq<Op>, check: UrlCheck): Store {
    if ops == [] then items else Step(Run(items, ops[..|ops| - 1], check), ops[|ops| - 1], check)
  }

  ghost predicate AllBindable(items: Store) {
    forall id | id in items :: Bindable(items[id]) && items[id].id == id
  }

  lemma {:induction false} StepBinds(items: Store, op: Op, check: UrlCheck)
    requires AllBindable(items)
    ensures AllBindable(Step(items, op, check))
  {
    match op
    case CreateOp(id, vault, displayName, metadata, input, now) =>
      if Created(id, vault, displayName, metadata, input, check, now).Ok? {
        CreateBinds(id, vault, displayName, metadata, input, check, now);
      }
    case UpdateOp(id, update, now) =>
      if id in items && Updated(items[id], update, now).Ok? { UpdateKeepsBinding(items[id], update, now); }
    case PersistOp(id, used, result, now) =>
      if id in items { PersistKeepsBinding(items[id], used, result, now); }
    case ArchiveOp(_, _) =>
    case DeleteOp(_) =>
  }

  /** No vault holds more than 20 credentials, nor two active ones for one server. */
  ghost predicate WithinLimits(items: Store, check: UrlCheck) {
    && (forall vault :: |InVault(items, vault)| <= 20)
    && (forall a, b | a in items && b in items && Rivals(items[a], items[b], check) :: a == b)
  }

  predicate Rivals(a: Credential, b: Credential, check: UrlCheck) {
    a.vault == b.vault && !a.archived && !b.archived && SameServer(a.key, b.key, check)
  }

  lemma {:induction false} SubsetSize(a: set<string>, b: set<string>)
    requires a <= b
    ensures |a| <= |b|
  {
    assert b == a + (b - a);
  }

  lemma {:induction false} InVaultAfter(items: Store, id: string, c: Credential, vault: string)
    requires id in items ==> items[id].vault == c.vault
    ensures InVault(items[id := c], vault) == if vault == c.vault then InVault(items, vault) + {id}
        else InVault(items, vault)
  {
    var next := items[id := c];
    forall x ensures x in InVault(next, vault) <==> x in InVault(items, vault) || (x == id && vault == c.vault) {
      assert x in InVault(next, vault) <==> x in next && next[x].vault == vault;
      assert x in InVault(items, vault) <==> x in items && items[x].vault == vault;
    }
  }

  /** Replacing a credential by one of the same vault and key, and not less archived. */
  lemma {:induction false} ReplacedLimits(items: Store, id: string, c: Credential, check: UrlCheck)
    requires WithinLimits(items, check) && id in items
    requires c.vault == items[id].vault && c.key == items[id].key && (items[id].archived ==> c.archived)
    ensures WithinLimits(items[id := c], check)
  {
    var next := items[id := c];
    forall vault ensures |InVault(next, vault)| <= 20 {
      InVaultAfter(items, id, c, vault);
      if vault == c.vault { assert id in InVault(items, vault)
          && InVault(items, vault) + {id} == InVault(items, vault); }
    }
    forall a, b | a in next && b in next && Rivals(next[a], next[b], check) ensures a == b {
      assert Rivals(items[a], items[b], check);
    }
  }

  lemma {:induction false} NoRival(items: Store, id: string, c: Credential, check: UrlCheck)
    requires Admits(items, c.vault, c.key, check) && id in items
    ensures !Rivals(items[id], c, check) && !Rivals(c, items[id], check)
  {
  }

  lemma {:induction false} AddedLimits(items: Store, id: string, c: Credential, check: UrlCheck)
    requires WithinLimits(items, check) && id !in items && Admits(items, c.vault, c.key, check)
    ensures WithinLimits(items[id := c], check)
  {
    var next := items[id := c];
    forall vault ensures |InVault(next, vault)| <= 20 {
      InVaultAfter(items, id, c, vault);
      assert |InVault(items, vault) + {id}| <= |InVault(items, vault)| + 1;
    }
    forall a, b | a in next && b in next && Rivals(next[a], next[b], check) ensures a == b {
      if a != id && b != id { assert Rivals(items[a], items[b], check); }
      else if a != id { NoRival(items, a, c, check); }
      else if b != id { NoRival(items, b, c, check); }
    }
  }

  lemma {:induction false} RemovedLimits(items: Store, id: string, check: UrlCheck)
    requires WithinLimits(items, check)
    ensures WithinLimits(items - {id}, check)
  {
    var next := items - {id};
    forall vault ensures |InVault(next, vault)| <= 20 {
      SubsetSize(InVault(next, vault), InVault(items, vault));
    }
    forall a, b | a in next && b in next && Rivals(next[a], next[b], check) ensures a == b {
      assert Rivals(items[a], items[b], check);
    }
  }

  lemma {:induction false} StepLimits(items: Store, op: Op, check: UrlCheck)
    requires AllBindable(items) && WithinLimits(items, check)
    ensures WithinLimits(Step(items, op, check), check)
  {
    match op
    case CreateOp(id, vault, displayName, metadata, input, now) =>
      var c := Created(id, vault, displayName, metadata, input, check, now);
      if id !in items && c.Ok? && Admits(items, vault, c.value.key, check) { AddedLimits(items, id, c.value, check); }
    case UpdateOp(id, update, now) =>
      if id in items && Updated(items[id], update, now).Ok? {
        UpdateKeepsBinding(items[id], update, now);
        ReplacedLimits(items, id, Updated(items[id], update, now).value.0, check);
      }
    case PersistOp(id, used, result, now) =>
      if id in items && Persisted(items[id], used, result, now).Ok? {
        ReplacedLimits(items, id, Persisted(items[id], used, result, now).value, check);
      }
    case ArchiveOp(id, now) =>
      if id in items { ReplacedLimits(items, id, Archived(items[id], now), check); }
    case DeleteOp(id) => RemovedLimits(items, id, check);
  }

  /** However operations follow each other, vaults keep their limits. */
  lemma {:induction false} VaultsKeepLimits(items: Store, ops: seq<Op>, check: UrlCheck)
    requires AllBindable(items) && WithinLimits(items, check)
    ensures WithinLimits(Run(items, ops, check), check)
  {
    if ops != [] {
      VaultsKeepLimits(items, ops[..|ops| - 1], check);
      ReachableOpens(items, ops[..|ops| - 1], check);
      StepLimits(Run(items, ops[..|ops| - 1], check), ops[|ops| - 1], check);
    }
  }

  /** Every credential reachable by creates, updates, refreshes, archives and deletes in any
      order has an envelope that opens under the data built from its stored public part,
      unless it is archived and has none. */
  lemma {:induction false} ReachableOpens(items: Store, ops: seq<Op>, check: UrlCheck)
    requires AllBindable(items)
    ensures AllBindable(Run(items, ops, check))
    ensures forall id | id in Run(items, ops, check)
        && !Run(items, ops, check)[id].archived :: Opened(Run(items, ops, check)[id]).Ok?
  {
    if ops != [] {
      ReachableOpens(items, ops[..|ops| - 1], check);
      StepBinds(Run(items, ops[..|ops| - 1], check), ops[|ops| - 1], check);
    }
  }

  // ---------------------------------------------------------------- the service

  /** The part of the update callback that touches the public part and the secret. */
  method Reauthorize(c: Credential, secret: Secret, input: AuthUpdate)
      returns (next: Result<Credential>, secretChanged: bool)
    ensures next == Reauthorized(c, secret, Some(input))
    ensures next.Ok? ==> (secretChanged <==>
      next.value.auth != CloneAuth(c.auth) || PatchedSecrets(secret, input) != secret)
  {
    next, secretChanged := Invalid, false;
    if input.kind != c.auth.kind { return; }
    var cloned := CloneAuth(c.auth);
    var ok, auth, patched;
    ok, auth, patched, secretChanged := ApplyCredentialAuthUpdate(cloned, secret, input);
    if !ok { return; }
    var updated := c.(auth := auth);
    if secretChanged { updated := updated.(envelope := Some(Sealed(updated, patched))); }
    next := Ok(updated);
  }

  /** The update callback that runs under the row lock. */
  method UpdateCallback(current: Credential, input: Update, now: int) returns (result: Result<(Credential, bool)>)
    requires Bindable(current)
    ensures result == Updated(current, input, now)
  {
    if current.archived || current.envelope.None? { return Invalid; }
    var payload := Opened(current);
    if !payload.Ok? { return Unavailable; }
    var next := current.(displayName := PatchedOption(input.displayName, current.displayName),
                         metadata := PatchedMetadata(current.metadata, input.metadata));
    if |next.metadata| > MAX_METADATA { return Invalid; }
    var reauthorized, secretChanged := ReauthorizeIf(next, payload.value, input.auth);
    if !reauthorized.Ok? { return Invalid; }
    SealSeen(current, next, reauthorized.value, payload.value, input.auth, secretChanged);
    ghost var named := next;
    next := reauthorized.value;
    var changed := secretChanged || next.displayName != current.displayName
        || !LooksEqual(next.metadata, current.metadata) || next.auth != current.auth;
    UpdatedIs(current, input, now, named, next, changed);
    if changed { next := next.(version := current.version + 1, updatedAt := now); }
    result := Ok((next, changed));
  }

  lemma UpdatedIs(c: Credential, input: Update, now: int, named: Credential, next: Credential, changed: bool)
    requires !c.archived && c.envelope.Some? && Opened(c).Ok?
    requires named == c.(displayName := PatchedOption(input.displayName, c.displayName), metadata :=
        PatchedMetadata(c.metadata, input.metadata))
    requires |named.metadata| <= MAX_METADATA && Reauthorized(named, Opened(c).value, input.auth) == Ok(next)
    requires changed <==> TakenForChange(c, next)
    ensures Updated(c, input, now) == Ok(if changed then (next.(version := c.version + 1, updatedAt := now), true)
        else (next, false))
  {
  }

  /** The public part is cloned in any case, and updated when the patch names it. */
  method ReauthorizeIf(c: Credential, secret: Secret, input: Option<AuthUpdate>)
      returns (next: Result<Credential>, secretChanged: bool)
    ensures next == Reauthorized(c, secret, input)
    ensures next.Ok? ==> (secretChanged <==>
      input.Some? && (next.value.auth != CloneAuth(c.auth) || PatchedSecrets(secret, input.value) != secret))
  {
    if input.Some? {
      next, secretChanged := Reauthorize(c, secret, input.value);
    } else {
      next, secretChanged := Ok(c.(auth := CloneAuth(c.auth))), false;
    }
  }

  /** The envelope changes only together with a reported change of the public part or secret. */
  lemma SealSeen(c: Credential, named: Credential, next: Credential, secret: Secret, input: Option<AuthUpdate>,
      secretChanged: bool)
    requires Bindable(c) && Opened(c) == Ok(secret) && named.auth == c.auth && named.envelope == c.envelope
    requires named.id == c.id && named.vault == c.vault && named.key == c.key
    requires Reauthorized(named, secret, input) == Ok(next)
    requires secretChanged <==>
      input.Some? && (next.auth != CloneAuth(c.auth) || PatchedSecrets(secret, input.value) != secret)
    ensures next.envelope != c.envelope <==> secretChanged
  {
    CloneSame(c.auth);
  }

  class VaultService {
    const check: UrlCheck
    var items: Store

    constructor (check: UrlCheck)
      ensures items == map[] && this.check == check
    {
      this.check := check;
      items := map[];
    }

    method CreateCredential(id: string, vault: string, displayName: Option<string>, metadata: map<string, string>,
        input: AuthCreate, now: int)
      returns (ok: bool)
      modifies this`items
      ensures items == Step(old(items), CreateOp(id, vault, displayName, metadata, input, now), check)
      ensures ok <==>
        id !in old(items) && ValidCreate(input, check) && Admits(old(items), vault, check(input.url).value.1, check)
    {
      if !ValidCreate(input, check) || id in items { return false; }
      var auth, secret := CreatedAuth(input, check), CreatedSecret(input);
      var key := check(input.url).value.1;
      if !Admits(items, vault, key, check) { return false; }
      var c := Credential(id, vault, displayName, metadata, auth, key, None, 1, now, false);
      items := items[id := c.(envelope := Some(Envelope(secret, Bound(vault, id, key, auth))))];
      ok := true;
    }

    method UpdateCredential(id: string, input: Update, now: int) returns (ok: bool)
      requires AllBindable(items)
      modifies this`items
      ensures AllBindable(items)
      ensures items == Step(old(items), UpdateOp(id, input, now), check)
      ensures ok <==> id in old(items) && Updated(old(items)[id], input, now).Ok?
    {
      StepBinds(items, UpdateOp(id, input, now), check);
      if id !in items { return false; }
      var current := items[id];
      var updated := UpdateCallback(current, input, now);
      ok := updated.Ok?;
      if ok && updated.value.1 {
        var next := updated.value.0;
        UpdateKeepsBinding(current, input, now);
        assert next.id == current.id && next.vault == current.vault && next.key == current.key
            && next.auth.kind == current.auth.kind
            && next.auth.url == current.auth.url && next.version == current.version + 1 && next.envelope.Some?;
        items := items[id := next];
      }
    }

    /** One refresh: load, call the token endpoint while other operations run, then store the
        result if the refresh token it used is still the stored one. */
    method RefreshOAuth(id: string, result: RefreshResult, meanwhile: seq<Op>, now: int)
        returns (stored: bool, used: string)
      requires AllBindable(items)
      modifies this`items
      ensures AllBindable(items)
      ensures stored ==>
        && id in old(items) && Opened(old(items)[id]).Ok? && used == Opened(old(items)[id]).value.refreshToken
            && used != ""
        && var after := Run(old(items), meanwhile, check);
           id in after && Opened(after[id]).Ok? && Opened(after[id]).value.refreshToken == used
           && items == Step(after, PersistOp(id, used, result, now), check)
           && id in items && Opened(items[id]).Ok? && Opened(items[id]).value.accessToken == result.accessToken
      ensures !stored ==> items == old(items) || items == Run(old(items), meanwhile, check)
    {
      stored, used := false, "";
      if id !in items || items[id].archived || items[id].auth.kind != OAUTH { return; }
      var payload := Opened(items[id]);
      if !payload.Ok? || items[id].auth.refresh.None? || payload.value.refreshToken == "" { return; }
      used := payload.value.refreshToken;
      ReachableOpens(items, meanwhile, check);
      items := Run(items, meanwhile, check);
      stored := PersistOAuthRefresh(id, used, result, now);
    }

    method PersistOAuthRefresh(id: string, used: string, result: RefreshResult, now: int) returns (stored: bool)
      requires AllBindable(items)
      modifies this`items
      ensures AllBindable(items)
      ensures items == Step(old(items), PersistOp(id, used, result, now), check)
      ensures stored <==> id in old(items) && Persisted(old(items)[id], used, result, now).Ok?
      ensures stored ==>
        id in items && Opened(items[id]).Ok? && Opened(items[id]).value.accessToken == result.accessToken
      ensures !stored ==> items == old(items)
    {
      StepBinds(items, PersistOp(id, used, result, now), check);
      if id !in items { return false; }
      var current := items[id];
      PersistKeepsBinding(current, used, result, now);
      if current.archived || current.envelope.None? || current.auth.kind != OAUTH
          || current.auth.refresh.None? { return false; }
      var payload := Opened(current);
      if !payload.Ok? || payload.value.refreshToken != used { return false; }
      var secret := payload.value.(accessToken := result.accessToken);
      if result.refreshToken.Some? { secret := secret.(refreshToken := result.refreshToken.value); }
      var auth := CloneAuth(current.auth).(expiresAt := None);
      if result.expiresIn.Some? { auth := auth.(expiresAt := Some(Time(now + result.expiresIn.value, 0))); }
      var next := current.(auth := auth, version := current.version + 1, updatedAt := now);
      items := items[id := next.(envelope := Some(Sealed(next, secret)))];
      stored := true;
    }
  }
}
