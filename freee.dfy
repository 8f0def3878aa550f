/** The mock freee client (services/integrations/freee_api.py): an OAuth
    token that is generated, refreshed when expired, and persisted, and a
    ledger of posted journal entries.  The token file is `tokenFile`
    (`None` while it does not exist), the ledger file is `entries`; the
    clock and the environment are parameters. */
module Freee {
  import opened Wrappers
  import opened Values
  import opened Timestamps
  import opened Config
  import opened Ledger

  datatype OAuthToken = OAuthToken(accessToken: string, refreshToken: string, expiresAt: DateTime)

  /** `OAuthToken.to_dict()`. */
  function ToDict(t: OAuthToken): (d: Dict)
    requires Valid(t.expiresAt)
  {
    map["access_token" := Str(t.accessToken),
        "refresh_token" := Str(t.refreshToken),
        "expires_at" := Str(IsoFormat(t.expiresAt))]
  }

  /** `OAuthToken.from_dict(payload)`. */
  function FromDict(d: Dict): (r: Result<OAuthToken>)
    ensures r.Ok? ==> Valid(r.value.expiresAt)
  {
    var access :- TextField(d, "access_token");
    var refresh :- TextField(d, "refresh_token");
    var expires :- TextField(d, "expires_at");
    match FromIsoFormat(expires)
    case None => Err(ValueError("Invalid isoformat string: '" + expires + "'"))
    case Some(at) => Ok(OAuthToken(access, refresh, at))
  }

  /** A saved token loads back as the same token. */
  lemma RoundTrip(t: OAuthToken)
    requires Valid(t.expiresAt)
    ensures FromDict(ToDict(t)) == Ok(t)
  {
    var d := ToDict(t);
    assert TextField(d, "access_token") == Ok(t.accessToken);
    assert TextField(d, "refresh_token") == Ok(t.refreshToken);
    assert TextField(d, "expires_at") == Ok(IsoFormat(t.expiresAt));
    IsoFormatRoundTrip(t.expiresAt);
  }

  /** `timedelta(hours=2)`: how long an issued token lives. */
  const LifetimeHours: nat := 2

  /** The token `_generate_token` issues at `now`. */
  function Generated(env: Env, now: DateTime): (r: Result<OAuthToken>)
    requires Valid(now)
  {
    var seed := LookupOr(env, "FREEE_API_KEY", "freee-dev");
    var expires :- AddHours(now, LifetimeHours);
    Ok(OAuthToken(seed + "-access", seed + "-refresh", expires))
  }

  /** The token `refresh_token(refresh)` issues at `now`. */
  function Refreshed(refresh: string, now: DateTime): (r: Result<OAuthToken>)
    requires Valid(now)
  {
    var expires :- AddHours(now, LifetimeHours);
    Ok(OAuthToken(refresh + "-new", refresh, expires))
  }

  /** Whether `load_token` issues a new token: no token file, or a stored
      token that has expired by `now`. */
  predicate Renews(stored: Option<Dict>, now: DateTime) {
    stored.None? || (FromDict(stored.value).Ok? && AtMost(FromDict(stored.value).value.expiresAt, now))
  }

  /** What `load_token()` returns at `now` for the stored token file. */
  function Loaded(stored: Option<Dict>, env: Env, now: DateTime): (r: Result<OAuthToken>)
    requires Valid(now)
  {
    match stored
    case None => Generated(env, now)
    case Some(d) =>
      var t :- FromDict(d);
      if AtMost(t.expiresAt, now) then Refreshed(t.refreshToken, now) else Ok(t)
  }

  /** A token `load_token` hands out has not expired at `now`. */
  lemma LoadedUnexpired(stored: Option<Dict>, env: Env, now: DateTime)
    requires Valid(now)
    ensures Loaded(stored, env, now).Ok? ==> Before(now, Loaded(stored, env, now).value.expiresAt)
  {
  }

  /** Without a token file the token is `<seed>-access`/`<seed>-refresh`,
      the seed being `FREEE_API_KEY` or `freee-dev`, valid for two hours. */
  lemma LoadedFresh(env: Env, now: DateTime)
    requires Valid(now)
    ensures var seed := if "FREEE_API_KEY" in env then env["FREEE_API_KEY"] else "freee-dev";
            var r := Loaded(None, env, now);
            r == (match AddHours(now, 2)
                  case Ok(at) => Ok(OAuthToken(seed + "-access", seed + "-refresh", at))
                  case Err(e) => Err(e))
  {
  }

  /** An expired stored token is replaced by `<refresh>-new` with the same
      refresh token; an unexpired one is returned as stored. */
  lemma LoadedStored(d: Dict, env: Env, now: DateTime)
    requires Valid(now) && FromDict(d).Ok?
    ensures var t := FromDict(d).value;
            var r := Loaded(Some(d), env, now);
            (AtMost(t.expiresAt, now) ==>
               (r.Ok? <==> AddHours(now, 2).Ok?) &&
               (r.Ok? ==> r.value.accessToken == t.refreshToken + "-new" &&
                          r.value.refreshToken == t.refreshToken &&
                          r.value.expiresAt == AddHours(now, 2).value)) &&
            (!AtMost(t.expiresAt, now) ==> r == Ok(t))
  {
  }

  /** Loading again right after a load (the saved token and the same
      `now`) gives the same token back. */
  lemma LoadStable(stored: Option<Dict>, env: Env, now: DateTime)
    requires Valid(now) && Loaded(stored, env, now).Ok?
    ensures Loaded(Some(ToDict(Loaded(stored, env, now).value)), env, now) == Loaded(stored, env, now)
  {
    var t := Loaded(stored, env, now).value;
    RoundTrip(t);
    LoadedUnexpired(stored, env, now);
  }

  /** `post_journal_entry`'s response for the `n`-th entry. */
  function Response(n: nat): (d: Dict)
  {
    map["id" := Str(SequentialId("freee-", n)), "status" := Str("queued")]
  }

  class FreeeClient {
    var tokenFile: Option<Dict>
    var entries: seq<Posted>

    constructor(tokenFile: Option<Dict>, entries: seq<Posted>)
      ensures this.tokenFile == tokenFile && this.entries == entries
    {
      this.tokenFile := tokenFile;
      this.entries := entries;
    }

    /** `save_token(token)`. */
    method SaveToken(t: OAuthToken)
      requires Valid(t.expiresAt)
      modifies this
      ensures tokenFile == Some(ToDict(t)) && entries == old(entries)
    {
      tokenFile := Some(ToDict(t));
    }

    /** `_generate_token()`. */
    method GenerateToken(env: Env, now: DateTime) returns (r: Result<OAuthToken>)
      requires Valid(now)
      modifies this
      ensures r == Generated(env, now)
      ensures tokenFile == (if r.Ok? then Some(ToDict(r.value)) else old(tokenFile))
      ensures entries == old(entries)
    {
      var seed := LookupOr(env, "FREEE_API_KEY", "freee-dev");
      var expires := AddHours(now, LifetimeHours);
      if expires.Err? {
        return Err(expires.error);
      }
      var token := OAuthToken(seed + "-access", seed + "-refresh", expires.value);
      SaveToken(token);
      r := Ok(token);
    }

    /** `refresh_token(refresh)`. */
    method RefreshToken(refresh: string, now: DateTime) returns (r: Result<OAuthToken>)
      requires Valid(now)
      modifies this
      ensures r == Refreshed(refresh, now)
      ensures tokenFile == (if r.Ok? then Some(ToDict(r.value)) else old(tokenFile))
      ensures entries == old(entries)
    {
      var expires := AddHours(now, LifetimeHours);
      if expires.Err? {
        return Err(expires.error);
      }
      var token := OAuthToken(refresh + "-new", refresh, expires.value);
      SaveToken(token);
      r := Ok(token);
    }

    /** `load_token()` at `now`: a new token is saved exactly when one is
        issued. */
    method LoadToken(env: Env, now: DateTime) returns (r: Result<OAuthToken>)
      requires Valid(now)
      modifies this
      ensures r == Loaded(old(tokenFile), env, now)
      ensures tokenFile == (if r.Ok? && Renews(old(tokenFile), now) then Some(ToDict(r.value)) else old(tokenFile))
      ensures entries == old(entries)
    {
      if tokenFile.None? {
        r := GenerateToken(env, now);
        return;
      }
      var token := FromDict(tokenFile.value);
      if token.Err? {
        return Err(token.error);
      }
      if AtMost(token.value.expiresAt, now) {
        r := RefreshToken(token.value.refreshToken, now);
        return;
      }
      r := token;
    }

    /** `post_journal_entry(payload)` at `now`: one entry with the next id
        is appended. */
    method PostJournalEntry(payload: Dict, now: DateTime) returns (response: Dict)
      requires Valid(now)
      modifies this
      ensures entries == old(entries) + [Posted(SequentialId("freee-", |old(entries)| + 1), payload, IsoFormat(now))]
      ensures response == Response(|old(entries)| + 1)
      ensures tokenFile == old(tokenFile)
      ensures Numbered("freee-", old(entries)) ==> Numbered("freee-", entries)
    {
      var n := |entries| + 1;
      var entry := Posted(SequentialId("freee-", n), payload, IsoFormat(now));
      ghost var before := entries;
      entries := entries + [entry];
      response := Response(n);
      if Numbered("freee-", before) {
        NumberedAppend("freee-", before, entry);
      }
    }
  }
}
