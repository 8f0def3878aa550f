/** The mock Yayoi client (services/integrations/yayois_api.py): a token
    written once and reused, and a ledger of posted journal entries.  The
    token file is `tokenFile` (`None` while it does not exist), the ledger
    file is `entries`; the clock is a parameter. */
module Yayoi {
  import opened Wrappers
  import opened Values
  import opened Timestamps
  import opened Ledger

  datatype YayoiToken = YayoiToken(token: string, issuedAt: DateTime)

  /** `YayoiToken.to_dict()`. */
  function ToDict(t: YayoiToken): (d: Dict)
    requires Valid(t.issuedAt)
  {
    map["token" := Str(t.token), "issued_at" := Str(IsoFormat(t.issuedAt))]
  }

  /** `YayoiToken.from_dict(payload)`. */
  function FromDict(d: Dict): (r: Result<YayoiToken>)
    ensures r.Ok? ==> Valid(r.value.issuedAt)
  {
    var token :- TextField(d, "token");
    var issued :- TextField(d, "issued_at");
    match FromIsoFormat(issued)
    case None => Err(ValueError("Invalid isoformat string: '" + issued + "'"))
    case Some(at) => Ok(YayoiToken(token, at))
  }

  /** A written token reads back as the same token. */
  lemma RoundTrip(t: YayoiToken)
    requires Valid(t.issuedAt)
    ensures FromDict(ToDict(t)) == Ok(t)
  {
    var d := ToDict(t);
    assert TextField(d, "token") == Ok(t.token);
    assert TextField(d, "issued_at") == Ok(IsoFormat(t.issuedAt));
    IsoFormatRoundTrip(t.issuedAt);
  }

  /** The token `ensure_token` creates when there is none. */
  const DemoToken := "yayoi-demo-token"

  /** `post_journal_entry`'s response for the `n`-th entry. */
  function Response(n: nat): (d: Dict)
  {
    map["id" := Str(SequentialId("yayoi-", n)), "status" := Str("accepted")]
  }

  class YayoiClient {
    var tokenFile: Option<Dict>
    var entries: seq<Posted>

    constructor(tokenFile: Option<Dict>, entries: seq<Posted>)
      ensures this.tokenFile == tokenFile && this.entries == entries
    {
      this.tokenFile := tokenFile;
      this.entries := entries;
    }

    /** `ensure_token()` at `now`: the stored token if there is one,
        otherwise a new demo token, which is stored; either way the token
        file then holds what was returned, so a second call returns the
        same token. */
    method EnsureToken(now: DateTime) returns (r: Result<YayoiToken>)
      requires Valid(now)
      modifies this
      ensures old(tokenFile).Some? ==> r == FromDict(old(tokenFile).value) && tokenFile == old(tokenFile)
      ensures old(tokenFile).None? ==> r == Ok(YayoiToken(DemoToken, now))
      ensures r.Ok? ==> tokenFile.Some? && FromDict(tokenFile.value) == r
      ensures entries == old(entries)
    {
      if tokenFile.Some? {
        return FromDict(tokenFile.value);
      }
      var token := YayoiToken(DemoToken, now);
      tokenFile := Some(ToDict(token));
      RoundTrip(token);
      r := Ok(token);
    }

    /** `post_journal_entry(payload)` at `now`: one entry with the next id
        is appended. */
    method PostJournalEntry(payload: Dict, now: DateTime) returns (response: Dict)
      requires Valid(now)
      modifies this
      ensures entries == old(entries) + [Posted(SequentialId("yayoi-", |old(entries)| + 1), payload, IsoFormat(now))]
      ensures response == Response(|old(entries)| + 1)
      ensures tokenFile == old(tokenFile)
      ensures Numbered("yayoi-", old(entries)) ==> Numbered("yayoi-", entries)
    {
      var n := |entries| + 1;
      var entry := Posted(SequentialId("yayoi-", n), payload, IsoFormat(now));
      ghost var before := entries;
      entries := entries + [entry];
      response := Response(n);
      if Numbered("yayoi-", before) {
        NumberedAppend("yayoi-", before, entry);
      }
    }
  }
}
