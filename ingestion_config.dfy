/**
 * The ingestion configuration read from the environment: a required tenant, the database settings,
 * and one optional section per identity provider that is present exactly when its variables are
 * set. Unconfigured providers are skipped by the jobs.
 */
module IngestionConfig {
  import opened Base
  import opened Text
  import opened Secrets

  datatype DatabaseConfig = DatabaseConfig(url: string, minConnections: int, maxConnections: int)

  datatype GoogleWorkspaceConfig = GoogleWorkspaceConfig(adminEmail: string, customerId: string,
                                                         saKeyFile: Option<string>)

  datatype AwsIdentityCenterConfig = AwsIdentityCenterConfig(identityStoreId: string, ssoInstanceArn: string,
                                                             region: string)

  datatype AwsOrganizationsConfig = AwsOrganizationsConfig(region: string)

  datatype GitHubConfig = GitHubConfig(token: string, orgLogins: seq<string>, apiBaseUrl: string)

  datatype GcpConfig = GcpConfig(orgId: string, saKeyFile: Option<string>)

  /** Job intervals and retries; `load_config` always uses the defaults. */
  datatype SchedulerConfig = SchedulerConfig(googleWorkspaceIntervalMin: nat, awsIdentityCenterIntervalMin: nat,
                                             githubIntervalMin: nat, awsOrganizationsIntervalHours: nat,
                                             gcpResourceManagerIntervalHours: nat, postProcessIntervalMin: nat,
                                             misfireGraceTime: nat, maxRetries: nat)

  const DefaultScheduler := SchedulerConfig(60, 60, 30, 6, 2, 15, 300, 3)

  datatype Config = Config(tenantId: string, database: DatabaseConfig, scheduler: SchedulerConfig,
                           googleWorkspace: Option<GoogleWorkspaceConfig>,
                           awsIdentityCenter: Option<AwsIdentityCenterConfig>,
                           awsOrganizations: Option<AwsOrganizationsConfig>,
                           github: Option<GitHubConfig>, gcp: Option<GcpConfig>, batchSize: int)

  const TenantRequiredMessage := "TENANT_ID environment variable is required"
  const DefaultGithubApi := "https://api.github.com"

  // ---------------------------------------------------------------------------
  // Environment helpers
  // ---------------------------------------------------------------------------

  /** `os.environ.get(key)` checked for truthiness: set and non-empty. */
  predicate IsSet(env: Env, key: string)
  {
    EnvGet(env, key, "") != ""
  }

  /** `os.environ.get(key)` for an optional value. */
  function EnvOpt(env: Env, key: string): (r: Option<string>)
    ensures r.Some? <==> key in env
    ensures r.Some? ==> r.value == env[key]
  {
    if key in env then Some(env[key]) else None
  }

  function IntValueError(s: string): string
  {
    "invalid literal for int() with base 10: '" + s + "'"
  }

  /** Python `int(s)` for optional surrounding white space, an optional sign and decimal digits. */
  function ParseInt(s: string): (r: Result<int>)
    ensures r.Err? ==> r.message == IntValueError(s)
  {
    var t := StripPy(s);
    var negative := t != [] && t[0] == '-';
    var digits := if t != [] && (t[0] == '-' || t[0] == '+') then t[1..] else t;
    if digits == [] || exists k :: 0 <= k < |digits| && !IsDigit(digits[k]) then Err(IntValueError(s))
    else if negative then Ok(0 - DigitsValue(digits))
    else Ok(DigitsValue(digits))
  }

  /** Every number's decimal rendering reads back as that number. */
  lemma ParseIntRoundTrip(n: nat)
    ensures ParseInt(NatToString(n)) == Ok(n)
  {
    var s := NatToString(n);
    assert !IsPySpace(s[0]) && !IsPySpace(s[|s| - 1]);
    TrimUnchanged(s, IsPySpace);
    NatToStringRoundTrip(n);
  }

  /** `int(os.environ.get(key, d))` for a numeric setting whose default text `d` is the decimal rendering of `default`. */
  function IntSetting(env: Env, key: string, default: nat): (r: Result<int>)
    ensures key in env ==> r == ParseInt(env[key])
    ensures key !in env ==> r == Ok(default)
  {
    ParseIntRoundTrip(default);
    ParseInt(EnvGet(env, key, NatToString(default)))
  }

  /** `[s.strip() for s in raw.split(",") if s.strip()]`. */
  function OrgLogins(raw: string): (r: seq<string>)
  {
    NonBlankPieces(Split(raw, ','))
  }

  function NonBlankPieces(pieces: seq<string>): (r: seq<string>)
    ensures |r| <= |pieces|
    ensures forall x :: x in r ==> x != []
  {
    if pieces == [] then []
    else
      var rest := NonBlankPieces(pieces[1..]);
      if StripPy(pieces[0]) != "" then [StripPy(pieces[0])] + rest else rest
  }

  /** Every piece kept is the stripped form of one of the pieces. */
  lemma {:induction false} NonBlankFrom(pieces: seq<string>, x: string)
    requires x in NonBlankPieces(pieces)
    ensures exists j :: 0 <= j < |pieces| && x == StripPy(pieces[j])
    decreases |pieces|
  {
    if x != StripPy(pieces[0]) {
      NonBlankFrom(pieces[1..], x);
      var j :| 0 <= j < |pieces[1..]| && x == StripPy(pieces[1..][j]);
      assert pieces[1..][j] == pieces[j + 1];
    }
  }

  /** A login list written with commas and no surrounding blanks reads back as itself. */
  lemma OrgLoginsRoundTrip(logins: seq<string>)
    requires logins != []
    requires forall k :: 0 <= k < |logins| ==>
      logins[k] != [] && ',' !in logins[k] && !IsPySpace(logins[k][0]) && !IsPySpace(logins[k][|logins[k]| - 1])
    ensures OrgLogins(Join(logins, ",")) == logins
  {
    SplitJoin(logins, ',');
    StrippedPiecesKept(logins);
  }

  lemma {:induction false} StrippedPiecesKept(pieces: seq<string>)
    requires forall k :: 0 <= k < |pieces| ==>
      pieces[k] != [] && !IsPySpace(pieces[k][0]) && !IsPySpace(pieces[k][|pieces[k]| - 1])
    ensures NonBlankPieces(pieces) == pieces
    decreases |pieces|
  {
    if pieces != [] {
      TrimUnchanged(pieces[0], IsPySpace);
      StrippedPiecesKept(pieces[1..]);
    }
  }

  /** Every login kept is non-blank and has no white space at either end. */
  lemma OrgLoginsStripped(raw: string)
    ensures forall k :: 0 <= k < |OrgLogins(raw)| ==>
      var l := OrgLogins(raw)[k]; l != [] && !IsPySpace(l[0]) && !IsPySpace(l[|l| - 1]) && ',' !in l
  {
    var pieces := Split(raw, ',');
    forall k | 0 <= k < |OrgLogins(raw)|
      ensures var l := OrgLogins(raw)[k]; l != [] && !IsPySpace(l[0]) && !IsPySpace(l[|l| - 1]) && ',' !in l
    {
      NonBlankFrom(pieces, OrgLogins(raw)[k]);
      var j :| 0 <= j < |pieces| && OrgLogins(raw)[k] == StripPy(pieces[j]);
      TrimEnds(pieces[j], IsPySpace);
      StripWithin(pieces[j], ',');
    }
  }

  /** Stripping removes characters and adds none. */
  lemma StripWithin(s: string, c: char)
    requires c !in s
    ensures c !in StripPy(s)
  {
    TrimSub(s, IsPySpace, c);
  }

  lemma {:induction false} TrimSub(s: string, isSpace: char -> bool, c: char)
    requires c !in s
    ensures c !in Trim(s, isSpace) && c !in TrimStart(s, isSpace)
    decreases |s|
  {
    if s != [] && isSpace(s[0]) {
      TrimSub(s[1..], isSpace, c);
    }
    TrimEndSub(TrimStart(s, isSpace), isSpace, c);
  }

  lemma {:induction false} TrimEndSub(s: string, isSpace: char -> bool, c: char)
    requires c !in s
    ensures c !in TrimEnd(s, isSpace)
    decreases |s|
  {
    if s != [] && isSpace(s[|s| - 1]) {
      TrimEndSub(s[..|s| - 1], isSpace, c);
    }
  }

  // ---------------------------------------------------------------------------
  // Provider sections
  // ---------------------------------------------------------------------------

  function GoogleSection(env: Env): (r: Option<GoogleWorkspaceConfig>)
    ensures r.Some? <==> IsSet(env, "GOOGLE_ADMIN_EMAIL") && IsSet(env, "GOOGLE_CUSTOMER_ID")
    ensures r.Some? ==> r.value.adminEmail == env["GOOGLE_ADMIN_EMAIL"] && r.value.customerId == env["GOOGLE_CUSTOMER_ID"]
                        && r.value.saKeyFile == EnvOpt(env, "GOOGLE_SA_KEY_FILE")
  {
    if IsSet(env, "GOOGLE_ADMIN_EMAIL") && IsSet(env, "GOOGLE_CUSTOMER_ID") then
      Some(GoogleWorkspaceConfig(env["GOOGLE_ADMIN_EMAIL"], env["GOOGLE_CUSTOMER_ID"], EnvOpt(env, "GOOGLE_SA_KEY_FILE")))
    else None
  }

  function Region(env: Env): string
  {
    EnvGet(env, "AWS_REGION", DefaultRegion)
  }

  function AwsIdcSection(env: Env): (r: Option<AwsIdentityCenterConfig>)
    ensures r.Some? <==> IsSet(env, "AWS_IDENTITY_STORE_ID") && IsSet(env, "AWS_SSO_INSTANCE_ARN")
    ensures r.Some? ==> r.value.identityStoreId == env["AWS_IDENTITY_STORE_ID"]
                        && r.value.ssoInstanceArn == env["AWS_SSO_INSTANCE_ARN"]
                        && r.value.region == (if "AWS_REGION" in env then env["AWS_REGION"] else DefaultRegion)
  {
    if IsSet(env, "AWS_IDENTITY_STORE_ID") && IsSet(env, "AWS_SSO_INSTANCE_ARN") then
      Some(AwsIdentityCenterConfig(env["AWS_IDENTITY_STORE_ID"], env["AWS_SSO_INSTANCE_ARN"], Region(env)))
    else None
  }

  /** Credentials, a profile, a Lambda runtime or the explicit flag enable AWS Organizations. */
  predicate AwsOrgsEnabled(env: Env)
  {
    IsSet(env, "AWS_ACCESS_KEY_ID") || IsSet(env, "AWS_PROFILE") || IsSet(env, "AWS_LAMBDA_FUNCTION_NAME")
    || Lower(EnvGet(env, "AWS_ORGANIZATIONS_ENABLED", "")) == "true"
  }

  function AwsOrgsSection(env: Env): (r: Option<AwsOrganizationsConfig>)
    ensures r.Some? <==> AwsOrgsEnabled(env)
    ensures r.Some? ==> r.value.region == (if "AWS_REGION" in env then env["AWS_REGION"] else DefaultRegion)
  {
    if AwsOrgsEnabled(env) then Some(AwsOrganizationsConfig(Region(env))) else None
  }

  /** The flag is read without regard to letter case. */
  lemma AwsOrgsFlagIgnoresCase(env: Env, flag: string)
    requires Lower(flag) == "true"
    ensures AwsOrgsSection(env["AWS_ORGANIZATIONS_ENABLED" := flag]).Some?
  {
  }

  /** The GitHub section; the token itself may be a secret reference, whose resolution can fail. */
  function GithubSection(env: Env, b: Backends): (r: Result<Option<GitHubConfig>>)
    ensures !IsSet(env, "GITHUB_TOKEN") ==> r == Ok(None)
    ensures IsSet(env, "GITHUB_TOKEN") ==>
      var token := ResolveSecret(env, b, env["GITHUB_TOKEN"]);
      (token.Err? ==> r.Err? && r.message == token.message)
      && (token.Ok? ==> r == Ok(Some(GitHubConfig(token.value, OrgLogins(EnvGet(env, "GITHUB_ORG_LOGINS", "")),
                                                  EnvGet(env, "GITHUB_API_BASE_URL", DefaultGithubApi)))))
  {
    if !IsSet(env, "GITHUB_TOKEN") then Ok(None)
    else
      var token := ResolveSecret(env, b, env["GITHUB_TOKEN"]);
      if token.Err? then Err(token.message)
      else
        Ok(Some(GitHubConfig(token.value, OrgLogins(EnvGet(env, "GITHUB_ORG_LOGINS", "")),
                             EnvGet(env, "GITHUB_API_BASE_URL", DefaultGithubApi))))
  }

  function GcpSection(env: Env): (r: Option<GcpConfig>)
    ensures r.Some? <==> IsSet(env, "GCP_ORG_ID")
    ensures r.Some? ==> r.value.orgId == env["GCP_ORG_ID"] && r.value.saKeyFile == EnvOpt(env, "GCP_SA_KEY_FILE")
  {
    if IsSet(env, "GCP_ORG_ID") then Some(GcpConfig(env["GCP_ORG_ID"], EnvOpt(env, "GCP_SA_KEY_FILE"))) else None
  }

  // ---------------------------------------------------------------------------
  // load_config
  // ---------------------------------------------------------------------------

  /** `load_config()` over the environment `env` (after `.env` has been loaded into it). */
  function LoadConfig(env: Env, b: Backends): (r: Result<Config>)
    ensures !IsSet(env, "TENANT_ID") ==> r == Err(TenantRequiredMessage)
    ensures r.Ok? ==> r.value.tenantId == env["TENANT_ID"] && r.value.tenantId != ""
    ensures r.Ok? ==> r.value.scheduler == DefaultScheduler && ResolveDatabaseUrl(env, b) == Ok(r.value.database.url)
  {
    if !IsSet(env, "TENANT_ID") then Err(TenantRequiredMessage)
    else
      var url := ResolveDatabaseUrl(env, b);
      if url.Err? then Err(url.message)
      else
        var minConn := IntSetting(env, "DB_MIN_CONNECTIONS", 2);
        var maxConn := IntSetting(env, "DB_MAX_CONNECTIONS", 10);
        if minConn.Err? then Err(minConn.message)
        else if maxConn.Err? then Err(maxConn.message)
        else
          var github := GithubSection(env, b);
          if github.Err? then Err(github.message)
          else
            var batch := IntSetting(env, "INGESTION_BATCH_SIZE", 500);
            if batch.Err? then Err(batch.message)
            else
              Ok(Config(env["TENANT_ID"], DatabaseConfig(url.value, minConn.value, maxConn.value), DefaultScheduler,
                        GoogleSection(env), AwsIdcSection(env), AwsOrgsSection(env), github.value, GcpSection(env),
                        batch.value))
  }

  /** A configuration that loads holds the provider sections and the parsed numeric settings. */
  lemma LoadConfigSections(env: Env, b: Backends)
    requires LoadConfig(env, b).Ok?
    ensures var c := LoadConfig(env, b).value;
      c.googleWorkspace == GoogleSection(env) && c.awsIdentityCenter == AwsIdcSection(env)
      && c.awsOrganizations == AwsOrgsSection(env) && c.gcp == GcpSection(env)
      && GithubSection(env, b) == Ok(c.github)
      && IntSetting(env, "DB_MIN_CONNECTIONS", 2) == Ok(c.database.minConnections)
      && IntSetting(env, "DB_MAX_CONNECTIONS", 10) == Ok(c.database.maxConnections)
      && IntSetting(env, "INGESTION_BATCH_SIZE", 500) == Ok(c.batchSize)
  {
    var url := ResolveDatabaseUrl(env, b);
    var minConn := IntSetting(env, "DB_MIN_CONNECTIONS", 2);
    var maxConn := IntSetting(env, "DB_MAX_CONNECTIONS", 10);
    var github := GithubSection(env, b);
    var batch := IntSetting(env, "INGESTION_BATCH_SIZE", 500);
    assert url.Ok? && minConn.Ok? && maxConn.Ok? && github.Ok? && batch.Ok?;
    assert LoadConfig(env, b).value
      == Config(env["TENANT_ID"], DatabaseConfig(url.value, minConn.value, maxConn.value), DefaultScheduler,
                GoogleSection(env), AwsIdcSection(env), AwsOrgsSection(env), github.value, GcpSection(env),
                batch.value);
  }

  /** Each provider section is present exactly when its variables are set. */
  lemma SectionsIff(env: Env, b: Backends)
    requires LoadConfig(env, b).Ok?
    ensures var c := LoadConfig(env, b).value;
      (c.googleWorkspace.Some? <==> IsSet(env, "GOOGLE_ADMIN_EMAIL") && IsSet(env, "GOOGLE_CUSTOMER_ID"))
      && (c.awsIdentityCenter.Some? <==> IsSet(env, "AWS_IDENTITY_STORE_ID") && IsSet(env, "AWS_SSO_INSTANCE_ARN"))
      && (c.awsOrganizations.Some? <==> AwsOrgsEnabled(env))
      && (c.github.Some? <==> IsSet(env, "GITHUB_TOKEN"))
      && (c.gcp.Some? <==> IsSet(env, "GCP_ORG_ID"))
  {
    LoadConfigSections(env, b);
  }

  /** Unset numeric variables take their defaults: 2 and 10 connections and batches of 500. */
  lemma NumericDefaults(env: Env, b: Backends)
    requires LoadConfig(env, b).Ok?
    requires "DB_MIN_CONNECTIONS" !in env && "DB_MAX_CONNECTIONS" !in env && "INGESTION_BATCH_SIZE" !in env
    ensures var c := LoadConfig(env, b).value;
      c.database.minConnections == 2 && c.database.maxConnections == 10 && c.batchSize == 500
  {
    LoadConfigSections(env, b);
  }

  /** The region defaults to us-east-1 in both AWS sections. */
  lemma RegionDefault(env: Env)
    requires "AWS_REGION" !in env
    ensures AwsIdcSection(env).Some? ==> AwsIdcSection(env).value.region == "us-east-1"
    ensures AwsOrgsSection(env).Some? ==> AwsOrgsSection(env).value.region == "us-east-1"
  {
  }
}
