/**
 * Secret resolution for the ingestion jobs: a value written `aws-secret://name[#key]` is read from
 * AWS Secrets Manager, one written `gcp-secret://ref` from GCP Secret Manager, and anything else is
 * the secret itself. The database URL is `DATABASE_URL` resolved as a secret, or is assembled from
 * the `PG_*` variables with the password resolved.
 */
module Secrets {
  import opened Base
  import opened Text

  /** The process environment. */
  type Env = map<string, string>

  /** `os.environ.get(key, default)`. */
  function EnvGet(env: Env, key: string, default: string): (r: string)
    ensures key in env ==> r == env[key]
    ensures key !in env ==> r == default
  {
    if key in env then env[key] else default
  }

  /**
   * The cloud services, which are outside the model: `aws(region, name)` is the `SecretString` of
   * a secret, `jsonField(text, key)` is `str(json.loads(text)[key])`, `gcp(name)` is the decoded
   * payload of a secret version and `metadataProject` is the project id the metadata server
   * reports. Each may fail with a message.
   */
  datatype Backends = Backends(aws: (string, string) -> Result<string>,
                               jsonField: (string, string) -> Result<string>,
                               gcp: string -> Result<string>,
                               metadataProject: Result<string>)

  const AwsPrefix := "aws-secret://"
  const GcpPrefix := "gcp-secret://"
  const ProjectsPrefix := "projects/"
  const DefaultRegion := "us-east-1"
  const NoProjectMessage := "Cannot determine GCP project ID. Set GCP_PROJECT_ID env var."

  // ---------------------------------------------------------------------------
  // AWS Secrets Manager
  // ---------------------------------------------------------------------------

  /** `ref.split("#", 1)`: the secret name and, after the first `#`, the JSON key. */
  function AwsRef(ref: string): (r: (string, Option<string>))
    ensures '#' !in r.0
    ensures r.1.None? ==> r.0 == ref
    ensures r.1.Some? ==> ref == r.0 + "#" + r.1.value
  {
    SplitOnce(ref, '#')
  }

  /** The name and key are read back from `name#key` for any name without a `#`. */
  lemma AwsRefRoundTrip(name: string, key: string)
    requires '#' !in name
    ensures AwsRef(name + "#" + key) == (name, Some(key))
    ensures AwsRef(name) == (name, None)
  {
    var r := AwsRef(name + "#" + key);
    if r.1.Some? {
      SplitPrefixUnique(name, key, r.0, r.1.value);
    }
  }

  lemma SplitPrefixUnique(a: string, b: string, c: string, d: string)
    requires '#' !in a && '#' !in c && a + "#" + b == c + "#" + d
    ensures a == c && b == d
  {
    var s := a + "#" + b;
    FirstCharAt(a, '#', b);
    FirstCharAt(c, '#', d);
    assert a == s[..|a|] == c;
    assert b == s[|a| + 1..] == d;
  }

  /**
   * `_resolve_aws_secret(ref)`: the secret, fetched by its name in the configured region (default
   * us-east-1), or its `key` field when a non-empty key is given; an empty key (`name#`) is
   * ignored and a fetch error propagates.
   */
  function ResolveAws(env: Env, b: Backends, ref: string): (r: Result<string>)
    ensures var name := AwsRef(ref).0; var key := AwsRef(ref).1;
      var fetched := b.aws(EnvGet(env, "AWS_REGION", DefaultRegion), name);
      (fetched.Err? ==> r == fetched)
      && (fetched.Ok? && key.Some? && key.value != "" ==> r == b.jsonField(fetched.value, key.value))
      && (fetched.Ok? && (key.None? || key.value == "") ==> r == fetched)
      && ('#' !in ref ==> name == ref)
  {
    var (name, key) := AwsRef(ref);
    var fetched := b.aws(EnvGet(env, "AWS_REGION", DefaultRegion), name);
    if fetched.Err? then fetched
    else if key.Some? && key.value != "" then b.jsonField(fetched.value, key.value)
    else fetched
  }

  // ---------------------------------------------------------------------------
  // GCP Secret Manager
  // ---------------------------------------------------------------------------

  /** The project a short reference is resolved in: `GCP_PROJECT_ID`, else the metadata server. */
  function GcpProject(env: Env, b: Backends): (r: Result<string>)
    ensures EnvGet(env, "GCP_PROJECT_ID", "") != "" ==> r == Ok(env["GCP_PROJECT_ID"])
    ensures EnvGet(env, "GCP_PROJECT_ID", "") == "" && b.metadataProject.Err? ==> r == Err(NoProjectMessage)
    ensures EnvGet(env, "GCP_PROJECT_ID", "") == "" && b.metadataProject.Ok? ==> r == b.metadataProject
  {
    var project := EnvGet(env, "GCP_PROJECT_ID", "");
    if project != "" then Ok(project)
    else if b.metadataProject.Err? then Err(NoProjectMessage)
    else b.metadataProject
  }

  function FullSecretName(project: string, ref: string): string
  {
    ProjectsPrefix + project + "/secrets/" + ref + "/versions/latest"
  }

  /** The resource name of the version to read: a full `projects/…` name as is, else its latest version. */
  function GcpName(env: Env, b: Backends, ref: string): (r: Result<string>)
    ensures StartsWith(ref, ProjectsPrefix) ==> r == Ok(ref)
    ensures !StartsWith(ref, ProjectsPrefix) ==>
      (GcpProject(env, b).Err? ==> r == Err(NoProjectMessage))
      && (GcpProject(env, b).Ok? ==> r == Ok(FullSecretName(GcpProject(env, b).value, ref)))
  {
    if StartsWith(ref, ProjectsPrefix) then Ok(ref)
    else
      var project := GcpProject(env, b);
      if project.Err? then Err(project.message) else Ok(FullSecretName(project.value, ref))
  }

  /** Every name produced is a full name, so naming it again changes nothing. */
  lemma GcpNameIdempotent(env: Env, b: Backends, ref: string)
    ensures GcpName(env, b, ref).Ok? ==> StartsWith(GcpName(env, b, ref).value, ProjectsPrefix)
    ensures GcpName(env, b, ref).Ok? ==> GcpName(env, b, GcpName(env, b, ref).value) == GcpName(env, b, ref)
  {
    if !StartsWith(ref, ProjectsPrefix) && GcpProject(env, b).Ok? {
      var n := FullSecretName(GcpProject(env, b).value, ref);
      assert n[..|ProjectsPrefix|] == ProjectsPrefix;
    }
  }

  /** `_resolve_gcp_secret(ref)`. */
  function ResolveGcp(env: Env, b: Backends, ref: string): (r: Result<string>)
    ensures GcpName(env, b, ref).Err? ==> r == GcpName(env, b, ref)
    ensures GcpName(env, b, ref).Ok? ==> r == b.gcp(GcpName(env, b, ref).value)
  {
    var name := GcpName(env, b, ref);
    if name.Err? then name else b.gcp(name.value)
  }

  // ---------------------------------------------------------------------------
  // resolve_secret and resolve_database_url
  // ---------------------------------------------------------------------------

  /** `resolve_secret(value)`. */
  function ResolveSecret(env: Env, b: Backends, value: string): (r: Result<string>)
    ensures StartsWith(value, AwsPrefix) ==> r == ResolveAws(env, b, value[|AwsPrefix|..])
    ensures !StartsWith(value, AwsPrefix) && StartsWith(value, GcpPrefix) ==>
      r == ResolveGcp(env, b, value[|GcpPrefix|..])
  {
    if StartsWith(value, AwsPrefix) then ResolveAws(env, b, value[|AwsPrefix|..])
    else if StartsWith(value, GcpPrefix) then ResolveGcp(env, b, value[|GcpPrefix|..])
    else Ok(value)
  }

  /** A value that is not a reference is its own secret, whatever the backends do. */
  lemma PlainValueUnchanged(env: Env, b: Backends, value: string)
    requires !StartsWith(value, AwsPrefix) && !StartsWith(value, GcpPrefix)
    ensures ResolveSecret(env, b, value) == Ok(value)
  {
  }

  /** A reference to a named AWS secret reads exactly that secret. */
  lemma AwsReferenceRead(env: Env, b: Backends, name: string)
    requires '#' !in name
    ensures ResolveSecret(env, b, AwsPrefix + name) == b.aws(EnvGet(env, "AWS_REGION", DefaultRegion), name)
  {
    var v := AwsPrefix + name;
    assert v[..|AwsPrefix|] == AwsPrefix;
    assert v[|AwsPrefix|..] == name;
  }

  /** The fallback database URL is built from these variables and defaults. */
  function PgUrl(user: string, password: string, host: string, port: string, database: string): string
  {
    "postgresql://" + user + ":" + password + "@" + host + ":" + port + "/" + database
  }

  /** `resolve_database_url()`. */
  function ResolveDatabaseUrl(env: Env, b: Backends): (r: Result<string>)
    ensures EnvGet(env, "DATABASE_URL", "") != "" ==> r == ResolveSecret(env, b, env["DATABASE_URL"])
    ensures EnvGet(env, "DATABASE_URL", "") == "" ==>
      var password := ResolveSecret(env, b, EnvGet(env, "PG_PASSWORD", "localdev-change-me"));
      (password.Err? ==> r == password)
      && (password.Ok? ==> r == Ok(PgUrl(EnvGet(env, "PG_USER", "cloudintel"), password.value,
                                         EnvGet(env, "PG_HOST", "localhost"), EnvGet(env, "PG_PORT", "5432"),
                                         EnvGet(env, "PG_DATABASE", "cloud_identity_intel"))))
  {
    var url := EnvGet(env, "DATABASE_URL", "");
    if url != "" then ResolveSecret(env, b, url)
    else
      var host := EnvGet(env, "PG_HOST", "localhost");
      var port := EnvGet(env, "PG_PORT", "5432");
      var user := EnvGet(env, "PG_USER", "cloudintel");
      var password := ResolveSecret(env, b, EnvGet(env, "PG_PASSWORD", "localdev-change-me"));
      var database := EnvGet(env, "PG_DATABASE", "cloud_identity_intel");
      if password.Err? then password else Ok(PgUrl(user, password.value, host, port, database))
  }

  /** With nothing set the URL is the local development one, without calling any backend. */
  lemma LocalDefaultUrl(b: Backends)
    ensures ResolveDatabaseUrl(map[], b)
      == Ok(PgUrl("cloudintel", "localdev-change-me", "localhost", "5432", "cloud_identity_intel"))
  {
    var password := "localdev-change-me";
    assert password[0] == 'l' && AwsPrefix[0] == 'a' && GcpPrefix[0] == 'g';
    PlainValueUnchanged(map[], b, password);
  }
}
