/**
 * The static security registry read by the SQL gate: the table allow-list, the PII tables and
 * their redacted views, the function, table-prefix and keyword block-lists, the query limits and
 * the natural-language synonyms of the schema.
 */
module Registry {
  import opened Text

  /**
   * Tables and views the generated SQL may read. The allow-list is a predicate rather than a set
   * constant, so that its members are only spelled out where a proof asks about a name.
   */
  predicate IsAllowedTable(t: string)
  {
    t in {
      "tenant", "person", "person_link", "aws_account", "aws_iam_user",
      "aws_iam_user_policy_attachment", "aws_idc_user", "aws_idc_group",
      "aws_idc_group_membership", "aws_idc_permission_set", "aws_idc_account_assignment",
      "gcp_project", "gcp_workspace_user", "gcp_workspace_group",
      "gcp_workspace_group_membership", "gcp_iam_binding", "github_organisation",
      "github_user", "github_team", "github_team_membership", "github_org_membership",
      "mv_effective_access", "entity_history", "snapshot_registry",
      "v_person_redacted", "v_aws_idc_user_redacted", "v_gcp_workspace_user_redacted",
      "v_github_user_redacted", "v_effective_access_redacted"
    }
  }

  /** Tables holding personally identifiable information. */
  const PiiTables: set<string> := {
    "person", "aws_idc_user", "gcp_workspace_user", "aws_iam_user", "github_user"
  }

  /** Each PII-bearing relation and the view that redacts it. */
  const RedactedViewMap: map<string, string> := map[
    "person" := "v_person_redacted",
    "aws_idc_user" := "v_aws_idc_user_redacted",
    "gcp_workspace_user" := "v_gcp_workspace_user_redacted",
    "github_user" := "v_github_user_redacted",
    "mv_effective_access" := "v_effective_access_redacted"
  ]

  /** PostgreSQL functions generated SQL must never call. */
  predicate IsBlockedFunctionName(f: string)
  {
    f in {
      "pg_read_file", "pg_read_binary_file", "pg_ls_dir",
      "lo_import", "lo_export", "lo_get", "lo_put",
      "dblink", "dblink_exec", "dblink_connect",
      "copy", "pg_copy_from", "pg_copy_to",
      "set_config", "current_setting",
      "pg_terminate_backend", "pg_cancel_backend",
      "pg_reload_conf", "pg_rotate_logfile",
      "txid_current", "pg_advisory_lock",
      "pg_sleep"
    }
  }

  /** Name prefixes of the system catalogues. */
  const BlockedTablePrefixes: seq<string> := ["pg_", "information_schema.", "pg_catalog."]

  /** Keywords rejected anywhere in the text, in the order they are reported. */
  const BlockedKeywords: seq<string> := [
    "GRANT", "REVOKE", "SET", "RESET", "LOAD",
    "COPY", "EXECUTE", "PREPARE", "DEALLOCATE",
    "LISTEN", "NOTIFY", "VACUUM", "ANALYZE",
    "CLUSTER", "REINDEX", "SECURITY DEFINER"
  ]

  const MaxRows: nat := 500
  const QueryTimeoutMs: nat := 10000
  const MaxQuestionLength: nat := 1000
  const RateLimitPerMinute: nat := 30

  /** Canonical table names and the phrases users say for them. */
  const SchemaSynonyms: map<string, seq<string>> := map[
    "aws_account" := ["account", "aws account", "aws accounts"],
    "gcp_project" := ["project", "gcp project", "google project", "gcp projects"],
    "person" := ["user", "person", "people", "employee", "staff", "member"],
    "aws_idc_group" := ["idc group", "identity center group", "aws group", "sso group"],
    "gcp_workspace_group" := ["workspace group", "google group", "gws group"],
    "aws_idc_permission_set" := ["permission set", "permission", "access level"],
    "aws_idc_account_assignment" := ["assignment", "account assignment", "aws assignment"],
    "gcp_iam_binding" := ["binding", "iam binding", "gcp binding", "role binding"],
    "mv_effective_access" := ["access", "effective access", "entitlement", "entitlements"],
    "person_link" := ["identity link", "linkage", "person link"],
    "entity_history" := ["history", "audit trail", "change log", "changelog"],
    "github_organisation" := ["github org", "github organisation", "github organization", "gh org"],
    "github_user" := ["github user", "github member", "gh user", "github account"],
    "github_team" := ["github team", "gh team"],
    "github_team_membership" := ["github team member", "team membership"],
    "github_org_membership" := ["github org member", "org membership"]
  ]

  /** Whether a (lower-cased) table name starts with a system-catalogue prefix. */
  predicate HasBlockedPrefix(t: string)
  {
    exists k :: 0 <= k < |BlockedTablePrefixes| && StartsWith(t, BlockedTablePrefixes[k])
  }

  /** Every PII table may be queried, and so may every redacted view. */
  lemma PiiTablesAllowed()
    ensures forall t :: t in PiiTables ==> IsAllowedTable(t)
    ensures forall t :: t in RedactedViewMap ==> IsAllowedTable(RedactedViewMap[t])
    ensures forall t :: t in PiiTables && t != "aws_iam_user" ==> t in RedactedViewMap
  {
  }

  /** Every synonym key is a queryable table, with at least one synonym, none of them blank. */
  lemma SynonymsWellFormed()
    ensures forall t :: t in SchemaSynonyms ==> IsAllowedTable(t)
    ensures forall t :: t in SchemaSynonyms ==> |SchemaSynonyms[t]| > 0
    ensures forall t, k :: t in SchemaSynonyms && 0 <= k < |SchemaSynonyms[t]| ==>
      TrimJs(SchemaSynonyms[t][k]) != ""
  {
    SynonymKeysAllowed();
    SynonymsStartWithLetter();
    forall t, k | t in SchemaSynonyms && 0 <= k < |SchemaSynonyms[t]|
      ensures TrimJs(SchemaSynonyms[t][k]) != ""
    {
      LetterFirstNotBlank(SchemaSynonyms[t][k]);
    }
  }

  /** Text that starts with a letter does not trim to nothing. */
  lemma LetterFirstNotBlank(w: string)
    requires w != "" && 'a' <= w[0] <= 'z'
    ensures TrimJs(w) != ""
  {
    TrimEnds(w, IsJsSpace);
  }

  lemma SynonymKeysAllowed()
    ensures forall t :: t in SchemaSynonyms ==> IsAllowedTable(t) && |SchemaSynonyms[t]| > 0
  {
  }

  lemma SynonymsStartWithLetter()
    ensures forall t, k :: t in SchemaSynonyms && 0 <= k < |SchemaSynonyms[t]| ==>
      SchemaSynonyms[t][k] != "" && 'a' <= SchemaSynonyms[t][k][0] <= 'z'
  {
  }

  /** A name with a system-catalogue prefix is never on the allow-list, so it fails both table checks. */
  lemma SystemTablesNotAllowed(t: string)
    requires HasBlockedPrefix(t)
    ensures !IsAllowedTable(t)
  {
    BlockedInitials(t);
    if IsAllowedTable(t) {
      AllowedInitials(t);
    }
  }

  /** A name with a catalogue prefix begins with `i` or with `pg`. */
  lemma BlockedInitials(t: string)
    requires HasBlockedPrefix(t)
    ensures |t| >= 2 && (t[0] == 'i' || (t[0] == 'p' && t[1] == 'g'))
  {
    var k :| 0 <= k < |BlockedTablePrefixes| && StartsWith(t, BlockedTablePrefixes[k]);
    var p := BlockedTablePrefixes[k];
    assert |p| >= 2 && (p[0] == 'i' || (p[0] == 'p' && p[1] == 'g'));
    assert t[..|p|] == p;
    assert t[0] == p[0] && t[1] == p[1];
  }

  /** A name that begins neither with `i` nor with `pg` has no catalogue prefix. */
  lemma NoBlockedPrefix(t: string)
    requires |t| >= 2 && t[0] != 'i' && (t[0] == 'p' ==> t[1] != 'g')
    ensures !HasBlockedPrefix(t)
  {
    forall k | 0 <= k < |BlockedTablePrefixes| ensures !StartsWith(t, BlockedTablePrefixes[k]) {
      var p := BlockedTablePrefixes[k];
      assert |p| >= 2 && (p[0] == 'i' || (p[0] == 'p' && p[1] == 'g'));
      if |p| <= |t| {
        assert t[..|p|][0] == t[0] && t[..|p|][1] == t[1];
      }
    }
  }

  /** Allowed names never begin with `i`, and those beginning with `p` continue with `e`. */
  lemma AllowedInitials(u: string)
    requires IsAllowedTable(u)
    ensures |u| >= 2 && u[0] != 'i' && (u[0] == 'p' ==> u[1] == 'e')
  {
  }

  /** Blocked function names are bare names, without a schema part. */
  lemma BlockedFunctionsUnqualified(f: string)
    requires IsBlockedFunctionName(f)
    ensures '.' !in f
  {
  }

  /** The limits are in their documented ranges. */
  lemma LimitsInRange()
    ensures 0 < MaxRows <= 10000
    ensures 1000 <= QueryTimeoutMs <= 60000
    ensures 0 < MaxQuestionLength && 0 < RateLimitPerMinute
  {
  }

  /** The block-lists hold the dangerous functions and statements they exist for. */
  lemma BlockListsCoverDangerousOperations()
    ensures forall f :: f in ["pg_sleep", "pg_read_file", "pg_read_binary_file", "pg_ls_dir", "dblink", "lo_import",
                              "lo_export", "pg_terminate_backend", "pg_cancel_backend", "set_config"] ==>
      IsBlockedFunctionName(f)
    ensures forall kw :: kw in ["GRANT", "REVOKE", "SET", "RESET", "VACUUM", "ANALYZE", "REINDEX"] ==>
      kw in BlockedKeywords
  {
  }
}
