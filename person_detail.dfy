/**
 * The person page's "account access" table: one row per linked Google Workspace, AWS Identity
 * Center and GitHub identity, every text field falling back to a dash, and the colour of the role
 * and permission badges.
 */
module PersonDetail {
  import opened Base
  import opened Text

  // ---------------------------------------------------------------------------
  // Records (a nullable field is an Option)
  // ---------------------------------------------------------------------------

  datatype GoogleIdentity = GoogleIdentity(id: string, googleId: string, primaryEmail: Option<string>,
                                           nameFull: Option<string>, isAdmin: Option<bool>,
                                           suspended: Option<bool>, lastLoginTime: Option<string>)

  datatype AwsIdentity = AwsIdentity(id: string, userName: Option<string>, displayName: Option<string>,
                                     active: Option<bool>)

  datatype GithubIdentity = GithubIdentity(id: string, login: Option<string>, email: Option<string>,
                                           name: Option<string>, kind: Option<string>)

  /** The identity lists of a person record; each may be null. */
  datatype PersonRecord = PersonRecord(googleIdentities: Option<seq<GoogleIdentity>>,
                                       awsIdcIdentities: Option<seq<AwsIdentity>>,
                                       githubIdentities: Option<seq<GithubIdentity>>)

  datatype AccountAccessRow = AccountAccessRow(provider: string, accountId: string, displayName: string,
                                               emailOrLogin: string, status: string, lastLoginTime: string,
                                               accessFlags: string)

  const Dash := "-"

  /** `normalizeArray(value)`: the array, or none when null. */
  function NormalizeArray<T>(value: Option<seq<T>>): (r: seq<T>)
    ensures value.Some? ==> r == value.value
    ensures value.None? ==> r == []
  {
    if value.Some? then value.value else []
  }

  /** `a || b` for a nullable string: the fallback when it is null or empty. */
  function Or(a: Option<string>, fallback: string): (r: string)
    ensures r == fallback || (a.Some? && r == a.value && a.value != "")
    ensures a.Some? && a.value != "" ==> r == a.value
  {
    if a.Some? && a.value != "" then a.value else fallback
  }

  // ---------------------------------------------------------------------------
  // One row per identity
  // ---------------------------------------------------------------------------

  function GoogleRow(g: GoogleIdentity): AccountAccessRow
  {
    AccountAccessRow("Google Workspace", g.googleId, Or(g.nameFull, Dash), Or(g.primaryEmail, Dash),
                     if g.suspended.None? then Dash else if g.suspended.value then "Suspended" else "Active",
                     Or(g.lastLoginTime, Dash),
                     if g.isAdmin == Some(true) then "Admin" else Dash)
  }

  function AwsRow(a: AwsIdentity): AccountAccessRow
  {
    AccountAccessRow("AWS Identity Center", Or(a.userName, a.id), Or(a.displayName, Dash), Or(a.userName, Dash),
                     if a.active.None? then Dash else if a.active.value then "Active" else "Disabled",
                     Dash, Dash)
  }

  function GithubRow(h: GithubIdentity): AccountAccessRow
  {
    AccountAccessRow("GitHub", Or(h.login, h.id), Or(h.name, Dash), Or(h.email, Or(h.login, Dash)),
                     Or(h.kind, Dash), Dash, Dash)
  }

  /**
   * The rows for all identities: one per identity, the Google ones first, then the AWS ones, then
   * the GitHub ones, each block in the order of its list and labelled with its provider.
   */
  function AccessRows(p: PersonRecord): (r: seq<AccountAccessRow>)
    ensures var g := NormalizeArray(p.googleIdentities);
      var a := NormalizeArray(p.awsIdcIdentities);
      var h := NormalizeArray(p.githubIdentities);
      |r| == |g| + |a| + |h|
      && (forall i :: 0 <= i < |g| ==> r[i] == GoogleRow(g[i]) && r[i].provider == "Google Workspace")
      && (forall i :: 0 <= i < |a| ==> r[|g| + i] == AwsRow(a[i]) && r[|g| + i].provider == "AWS Identity Center")
      && (forall i :: 0 <= i < |h| ==> r[|g| + |a| + i] == GithubRow(h[i]) && r[|g| + |a| + i].provider == "GitHub")
  {
    var g := NormalizeArray(p.googleIdentities);
    var a := NormalizeArray(p.awsIdcIdentities);
    var h := NormalizeArray(p.githubIdentities);
    seq(|g|, i requires 0 <= i < |g| => GoogleRow(g[i]))
      + seq(|a|, i requires 0 <= i < |a| => AwsRow(a[i]))
      + seq(|h|, i requires 0 <= i < |h| => GithubRow(h[i]))
  }

  /** `buildAccountAccessRows(person)`: three loops pushing one row per identity. */
  method BuildAccountAccessRows(p: PersonRecord) returns (rows: seq<AccountAccessRow>)
    ensures rows == AccessRows(p)
  {
    var g := NormalizeArray(p.googleIdentities);
    var a := NormalizeArray(p.awsIdcIdentities);
    var h := NormalizeArray(p.githubIdentities);
    rows := [];
    for i := 0 to |g|
      invariant rows == seq(i, k requires 0 <= k < i => GoogleRow(g[k]))
    {
      rows := rows + [GoogleRow(g[i])];
    }
    ghost var googleRows := rows;
    for i := 0 to |a|
      invariant rows == googleRows + seq(i, k requires 0 <= k < i => AwsRow(a[k]))
    {
      rows := rows + [AwsRow(a[i])];
    }
    ghost var cloudRows := rows;
    for i := 0 to |h|
      invariant rows == cloudRows + seq(i, k requires 0 <= k < i => GithubRow(h[k]))
    {
      rows := rows + [GithubRow(h[i])];
    }
  }

  /** A person without identity lists has no rows. */
  lemma NoIdentitiesNoRows()
    ensures AccessRows(PersonRecord(None, None, None)) == []
  {
  }

  /** Google status is a dash when unknown, otherwise Suspended or Active; only admins are flagged. */
  lemma GoogleRowRules(g: GoogleIdentity)
    ensures var r := GoogleRow(g);
      (r.status == Dash <==> g.suspended.None?)
      && (r.status == "Suspended" <==> g.suspended == Some(true))
      && (r.status == "Active" <==> g.suspended == Some(false))
      && (r.accessFlags == "Admin" <==> g.isAdmin == Some(true))
      && r.accountId == g.googleId
  {
  }

  /** The AWS account is the user name when there is one, else the id; no login time or flags are known. */
  lemma AwsRowRules(a: AwsIdentity)
    ensures var r := AwsRow(a);
      (a.userName.Some? && a.userName.value != "" ==> r.accountId == a.userName.value && r.emailOrLogin == a.userName.value)
      && (a.userName.None? || a.userName.value == "" ==> r.accountId == a.id && r.emailOrLogin == Dash)
      && (r.status == Dash <==> a.active.None?)
      && (r.status == "Active" <==> a.active == Some(true))
      && (r.status == "Disabled" <==> a.active == Some(false))
      && r.lastLoginTime == Dash && r.accessFlags == Dash
  {
  }

  /** GitHub shows the login (else the id), the e-mail (else the login, else a dash) and the account type. */
  lemma GithubRowRules(h: GithubIdentity)
    ensures var r := GithubRow(h);
      var hasLogin := h.login.Some? && h.login.value != "";
      var hasEmail := h.email.Some? && h.email.value != "";
      (r.accountId == if hasLogin then h.login.value else h.id)
      && (r.emailOrLogin == if hasEmail then h.email.value else if hasLogin then h.login.value else Dash)
      && (r.status == if h.kind.Some? && h.kind.value != "" then h.kind.value else Dash)
      && r.lastLoginTime == Dash && r.accessFlags == Dash
  {
  }

  // ---------------------------------------------------------------------------
  // Badges
  // ---------------------------------------------------------------------------

  const SlateClass := "bg-slate-100 text-slate-600 border-slate-200"

  const PermissionColor: map<string, string> := map[
    "admin" := "bg-red-50 text-red-700 border-red-100",
    "maintain" := "bg-orange-50 text-orange-700 border-orange-100",
    "push" := "bg-amber-50 text-amber-700 border-amber-100",
    "triage" := "bg-blue-50 text-blue-700 border-blue-100",
    "pull" := SlateClass
  ]

  const RoleColor: map<string, string> := map[
    "owner" := "bg-purple-50 text-purple-700 border-purple-100",
    "admin" := "bg-red-50 text-red-700 border-red-100",
    "maintainer" := "bg-orange-50 text-orange-700 border-orange-100",
    "member" := SlateClass
  ]

  /** The badge class: the colour of the lower-cased caption, or slate when it has none. */
  function BadgeClass(caption: string, colorMap: map<string, string>): (r: string)
    ensures Lower(caption) !in colorMap ==> r == SlateClass
    ensures Lower(caption) in colorMap && colorMap[Lower(caption)] != "" ==> r == colorMap[Lower(caption)]
  {
    var key := Lower(caption);
    if key in colorMap && colorMap[key] != "" then colorMap[key] else SlateClass
  }

  /** The colour does not depend on the caption's letter case. */
  lemma BadgeIgnoresCase(caption: string, colorMap: map<string, string>)
    ensures BadgeClass(Lower(caption), colorMap) == BadgeClass(caption, colorMap)
    ensures BadgeClass(Upper(caption), colorMap) == BadgeClass(caption, colorMap)
  {
    LowerIdempotent(caption);
    LowerOfUpper(caption);
  }

  lemma LowerOfUpper(s: string)
    ensures Lower(Upper(s)) == Lower(s)
  {
    assert forall i :: 0 <= i < |s| ==> LowerChar(UpperChar(s[i])) == LowerChar(s[i]);
  }

  /** Every class either comes from the map or is the slate fallback. */
  lemma BadgeFromMap(caption: string, colorMap: map<string, string>)
    ensures BadgeClass(caption, colorMap) == SlateClass || BadgeClass(caption, colorMap) in colorMap.Values
  {
  }
}
