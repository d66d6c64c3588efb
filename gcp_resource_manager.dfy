/**
 * The GCP Cloud Resource Manager provider: the organisation, its projects and the projects' IAM
 * bindings become rows. The API replies are given as values and the calls that can fail as
 * parameters.
 */
module GcpResourceManager {
  import opened Base
  import opened Text
  import BaseProvider

  const OrgPrefix := "organizations/"
  const FolderPrefix := "folders/"

  // ---------------------------------------------------------------------------
  // Organisation
  // ---------------------------------------------------------------------------

  /** The configured organisation as a resource name: `organizations/` is put in front unless already there. */
  function OrgName(orgId: string): (r: string)
    ensures StartsWith(r, OrgPrefix)
    ensures EndsWith(r, orgId)
    ensures r == orgId <==> StartsWith(orgId, OrgPrefix)
  {
    if StartsWith(orgId, OrgPrefix) then orgId
    else
      var r := OrgPrefix + orgId;
      assert r[..|OrgPrefix|] == OrgPrefix && r[|r| - |orgId|..] == orgId;
      r
  }

  /** Normalising twice is normalising once. */
  lemma OrgNameIdempotent(orgId: string)
    ensures OrgName(OrgName(orgId)) == OrgName(orgId)
  {
  }

  /** The lifecycle states of organisations and projects; the unspecified one is the enum's zero. */
  datatype State = StateUnspecified | Active | DeleteRequested

  /** `state.name if state else "ACTIVE"`: the zero state reads as active. */
  function StateName(s: State): (r: string)
    ensures r == "ACTIVE" || r == "DELETE_REQUESTED"
    ensures r == "DELETE_REQUESTED" <==> s == DeleteRequested
  {
    match s
    case StateUnspecified => "ACTIVE"
    case Active => "ACTIVE"
    case DeleteRequested => "DELETE_REQUESTED"
  }

  datatype Org = Org(name: string, displayName: string, directoryCustomerId: Option<string>, state: State)

  /** The organisation synced: the one fetched by name, else the first one a search finds, else none. */
  function OrgToSync(fetched: Result<Org>, searched: seq<Org>): (r: Option<Org>)
    ensures fetched.Ok? ==> r == Some(fetched.value)
    ensures fetched.Err? ==> (r.None? <==> searched == [])
    ensures fetched.Err? && searched != [] ==> r == Some(searched[0])
  {
    if fetched.Ok? then Some(fetched.value)
    else if searched == [] then None
    else Some(searched[0])
  }

  datatype OrgRow = OrgRow(tenantId: string, orgId: string, displayName: string, domain: Option<string>,
                           lifecycleState: string)

  /** `_sync_org`: no row when no organisation is found, else the one row. */
  function OrgRows(tenantId: string, fetched: Result<Org>, searched: seq<Org>): (rows: seq<OrgRow>)
    ensures |rows| <= 1
    ensures rows == [] <==> fetched.Err? && searched == []
    ensures rows != [] ==>
      var org := OrgToSync(fetched, searched).value;
      rows[0].orgId == org.name && rows[0].lifecycleState == StateName(org.state)
  {
    match OrgToSync(fetched, searched)
    case None => []
    case Some(org) =>
      [OrgRow(tenantId, org.name, org.displayName, org.directoryCustomerId, StateName(org.state))]
  }

  // ---------------------------------------------------------------------------
  // Projects
  // ---------------------------------------------------------------------------

  /** A project as searched; an unset parent or name is `""`. */
  datatype Project = Project(projectId: string, name: string, displayName: string, state: State, parent: string)

  /** The parent as organisation id or folder id, by its prefix. */
  function ParentIds(parent: string): (r: (Option<string>, Option<string>))
    ensures r.0.Some? <==> StartsWith(parent, OrgPrefix)
    ensures r.1.Some? <==> StartsWith(parent, FolderPrefix)
    ensures r.0.Some? ==> r.0.value == parent
    ensures r.1.Some? ==> r.1.value == parent
  {
    (if StartsWith(parent, OrgPrefix) then Some(parent) else None,
     if StartsWith(parent, FolderPrefix) then Some(parent) else None)
  }

  /** A parent is never both an organisation and a folder. */
  lemma ParentNeverBoth(parent: string)
    ensures !(ParentIds(parent).0.Some? && ParentIds(parent).1.Some?)
  {
    if StartsWith(parent, OrgPrefix) {
      assert parent[0] == OrgPrefix[0] == 'o';
      assert FolderPrefix[0] == 'f';
    }
  }

  /** `name.split("/")[-1] if name else ""`. */
  function ProjectNumber(name: string): (r: string)
    ensures '/' !in r
    ensures '/' !in name ==> r == name
  {
    if name == "" then ""
    else
      var parts := Split(name, '/');
      assert '/' !in name ==> parts == [name];
      parts[|parts| - 1]
  }

  /** The number of `projects/123` is `123`: whatever comes after the last slash. */
  lemma ProjectNumberOf(prefix: string, number: string)
    requires '/' !in number
    ensures ProjectNumber(prefix + "/" + number) == number
  {
    SplitLast(prefix, '/', number);
  }

  lemma {:induction false} SplitLast(a: string, c: char, b: string)
    requires c !in b
    ensures var parts := Split(a + [c] + b, c); parts[|parts| - 1] == b
    decreases |a|
  {
    var s := a + [c] + b;
    assert s[|a|] == c;
    var i := IndexOfChar(s, c).value;
    assert i <= |a|;
    assert IndexOfChar(b, c).None?;
    if i == |a| {
      assert s[i + 1..] == b;
    } else {
      assert s[i + 1..] == a[i + 1..] + [c] + b;
      SplitLast(a[i + 1..], c, b);
    }
  }

  datatype ProjectRow = ProjectRow(tenantId: string, projectId: string, projectNumber: string, displayName: string,
                                   lifecycleState: string, orgId: Option<string>, folderId: Option<string>)

  function ProjectRowOf(tenantId: string, p: Project): ProjectRow
  {
    var ids := ParentIds(p.parent);
    ProjectRow(tenantId, p.projectId, ProjectNumber(p.name), p.displayName, StateName(p.state), ids.0, ids.1)
  }

  /**
   * A project's row: its organisation id is set exactly when the parent is an organisation, its
   * folder id exactly when the parent is a folder, never both; its state is active unless deletion
   * was requested.
   */
  lemma ProjectRowClassified(tenantId: string, p: Project)
    ensures var row := ProjectRowOf(tenantId, p);
      (row.orgId.Some? <==> StartsWith(p.parent, OrgPrefix))
      && (row.folderId.Some? <==> StartsWith(p.parent, FolderPrefix))
      && !(row.orgId.Some? && row.folderId.Some?)
      && (row.orgId.Some? ==> row.orgId.value == p.parent)
      && (row.folderId.Some? ==> row.folderId.value == p.parent)
      && '/' !in row.projectNumber
      && (row.lifecycleState == "ACTIVE" <==> p.state != DeleteRequested)
  {
    ParentNeverBoth(p.parent);
  }

  /** The `for p in batch: rows.append(…)` loop of `_sync_projects`. */
  method ProjectRows(tenantId: string, batch: seq<Project>) returns (rows: seq<ProjectRow>)
    ensures |rows| == |batch|
    ensures forall i :: 0 <= i < |batch| ==> rows[i] == ProjectRowOf(tenantId, batch[i])
  {
    rows := [];
    for i := 0 to |batch|
      invariant |rows| == i
      invariant forall k :: 0 <= k < i ==> rows[k] == ProjectRowOf(tenantId, batch[k])
    {
      var p := batch[i];
      var ids := ParentIds(p.parent);
      var number := if p.name != "" then ProjectNumber(p.name) else "";
      rows := rows + [ProjectRow(tenantId, p.projectId, number, p.displayName, StateName(p.state), ids.0, ids.1)];
    }
  }

  // ---------------------------------------------------------------------------
  // IAM bindings
  // ---------------------------------------------------------------------------

  datatype Condition = Condition(expression: string, title: string)

  datatype Binding = Binding(role: string, members: seq<string>, condition: Option<Condition>)

  datatype BindingRow = BindingRow(tenantId: string, projectId: string, role: string, memberType: string,
                                   memberId: string, conditionExpression: Option<string>,
                                   conditionTitle: Option<string>)

  /** A member `type:id` split at its first colon; a member without one is both type and id. */
  function ParseMember(member: string): (r: (string, string))
    ensures ':' in member ==> ':' !in r.0 && member == r.0 + ":" + r.1
    ensures ':' !in member ==> r == (member, member)
  {
    var (t, id) := SplitOnce(member, ':');
    if id.Some? then (t, id.value) else (member, member)
  }

  /** `type:id` is read back as its type and id for any type without a colon. */
  lemma MemberRoundTrip(memberType: string, memberId: string)
    requires ':' !in memberType
    ensures ParseMember(memberType + ":" + memberId) == (memberType, memberId)
  {
    var m := memberType + ":" + memberId;
    assert m[|memberType|] == ':';
    var r := ParseMember(m);
    FirstCharAt(memberType, ':', memberId);
    FirstCharAt(r.0, ':', r.1);
    assert r.0 == m[..|r.0|];
    assert |r.0| == |memberType|;
    assert memberType == m[..|memberType|];
    assert r.1 == m[|memberType| + 1..] == memberId;
  }

  function ConditionExpression(c: Option<Condition>): Option<string>
  {
    if c.Some? then Some(c.value.expression) else None
  }

  function ConditionTitle(c: Option<Condition>): Option<string>
  {
    if c.Some? then Some(c.value.title) else None
  }

  function MemberRow(tenantId: string, pid: string, b: Binding, member: string): BindingRow
  {
    var (memberType, memberId) := ParseMember(member);
    BindingRow(tenantId, pid, b.role, memberType, memberId, ConditionExpression(b.condition), ConditionTitle(b.condition))
  }

  /** The rows of one binding's first `n` members. */
  function MemberRows(tenantId: string, pid: string, b: Binding, n: nat): (r: seq<BindingRow>)
    requires n <= |b.members|
    ensures |r| == n
    ensures forall i :: 0 <= i < |r| ==> r[i].tenantId == tenantId && r[i].projectId == pid && r[i].role == b.role
  {
    if n == 0 then [] else MemberRows(tenantId, pid, b, n - 1) + [MemberRow(tenantId, pid, b, b.members[n - 1])]
  }

  /** The rows of a policy: binding by binding, member by member, all of the tenant and the project. */
  function PolicyRows(tenantId: string, pid: string, bindings: seq<Binding>): (r: seq<BindingRow>)
    ensures forall i :: 0 <= i < |r| ==> r[i].tenantId == tenantId && r[i].projectId == pid
    decreases |bindings|
  {
    if bindings == [] then []
    else
      var last := bindings[|bindings| - 1];
      PolicyRows(tenantId, pid, bindings[..|bindings| - 1]) + MemberRows(tenantId, pid, last, |last.members|)
  }

  /**
   * One row per member, in order, each with the binding's role and the binding's condition
   * expression and title (both `None` without a condition).
   */
  lemma MemberRowsShape(tenantId: string, pid: string, b: Binding, n: nat)
    requires n <= |b.members|
    ensures var rows := MemberRows(tenantId, pid, b, n);
      |rows| == n
      && forall i :: 0 <= i < n ==>
           rows[i].projectId == pid && rows[i].role == b.role
           && (rows[i].memberType, rows[i].memberId) == ParseMember(b.members[i])
           && rows[i].conditionExpression == ConditionExpression(b.condition)
           && rows[i].conditionTitle == ConditionTitle(b.condition)
           && (b.condition.None? ==> rows[i].conditionExpression.None? && rows[i].conditionTitle.None?)
  {
    MemberRowsAt(tenantId, pid, b, n);
  }

  /** Row `i` is the row of member `i`. */
  lemma {:induction false} MemberRowsAt(tenantId: string, pid: string, b: Binding, n: nat)
    requires n <= |b.members|
    ensures var rows := MemberRows(tenantId, pid, b, n);
      |rows| == n && forall i :: 0 <= i < n ==> rows[i] == MemberRow(tenantId, pid, b, b.members[i])
  {
    if n > 0 {
      MemberRowsAt(tenantId, pid, b, n - 1);
      MemberRowsSnoc(tenantId, pid, b, MemberRows(tenantId, pid, b, n - 1), MemberRows(tenantId, pid, b, n));
    }
  }

  lemma MemberRowsSnoc(tenantId: string, pid: string, b: Binding, prev: seq<BindingRow>, rows: seq<BindingRow>)
    requires |prev| < |b.members|
    requires forall i :: 0 <= i < |prev| ==> prev[i] == MemberRow(tenantId, pid, b, b.members[i])
    requires rows == prev + [MemberRow(tenantId, pid, b, b.members[|prev|])]
    ensures |rows| == |prev| + 1 && forall i :: 0 <= i < |rows| ==> rows[i] == MemberRow(tenantId, pid, b, b.members[i])
  {
  }

  /** The rows of consecutive bindings follow each other. */
  lemma {:induction false} PolicyRowsAppend(tenantId: string, pid: string, a: seq<Binding>, b: seq<Binding>)
    ensures PolicyRows(tenantId, pid, a + b) == PolicyRows(tenantId, pid, a) + PolicyRows(tenantId, pid, b)
    decreases |b|
  {
    if b == [] {
      assert a + b == a;
    } else {
      var ab, init, last := a + b, b[..|b| - 1], b[|b| - 1];
      InitOfAppend(a, b);
      PolicyRowsAppend(tenantId, pid, a, init);
      var x, y, z := PolicyRows(tenantId, pid, a), PolicyRows(tenantId, pid, init), MemberRows(tenantId, pid, last, |last.members|);
      assert PolicyRows(tenantId, pid, ab) == (x + y) + z;
      assert PolicyRows(tenantId, pid, b) == y + z;
      AppendAssoc(x, y, z);
    }
  }

  /** The `for member in binding.members` loop: one row per member. */
  method CollectMembers(tenantId: string, pid: string, b: Binding) returns (rows: seq<BindingRow>)
    ensures rows == MemberRows(tenantId, pid, b, |b.members|)
  {
    var condition := b.condition;
    var condExpr := if condition.Some? then Some(condition.value.expression) else None;
    var condTitle := if condition.Some? then Some(condition.value.title) else None;
    rows := [];
    for j := 0 to |b.members|
      invariant rows == MemberRows(tenantId, pid, b, j)
    {
      var member := b.members[j];
      var memberType, memberId;
      if ':' in member {
        var parts := SplitOnce(member, ':');
        memberType, memberId := parts.0, parts.1.value;
      } else {
        memberType, memberId := member, member;
      }
      rows := rows + [BindingRow(tenantId, pid, b.role, memberType, memberId, condExpr, condTitle)];
    }
  }

  /** The `for binding in policy.bindings` loop of one project. */
  method CollectBindings(tenantId: string, pid: string, bindings: seq<Binding>) returns (rows: seq<BindingRow>)
    ensures rows == PolicyRows(tenantId, pid, bindings)
  {
    rows := [];
    for i := 0 to |bindings|
      invariant rows == PolicyRows(tenantId, pid, bindings[..i])
    {
      var memberRows := CollectMembers(tenantId, pid, bindings[i]);
      rows := rows + memberRows;
      assert bindings[..i + 1][..i] == bindings[..i] && bindings[..i + 1][i] == bindings[i];
    }
    assert bindings[..|bindings|] == bindings;
  }

  /**
   * The rows of the projects in `pids`; a project whose policy cannot be read contributes none, so
   * every row belongs to the tenant and to a listed project whose policy was read.
   */
  function IamRows(tenantId: string, pids: seq<string>, policy: string -> Result<seq<Binding>>): (r: seq<BindingRow>)
    ensures forall i :: 0 <= i < |r| ==>
      r[i].tenantId == tenantId && r[i].projectId in pids && policy(r[i].projectId).Ok?
    decreases |pids|
  {
    if pids == [] then []
    else
      var pid := pids[|pids| - 1];
      var rest := IamRows(tenantId, pids[..|pids| - 1], policy);
      match policy(pid)
      case Err(_) => rest
      case Ok(bindings) => rest + PolicyRows(tenantId, pid, bindings)
  }

  /** `_sync_iam_bindings`: the loop over the active projects, skipping those whose policy fetch fails. */
  method SyncIamBindings(tenantId: string, pids: seq<string>, policy: string -> Result<seq<Binding>>)
    returns (rows: seq<BindingRow>)
    ensures rows == IamRows(tenantId, pids, policy)
  {
    rows := [];
    for i := 0 to |pids|
      invariant rows == IamRows(tenantId, pids[..i], policy)
    {
      assert pids[..i + 1][..i] == pids[..i];
      var pid := pids[i];
      var fetched := policy(pid);
      if fetched.Err? {
        continue;
      }
      var bindingRows := CollectBindings(tenantId, pid, fetched.value);
      rows := rows + bindingRows;
    }
    assert pids[..|pids|] == pids;
  }

  lemma {:induction false} IamRowsAppend(tenantId: string, a: seq<string>, b: seq<string>,
                                         policy: string -> Result<seq<Binding>>)
    ensures IamRows(tenantId, a + b, policy) == IamRows(tenantId, a, policy) + IamRows(tenantId, b, policy)
    decreases |b|
  {
    if b == [] {
      assert a + b == a;
    } else {
      var init, pid := b[..|b| - 1], b[|b| - 1];
      InitOfAppend(a, b);
      IamRowsAppend(tenantId, a, init, policy);
      var x, y := IamRows(tenantId, a, policy), IamRows(tenantId, init, policy);
      var z := if policy(pid).Err? then [] else PolicyRows(tenantId, pid, policy(pid).value);
      assert IamRows(tenantId, a + b, policy) == (x + y) + z;
      assert IamRows(tenantId, b, policy) == y + z;
      AppendAssoc(x, y, z);
    }
  }

  /** A project whose policy fetch fails is skipped and leaves the other projects' rows as they are. */
  lemma FailedProjectSkipped(tenantId: string, before: seq<string>, pid: string, after: seq<string>,
                             policy: string -> Result<seq<Binding>>)
    requires policy(pid).Err?
    ensures IamRows(tenantId, before + [pid] + after, policy)
      == IamRows(tenantId, before, policy) + IamRows(tenantId, after, policy)
  {
    IamRowsAppend(tenantId, before + [pid], after, policy);
    IamRowsAppend(tenantId, before, [pid], policy);
    assert [pid][..0] == [];
  }

  /** A project whose policy is read contributes its policy's rows, in place. */
  lemma ReadProjectContributes(tenantId: string, before: seq<string>, pid: string, after: seq<string>,
                               policy: string -> Result<seq<Binding>>)
    requires policy(pid).Ok?
    ensures IamRows(tenantId, before + [pid] + after, policy)
      == IamRows(tenantId, before, policy) + PolicyRows(tenantId, pid, policy(pid).value) + IamRows(tenantId, after, policy)
  {
    IamRowsAppend(tenantId, before + [pid], after, policy);
    IamRowsAppend(tenantId, before, [pid], policy);
    assert [pid][..0] == [];
  }

  // ---------------------------------------------------------------------------
  // Sync result
  // ---------------------------------------------------------------------------

  /** `sync()`: the three counts under their keys, in the order the syncs run. */
  function SyncResults(organisations: int, projects: int, iamBindings: int): (r: BaseProvider.SyncResult)
    ensures |r| == 3
    ensures r[0].0 == "organisations" && r[1].0 == "projects" && r[2].0 == "iam_bindings"
    ensures BaseProvider.Total(r) == organisations + projects + iamBindings
  {
    var r := [("organisations", organisations), ("projects", projects), ("iam_bindings", iamBindings)];
    assert r[..1][..0] == [] && r[..2][..1] == r[..1];
    assert BaseProvider.Total(r[..1]) == organisations;
    assert BaseProvider.Total(r[..2]) == organisations + projects;
    r
  }
}
