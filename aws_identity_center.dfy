/**
 * The AWS IAM Identity Center provider: users, groups, group memberships and account assignments
 * read from the identity store and SSO admin APIs become rows. The API replies are JSON values;
 * the calls themselves are parameters (a list of pages, a describe function).
 */
module AwsIdentityCenter {
  import opened Base
  import opened Values
  import opened Rows
  import BaseProvider

  /** `d.get(key, [])` used as a list. */
  function ListOf(v: Value, key: string): (r: seq<Value>)
    ensures Get(v, key).Some? && Get(v, key).value.Arr? ==> r == Get(v, key).value.items
    ensures Get(v, key).None? ==> r == []
  {
    match Get(v, key)
    case Some(Arr(items)) => items
    case _ => []
  }

  // ---------------------------------------------------------------------------
  // Pagination
  // ---------------------------------------------------------------------------

  /** The items listed under `key` on each page, page after page: the first page's come first. */
  function PagedItems(pages: seq<Value>, key: string): (r: seq<Value>)
    ensures pages != [] ==> ListOf(pages[0], key) <= r
    ensures forall x :: x in r ==> exists k :: 0 <= k < |pages| && x in ListOf(pages[k], key)
    decreases |pages|
  {
    if pages == [] then []
    else
      var init := pages[..|pages| - 1];
      assert forall k :: 0 <= k < |init| ==> init[k] == pages[k];
      PagedItems(init, key) + ListOf(pages[|pages| - 1], key)
  }

  /** `_paginate(client, method, key)`, with the paginator's pages given. */
  method CollectPages(pages: seq<Value>, key: string) returns (items: seq<Value>)
    ensures items == PagedItems(pages, key)
  {
    items := [];
    for i := 0 to |pages|
      invariant items == PagedItems(pages[..i], key)
    {
      assert pages[..i + 1][..i] == pages[..i];
      items := items + ListOf(pages[i], key);
    }
    assert pages[..|pages|] == pages;
  }

  /** Collecting is page by page: the items of earlier pages come first. */
  lemma {:induction false} PagedItemsAppend(a: seq<Value>, b: seq<Value>, key: string)
    ensures PagedItems(a + b, key) == PagedItems(a, key) + PagedItems(b, key)
    decreases |b|
  {
    if b == [] {
      assert a + b == a;
    } else {
      var init := b[..|b| - 1];
      InitOfAppend(a, b);
      PagedItemsAppend(a, init, key);
      var x, y, z := PagedItems(a, key), PagedItems(init, key), ListOf(b[|b| - 1], key);
      assert PagedItems(a + b, key) == (x + y) + z;
      assert PagedItems(b, key) == y + z;
      AppendAssoc(x, y, z);
    }
  }

  /** A single page contributes exactly its list. */
  lemma PagedItemsOne(page: Value, key: string)
    ensures PagedItems([page], key) == ListOf(page, key)
  {
    assert [page][..0] == [];
  }

  // ---------------------------------------------------------------------------
  // Primary email
  // ---------------------------------------------------------------------------

  /** `e.get("Primary")` is truthy. */
  predicate Flagged(e: Value)
  {
    PyTruthyOpt(Get(e, "Primary"))
  }

  /** The `Value` of the first email flagged primary; `None` (`Null`) when none is. */
  function FirstPrimaryValue(emails: seq<Value>): Value
  {
    if emails == [] then Null
    else if Flagged(emails[0]) then GetOr(emails[0], "Value", Null)
    else FirstPrimaryValue(emails[1..])
  }

  /** The primary email of a user's `Emails`: the flagged one, else the first one, else `None`. */
  function PrimaryEmailOf(emails: seq<Value>): (r: Value)
    ensures emails == [] ==> r == Null
    ensures r != Null ==> exists i :: 0 <= i < |emails| && GetOr(emails[i], "Value", Null) == r
  {
    FirstPrimaryValueFrom(emails);
    var p := FirstPrimaryValue(emails);
    if !PyTruthy(p) && emails != [] then GetOr(emails[0], "Value", Null) else p
  }

  /** The `for e in emails: … break` loop and the fallback after it. */
  method PickPrimaryEmail(emails: seq<Value>) returns (primary: Value)
    ensures primary == PrimaryEmailOf(emails)
  {
    primary := Null;
    var i := 0;
    while i < |emails|
      invariant 0 <= i <= |emails|
      invariant FirstPrimaryValue(emails[i..]) == FirstPrimaryValue(emails)
      invariant primary == Null
    {
      assert emails[i..][1..] == emails[i + 1..];
      if Flagged(emails[i]) {
        primary := GetOr(emails[i], "Value", Null);
        break;
      }
      i := i + 1;
    }
    if !PyTruthy(primary) && |emails| > 0 {
      primary := GetOr(emails[0], "Value", Null);
    }
  }

  lemma {:induction false} FirstPrimaryValueFrom(emails: seq<Value>)
    ensures FirstPrimaryValue(emails) != Null ==>
      exists i :: 0 <= i < |emails| && GetOr(emails[i], "Value", Null) == FirstPrimaryValue(emails)
  {
    if emails != [] && !Flagged(emails[0]) {
      FirstPrimaryValueFrom(emails[1..]);
      if FirstPrimaryValue(emails[1..]) != Null {
        var i :| 0 <= i < |emails[1..]| && GetOr(emails[1..][i], "Value", Null) == FirstPrimaryValue(emails[1..]);
        assert emails[1..][i] == emails[i + 1];
      }
    }
  }

  lemma {:induction false} FirstPrimaryValueAt(emails: seq<Value>, i: nat)
    requires i < |emails| && Flagged(emails[i])
    requires forall j :: 0 <= j < i ==> !Flagged(emails[j])
    ensures FirstPrimaryValue(emails) == GetOr(emails[i], "Value", Null)
    decreases i
  {
    if i > 0 {
      assert !Flagged(emails[0]);
      assert forall j :: 0 <= j < i - 1 ==> emails[1..][j] == emails[j + 1];
      FirstPrimaryValueAt(emails[1..], i - 1);
    }
  }

  lemma {:induction false} FirstPrimaryValueNone(emails: seq<Value>)
    requires forall j :: 0 <= j < |emails| ==> !Flagged(emails[j])
    ensures FirstPrimaryValue(emails) == Null
  {
    if emails != [] {
      assert !Flagged(emails[0]);
      assert forall j :: 0 <= j < |emails| - 1 ==> emails[1..][j] == emails[j + 1];
      FirstPrimaryValueNone(emails[1..]);
    }
  }

  /** The first flagged email wins when it has a (truthy) value. */
  lemma PrimaryEmailFlagged(emails: seq<Value>, i: nat)
    requires i < |emails| && Flagged(emails[i]) && forall j :: 0 <= j < i ==> !Flagged(emails[j])
    requires PyTruthy(GetOr(emails[i], "Value", Null))
    ensures PrimaryEmailOf(emails) == GetOr(emails[i], "Value", Null)
  {
    FirstPrimaryValueAt(emails, i);
  }

  /**
   * Otherwise the first email's value is used: when no email is flagged, and also when the first
   * flagged one has an empty or missing value.
   */
  lemma PrimaryEmailFallback(emails: seq<Value>)
    requires emails != []
    requires forall j :: 0 <= j < |emails| ==> !Flagged(emails[j])
    ensures PrimaryEmailOf(emails) == GetOr(emails[0], "Value", Null)
  {
    FirstPrimaryValueNone(emails);
  }

  lemma PrimaryEmailFlaggedEmpty(emails: seq<Value>, i: nat)
    requires i < |emails| && Flagged(emails[i]) && forall j :: 0 <= j < i ==> !Flagged(emails[j])
    requires !PyTruthy(GetOr(emails[i], "Value", Null))
    ensures PrimaryEmailOf(emails) == GetOr(emails[0], "Value", Null)
  {
    FirstPrimaryValueAt(emails, i);
  }

  // ---------------------------------------------------------------------------
  // Rows
  // ---------------------------------------------------------------------------

  datatype UserRow = UserRow(tenantId: string, identityStoreId: string, userId: Value, userName: Value,
                             displayName: Value, active: Value, userStatus: Value, email: Value,
                             givenName: Value, familyName: Value)

  datatype GroupRow = GroupRow(tenantId: string, identityStoreId: string, groupId: Value, displayName: Value,
                               description: Value)

  datatype MembershipRow = MembershipRow(tenantId: string, membershipId: Value, identityStoreId: string,
                                         groupId: string, memberUserId: Value)

  datatype AssignmentRow = AssignmentRow(tenantId: string, identityStoreId: string, accountId: Value,
                                         permissionSetArn: Value, permissionSetName: Value,
                                         principalType: Value, principalId: Value)

  /**
   * The row of one user; a user without `UserId` raises. A user is active unless it says otherwise
   * and has an empty user name unless it gives one.
   */
  function UserRowOf(tenantId: string, storeId: string, u: Value): (r: Result<UserRow>)
    ensures r.Ok? <==> Get(u, "UserId").Some?
    ensures r.Err? ==> r.message == KeyErrorPrefix + "UserId"
    ensures r.Ok? ==> r.value.userId == Get(u, "UserId").value && r.value.email == PrimaryEmailOf(ListOf(u, "Emails"))
    ensures r.Ok? && Get(u, "Active").None? ==> r.value.active == Bool(true)
    ensures r.Ok? && Get(u, "UserName").None? ==> r.value.userName == Str("")
    ensures r.Ok? && Get(u, "Name").None? ==> r.value.givenName == Null && r.value.familyName == Null
  {
    var email := PrimaryEmailOf(ListOf(u, "Emails"));
    var name := GetOr(u, "Name", Obj([]));
    match Required(u, "UserId")
    case Err(e) => Err(e)
    case Ok(id) =>
      Ok(UserRow(tenantId, storeId, id, GetOr(u, "UserName", Str("")), GetOr(u, "DisplayName", Null),
                 GetOr(u, "Active", Bool(true)), GetOr(u, "UserStatus", Null), email,
                 GetOr(name, "GivenName", Null), GetOr(name, "FamilyName", Null)))
  }

  /** The row of one group; a group without `GroupId` raises, and the display name defaults to `""`. */
  function GroupRowOf(tenantId: string, storeId: string, g: Value): (r: Result<GroupRow>)
    ensures r.Ok? <==> Get(g, "GroupId").Some?
    ensures r.Ok? ==> r.value.groupId == Get(g, "GroupId").value
    ensures r.Ok? && Get(g, "DisplayName").None? ==> r.value.displayName == Str("")
    ensures r.Ok? && Get(g, "Description").None? ==> r.value.description == Null
  {
    match Required(g, "GroupId")
    case Err(e) => Err(e)
    case Ok(id) => Ok(GroupRow(tenantId, storeId, id, GetOr(g, "DisplayName", Str("")), GetOr(g, "Description", Null)))
  }

  /** The member of a membership: `MemberId.UserId`, or `""` when either is missing. */
  function MemberUserId(m: Value): (r: Value)
    ensures Get(m, "MemberId").None? ==> r == Str("")
    ensures Get(m, "MemberId").Some? && Get(Get(m, "MemberId").value, "UserId").Some? ==>
      r == Get(Get(m, "MemberId").value, "UserId").value
    ensures Get(m, "MemberId").Some? && Get(Get(m, "MemberId").value, "UserId").None? ==> r == Str("")
  {
    GetOr(GetOr(m, "MemberId", Obj([])), "UserId", Str(""))
  }

  /** The row of one membership of group `gid`; a membership without `MembershipId` raises. */
  function MembershipRowOf(tenantId: string, storeId: string, gid: string, m: Value): (r: Result<MembershipRow>)
    ensures r.Ok? <==> Get(m, "MembershipId").Some?
    ensures r.Ok? ==>
      r.value.membershipId == Get(m, "MembershipId").value && r.value.groupId == gid && r.value.memberUserId == MemberUserId(m)
  {
    match Required(m, "MembershipId")
    case Err(e) => Err(e)
    case Ok(id) => Ok(MembershipRow(tenantId, id, storeId, gid, MemberUserId(m)))
  }

  // ---------------------------------------------------------------------------
  // Permission-set names
  // ---------------------------------------------------------------------------

  /**
   * `ps_names[arn]`: the `Name` of the described permission set, or the ARN when describing fails,
   * the reply has no `PermissionSet`, or that has no `Name`.
   */
  function DescribedName(arn: string, described: Result<Value>): (r: Value)
    ensures described.Err? ==> r == Str(arn)
    ensures described.Ok? && Get(described.value, "PermissionSet").None? ==> r == Str(arn)
  {
    match described
    case Err(_) => Str(arn)
    case Ok(reply) =>
      match Get(reply, "PermissionSet")
      case None => Str(arn)
      case Some(ps) => GetOr(ps, "Name", Str(arn))
  }

  /** The name table built by the loop over `arns`: it names exactly the listed ARNs. */
  function NamesOf(arns: seq<string>, describe: string -> Result<Value>): (r: map<string, Value>)
    ensures r.Keys == set a | a in arns
    decreases |arns|
  {
    if arns == [] then map[]
    else
      var init, last := arns[..|arns| - 1], arns[|arns| - 1];
      assert arns == init + [last];
      assert (set a | a in arns) == (set a | a in init) + {last};
      NamesOf(init, describe)[last := DescribedName(last, describe(last))]
  }

  /** Every listed ARN gets its described name, and no other ARN gets one. */
  lemma {:induction false} NamesOfLookup(arns: seq<string>, describe: string -> Result<Value>, arn: string)
    ensures arn in NamesOf(arns, describe) <==> arn in arns
    ensures arn in arns ==> NamesOf(arns, describe)[arn] == DescribedName(arn, describe(arn))
    decreases |arns|
  {
    if arns != [] {
      var init := arns[..|arns| - 1];
      NamesOfLookup(init, describe, arn);
      assert arns == init + [arns[|arns| - 1]];
      assert arn in arns <==> arn in init || arn == arns[|arns| - 1];
    }
  }

  /** The `for arn in ps_arns: try … except` loop. */
  method ResolveNames(arns: seq<string>, describe: string -> Result<Value>) returns (names: map<string, Value>)
    ensures names == NamesOf(arns, describe)
  {
    names := map[];
    for i := 0 to |arns|
      invariant names == NamesOf(arns[..i], describe)
    {
      assert arns[..i + 1][..i] == arns[..i];
      var arn := arns[i];
      var described := describe(arn);
      if described.Ok? && Get(described.value, "PermissionSet").Some? {
        names := names[arn := GetOr(Get(described.value, "PermissionSet").value, "Name", Str(arn))];
      } else {
        names := names[arn := Str(arn)];
      }
    }
    assert arns[..|arns|] == arns;
  }

  /** `ps_names.get(arn, "")`. */
  function NameLookup(names: map<string, Value>, arn: Value): (r: Value)
    ensures arn.Str? && arn.s in names ==> r == names[arn.s]
    ensures !(arn.Str? && arn.s in names) ==> r == Str("")
  {
    if arn.Str? && arn.s in names then names[arn.s] else Str("")
  }

  /**
   * The row of one assignment. The keys are read in the order the row lists them, so the first
   * one missing is the one reported.
   */
  function AssignmentRowOf(tenantId: string, storeId: string, names: map<string, Value>, a: Value)
    : (r: Result<AssignmentRow>)
    ensures r.Ok? <==> Get(a, "AccountId").Some? && Get(a, "PermissionSetArn").Some?
                       && Get(a, "PrincipalType").Some? && Get(a, "PrincipalId").Some?
    ensures r.Ok? ==> r.value.permissionSetName == NameLookup(names, Get(a, "PermissionSetArn").value)
    ensures Get(a, "AccountId").None? ==> r == Err(KeyErrorPrefix + "AccountId")
  {
    match Required(a, "AccountId")
    case Err(e) => Err(e)
    case Ok(account) =>
      match Required(a, "PermissionSetArn")
      case Err(e) => Err(e)
      case Ok(arn) =>
        match Required(a, "PrincipalType")
        case Err(e) => Err(e)
        case Ok(ptype) =>
          match Required(a, "PrincipalId")
          case Err(e) => Err(e)
          case Ok(pid) => Ok(AssignmentRow(tenantId, storeId, account, arn, NameLookup(names, arn), ptype, pid))
  }

  /**
   * An assignment's permission-set name is the described name of a listed permission set (its ARN
   * when describing it failed) and `""` for one that was not listed.
   */
  lemma AssignmentName(tenantId: string, storeId: string, arns: seq<string>, describe: string -> Result<Value>,
                       a: Value, arn: string)
    requires AssignmentRowOf(tenantId, storeId, NamesOf(arns, describe), a).Ok?
    requires Get(a, "PermissionSetArn") == Some(Str(arn))
    ensures var name := AssignmentRowOf(tenantId, storeId, NamesOf(arns, describe), a).value.permissionSetName;
      (arn in arns ==> name == DescribedName(arn, describe(arn)))
      && (arn in arns && describe(arn).Err? ==> name == Str(arn))
      && (arn !in arns ==> name == Str(""))
  {
    NamesOfLookup(arns, describe, arn);
  }

  // ---------------------------------------------------------------------------
  // Sync result
  // ---------------------------------------------------------------------------

  /** `sync()`: the four counts under their keys, in the order the syncs run. */
  function SyncResults(users: int, groups: int, memberships: int, assignments: int): (r: BaseProvider.SyncResult)
    ensures |r| == 4
    ensures r[0].0 == "users" && r[1].0 == "groups" && r[2].0 == "memberships" && r[3].0 == "account_assignments"
    ensures BaseProvider.Total(r) == users + groups + memberships + assignments
  {
    var r := [("users", users), ("groups", groups), ("memberships", memberships), ("account_assignments", assignments)];
    assert r[..1][..0] == [] && r[..2][..1] == r[..1] && r[..3][..2] == r[..2];
    assert BaseProvider.Total(r[..1]) == users;
    assert BaseProvider.Total(r[..2]) == users + groups;
    assert BaseProvider.Total(r[..3]) == users + groups + memberships;
    r
  }
}
