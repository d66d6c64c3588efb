/**
 * The GitHub organisation provider: REST pagination that follows the `Link` header and waits out
 * rate limits, the ranking of a collaborator's permission flags, the outside-collaborator flag,
 * and the `"{org}/{entity}"` keys of the sync result. HTTP replies are given as input.
 */
module GithubOrg {
  import opened Base
  import opened Text
  import opened Values
  import opened Rows

  // ---------------------------------------------------------------------------
  // Permission ranking
  // ---------------------------------------------------------------------------

  /** The levels tried, highest first. */
  const PermissionLevels: seq<string> := ["admin", "maintain", "push", "triage", "pull"]

  const DefaultPermission := "read"

  /** `c.get("permissions", {})`. */
  function PermissionsOf(c: Value): Value
  {
    match Get(c, "permissions")
    case Some(p) => p
    case None => Obj([])
  }

  /** Whether `perms.get(level)` is truthy. */
  predicate Grants(perms: Value, level: string)
  {
    PyTruthyOpt(Get(perms, level))
  }

  /** The first of `levels` that `perms` grants, else `read`. */
  function RankFrom(perms: Value, levels: seq<string>): (r: string)
    ensures r == DefaultPermission || r in levels
    ensures r != DefaultPermission ==> Grants(perms, r)
  {
    if levels == [] then DefaultPermission
    else if Grants(perms, levels[0]) then levels[0]
    else RankFrom(perms, levels[1..])
  }

  /** The permission recorded for a collaborator whose permission object is `perms`. */
  function HighestPermission(perms: Value): (r: string)
    ensures r == DefaultPermission || r in PermissionLevels
    ensures r != DefaultPermission ==> Grants(perms, r)
  {
    RankFrom(perms, PermissionLevels)
  }

  /** The ranking picks the first granted level and `read` exactly when none is granted. */
  lemma {:induction false} RankFromFirst(perms: Value, levels: seq<string>)
    requires DefaultPermission !in levels
    ensures var r := RankFrom(perms, levels);
      (r == DefaultPermission <==> forall j :: 0 <= j < |levels| ==> !Grants(perms, levels[j]))
      && (r != DefaultPermission ==>
            exists i :: 0 <= i < |levels| && levels[i] == r && Grants(perms, r)
                        && forall j :: 0 <= j < i ==> !Grants(perms, levels[j]))
  {
    if levels != [] && !Grants(perms, levels[0]) {
      var rest := levels[1..];
      RankFromFirst(perms, rest);
      var r := RankFrom(perms, rest);
      if r != DefaultPermission {
        var i :| 0 <= i < |rest| && rest[i] == r && Grants(perms, r)
                 && forall j :: 0 <= j < i ==> !Grants(perms, rest[j]);
        assert levels[i + 1] == r;
        assert forall j :: 0 <= j < i + 1 ==> !Grants(perms, levels[j]) by {
          forall j | 0 <= j < i + 1 ensures !Grants(perms, levels[j]) {
            if j > 0 { assert levels[j] == rest[j - 1]; }
          }
        }
      } else {
        assert forall j :: 0 <= j < |levels| ==> !Grants(perms, levels[j]) by {
          forall j | 0 <= j < |levels| ensures !Grants(perms, levels[j]) {
            if j > 0 { assert levels[j] == rest[j - 1]; }
          }
        }
      }
    } else if levels != [] {
      assert levels[0] in levels;
    }
  }

  /** The recorded permission is the highest level granted, and `read` when none is. */
  lemma HighestPermissionIsFirstGranted(perms: Value)
    ensures var r := HighestPermission(perms);
      (r == DefaultPermission <==> forall j :: 0 <= j < 5 ==> !Grants(perms, PermissionLevels[j]))
      && (r != DefaultPermission ==>
            exists i :: 0 <= i < 5 && PermissionLevels[i] == r && Grants(perms, r)
                        && forall j :: 0 <= j < i ==> !Grants(perms, PermissionLevels[j]))
  {
    assert DefaultPermission !in PermissionLevels;
    RankFromFirst(perms, PermissionLevels);
  }

  /** The `for level in (…): if perms.get(level): permission = level; break` loop. */
  method PickPermission(perms: Value) returns (permission: string)
    ensures permission == HighestPermission(perms)
  {
    permission := DefaultPermission;
    var i := 0;
    assert PermissionLevels[0..] == PermissionLevels;
    while i < |PermissionLevels|
      invariant 0 <= i <= |PermissionLevels|
      invariant RankFrom(perms, PermissionLevels[i..]) == HighestPermission(perms)
      invariant permission == DefaultPermission
    {
      assert PermissionLevels[i..][1..] == PermissionLevels[i + 1..];
      if Grants(perms, PermissionLevels[i]) {
        permission := PermissionLevels[i];
        break;
      }
      i := i + 1;
    }
  }

  /**
   * `permissions.get("admin", False) is False and c.get("type") != "User"`: an identity test, so
   * only a missing flag or the boolean `false` counts as not being an admin.
   */
  predicate IsOutsideCollaborator(c: Value): (b: bool)
    ensures b ==> Get(c, "type") != Some(Str("User")) && !Grants(PermissionsOf(c), "admin")
  {
    var admin := Get(PermissionsOf(c), "admin");
    (admin.None? || admin == Some(Bool(false))) && Get(c, "type") != Some(Str("User"))
  }

  /** Users and admins are never outside collaborators, and a falsy non-boolean flag does not make one. */
  lemma OutsideCollaboratorRules(c: Value)
    ensures Get(c, "type") == Some(Str("User")) ==> !IsOutsideCollaborator(c)
    ensures Grants(PermissionsOf(c), "admin") ==> !IsOutsideCollaborator(c)
    ensures Get(PermissionsOf(c), "admin") == Some(Null) ==> !IsOutsideCollaborator(c)
    ensures Get(PermissionsOf(c), "admin") == Some(Num(0)) ==> !IsOutsideCollaborator(c)
    ensures Get(c, "permissions").None? && Get(c, "type").None? ==> IsOutsideCollaborator(c)
  {
  }

  /** A repository collaborator's row: its node id (required), highest permission and outside flag. */
  datatype CollaboratorRow = CollaboratorRow(tenantId: string, repoNodeId: string, userNodeId: Value,
                                             permission: string, isOutsideCollaborator: bool)

  function CollaboratorRowOf(tenantId: string, repoNodeId: string, c: Value): (r: Result<CollaboratorRow>)
    ensures r.Ok? <==> Get(c, "node_id").Some?
    ensures r.Ok? ==>
      r.value.userNodeId == Get(c, "node_id").value
      && r.value.permission == HighestPermission(PermissionsOf(c))
      && r.value.isOutsideCollaborator == IsOutsideCollaborator(c)
  {
    match Required(c, "node_id")
    case Err(e) => Err(e)
    case Ok(id) => Ok(CollaboratorRow(tenantId, repoNodeId, id, HighestPermission(PermissionsOf(c)), IsOutsideCollaborator(c)))
  }

  /** The `for c in batch` loop of `_upsert_repo_collab_perms`, ranking each permission with the loop above. */
  method CollaboratorRows(tenantId: string, repoNodeId: string, batch: seq<Value>)
    returns (rows: Result<seq<CollaboratorRow>>)
    ensures rows == AllRows(batch, c => CollaboratorRowOf(tenantId, repoNodeId, c))
  {
    var built: seq<CollaboratorRow> := [];
    ghost var row := c => CollaboratorRowOf(tenantId, repoNodeId, c);
    for i := 0 to |batch|
      invariant AllRows(batch[..i], row) == Ok(built)
    {
      var c := batch[i];
      AllRowsStep(batch, row, i, built);
      var permission := PickPermission(PermissionsOf(c));
      var id := Required(c, "node_id");
      if id.Err? {
        assert row(c) == Err(id.message);
        rows := Err(id.message);
        AllRowsErrorStays(batch, row, i + 1);
        return;
      }
      assert row(c) == Ok(CollaboratorRow(tenantId, repoNodeId, id.value, permission, IsOutsideCollaborator(c)));
      built := built + [CollaboratorRow(tenantId, repoNodeId, id.value, permission, IsOutsideCollaborator(c))];
    }
    assert batch[..|batch|] == batch;
    rows := Ok(built);
  }

  /** A team's permission on a repository; `pull` when the reply has none. */
  datatype TeamPermissionRow = TeamPermissionRow(tenantId: string, repoNodeId: string, teamNodeId: Value, permission: Value)

  function TeamPermissionRowOf(tenantId: string, repoNodeId: string, t: Value): (r: Result<TeamPermissionRow>)
    ensures r.Ok? <==> Get(t, "node_id").Some?
    ensures r.Ok? && Get(t, "permission").None? ==> r.value.permission == Str("pull")
    ensures r.Ok? && Get(t, "permission").Some? ==> r.value.permission == Get(t, "permission").value
  {
    match Required(t, "node_id")
    case Err(e) => Err(e)
    case Ok(id) => Ok(TeamPermissionRow(tenantId, repoNodeId, id, GetOr(t, "permission", Str("pull"))))
  }

  // ---------------------------------------------------------------------------
  // The Link header
  // ---------------------------------------------------------------------------

  const NextRel := "rel=\"next\""

  predicate IsAngle(c: char) { c == '<' || c == '>' }

  /** `part.split(";")[0].strip().strip("<>")`. */
  function LinkTarget(part: string): (r: string)
    ensures r != "" ==> !IsAngle(r[0]) && !IsAngle(r[|r| - 1])
  {
    TrimEnds(StripPy(Split(part, ';')[0]), IsAngle);
    Trim(StripPy(Split(part, ';')[0]), IsAngle)
  }

  /** The target of the first part that mentions `rel` (for a `Link` header, `rel="next"`), else `""`. */
  function NextOf(parts: seq<string>, rel: string): (r: string)
    ensures r != "" ==> !IsAngle(r[0]) && !IsAngle(r[|r| - 1])
  {
    if parts == [] then ""
    else if Contains(parts[0], rel) then LinkTarget(parts[0])
    else NextOf(parts[1..], rel)
  }

  /** Without a part mentioning `rel` there is no next page. */
  lemma {:induction false} NextOfNone(parts: seq<string>, rel: string)
    requires forall i :: 0 <= i < |parts| ==> !Contains(parts[i], rel)
    ensures NextOf(parts, rel) == ""
  {
    if parts != [] {
      assert !Contains(parts[0], rel);
      assert forall j :: 0 <= j < |parts| - 1 ==> parts[1..][j] == parts[j + 1];
      NextOfNone(parts[1..], rel);
    }
  }

  /** The URL of the next page named by a `Link` header, `""` when there is none. */
  function NextUrl(link: string): (r: string)
    ensures r != "" ==> !IsAngle(r[0]) && !IsAngle(r[|r| - 1])
  {
    NextOf(Split(link, ','), NextRel)
  }

  /** The `for part in link.split(","): … break` loop. */
  method FollowLink(link: string) returns (url: string)
    ensures url == NextUrl(link)
  {
    url := "";
    var parts := Split(link, ',');
    var k := 0;
    assert parts[0..] == parts;
    while k < |parts|
      invariant 0 <= k <= |parts|
      invariant NextOf(parts[k..], NextRel) == NextUrl(link)
      invariant url == ""
    {
      assert parts[k..][1..] == parts[k + 1..];
      if Contains(parts[k], NextRel) {
        url := LinkTarget(parts[k]);
        break;
      }
      k := k + 1;
    }
  }

  /** The part ` <url>; rel="next"` of a `Link` header. */
  function NextPart(url: string): string
  {
    [' '] + (['<'] + url + ['>']) + [';'] + ([' '] + NextRel)
  }

  /** Such a part names `url`, whenever the URL has no `;` and does not start or end with an angle bracket. */
  lemma NextPartTarget(url: string)
    requires url != [] && ';' !in url && !IsAngle(url[0]) && !IsAngle(url[|url| - 1])
    ensures Contains(NextPart(url), NextRel)
    ensures LinkTarget(NextPart(url)) == url
  {
    var bracketed := ['<'] + url + ['>'];
    var head := [' '] + bracketed;
    var tail := [' '] + NextRel;
    SplitHead(head, tail);
    StripOneSpace(bracketed);
    TrimAngles(url);
    ContainsAfterSpace(head + [';'], NextRel);
  }

  lemma ContainsAfterSpace(a: string, k: string)
    ensures Contains(a + ([' '] + k), k)
  {
    ContainsInfix(a + [' '], k, []);
    assert a + [' '] + k + [] == a + ([' '] + k);
  }

  lemma SplitHead(head: string, tail: string)
    requires ';' !in head
    ensures Split(head + [';'] + tail, ';')[0] == head
  {
    FirstCharAt(head, ';', tail);
    assert (head + [';'] + tail)[..|head|] == head;
  }

  lemma StripOneSpace(b: string)
    requires b != [] && !IsPySpace(b[0]) && !IsPySpace(b[|b| - 1])
    ensures StripPy([' '] + b) == b
  {
    assert ([' '] + b)[1..] == b;
    assert TrimStart([' '] + b, IsPySpace) == TrimStart(b, IsPySpace);
    TrimUnchanged(b, IsPySpace);
  }

  lemma TrimAngles(url: string)
    requires url != [] && !IsAngle(url[0]) && !IsAngle(url[|url| - 1])
    ensures Trim(['<'] + url + ['>'], IsAngle) == url
  {
    var tail := url + ['>'];
    assert ['<'] + url + ['>'] == ['<'] + tail;
    assert tail[0] == url[0];
    TrimStartOne('<', tail, IsAngle);
    TrimEndOne(url, '>', IsAngle);
  }

  /**
   * A header whose parts before the next part do not mention `rel="next"` leads to that URL, whatever
   * follows it: the next link is found wherever it stands.
   */
  lemma {:induction false} NextUrlFound(before: seq<string>, url: string, after: seq<string>)
    requires url != [] && ';' !in url && ',' !in url && !IsAngle(url[0]) && !IsAngle(url[|url| - 1])
    requires forall j :: 0 <= j < |before| ==> ',' !in before[j] && !Contains(before[j], NextRel)
    requires forall j :: 0 <= j < |after| ==> ',' !in after[j]
    ensures NextUrl(Join(before + [NextPart(url)] + after, ",")) == url
  {
    var parts := before + [NextPart(url)] + after;
    assert ',' !in NextRel;
    assert NextPart(url) == " <" + url + ">; " + NextRel;
    assert ',' !in NextPart(url);
    assert forall j :: 0 <= j < |parts| ==> ',' !in parts[j] by {
      forall j | 0 <= j < |parts| ensures ',' !in parts[j] {
        if j < |before| { assert parts[j] == before[j]; }
        else if j > |before| { assert parts[j] == after[j - |before| - 1]; }
      }
    }
    SplitJoin(parts, ',');
    NextPartTarget(url);
    NextOfAt(parts, NextRel, |before|);
  }

  /** The first part that mentions `rel` names the target. */
  lemma {:induction false} NextOfAt(parts: seq<string>, rel: string, i: nat)
    requires i < |parts| && Contains(parts[i], rel)
    requires forall j :: 0 <= j < i ==> !Contains(parts[j], rel)
    ensures NextOf(parts, rel) == LinkTarget(parts[i])
    decreases i
  {
    if i > 0 {
      assert !Contains(parts[0], rel);
      assert forall j :: 0 <= j < i - 1 ==> parts[1..][j] == parts[j + 1];
      NextOfAt(parts[1..], rel, i - 1);
    }
  }

  // ---------------------------------------------------------------------------
  // Pagination
  // ---------------------------------------------------------------------------

  /**
   * One HTTP reply: its status, body text, `X-RateLimit-Reset` (already read as an integer), the
   * decoded JSON body, the `Link` header (`""` when absent) and the clock, in whole seconds, when
   * the reply is handled.
   */
  datatype Reply = Reply(status: int, text: string, reset: int, data: Value, link: string, now: int)

  /** What the pagination loop does, in order. */
  datatype HttpEvent =
    | Fetch(url: string, params: map<string, string>)
    | Waited(seconds: int)

  /** How a walk over the pages ends. `Unfinished` is a walk cut off because the replies given ran out. */
  datatype Paged =
    | Done(results: seq<Value>)
    | RateLimitExceeded
    | HttpError(status: int)
    | Unfinished(partial: seq<Value>)

  const MaxRateLimitRetries: nat := 5
  const MaxWaitSeconds: int := 300
  const RateLimitMessage := "GitHub rate limit exceeded after retries"

  /** `dict(params or {})` with `per_page` defaulting to 100. */
  function FirstParams(params: map<string, string>): (r: map<string, string>)
    ensures "per_page" in r
    ensures "per_page" in params ==> r == params
    ensures "per_page" !in params ==> r == params["per_page" := "100"]
  {
    if "per_page" in params then params else params["per_page" := "100"]
  }

  const RateLimitPhrase := "rate limit"

  /** A 403 whose body mentions a rate limit, in any letter case. */
  predicate IsRateLimited(r: Reply)
  {
    r.status == 403 && MentionsRateLimit(r.text)
  }

  /** Some stretch of `text` reads `rate limit` once lower-cased. */
  predicate MentionsRateLimit(text: string)
    decreases |text|
  {
    |text| >= |RateLimitPhrase| && (Lower(text[..|RateLimitPhrase|]) == RateLimitPhrase || MentionsRateLimit(text[1..]))
  }

  /** The phrase test is `"rate limit" in text.lower()`. */
  lemma {:induction false} MentionsRateLimitIff(text: string)
    ensures MentionsRateLimit(text) <==> Contains(Lower(text), RateLimitPhrase)
    decreases |text|
  {
    var p := RateLimitPhrase;
    var low := Lower(text);
    if |text| >= |p| {
      MentionsRateLimitIff(text[1..]);
      ContainsCons(low, p);
      assert Lower(text[..|p|]) == low[..|p|];
      assert Lower(text[1..]) == low[1..];
    } else {
      ContainsIff(low, p);
    }
  }

  /** `raise_for_status()` raises for client and server errors. */
  predicate IsHttpError(status: int)
  {
    400 <= status < 600
  }

  /** The seconds slept: `min(max(reset - now, 1), 300)`. */
  function RateLimitWait(r: Reply): (w: int)
    ensures 1 <= w <= MaxWaitSeconds
    ensures r.reset - r.now >= 1 && r.reset - r.now <= MaxWaitSeconds ==> w == r.reset - r.now
  {
    Min(Max(r.reset - r.now, 1), MaxWaitSeconds)
  }

  /** A list body contributes its items, any other body itself. */
  function PageItems(data: Value): (r: seq<Value>)
    ensures data.Arr? ==> r == data.items
    ensures !data.Arr? ==> r == [data]
  {
    if data.Arr? then data.items else [data]
  }

  /**
   * The walk from `url` with `params`, after `attempt` consecutive rate limits, with `acc` fetched
   * so far and `replies` the server's next replies. A walk only adds to what was fetched: `acc`
   * is a prefix of any results it ends with.
   */
  function Paginate(url: string, params: map<string, string>, attempt: nat, replies: seq<Reply>, acc: seq<Value>)
    : (r: (Paged, seq<HttpEvent>))
    ensures r.0.Done? ==> acc <= r.0.results
    ensures r.0.Unfinished? ==> acc <= r.0.partial
    decreases |replies|, 0
  {
    if url == "" then (Done(acc), [])
    else if replies == [] then (Unfinished(acc), [])
    else
      var reply := replies[0];
      var fetch := Fetch(url, params);
      if IsRateLimited(reply) then
        if attempt + 1 > MaxRateLimitRetries then (RateLimitExceeded, [fetch, Waited(RateLimitWait(reply))])
        else
          var rest := Paginate(url, params, attempt + 1, replies[1..], acc);
          (rest.0, [fetch, Waited(RateLimitWait(reply))] + rest.1)
      else if IsHttpError(reply.status) then (HttpError(reply.status), [fetch])
      else
        var rest := FollowPage(reply.link, replies[1..], acc + PageItems(reply.data));
        (rest.0, [fetch] + rest.1)
  }

  /** The walk after a good page: on to the page its `Link` header names, without parameters. */
  function FollowPage(link: string, replies: seq<Reply>, acc: seq<Value>): (r: (Paged, seq<HttpEvent>))
    ensures r.0.Done? ==> acc <= r.0.results
    ensures r.0.Unfinished? ==> acc <= r.0.partial
    decreases |replies|, 1
  {
    Paginate(NextUrl(link), map[], 0, replies, acc)
  }

  /** A rate-limited reply: wait, then retry the same request unless this was the sixth in a row. */
  lemma PaginateRateLimited(url: string, params: map<string, string>, attempt: nat, replies: seq<Reply>, acc: seq<Value>)
    requires url != "" && replies != [] && IsRateLimited(replies[0])
    ensures var pre := [Fetch(url, params), Waited(RateLimitWait(replies[0]))];
      (attempt + 1 > MaxRateLimitRetries ==> Paginate(url, params, attempt, replies, acc) == (RateLimitExceeded, pre))
      && (attempt + 1 <= MaxRateLimitRetries ==>
            var rest := Paginate(url, params, attempt + 1, replies[1..], acc);
            Paginate(url, params, attempt, replies, acc) == (rest.0, pre + rest.1))
  {
  }

  /** A good page: its items are kept and the walk goes on at the next link, without parameters. */
  lemma PaginatePage(url: string, params: map<string, string>, attempt: nat, replies: seq<Reply>, acc: seq<Value>)
    requires url != "" && replies != [] && !IsRateLimited(replies[0]) && !IsHttpError(replies[0].status)
    ensures var rest := Paginate(NextUrl(replies[0].link), map[], 0, replies[1..], acc + PageItems(replies[0].data));
      Paginate(url, params, attempt, replies, acc) == (rest.0, [Fetch(url, params)] + rest.1)
  {
    assert FollowPage(replies[0].link, replies[1..], acc + PageItems(replies[0].data))
      == Paginate(NextUrl(replies[0].link), map[], 0, replies[1..], acc + PageItems(replies[0].data));
  }

  /** An error status ends the walk with that status. */
  lemma PaginateHttpError(url: string, params: map<string, string>, attempt: nat, replies: seq<Reply>, acc: seq<Value>)
    requires url != "" && replies != [] && !IsRateLimited(replies[0]) && IsHttpError(replies[0].status)
    ensures Paginate(url, params, attempt, replies, acc) == (HttpError(replies[0].status), [Fetch(url, params)])
  {
  }

  /**
   * One turn of the `while url:` loop: the request for `url` with `params`, answered by `rest[0]`.
   * Returns the events, the outcome when the loop ends here, and otherwise the next URL,
   * parameters, rate-limit counter and results.
   */
  method HandleReply(url: string, params: map<string, string>, attempt: nat, results: seq<Value>,
                     ghost rest: seq<Reply>, reply: Reply)
    returns (evs: seq<HttpEvent>, stop: Option<Paged>, url': string, params': map<string, string>,
             attempt': nat, results': seq<Value>)
    requires url != "" && rest != [] && rest[0] == reply && attempt <= MaxRateLimitRetries
    ensures attempt' <= MaxRateLimitRetries
    ensures stop.Some? ==> Paginate(url, params, attempt, rest, results) == (stop.value, evs)
    ensures stop.None? ==>
      var later := Paginate(url', params', attempt', rest[1..], results');
      Paginate(url, params, attempt, rest, results) == (later.0, evs + later.1)
  {
    evs := [Fetch(url, params)];
    stop := None;
    url', params', attempt', results' := url, params, attempt, results;
    if IsRateLimited(reply) {
      PaginateRateLimited(url, params, attempt, rest, results);
      var wait := Max(reply.reset - reply.now, 1);
      evs := evs + [Waited(Min(wait, MaxWaitSeconds))];
      assert evs == [Fetch(url, params), Waited(RateLimitWait(reply))];
      attempt' := attempt + 1;
      if attempt' > MaxRateLimitRetries {
        stop := Some(RateLimitExceeded);
        attempt' := attempt;
      }
      return;
    }
    if IsHttpError(reply.status) {
      PaginateHttpError(url, params, attempt, rest, results);
      stop := Some(HttpError(reply.status));
      return;
    }
    PaginatePage(url, params, attempt, rest, results);
    if reply.data.Arr? {
      results' := results + reply.data.items;
    } else {
      results' := results + [reply.data];
    }
    url' := FollowLink(reply.link);
    params' := map[];
    attempt' := 0;
  }

  /** `_get_paginated(url, params)` answered by `replies`. */
  method GetPaginated(url: string, params: map<string, string>, replies: seq<Reply>)
    returns (outcome: Paged, events: seq<HttpEvent>)
    ensures outcome == Paginate(url, FirstParams(params), 0, replies, []).0
    ensures events == Paginate(url, FirstParams(params), 0, replies, []).1
  {
    var results: seq<Value> := [];
    var current := FirstParams(params);
    var attempt: nat := 0;
    var next := url;
    var i := 0;
    events := [];
    ghost var spec := Paginate(url, current, 0, replies, []);
    assert replies[0..] == replies;
    while next != ""
      invariant 0 <= i <= |replies| && attempt <= MaxRateLimitRetries
      invariant spec.0 == Paginate(next, current, attempt, replies[i..], results).0
      invariant spec.1 == events + Paginate(next, current, attempt, replies[i..], results).1
      decreases |replies| - i
    {
      if i == |replies| {
        assert replies[i..] == [];
        return Unfinished(results), events;
      }
      ghost var rest := replies[i..];
      assert rest[1..] == replies[i + 1..];
      var evs, stop;
      evs, stop, next, current, attempt, results := HandleReply(next, current, attempt, results, rest, replies[i]);
      i := i + 1;
      if stop.Some? {
        return stop.value, events + evs;
      }
      ghost var later := Paginate(next, current, attempt, replies[i..], results).1;
      assert events + (evs + later) == (events + evs) + later;
      events := events + evs;
    }
    outcome := Done(results);
  }

  /** Every request of `evs` carries `params` or no parameters. */
  predicate FetchesWith(evs: seq<HttpEvent>, params: map<string, string>)
  {
    forall j :: 0 <= j < |evs| && evs[j].Fetch? ==> evs[j].params == params || evs[j].params == map[]
  }

  lemma FetchesWithAppend(a: seq<HttpEvent>, b: seq<HttpEvent>, params: map<string, string>)
    requires FetchesWith(a, params) && FetchesWith(b, params)
    ensures FetchesWith(a + b, params)
  {
    assert forall j :: |a| <= j < |a + b| ==> (a + b)[j] == b[j - |a|];
  }

  /**
   * The first parameters go with every request until a page arrives and with none after it: each
   * request carries them or none.
   */
  lemma {:induction false} PaginateParams(url: string, params: map<string, string>, attempt: nat,
                                          replies: seq<Reply>, acc: seq<Value>)
    ensures FetchesWith(Paginate(url, params, attempt, replies, acc).1, params)
    decreases |replies|
  {
    if url != "" && replies != [] {
      var reply := replies[0];
      var fetch := [Fetch(url, params)];
      if IsRateLimited(reply) {
        PaginateRateLimited(url, params, attempt, replies, acc);
        var pre := [Fetch(url, params), Waited(RateLimitWait(reply))];
        if attempt + 1 <= MaxRateLimitRetries {
          PaginateParams(url, params, attempt + 1, replies[1..], acc);
          FetchesWithAppend(pre, Paginate(url, params, attempt + 1, replies[1..], acc).1, params);
        }
      } else if IsHttpError(reply.status) {
        PaginateHttpError(url, params, attempt, replies, acc);
      } else {
        var acc' := acc + PageItems(reply.data);
        PaginatePage(url, params, attempt, replies, acc);
        PaginateParams(NextUrl(reply.link), map[], 0, replies[1..], acc');
        var later := Paginate(NextUrl(reply.link), map[], 0, replies[1..], acc').1;
        assert FetchesWith(later, params);
        FetchesWithAppend(fetch, later, params);
      }
    }
  }

  /** `n` consecutive rate-limited replies. */
  predicate RateLimitedRun(replies: seq<Reply>, n: nat)
  {
    n <= |replies| && forall j :: 0 <= j < n ==> IsRateLimited(replies[j])
  }

  /** The requests and waits of `n` rate-limited replies to the same request. */
  function RetryEvents(url: string, params: map<string, string>, replies: seq<Reply>): (r: seq<HttpEvent>)
    ensures |r| == 2 * |replies|
  {
    if replies == [] then []
    else [Fetch(url, params), Waited(RateLimitWait(replies[0]))] + RetryEvents(url, params, replies[1..])
  }

  /**
   * While fewer than six rate limits have been met in a row, a rate-limited reply retries the same
   * request with the same parameters after a wait and fetches nothing.
   */
  lemma RateLimitRetriesSameRequest(url: string, params: map<string, string>, attempt: nat,
                                    replies: seq<Reply>, acc: seq<Value>, n: nat)
    requires url != "" && attempt + n <= MaxRateLimitRetries && RateLimitedRun(replies, n)
    ensures var later := Paginate(url, params, attempt + n, replies[n..], acc);
      Paginate(url, params, attempt, replies, acc) == (later.0, RetryEvents(url, params, replies[..n]) + later.1)
  {
    RetriesReach(url, params, attempt, replies, acc, n, attempt + n, replies[n..]);
  }

  /** The induction behind `RateLimitRetriesSameRequest`, with the walk after the run named by `m` and `rest`. */
  lemma {:induction false} RetriesReach(url: string, params: map<string, string>, attempt: nat,
                                        replies: seq<Reply>, acc: seq<Value>, n: nat, m: nat, rest: seq<Reply>)
    requires url != "" && attempt + n <= MaxRateLimitRetries && RateLimitedRun(replies, n)
    requires m == attempt + n && rest == replies[n..]
    ensures var later := Paginate(url, params, m, rest, acc);
      Paginate(url, params, attempt, replies, acc) == (later.0, RetryEvents(url, params, replies[..n]) + later.1)
    decreases n
  {
    var later := Paginate(url, params, m, rest, acc);
    if n == 0 {
      assert replies[..0] == [] && replies[0..] == replies;
      assert RetryEvents(url, params, []) == [];
      assert [] + later.1 == later.1;
    } else {
      var tail := replies[1..];
      assert tail[n - 1..] == rest;
      assert forall j :: 0 <= j < n - 1 ==> tail[j] == replies[j + 1];
      assert RateLimitedRun(tail, n - 1);
      RetriesReach(url, params, attempt + 1, tail, acc, n - 1, m, rest);
      var retries := RetryEvents(url, params, tail[..n - 1]);
      RetryStep(url, params, attempt, replies, acc, later, retries);
      assert replies[..n][1..] == tail[..n - 1] && replies[..n][0] == replies[0];
      assert RetryEvents(url, params, replies[..n])
        == [Fetch(url, params), Waited(RateLimitWait(replies[0]))] + retries;
    }
  }

  /** One more rate limit in front of a walk adds its request and wait in front of the walk's events. */
  lemma RetryStep(url: string, params: map<string, string>, attempt: nat, replies: seq<Reply>, acc: seq<Value>,
                  later: (Paged, seq<HttpEvent>), retries: seq<HttpEvent>)
    requires url != "" && replies != [] && IsRateLimited(replies[0]) && attempt + 1 <= MaxRateLimitRetries
    requires Paginate(url, params, attempt + 1, replies[1..], acc) == (later.0, retries + later.1)
    ensures Paginate(url, params, attempt, replies, acc)
      == (later.0, ([Fetch(url, params), Waited(RateLimitWait(replies[0]))] + retries) + later.1)
  {
    PaginateRateLimited(url, params, attempt, replies, acc);
    var pre := [Fetch(url, params), Waited(RateLimitWait(replies[0]))];
    assert pre + (retries + later.1) == (pre + retries) + later.1;
  }

  /** The sixth rate limit in a row raises, after its wait, with nothing returned. */
  lemma SixthRateLimitRaises(url: string, params: map<string, string>, replies: seq<Reply>, acc: seq<Value>)
    requires url != "" && RateLimitedRun(replies, MaxRateLimitRetries + 1)
    ensures Paginate(url, params, 0, replies, acc)
      == (RateLimitExceeded, RetryEvents(url, params, replies[..MaxRateLimitRetries + 1]))
  {
    var n := MaxRateLimitRetries;
    RateLimitRetriesSameRequest(url, params, 0, replies, acc, n);
    var rest := replies[n..];
    assert rest[0] == replies[n];
    assert replies[..n + 1] == replies[..n] + [replies[n]];
    RetryEventsAppend(url, params, replies[..n], [replies[n]]);
    assert RetryEvents(url, params, [replies[n]]) == [Fetch(url, params), Waited(RateLimitWait(replies[n]))];
  }

  lemma {:induction false} RetryEventsAppend(url: string, params: map<string, string>, a: seq<Reply>, b: seq<Reply>)
    ensures RetryEvents(url, params, a + b) == RetryEvents(url, params, a) + RetryEvents(url, params, b)
    decreases |a|
  {
    if a != [] {
      assert (a + b)[1..] == a[1..] + b;
      RetryEventsAppend(url, params, a[1..], b);
    } else {
      assert a + b == b;
    }
  }

  /**
   * A page resets the rate-limit counter: six rate limits in a row after a page raise, even when
   * rate limits came before it.
   */
  lemma CounterResetsAfterPage(url: string, params: map<string, string>, attempt: nat, replies: seq<Reply>, acc: seq<Value>)
    requires url != "" && |replies| >= 1 && !IsRateLimited(replies[0]) && !IsHttpError(replies[0].status)
    requires NextUrl(replies[0].link) != "" && RateLimitedRun(replies[1..], MaxRateLimitRetries + 1)
    ensures Paginate(url, params, attempt, replies, acc).0 == RateLimitExceeded
  {
    SixthRateLimitRaises(NextUrl(replies[0].link), map[], replies[1..], acc + PageItems(replies[0].data));
  }

  /**
   * Two good pages, the first linking to the second: both are fetched in order, `per_page` goes
   * with the first request only, and the results are the first page's items then the second's.
   */
  lemma TwoPages(url: string, params: map<string, string>, first: Reply, second: Reply)
    requires url != "" && !IsRateLimited(first) && !IsHttpError(first.status)
    requires !IsRateLimited(second) && !IsHttpError(second.status)
    requires NextUrl(first.link) != "" && NextUrl(second.link) == ""
    ensures Paginate(url, FirstParams(params), 0, [first, second], [])
      == (Done(PageItems(first.data) + PageItems(second.data)),
          [Fetch(url, FirstParams(params)), Fetch(NextUrl(first.link), map[])])
  {
    var replies := [first, second];
    var u2 := NextUrl(first.link);
    var acc := PageItems(first.data);
    assert replies[0] == first && replies[1..] == [second];
    assert [second][0] == second && [second][1..] == [];
    var last := Paginate(NextUrl(second.link), map[], 0, [], acc + PageItems(second.data));
    assert last == (Done(acc + PageItems(second.data)), []);
    PaginatePage(u2, map[], 0, [second], acc);
    var mid := Paginate(u2, map[], 0, [second], acc);
    assert mid == (last.0, [Fetch(u2, map[])] + last.1);
    PaginatePage(url, FirstParams(params), 0, replies, []);
    assert [] + PageItems(replies[0].data) == acc;
    assert Paginate(url, FirstParams(params), 0, replies, []) == (mid.0, [Fetch(url, FirstParams(params))] + mid.1);
    assert [Fetch(url, FirstParams(params))] + ([Fetch(u2, map[])] + [])
      == [Fetch(url, FirstParams(params)), Fetch(u2, map[])];
  }

  // ---------------------------------------------------------------------------
  // The sync result
  // ---------------------------------------------------------------------------

  /** `f"{org_login}/{k}"`. */
  function OrgKey(login: string, key: string): string
  {
    login + "/" + key
  }

  /** An org login never holds a `/`, so the key names its org and entity. */
  lemma OrgKeyRoundTrip(login: string, key: string)
    requires '/' !in login
    ensures SplitOnce(OrgKey(login, key), '/') == (login, Some(key))
  {
    var s := OrgKey(login, key);
    assert s == login + ['/'] + key;
    FirstCharAt(login, '/', key);
    assert s[..|login|] == login && s[|login| + 1..] == key;
  }

  /** One org's counts under its prefixed keys, later entries winning. */
  function PrefixedCounts(login: string, counts: seq<(string, int)>): map<string, int>
  {
    if counts == [] then map[]
    else PrefixedCounts(login, counts[..|counts| - 1])[OrgKey(login, counts[|counts| - 1].0) := counts[|counts| - 1].1]
  }

  /** `k` is `"{login}/{e}"` for an entity `e` that org `login` reported. */
  predicate KeyOfOrg(login: string, counts: seq<(string, int)>, k: string)
  {
    exists j :: 0 <= j < |counts| && k == OrgKey(login, counts[j].0)
  }

  /** One org's keys are its entity names, prefixed. */
  lemma {:induction false} PrefixedCountsKeys(login: string, counts: seq<(string, int)>)
    ensures forall k :: k in PrefixedCounts(login, counts) <==> KeyOfOrg(login, counts, k)
  {
    if counts != [] {
      var init := counts[..|counts| - 1];
      PrefixedCountsKeys(login, init);
      forall k ensures k in PrefixedCounts(login, counts) <==> KeyOfOrg(login, counts, k) {
        if KeyOfOrg(login, init, k) {
          var j :| 0 <= j < |init| && k == OrgKey(login, init[j].0);
          assert init[j] == counts[j];
        }
        if KeyOfOrg(login, counts, k) {
          var j :| 0 <= j < |counts| && k == OrgKey(login, counts[j].0);
          if j < |init| {
            assert init[j] == counts[j];
          }
        }
      }
    }
  }

  /** What `sync()` returns when org `o` reports `orgCounts(o)`, in order. */
  function SyncResults(orgs: seq<string>, orgCounts: string -> seq<(string, int)>): map<string, int>
  {
    if orgs == [] then map[]
    else SyncResults(orgs[..|orgs| - 1], orgCounts) + PrefixedCounts(orgs[|orgs| - 1], orgCounts(orgs[|orgs| - 1]))
  }

  /** `k` is a key of one of the orgs. */
  predicate KeyOfSome(orgs: seq<string>, orgCounts: string -> seq<(string, int)>, k: string)
  {
    exists i :: 0 <= i < |orgs| && KeyOfOrg(orgs[i], orgCounts(orgs[i]), k)
  }

  /** The result holds exactly the prefixed keys of every org. */
  lemma {:induction false} SyncResultsKeys(orgs: seq<string>, orgCounts: string -> seq<(string, int)>)
    ensures forall k :: k in SyncResults(orgs, orgCounts) <==> KeyOfSome(orgs, orgCounts, k)
    decreases |orgs|
  {
    if orgs != [] {
      var init := orgs[..|orgs| - 1];
      var last := orgs[|orgs| - 1];
      SyncResultsKeys(init, orgCounts);
      PrefixedCountsKeys(last, orgCounts(last));
      forall k ensures k in SyncResults(orgs, orgCounts) <==> KeyOfSome(orgs, orgCounts, k) {
        if KeyOfSome(init, orgCounts, k) {
          var i :| 0 <= i < |init| && KeyOfOrg(init[i], orgCounts(init[i]), k);
          assert init[i] == orgs[i];
        }
        if KeyOfSome(orgs, orgCounts, k) {
          var i :| 0 <= i < |orgs| && KeyOfOrg(orgs[i], orgCounts(orgs[i]), k);
          if i < |init| {
            assert init[i] == orgs[i];
          }
        }
      }
    }
  }

  /** `sync()`: each org's counts stored under `"{org_login}/{k}"`, in order. */
  method Sync(orgs: seq<string>, orgCounts: string -> seq<(string, int)>) returns (results: map<string, int>)
    ensures results == SyncResults(orgs, orgCounts)
  {
    results := map[];
    var i := 0;
    while i < |orgs|
      invariant 0 <= i <= |orgs|
      invariant results == SyncResults(orgs[..i], orgCounts)
    {
      var login := orgs[i];
      var counts := orgCounts(login);
      ghost var before := results;
      var j := 0;
      while j < |counts|
        invariant 0 <= j <= |counts|
        invariant results == before + PrefixedCounts(login, counts[..j])
      {
        assert counts[..j + 1][..j] == counts[..j];
        results := results[OrgKey(login, counts[j].0) := counts[j].1];
        j := j + 1;
      }
      assert counts[..|counts|] == counts;
      assert orgs[..i + 1][..i] == orgs[..i];
      i := i + 1;
    }
    assert orgs[..|orgs|] == orgs;
  }
}
