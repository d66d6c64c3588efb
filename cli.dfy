/**
 * The ingestion command line: `sync` runs the chosen providers (all five in a fixed order, then
 * post-processing, for `all`), skipping those that are not configured; `status` lists recent runs;
 * the database is closed on every path. The effects are recorded as a list of events.
 */
module Cli {
  import opened Base
  import opened IngestionConfig

  const ProviderChoices: seq<string> :=
    ["all", "google_workspace", "aws_identity_center", "github", "aws_organizations", "gcp_resource_manager",
     "post-process"]

  /** The order `all` syncs the providers in. */
  const AllProviders: seq<string> :=
    ["google_workspace", "aws_identity_center", "github", "aws_organizations", "gcp_resource_manager"]

  /** `PROVIDER_REGISTRY`: the configuration attribute each provider name needs. */
  const ProviderRegistry: map<string, string> := map[
    "google_workspace" := "google_workspace",
    "aws_identity_center" := "aws_identity_center",
    "github" := "github",
    "aws_organizations" := "aws_organizations",
    "gcp_resource_manager" := "gcp"
  ]

  /** `getattr(config, attr, None)` checked for truthiness. */
  predicate HasSection(config: Config, attr: string)
  {
    match attr
    case "google_workspace" => config.googleWorkspace.Some?
    case "aws_identity_center" => config.awsIdentityCenter.Some?
    case "github" => config.github.Some?
    case "aws_organizations" => config.awsOrganizations.Some?
    case "gcp" => config.gcp.Some?
    case _ => false
  }

  /** `_get_provider(name, config, db)`: the provider to run, or `None` when unknown or unconfigured. */
  function GetProvider(name: string, config: Config): (r: Option<string>)
    ensures r.Some? <==> name in ProviderRegistry && HasSection(config, ProviderRegistry[name])
    ensures r.Some? ==> r.value == name
  {
    if name in ProviderRegistry && HasSection(config, ProviderRegistry[name]) then Some(name) else None
  }

  /** GCP is looked up under its `gcp` section; the others under their own names. */
  lemma SectionOfEachProvider(config: Config)
    ensures GetProvider("google_workspace", config).Some? <==> config.googleWorkspace.Some?
    ensures GetProvider("aws_identity_center", config).Some? <==> config.awsIdentityCenter.Some?
    ensures GetProvider("github", config).Some? <==> config.github.Some?
    ensures GetProvider("aws_organizations", config).Some? <==> config.awsOrganizations.Some?
    ensures GetProvider("gcp_resource_manager", config).Some? <==> config.gcp.Some?
    ensures GetProvider("all", config).None? && GetProvider("post-process", config).None?
  {
  }

  /** `_run_post_process`: the resolver's counts updated with the backfill's, later keys winning. */
  function PostProcessResults(resolved: map<string, int>, backfilled: map<string, int>): (r: map<string, int>)
    ensures r.Keys == resolved.Keys + backfilled.Keys
    ensures forall k :: k in backfilled ==> r[k] == backfilled[k]
    ensures forall k :: k in resolved && k !in backfilled ==> r[k] == resolved[k]
  {
    resolved + backfilled
  }

  /** What `cmd_sync` does, in order. */
  datatype CliEvent =
    | SyncStarted(provider: string)
    | PostProcess
    | StatusQuery(tenantId: string, filter: Option<string>, limit: int)
    | DbClosed

  /** The names `cmd_sync` walks through for a choice. */
  function ProvidersToSync(choice: string): (r: seq<string>)
    ensures choice == "all" ==> r == AllProviders
    ensures choice != "all" && choice != "post-process" ==> r == [choice]
  {
    if choice == "all" then AllProviders else if choice == "post-process" then [] else [choice]
  }

  /**
   * The providers synced from `names` and the error raised, if any: the unconfigured ones are
   * skipped, and the first sync that raises stops the walk: it is the last provider started and
   * its error is the one raised.
   */
  function SyncAll(names: seq<string>, config: Config, fails: string -> Option<string>): (r: (seq<CliEvent>, Option<string>))
    ensures |r.0| <= |names|
    ensures r.1.Some? ==> r.0 != [] && r.0[|r.0| - 1].SyncStarted? && fails(r.0[|r.0| - 1].provider) == r.1
  {
    if names == [] then ([], None)
    else if GetProvider(names[0], config).None? then SyncAll(names[1..], config, fails)
    else if fails(names[0]).Some? then ([SyncStarted(names[0])], fails(names[0]))
    else
      var rest := SyncAll(names[1..], config, fails);
      ([SyncStarted(names[0])] + rest.0, rest.1)
  }

  /** One step of the walk, from position `i` of `names`. */
  lemma SyncAllFrom(names: seq<string>, i: nat, config: Config, fails: string -> Option<string>)
    requires i < |names|
    ensures var here := SyncAll(names[i..], config, fails); var next := SyncAll(names[i + 1..], config, fails);
      (GetProvider(names[i], config).None? ==> here == next)
      && (GetProvider(names[i], config).Some? && fails(names[i]).Some? ==> here == ([SyncStarted(names[i])], fails(names[i])))
      && (GetProvider(names[i], config).Some? && fails(names[i]).None? ==> here == ([SyncStarted(names[i])] + next.0, next.1))
  {
    assert names[i..][1..] == names[i + 1..] && names[i..][0] == names[i];
  }

  /**
   * The `for name in providers_to_sync` loop of `cmd_sync`: each configured provider is synced in
   * turn and the first error raised ends the loop.
   */
  method SyncProviders(names: seq<string>, config: Config, fails: string -> Option<string>)
    returns (events: seq<CliEvent>, raised: Option<string>)
    ensures events == SyncAll(names, config, fails).0 && raised == SyncAll(names, config, fails).1
  {
    ghost var total := SyncAll(names, config, fails);
    events := [];
    raised := None;
    var i := 0;
    assert names[0..] == names;
    while i < |names|
      invariant 0 <= i <= |names|
      invariant total.0 == events + SyncAll(names[i..], config, fails).0
      invariant total.1 == SyncAll(names[i..], config, fails).1
      invariant raised == None
    {
      ghost var here := SyncAll(names[i..], config, fails);
      ghost var next := SyncAll(names[i + 1..], config, fails);
      SyncAllFrom(names, i, config, fails);
      var provider := GetProvider(names[i], config);
      if provider.None? {
        i := i + 1;
        continue;
      }
      ghost var before := events;
      events := events + [SyncStarted(names[i])];
      if fails(names[i]).Some? {
        raised := fails(names[i]);
        assert here.0 == [SyncStarted(names[i])];
        return;
      }
      assert here.0 == [SyncStarted(names[i])] + next.0;
      assert before + here.0 == events + next.0;
      i := i + 1;
    }
    assert names[i..] == [];
    assert events + [] == events;
  }

  /**
   * `cmd_sync(args)` with `args.provider == choice`. `fails(name)` is the error the provider's
   * `sync_with_tracking()` raises, if any, and `postFailure` the one post-processing raises.
   * Returns the events and the error propagated.
   */
  method CmdSync(config: Config, choice: string, fails: string -> Option<string>, postFailure: Option<string>)
    returns (events: seq<CliEvent>, raised: Option<string>)
    ensures choice == "post-process" ==> events == [PostProcess, DbClosed] && raised == postFailure
    ensures choice != "post-process" ==>
      var run := SyncAll(ProvidersToSync(choice), config, fails);
      if run.1.Some? then events == run.0 + [DbClosed] && raised == run.1
      else if choice == "all" then events == run.0 + [PostProcess, DbClosed] && raised == postFailure
      else events == run.0 + [DbClosed] && raised == None
  {
    if choice == "post-process" {
      return [PostProcess, DbClosed], postFailure;
    }
    events, raised := SyncProviders(ProvidersToSync(choice), config, fails);
    if raised.Some? {
      events := events + [DbClosed];
      return;
    }
    if choice == "all" {
      events := events + [PostProcess];
      raised := postFailure;
    }
    events := events + [DbClosed];
  }

  /** The names of `names` whose provider is configured, in order. */
  function Configured(names: seq<string>, config: Config): (r: seq<string>)
    ensures |r| <= |names|
    ensures forall n :: n in r <==> n in names && GetProvider(n, config).Some?
    decreases |names|
  {
    if names == [] then []
    else (if GetProvider(names[0], config).Some? then [names[0]] else []) + Configured(names[1..], config)
  }

  /** No name occurs twice. */
  predicate PairwiseDifferent(names: seq<string>)
  {
    forall i, j :: 0 <= i < j < |names| ==> names[i] != names[j]
  }

  /** Filtering names that are pairwise different leaves names that are pairwise different. */
  lemma {:induction false} ConfiguredDistinct(names: seq<string>, config: Config)
    requires PairwiseDifferent(names)
    ensures PairwiseDifferent(Configured(names, config))
    decreases |names|
  {
    if names != [] {
      var tail := names[1..];
      assert PairwiseDifferent(tail) by {
        forall i, j | 0 <= i < j < |tail| ensures tail[i] != tail[j] {
          assert tail[i] == names[i + 1] && tail[j] == names[j + 1];
        }
      }
      ConfiguredDistinct(tail, config);
      var rest := Configured(tail, config);
      assert names[0] !in tail by {
        forall j | 0 <= j < |tail| ensures tail[j] != names[0] {
          assert tail[j] == names[j + 1];
        }
      }
      assert names[0] !in rest;
      var c := Configured(names, config);
      if GetProvider(names[0], config).Some? {
        assert c == [names[0]] + rest;
        forall i, j | 0 <= i < j < |c| ensures c[i] != c[j] {
          assert c[j] == rest[j - 1];
          if i > 0 {
            assert c[i] == rest[i - 1];
          }
        }
      } else {
        assert c == rest;
      }
    }
  }

  /**
   * The walk starts the configured providers of `names` in the order given, one event each, and
   * stops early only when a sync raises; with pairwise different names, no provider starts twice.
   */
  lemma {:induction false} SyncAllStartsConfigured(names: seq<string>, config: Config, fails: string -> Option<string>)
    ensures var run := SyncAll(names, config, fails); var c := Configured(names, config);
      |run.0| <= |c|
      && (forall k :: 0 <= k < |run.0| ==> run.0[k] == SyncStarted(c[k]))
      && (run.1.None? ==> |run.0| == |c|)
    ensures PairwiseDifferent(names) ==>
      var evs := SyncAll(names, config, fails).0;
      forall i, j :: 0 <= i < j < |evs| ==> evs[i].provider != evs[j].provider
    decreases |names|
  {
    var run := SyncAll(names, config, fails);
    var c := Configured(names, config);
    if names != [] {
      var tail := names[1..];
      SyncAllStartsConfigured(tail, config, fails);
      var rest := SyncAll(tail, config, fails);
      var c1 := Configured(tail, config);
      if GetProvider(names[0], config).None? {
        assert c == c1;
      } else {
        assert c == [names[0]] + c1;
        if fails(names[0]).None? {
          forall k | 1 <= k < |run.0| ensures run.0[k] == SyncStarted(c[k]) {
            assert run.0[k] == rest.0[k - 1];
          }
        }
      }
    }
    if PairwiseDifferent(names) {
      ConfiguredDistinct(names, config);
    }
  }

  /** With every provider configured and nothing failing, every name is started, in order. */
  lemma {:induction false} SyncAllRunsAll(names: seq<string>, config: Config, fails: string -> Option<string>)
    requires forall k :: 0 <= k < |names| ==> GetProvider(names[k], config).Some? && fails(names[k]).None?
    ensures SyncAll(names, config, fails) == (seq(|names|, k requires 0 <= k < |names| => SyncStarted(names[k])), None)
    decreases |names|
  {
    if names != [] {
      SyncAllRunsAll(names[1..], config, fails);
      assert seq(|names|, k requires 0 <= k < |names| => SyncStarted(names[k]))
        == [SyncStarted(names[0])] + seq(|names[1..]|, k requires 0 <= k < |names[1..]| => SyncStarted(names[1..][k]));
    } else {
      assert seq(|names|, k requires 0 <= k < |names| => SyncStarted(names[k])) == [];
    }
  }

  /** A walk that raises nothing started only providers whose sync succeeded. */
  lemma {:induction false} SyncAllCleanRun(names: seq<string>, config: Config, fails: string -> Option<string>)
    ensures var run := SyncAll(names, config, fails);
      run.1.None? ==> forall k :: 0 <= k < |run.0| ==> run.0[k].SyncStarted? && fails(run.0[k].provider).None?
    decreases |names|
  {
    if names != [] {
      SyncAllCleanRun(names[1..], config, fails);
    }
  }

  /** `sync --provider all` with everything configured and working. */
  lemma AllSyncsFiveThenPostProcesses(config: Config, fails: string -> Option<string>)
    requires forall k :: 0 <= k < |AllProviders| ==> GetProvider(AllProviders[k], config).Some? && fails(AllProviders[k]).None?
    ensures SyncAll(ProvidersToSync("all"), config, fails).1 == None
    ensures SyncAll(ProvidersToSync("all"), config, fails).0
      == [SyncStarted("google_workspace"), SyncStarted("aws_identity_center"), SyncStarted("github"),
          SyncStarted("aws_organizations"), SyncStarted("gcp_resource_manager")]
  {
    SyncAllRunsAll(AllProviders, config, fails);
  }

  /** A single provider choice syncs at most that provider and never post-processes. */
  lemma SingleChoiceSyncsOnlyIt(config: Config, choice: string, fails: string -> Option<string>)
    requires choice != "all" && choice != "post-process"
    ensures var run := SyncAll(ProvidersToSync(choice), config, fails);
      (run.0 == [] <==> GetProvider(choice, config).None?)
      && (run.0 != [] ==> run.0 == [SyncStarted(choice)])
  {
    assert ProvidersToSync(choice)[1..] == [];
  }

  /** `cmd_status`: the run filter; `all` lists every provider's runs. */
  function StatusFilter(choice: string): (r: Option<string>)
    ensures r.None? <==> choice == "all"
    ensures r.Some? ==> r.value == choice
  {
    if choice != "all" then Some(choice) else None
  }

  /** `cmd_status(args)`: one query for the tenant's recent runs, then the database is closed. */
  method CmdStatus(config: Config, choice: string, limit: int) returns (events: seq<CliEvent>)
    ensures events == [StatusQuery(config.tenantId, StatusFilter(choice), limit), DbClosed]
  {
    events := [StatusQuery(config.tenantId, StatusFilter(choice), limit)];
    events := events + [DbClosed];
  }
}
