/**
 * The ingestion scheduler: one interval job per configured provider plus an always-present
 * post-processing job, and a provider sync that retries a failing sync with exponential backoff and
 * only logs the last failure, while an error building the provider escapes the job at once.
 * Sleeping and logging are recorded as events.
 */
module Scheduler {
  import opened Base
  import opened IngestionConfig
  import opened Cli

  const BackoffBaseSeconds: nat := 30

  /**
   * What one run of `_sync_provider` does, in order: attempt `attempt` either builds the provider
   * and runs its sync, or fails to build it and the error escapes the job.
   */
  datatype RetryEvent =
    | Attempted(attempt: nat)
    | Escaped(attempt: nat, error: string)
    | Slept(seconds: nat)
    | GaveUp(error: string)

  /** An event that starts an attempt. */
  predicate StartsAttempt(e: RetryEvent)
  {
    e.Attempted? || e.Escaped?
  }

  /** The seconds slept after failed attempt `k` when another attempt remains. */
  function RetryDelay(k: nat): (d: nat)
    ensures d >= BackoffBaseSeconds
  {
    BackoffBaseSeconds * Pow2(k)
  }

  /**
   * The events from attempt `k` on, when building the provider at attempt `i` raises
   * `buildFails(i)`, its sync raises `fails(i)` (or succeeds when that is `None`), and attempts run
   * up to `maxRetries`.
   */
  function RetryTrace(k: nat, maxRetries: nat, buildFails: nat -> Option<string>, fails: nat -> Option<string>)
    : (evs: seq<RetryEvent>)
    requires k <= maxRetries
    ensures evs != [] && StartsAttempt(evs[0]) && evs[0].attempt == k
    decreases maxRetries - k
  {
    if buildFails(k).Some? then [Escaped(k, buildFails(k).value)]
    else if fails(k).None? then [Attempted(k)]
    else if k < maxRetries then [Attempted(k), Slept(RetryDelay(k))] + RetryTrace(k + 1, maxRetries, buildFails, fails)
    else [Attempted(k), GaveUp(fails(k).value)]
  }

  function AttemptCount(evs: seq<RetryEvent>): nat
  {
    if evs == [] then 0 else (if StartsAttempt(evs[0]) then 1 else 0) + AttemptCount(evs[1..])
  }

  lemma {:induction false} AttemptCountAppend(a: seq<RetryEvent>, b: seq<RetryEvent>)
    ensures AttemptCount(a + b) == AttemptCount(a) + AttemptCount(b)
    decreases |a|
  {
    if a != [] {
      assert (a + b)[0] == a[0] && (a + b)[1..] == a[1..] + b;
      AttemptCountAppend(a[1..], b);
    } else {
      assert a + b == b;
    }
  }

  /** An attempt followed by a sleep or a give-up is one attempt. */
  lemma AttemptThenOther(k: nat, e: RetryEvent)
    requires !StartsAttempt(e)
    ensures AttemptCount([Attempted(k), e]) == 1
  {
    assert [Attempted(k), e][1..] == [e];
    assert [e][1..] == [];
    assert AttemptCount([e]) == AttemptCount([]) == 0;
  }

  /** The event that ends a run: a sync that succeeded, the logged give-up, or an escaped build error. */
  predicate EndsRun(e: RetryEvent, buildFails: nat -> Option<string>, fails: nat -> Option<string>)
  {
    (e.Attempted? && buildFails(e.attempt).None? && fails(e.attempt).None?)
    || e.GaveUp?
    || (e.Escaped? && buildFails(e.attempt) == Some(e.error))
  }

  /**
   * At most `maxRetries + 1` attempts are made, and the run ends with a success, a give-up or an
   * escaped build error, which only the last event can be.
   */
  lemma {:induction false} RetryBounded(k: nat, maxRetries: nat, buildFails: nat -> Option<string>,
                                        fails: nat -> Option<string>)
    requires k <= maxRetries
    ensures var evs := RetryTrace(k, maxRetries, buildFails, fails);
      1 <= AttemptCount(evs) <= maxRetries + 1 - k
      && EndsRun(evs[|evs| - 1], buildFails, fails)
      && forall n :: 0 <= n < |evs| - 1 ==> !evs[n].GaveUp? && !evs[n].Escaped?
    decreases maxRetries - k
  {
    var evs := RetryTrace(k, maxRetries, buildFails, fails);
    if buildFails(k).Some? {
      assert evs[1..] == [];
    } else if fails(k).Some? && k < maxRetries {
      var pre := [Attempted(k), Slept(RetryDelay(k))];
      var rest := RetryTrace(k + 1, maxRetries, buildFails, fails);
      RetryBounded(k + 1, maxRetries, buildFails, fails);
      AttemptCountAppend(pre, rest);
      AttemptThenOther(k, Slept(RetryDelay(k)));
      assert evs[|evs| - 1] == rest[|rest| - 1];
      forall n | 2 <= n < |evs| - 1 ensures !evs[n].GaveUp? && !evs[n].Escaped? {
        assert evs[n] == rest[n - 2];
      }
    } else if fails(k).Some? {
      AttemptThenOther(k, GaveUp(fails(k).value));
    } else {
      assert evs[1..] == [];
    }
  }

  /** The first attempt that succeeds is the last one made; no give-up is logged and nothing escapes. */
  lemma {:induction false} RetryStopsAtSuccess(k: nat, j: nat, maxRetries: nat, buildFails: nat -> Option<string>,
                                               fails: nat -> Option<string>)
    requires k <= j <= maxRetries && buildFails(j).None? && fails(j).None?
    requires forall i :: k <= i < j ==> buildFails(i).None? && fails(i).Some?
    ensures var evs := RetryTrace(k, maxRetries, buildFails, fails);
      evs[|evs| - 1] == Attempted(j) && AttemptCount(evs) == j - k + 1
      && forall n :: 0 <= n < |evs| ==> !evs[n].GaveUp? && !evs[n].Escaped?
    decreases j - k
  {
    var evs := RetryTrace(k, maxRetries, buildFails, fails);
    if k < j {
      var pre := [Attempted(k), Slept(RetryDelay(k))];
      RetryStopsAtSuccess(k + 1, j, maxRetries, buildFails, fails);
      AttemptCountAppend(pre, RetryTrace(k + 1, maxRetries, buildFails, fails));
      AttemptThenOther(k, Slept(RetryDelay(k)));
    } else {
      assert evs[1..] == [];
    }
  }

  /** When every attempt builds its provider and fails, all `maxRetries + 1` are made and the last error is logged. */
  lemma {:induction false} RetryGivesUp(k: nat, maxRetries: nat, buildFails: nat -> Option<string>,
                                        fails: nat -> Option<string>)
    requires k <= maxRetries
    requires forall i :: k <= i <= maxRetries ==> buildFails(i).None? && fails(i).Some?
    ensures var evs := RetryTrace(k, maxRetries, buildFails, fails);
      evs[|evs| - 1] == GaveUp(fails(maxRetries).value) && AttemptCount(evs) == maxRetries + 1 - k
    decreases maxRetries - k
  {
    var evs := RetryTrace(k, maxRetries, buildFails, fails);
    if k < maxRetries {
      var pre := [Attempted(k), Slept(RetryDelay(k))];
      RetryGivesUp(k + 1, maxRetries, buildFails, fails);
      AttemptCountAppend(pre, RetryTrace(k + 1, maxRetries, buildFails, fails));
      AttemptThenOther(k, Slept(RetryDelay(k)));
    } else {
      AttemptThenOther(k, GaveUp(fails(k).value));
    }
  }

  /**
   * Building the provider is outside the retried block: the first attempt whose build raises ends
   * the run with that error escaping, with no give-up logged, even when attempts remain.
   */
  lemma {:induction false} RetryEscapesOnBuild(k: nat, j: nat, maxRetries: nat, buildFails: nat -> Option<string>,
                                               fails: nat -> Option<string>)
    requires k <= j <= maxRetries && buildFails(j).Some?
    requires forall i :: k <= i < j ==> buildFails(i).None? && fails(i).Some?
    ensures var evs := RetryTrace(k, maxRetries, buildFails, fails);
      evs[|evs| - 1] == Escaped(j, buildFails(j).value) && AttemptCount(evs) == j - k + 1
      && forall n :: 0 <= n < |evs| ==> !evs[n].GaveUp?
    decreases j - k
  {
    var evs := RetryTrace(k, maxRetries, buildFails, fails);
    if k < j {
      var pre := [Attempted(k), Slept(RetryDelay(k))];
      RetryEscapesOnBuild(k + 1, j, maxRetries, buildFails, fails);
      AttemptCountAppend(pre, RetryTrace(k + 1, maxRetries, buildFails, fails));
      AttemptThenOther(k, Slept(RetryDelay(k)));
    } else {
      assert evs[1..] == [];
    }
  }

  /**
   * A sleep at position `n` follows a failed sync that was not the last attempt, lasts `30 * 2^k`
   * and precedes attempt `k + 1`.
   */
  ghost predicate SleepWellPlaced(evs: seq<RetryEvent>, n: nat, maxRetries: nat, fails: nat -> Option<string>)
    requires n < |evs|
  {
    evs[n].Slept? ==>
      n > 0 && n + 1 < |evs| && evs[n - 1].Attempted?
      && StartsAttempt(evs[n + 1]) && evs[n + 1].attempt == evs[n - 1].attempt + 1
      && evs[n].seconds == RetryDelay(evs[n - 1].attempt) && fails(evs[n - 1].attempt).Some?
      && evs[n - 1].attempt < maxRetries
  }

  /** Every sleep is well placed. */
  ghost predicate SleepsBeforeRetries(evs: seq<RetryEvent>, maxRetries: nat, fails: nat -> Option<string>)
  {
    forall n: nat :: n < |evs| ==> SleepWellPlaced(evs, n, maxRetries, fails)
  }

  lemma {:induction false} SleepOnlyBeforeRetry(k: nat, maxRetries: nat, buildFails: nat -> Option<string>,
                                                fails: nat -> Option<string>)
    requires k <= maxRetries
    ensures SleepsBeforeRetries(RetryTrace(k, maxRetries, buildFails, fails), maxRetries, fails)
    decreases maxRetries - k
  {
    var evs := RetryTrace(k, maxRetries, buildFails, fails);
    if buildFails(k).Some? {
      assert evs == [Escaped(k, buildFails(k).value)];
    } else if fails(k).Some? && k < maxRetries {
      var rest := RetryTrace(k + 1, maxRetries, buildFails, fails);
      SleepOnlyBeforeRetry(k + 1, maxRetries, buildFails, fails);
      assert StartsAttempt(rest[0]) && rest[0].attempt == k + 1;
      SleepsBeforeRetriesCons(k, rest, maxRetries, fails);
    } else if fails(k).Some? {
      assert evs == [Attempted(k), GaveUp(fails(k).value)];
    } else {
      assert evs == [Attempted(k)];
    }
  }

  /** A failed attempt that is not the last, then its sleep, in front of the trace of the next attempt. */
  lemma SleepsBeforeRetriesCons(k: nat, rest: seq<RetryEvent>, maxRetries: nat, fails: nat -> Option<string>)
    requires SleepsBeforeRetries(rest, maxRetries, fails)
    requires rest != [] && StartsAttempt(rest[0]) && rest[0].attempt == k + 1 && fails(k).Some? && k < maxRetries
    ensures SleepsBeforeRetries([Attempted(k), Slept(RetryDelay(k))] + rest, maxRetries, fails)
  {
    var evs := [Attempted(k), Slept(RetryDelay(k))] + rest;
    forall n: nat | n < |evs| ensures SleepWellPlaced(evs, n, maxRetries, fails) {
      if n == 1 {
        assert evs[0] == Attempted(k) && evs[1] == Slept(RetryDelay(k)) && evs[2] == rest[0];
      } else if n >= 2 {
        var m := n - 2;
        assert SleepWellPlaced(rest, m, maxRetries, fails);
        assert evs[n] == rest[m];
        if rest[m].Slept? {
          assert evs[n - 1] == rest[m - 1] && evs[n + 1] == rest[m + 1];
        }
      }
    }
  }

  /**
   * `_sync_provider(provider_name, config, db)` where, at attempt `i`, building the provider raises
   * `buildFails(i)` and its `sync_with_tracking()` raises `fails(i)`, if anything. A failed sync is
   * retried and the last one is only logged; a build error is outside the `try` and escapes the
   * job at once (the scheduler's error listener logs it).
   */
  method SyncProvider(name: string, config: Config, buildFails: nat -> Option<string>, fails: nat -> Option<string>)
    returns (events: seq<RetryEvent>)
    ensures GetProvider(name, config).None? ==> events == []
    ensures GetProvider(name, config).Some? ==>
      events == RetryTrace(0, config.scheduler.maxRetries, buildFails, fails)
  {
    var maxRetries := config.scheduler.maxRetries;
    events := [];
    for attempt := 0 to maxRetries + 1
      invariant forall i :: 0 <= i < attempt ==> buildFails(i).None? && fails(i).Some?
      invariant GetProvider(name, config).None? ==> events == [] && attempt == 0
      invariant GetProvider(name, config).Some? && attempt <= maxRetries ==>
        RetryTrace(0, maxRetries, buildFails, fails) == events + RetryTrace(attempt, maxRetries, buildFails, fails)
      invariant GetProvider(name, config).Some? && attempt > maxRetries ==>
        events == RetryTrace(0, maxRetries, buildFails, fails)
    {
      var provider := GetProvider(name, config);
      if provider.None? {
        return;
      }
      var buildError := buildFails(attempt);
      if buildError.Some? {
        events := events + [Escaped(attempt, buildError.value)];
        return;
      }
      events := events + [Attempted(attempt)];
      var failure := fails(attempt);
      if failure.None? {
        return;
      }
      if attempt < maxRetries {
        events := events + [Slept(RetryDelay(attempt))];
      } else {
        events := events + [GaveUp(failure.value)];
      }
    }
  }

  // ---------------------------------------------------------------------------
  // Post-processing job
  // ---------------------------------------------------------------------------

  datatype LogEntry = Info(counts: map<string, int>) | Error(message: string)

  /** `_run_post_process`: the outcome is logged, and a failure goes no further. */
  function PostProcessJob(outcome: Result<map<string, int>>): (log: LogEntry)
    ensures outcome.Ok? <==> log.Info?
    ensures outcome.Ok? ==> log.counts == outcome.value
    ensures outcome.Err? ==> log.message == outcome.message
  {
    if outcome.Ok? then Info(outcome.value) else Error(outcome.message)
  }

  // ---------------------------------------------------------------------------
  // start_scheduler
  // ---------------------------------------------------------------------------

  datatype Every = Minutes(n: nat) | Hours(n: nat)

  datatype Job = Job(id: string, every: Every, maxInstances: nat, misfireGraceTime: nat)

  const PostProcessId := "post_process"

  /** The interval configured for a provider's job. */
  function IntervalOf(name: string, s: SchedulerConfig): Every
  {
    match name
    case "google_workspace" => Minutes(s.googleWorkspaceIntervalMin)
    case "aws_identity_center" => Minutes(s.awsIdentityCenterIntervalMin)
    case "github" => Minutes(s.githubIntervalMin)
    case "aws_organizations" => Hours(s.awsOrganizationsIntervalHours)
    case _ => Hours(s.gcpResourceManagerIntervalHours)
  }

  function ProviderJob(name: string, s: SchedulerConfig): Job
  {
    Job(name, IntervalOf(name, s), 1, s.misfireGraceTime)
  }

  /** The job for `name` when it is configured. */
  function JobIf(name: string, config: Config): seq<Job>
  {
    if GetProvider(name, config).Some? then [ProviderJob(name, config.scheduler)] else []
  }

  /** The jobs for the configured providers of `names`. */
  function ProviderJobs(names: seq<string>, config: Config): (r: seq<Job>)
    ensures |r| <= |names|
  {
    if names == [] then [] else JobIf(names[0], config) + ProviderJobs(names[1..], config)
  }

  /** The jobs registered: the configured providers in the fixed order, then post-processing. */
  function ScheduledJobs(config: Config): (jobs: seq<Job>)
    ensures var c := Configured(AllProviders, config);
      |jobs| == |c| + 1 && jobs[|c|].id == PostProcessId
      && forall k :: 0 <= k < |c| ==> jobs[k] == ProviderJob(c[k], config.scheduler)
  {
    ProviderJobsAreConfigured(AllProviders, config);
    ProviderJobs(AllProviders, config)
      + [Job(PostProcessId, Minutes(config.scheduler.postProcessIntervalMin), 1, config.scheduler.misfireGraceTime)]
  }

  /** `start_scheduler(config, db)`: the `add_job` calls it makes, before the scheduler starts. */
  method StartScheduler(config: Config) returns (jobs: seq<Job>)
    ensures jobs == ScheduledJobs(config)
  {
    var sched := config.scheduler;
    JobIfEach(config);
    jobs := [];
    if config.googleWorkspace.Some? {
      jobs := jobs + [Job("google_workspace", Minutes(sched.googleWorkspaceIntervalMin), 1, sched.misfireGraceTime)];
    }
    ghost var g := jobs;
    assert g == JobIf("google_workspace", config);
    if config.awsIdentityCenter.Some? {
      jobs := jobs + [Job("aws_identity_center", Minutes(sched.awsIdentityCenterIntervalMin), 1, sched.misfireGraceTime)];
    }
    ghost var a := jobs;
    assert a == g + JobIf("aws_identity_center", config);
    if config.github.Some? {
      jobs := jobs + [Job("github", Minutes(sched.githubIntervalMin), 1, sched.misfireGraceTime)];
    }
    ghost var h := jobs;
    assert h == a + JobIf("github", config);
    if config.awsOrganizations.Some? {
      jobs := jobs + [Job("aws_organizations", Hours(sched.awsOrganizationsIntervalHours), 1, sched.misfireGraceTime)];
    }
    ghost var o := jobs;
    assert o == h + JobIf("aws_organizations", config);
    if config.gcp.Some? {
      jobs := jobs + [Job("gcp_resource_manager", Hours(sched.gcpResourceManagerIntervalHours), 1, sched.misfireGraceTime)];
    }
    assert jobs == o + JobIf("gcp_resource_manager", config);
    ProviderJobsOfAll(config);
    jobs := jobs + [Job(PostProcessId, Minutes(sched.postProcessIntervalMin), 1, sched.misfireGraceTime)];
  }

  lemma ProviderJobsOfAll(config: Config)
    ensures ProviderJobs(AllProviders, config)
      == JobIf("google_workspace", config) + JobIf("aws_identity_center", config) + JobIf("github", config)
       + JobIf("aws_organizations", config) + JobIf("gcp_resource_manager", config)
  {
    var names := ["google_workspace", "aws_identity_center", "github", "aws_organizations", "gcp_resource_manager"];
    ProviderJobsFive(names[0], names[1], names[2], names[3], names[4], config);
    AppendFive(JobIf(names[0], config), JobIf(names[1], config), JobIf(names[2], config), JobIf(names[3], config), JobIf(names[4], config));
  }

  /** Five configured-or-not providers give their jobs in order. */
  lemma ProviderJobsFive(n1: string, n2: string, n3: string, n4: string, n5: string, config: Config)
    ensures ProviderJobs([n1, n2, n3, n4, n5], config)
      == JobIf(n1, config) + (JobIf(n2, config) + (JobIf(n3, config) + (JobIf(n4, config) + JobIf(n5, config))))
  {
    var r4 := [n5];
    var r3 := [n4] + r4;
    var r2 := [n3] + r3;
    var r1 := [n2] + r2;
    assert [n1, n2, n3, n4, n5] == [n1] + r1;
    ProviderJobsOne(n5, config);
    ProviderJobsCons(n4, r4, config);
    ProviderJobsCons(n3, r3, config);
    ProviderJobsCons(n2, r2, config);
    ProviderJobsCons(n1, r1, config);
  }

  lemma AppendFive<T>(a: seq<T>, b: seq<T>, c: seq<T>, d: seq<T>, e: seq<T>)
    ensures a + (b + (c + (d + e))) == a + b + c + d + e
  {
  }

  lemma ProviderJobsOne(name: string, config: Config)
    ensures ProviderJobs([name], config) == JobIf(name, config)
  {
    assert [name][1..] == [];
  }

  lemma ProviderJobsCons(name: string, rest: seq<string>, config: Config)
    ensures ProviderJobs([name] + rest, config) == JobIf(name, config) + ProviderJobs(rest, config)
  {
    assert ([name] + rest)[1..] == rest;
  }

  /** The job each provider gets when it is configured. */
  lemma JobIfEach(config: Config)
    ensures var s := config.scheduler;
      JobIf("google_workspace", config)
        == (if config.googleWorkspace.Some? then [Job("google_workspace", Minutes(s.googleWorkspaceIntervalMin), 1, s.misfireGraceTime)] else [])
      && JobIf("aws_identity_center", config)
        == (if config.awsIdentityCenter.Some? then [Job("aws_identity_center", Minutes(s.awsIdentityCenterIntervalMin), 1, s.misfireGraceTime)] else [])
      && JobIf("github", config)
        == (if config.github.Some? then [Job("github", Minutes(s.githubIntervalMin), 1, s.misfireGraceTime)] else [])
      && JobIf("aws_organizations", config)
        == (if config.awsOrganizations.Some? then [Job("aws_organizations", Hours(s.awsOrganizationsIntervalHours), 1, s.misfireGraceTime)] else [])
      && JobIf("gcp_resource_manager", config)
        == (if config.gcp.Some? then [Job("gcp_resource_manager", Hours(s.gcpResourceManagerIntervalHours), 1, s.misfireGraceTime)] else [])
  {
    SectionOfEachProvider(config);
  }

  /** A provider has a job exactly when it is configured; every job runs alone with the same grace time. */
  lemma {:induction false} JobsForConfigured(names: seq<string>, config: Config, name: string)
    ensures (exists j :: j in ProviderJobs(names, config) && j.id == name) <==> name in names && GetProvider(name, config).Some?
    ensures forall j :: j in ProviderJobs(names, config) ==>
      j.maxInstances == 1 && j.misfireGraceTime == config.scheduler.misfireGraceTime
    decreases |names|
  {
    if names != [] {
      JobsForConfigured(names[1..], config, name);
      var head := JobIf(names[0], config);
      var rest := ProviderJobs(names[1..], config);
      assert ProviderJobs(names, config) == head + rest;
      assert name in names <==> name == names[0] || name in names[1..];
      if name == names[0] && GetProvider(name, config).Some? {
        assert ProviderJob(name, config.scheduler) in head;
      }
      if name in names[1..] && GetProvider(name, config).Some? {
        var j :| j in rest && j.id == name;
        assert j in ProviderJobs(names, config);
      }
    }
  }

  /** One job per configured provider of `names`, in the order given, each with its own interval. */
  lemma {:induction false} ProviderJobsAreConfigured(names: seq<string>, config: Config)
    ensures var jobs := ProviderJobs(names, config); var c := Configured(names, config);
      |jobs| == |c| && forall k :: 0 <= k < |jobs| ==> jobs[k] == ProviderJob(c[k], config.scheduler)
    decreases |names|
  {
    if names != [] {
      ProviderJobsAreConfigured(names[1..], config);
      var jobs := ProviderJobs(names, config);
      var rest := ProviderJobs(names[1..], config);
      var c := Configured(names, config);
      var c1 := Configured(names[1..], config);
      if GetProvider(names[0], config).Some? {
        assert c == [names[0]] + c1 && jobs == [ProviderJob(names[0], config.scheduler)] + rest;
        forall k | 1 <= k < |jobs| ensures jobs[k] == ProviderJob(c[k], config.scheduler) {
          assert jobs[k] == rest[k - 1] && c[k] == c1[k - 1];
        }
      } else {
        assert c == c1 && jobs == rest;
      }
    }
  }

  /** The jobs for pairwise different provider names, then a job with another id, have different ids. */
  lemma JobIdsDifferent(names: seq<string>, config: Config, last: Job)
    requires PairwiseDifferent(names) && last.id !in names
    ensures var jobs := ProviderJobs(names, config) + [last];
      forall i, j :: 0 <= i < j < |jobs| ==> jobs[i].id != jobs[j].id
  {
    var pj := ProviderJobs(names, config);
    var jobs := pj + [last];
    var c := Configured(names, config);
    ProviderJobsAreConfigured(names, config);
    ConfiguredDistinct(names, config);
    forall i, j | 0 <= i < j < |jobs| ensures jobs[i].id != jobs[j].id {
      assert jobs[i] == pj[i] && jobs[i].id == c[i];
      if j < |pj| {
        assert jobs[j] == pj[j] && jobs[j].id == c[j];
      } else {
        assert jobs[j] == last;
      }
    }
  }

  /** No two scheduled jobs share an id. */
  lemma ScheduledJobsDistinct(config: Config)
    ensures var jobs := ScheduledJobs(config);
      forall i, j :: 0 <= i < j < |jobs| ==> jobs[i].id != jobs[j].id
  {
    var post := Job(PostProcessId, Minutes(config.scheduler.postProcessIntervalMin), 1, config.scheduler.misfireGraceTime);
    assert ScheduledJobs(config) == ProviderJobs(AllProviders, config) + [post];
    AllProvidersDifferent();
    JobIdsDifferent(AllProviders, config, post);
  }

  lemma AllProvidersDifferent()
    ensures PairwiseDifferent(AllProviders) && PostProcessId !in AllProviders
  {
  }

  /** The scheduled jobs: the configured providers and, always last, post-processing. */
  lemma ScheduledJobsIff(config: Config, name: string)
    requires name != PostProcessId
    ensures var jobs := ScheduledJobs(config);
      jobs[|jobs| - 1].id == PostProcessId
      && ((exists j :: j in jobs && j.id == name) <==> name in AllProviders && GetProvider(name, config).Some?)
  {
    var pj := ProviderJobs(AllProviders, config);
    JobsForConfigured(AllProviders, config, name);
    if name in AllProviders && GetProvider(name, config).Some? {
      var j :| j in pj && j.id == name;
      assert j in ScheduledJobs(config);
    }
  }
}
