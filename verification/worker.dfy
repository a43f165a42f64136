/**
 * The job registry of worker/index.js: a `Worker` holding a name-keyed map
 * of cron jobs, with validated add, remove, run-one and run-all. Job
 * callbacks are identified by name; the cron library's scheduling is not
 * modelled, only which jobs have been started.
 */
module WorkerRegistry {
  import opened Wrappers

  const DefaultTimezone: string := "America/Los_Angeles"

  /** A constructed `CronJob`: its schedule, callbacks and constructor arguments. */
  datatype CronJob = CronJob(cron_time: string, on_tick: string, on_complete: string, start: bool, timezone: string)

  /**
   * The `job_data` argument of `addJob`. A callback is `None` when absent;
   * `start` is `None` when it is not a boolean.
   */
  datatype JobData = JobData(
    job_name: Option<string>,
    cron_time: Option<string>,
    on_tick: Option<string>,
    on_complete: Option<string>,
    start: Option<bool>,
    timezone: Option<string>)

  /** What `addJob` returns: `true`, the logger's result after a validation error, or a thrown error. */
  datatype AddResult = Added | LoggedError(message: string) | Threw(error: string)

  /** What `runJob` and `runAllJobs` return: `undefined` on an empty registry, the logger's result, or `true`. */
  datatype RunResult = NothingToRun | RunRejected(message: string) | Started

  predicate Present(s: Option<string>) {
    s.Some? && s.value != ""
  }

  /**
   * The validation of `addJob`, in order: the three required fields, then
   * the optional ones, whose fallbacks assign to undeclared names and throw
   * in strict mode, then the duplicate check.
   */
  function AddCheck(jobs: map<string, CronJob>, d: JobData): (r: Option<AddResult>)
    ensures r.None? <==> Present(d.job_name) && Present(d.cron_time) && d.on_tick.Some? && d.on_complete.Some?
                         && d.start.Some? && Present(d.timezone) && d.job_name.value !in jobs
    ensures r.Some? ==> !r.value.Added?
    ensures r.Some? && r.value.Threw? <==> Present(d.job_name) && Present(d.cron_time) && d.on_tick.Some?
                                           && !(d.on_complete.Some? && d.start.Some? && Present(d.timezone))
  {
    if !Present(d.job_name) then Some(LoggedError("Missing Parameter: job_name is required."))
    else if !Present(d.cron_time) then Some(LoggedError("Missing Parameter: cron_time is required."))
    else if d.on_tick.None? then Some(LoggedError("Missing Parameter: on_tick function is required."))
    else if d.on_complete.None? then Some(Threw("ReferenceError: on_complete is not defined"))
    else if d.start.None? then Some(Threw("ReferenceError: start is not defined"))
    else if !Present(d.timezone) then Some(Threw("ReferenceError: timezone is not defined"))
    else if d.job_name.value in jobs then
      Some(LoggedError("Invalid Parameter: Job_name exists - check for duplicate jobs or use a different job name."))
    else None
  }

  predicate NoDuplicates(s: seq<string>) {
    forall i, j :: 0 <= i < j < |s| ==> s[i] != s[j]
  }

  /** `s` without `x`, order kept. */
  function Without(s: seq<string>, x: string): (r: seq<string>)
    ensures forall y :: y in r <==> y in s && y != x
  {
    if s == [] then []
    else if s[0] == x then Without(s[1..], x)
    else [s[0]] + Without(s[1..], x)
  }

  class Worker {
    /** `this.jobs` */
    var jobs: map<string, CronJob>
    /** The `Map`'s iteration order: the names in insertion order. */
    var order: seq<string>
    /** The names whose job has been started; removing a job does not stop it. */
    var running: set<string>

    predicate Valid()
      reads this
    {
      NoDuplicates(order) && (forall n :: n in order ==> n in jobs) && (forall n :: n in jobs ==> n in order)
    }

    constructor ()
      ensures Valid()
      ensures jobs == map[] && order == [] && running == {}
    {
      jobs := map[];
      order := [];
      running := {};
    }

    /**
     * `addJob`: on success exactly the new name is added, at the end of the
     * iteration order, and a job constructed with `start` runs at once;
     * otherwise nothing changes.
     */
    method AddJob(d: JobData) returns (r: AddResult)
      requires Valid()
      modifies this
      ensures Valid()
      ensures r.Added? <==> AddCheck(old(jobs), d).None?
      ensures !r.Added? ==> r == AddCheck(old(jobs), d).value && unchanged(this)
      ensures r.Added? ==> var name := d.job_name.value;
        && name !in old(jobs)
        && jobs == old(jobs)[name := CronJob(d.cron_time.value, d.on_tick.value, d.on_complete.value, d.start.value, d.timezone.value)]
        && order == old(order) + [name]
        && running == old(running) + (if d.start.value then {name} else {})
    {
      var check := AddCheck(jobs, d);
      if check.Some? {
        return check.value;
      }
      var name := d.job_name.value;
      var job := CronJob(d.cron_time.value, d.on_tick.value, d.on_complete.value, d.start.value, d.timezone.value);
      jobs := jobs[name := job];
      order := order + [name];
      if job.start {
        running := running + {name};
      }
      r := Added;
    }

    /** `removeJob`: deletes the name and answers true exactly when it was registered. */
    method RemoveJob(name: string) returns (removed: bool)
      requires Valid()
      modifies this
      ensures Valid()
      ensures removed <==> name in old(jobs)
      ensures jobs == old(jobs) - {name}
      ensures order == Without(old(order), name)
      ensures running == old(running)
    {
      if name in jobs {
        jobs := jobs - {name};
        WithoutKeepsDistinct(order, name);
        order := Without(order, name);
        removed := true;
      } else {
        assert Without(order, name) == order by { WithoutAbsent(order, name); }
        order := Without(order, name);
        removed := false;
      }
    }

    /** `runJob`: nothing on an empty registry, an error for a missing or unknown name, else starts exactly that job. */
    method RunJob(name: Option<string>) returns (r: RunResult)
      requires Valid()
      modifies this
      ensures Valid()
      ensures jobs == old(jobs) && order == old(order)
      ensures old(jobs) == map[] ==> r.NothingToRun?
      ensures old(jobs) != map[] && !(Present(name) && name.value in old(jobs)) ==> r.RunRejected?
      ensures r.Started? <==> old(jobs) != map[] && Present(name) && name.value in old(jobs)
      ensures r.Started? ==> running == old(running) + {name.value}
      ensures !r.Started? ==> running == old(running)
    {
      if jobs == map[] {
        return NothingToRun;
      }
      if !Present(name) {
        return RunRejected("Missing Parameter: Job name is required.");
      }
      if name.value !in jobs {
        return RunRejected("Cannot run job " + name.value + ". Job not found.");
      }
      running := running + {name.value};
      r := Started;
    }

    /** `runAllJobs`: nothing on an empty registry, else starts every registered job in insertion order. */
    method RunAllJobs() returns (r: RunResult)
      requires Valid()
      modifies this
      ensures Valid()
      ensures jobs == old(jobs) && order == old(order)
      ensures old(jobs) == map[] <==> r.NothingToRun?
      ensures !r.NothingToRun? ==> r.Started? && running == old(running) + old(jobs).Keys
      ensures r.NothingToRun? ==> running == old(running)
    {
      if jobs == map[] {
        return NothingToRun;
      }
      var i := 0;
      while i < |order|
        invariant 0 <= i <= |order|
        invariant jobs == old(jobs) && order == old(order)
        invariant running == old(running) + set k | 0 <= k < i :: order[k]
      {
        running := running + {order[i]};
        i := i + 1;
      }
      assert (set k | 0 <= k < |order| :: order[k]) == jobs.Keys by {
        forall n | n in jobs.Keys
          ensures n in set k | 0 <= k < |order| :: order[k]
        {
          assert n in order;
          var k :| 0 <= k < |order| && order[k] == n;
        }
      }
      r := Started;
    }
  }

  lemma {:induction false} WithoutKeepsDistinct(s: seq<string>, x: string)
    requires NoDuplicates(s)
    ensures NoDuplicates(Without(s, x))
  {
    if s != [] {
      WithoutKeepsDistinct(s[1..], x);
      if s[0] != x {
        var r := Without(s, x);
        assert s[0] !in s[1..] by {
          forall k | 0 <= k < |s[1..]|
            ensures s[1..][k] != s[0]
          {
            assert s[k + 1] != s[0];
          }
        }
        assert r[0] !in r[1..];
        forall i, j | 0 <= i < j < |r|
          ensures r[i] != r[j]
        {
          if i == 0 {
            assert r[j] in r[1..];
          } else {
            assert r[i] == r[1..][i - 1] && r[j] == r[1..][j - 1];
          }
        }
      }
    }
  }

  lemma {:induction false} WithoutAbsent(s: seq<string>, x: string)
    requires x !in s
    ensures Without(s, x) == s
  {
    if s != [] {
      WithoutAbsent(s[1..], x);
    }
  }
}
