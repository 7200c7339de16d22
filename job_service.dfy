/**
 * `JobService.start`: hand every job to the scheduler with a callback that
 * wraps the job's `run` in logging, and log that the job was scheduled.
 *
 * The scheduler is an append-only table of registrations; firing a
 * registration is a call to `Fire` with the outcome of the job's `run` as an
 * input. The logger is a journal of events, in which a `run` of the job is an
 * event too, so that the order of logging and running is observable. The
 * message templates are inputs; only their `{JOB}` and `{SCHEDULE}`
 * placeholders matter.
 */
module Jobs {
  import opened Wrappers

  // ---------------------------------------------------------------------------
  // String replacement
  // ---------------------------------------------------------------------------

  /** `p` occurs in `s` starting at index `i`. */
  predicate OccursAt(s: string, p: string, i: nat) {
    i + |p| <= |s| && s[i..i + |p|] == p
  }

  ghost predicate Contains(s: string, p: string) {
    exists i: nat :: OccursAt(s, p, i)
  }

  /**
   * `s.replaceAll(p, r)` for a string pattern: the occurrences of `p` found
   * scanning left to right, each search starting after the previous match,
   * replaced by `r`. An empty pattern matches before every character and at
   * the end.
   */
  function ReplaceAll(s: string, p: string, r: string): string
    decreases |s|
  {
    if |p| == 0 then
      if s == [] then r else r + [s[0]] + ReplaceAll(s[1..], p, r)
    else if |s| < |p| then s
    else if s[..|p|] == p then r + ReplaceAll(s[|p|..], p, r)
    else [s[0]] + ReplaceAll(s[1..], p, r)
  }

  /** A string without the pattern comes back unchanged. */
  lemma {:induction false} ReplaceAllWithoutPattern(s: string, p: string, r: string)
    requires |p| > 0 && !Contains(s, p)
    ensures ReplaceAll(s, p, r) == s
    decreases |s|
  {
    if |s| >= |p| {
      assert !OccursAt(s, p, 0);
      assert s[..|p|] != p;
      forall i: nat
        ensures !OccursAt(s[1..], p, i)
      {
        assert !OccursAt(s, p, i + 1);
        if i + |p| <= |s[1..]| {
          assert s[1..][i..i + |p|] == s[i + 1..i + 1 + |p|];
        }
      }
      ReplaceAllWithoutPattern(s[1..], p, r);
    }
  }

  /**
   * The first occurrence of the pattern is replaced in place: everything
   * before it is kept, and the search resumes right after it.
   */
  lemma ReplaceAllFirstOccurrence(s: string, p: string, r: string, i: nat)
    requires |p| > 0 && OccursAt(s, p, i)
    requires forall j: nat :: j < i ==> !OccursAt(s, p, j)
    ensures ReplaceAll(s, p, r) == s[..i] + r + ReplaceAll(s[i + |p|..], p, r)
  {
    ReplaceAllBeforeRest(s, p, r, i, s[i + |p|..]);
  }

  /** `ReplaceAllFirstOccurrence`, with the text after the occurrence named `u`. */
  lemma {:induction false} ReplaceAllBeforeRest(s: string, p: string, r: string, i: nat, u: string)
    requires |p| > 0 && OccursAt(s, p, i) && s[i + |p|..] == u
    requires forall j: nat :: j < i ==> !OccursAt(s, p, j)
    ensures ReplaceAll(s, p, r) == s[..i] + r + ReplaceAll(u, p, r)
    decreases i
  {
    if i == 0 {
      ReplaceAllAtMatch(s, p, r);
      assert s[..0] == [];
    } else {
      var t := s[1..];
      ReplaceAllSkips(s, p, r);
      FirstOccurrenceInTail(s, p, i);
      assert t[i - 1 + |p|..] == u;
      ReplaceAllBeforeRest(t, p, r, i - 1, u);
      KeepsPrefix(s, i, r, ReplaceAll(u, p, r), ReplaceAll(s, p, r), ReplaceAll(t, p, r));
    }
  }

  /** The first occurrence at `i > 0` is, in the tail, the first occurrence at `i - 1`. */
  lemma FirstOccurrenceInTail(s: string, p: string, i: nat)
    requires 0 < i && OccursAt(s, p, i)
    requires forall j: nat :: j < i ==> !OccursAt(s, p, j)
    ensures |p| <= |s| && !OccursAt(s, p, 0)
    ensures OccursAt(s[1..], p, i - 1) && forall j: nat :: j < i - 1 ==> !OccursAt(s[1..], p, j)
  {
    forall j: nat | j < i
      ensures OccursAt(s[1..], p, j) <==> OccursAt(s, p, j + 1)
    {
      OccursAtShift(s, p, j);
    }
  }

  /** A first character kept in front of the rest of a prefix keeps the whole prefix. */
  lemma KeepsPrefix(s: string, i: nat, r: string, rest: string, whole: string, tail: string)
    requires 0 < i <= |s|
    requires whole == [s[0]] + tail && tail == s[1..][..i - 1] + r + rest
    ensures whole == s[..i] + r + rest
  {
    assert s[..i] == [s[0]] + s[1..][..i - 1];
  }

  /** Where the pattern starts, it is replaced and the search resumes after it. */
  lemma ReplaceAllAtMatch(s: string, p: string, r: string)
    requires |p| > 0 && OccursAt(s, p, 0)
    ensures ReplaceAll(s, p, r) == r + ReplaceAll(s[|p|..], p, r)
  {
    assert s[..|p|] == p;
  }

  /** Where the pattern does not start, the first character is kept and the search moves on. */
  lemma ReplaceAllSkips(s: string, p: string, r: string)
    requires |p| > 0 && |p| <= |s| && !OccursAt(s, p, 0)
    ensures ReplaceAll(s, p, r) == [s[0]] + ReplaceAll(s[1..], p, r)
  {
    assert s[..|p|] != p;
  }

  /** An occurrence in the tail of `s` is an occurrence in `s`, one position later. */
  lemma OccursAtShift(s: string, p: string, j: nat)
    requires |s| > 0
    ensures OccursAt(s[1..], p, j) <==> OccursAt(s, p, j + 1)
  {
    if j + |p| <= |s| - 1 {
      assert s[1..][j..j + |p|] == s[j + 1..j + 1 + |p|];
    }
  }

  /** Wherever the pattern occurs, the replacement shows up in the result. */
  lemma {:induction false} ReplaceAllInserts(s: string, p: string, r: string, i: nat)
    requires |p| > 0 && OccursAt(s, p, i)
    ensures Contains(ReplaceAll(s, p, r), r)
    decreases |s|
  {
    if s[..|p|] == p {
      assert OccursAt(ReplaceAll(s, p, r), r, 0);
    } else {
      assert i > 0;
      assert s[1..][i - 1..i - 1 + |p|] == s[i..i + |p|];
      ReplaceAllInserts(s[1..], p, r, i - 1);
      var t := ReplaceAll(s[1..], p, r);
      var j: nat :| OccursAt(t, r, j);
      assert ([s[0]] + t)[j + 1..j + 1 + |r|] == t[j..j + |r|];
      assert OccursAt(ReplaceAll(s, p, r), r, j + 1);
    }
  }

  /** A placeholder in a message is replaced by the job's name. */
  lemma ReplaceAllExample()
    ensures ReplaceAll("Ran {JOB}", "{JOB}", "Sync") == "Ran Sync"
  {
    var s, p, r := "Ran {JOB}", "{JOB}", "Sync";
    assert s[4..] == p;
    assert ReplaceAll(s[4..], p, r) == r;
    assert ReplaceAll(s[3..], p, r) == " Sync";
    assert ReplaceAll(s[2..], p, r) == "n Sync";
    assert ReplaceAll(s[1..], p, r) == "an Sync";
  }

  /** The empty pattern matches before every character and at the end. */
  lemma EmptyPatternExample()
    ensures ReplaceAll("ab", "", "-") == "-a-b-"
  {
    assert "ab"[1..] == "b" && "b"[1..] == "";
  }

  // ---------------------------------------------------------------------------
  // Jobs, messages and the log
  // ---------------------------------------------------------------------------

  /** A job: its name, its cron-style schedule, and whether its runs are logged. */
  datatype Job = Job(name: string, schedule: string, log: bool)

  /** The four log messages a job service writes, with their placeholders. */
  datatype Templates = Templates(jobRun: string, jobCompleted: string, jobError: string, jobScheduled: string)

  function RunLine(t: Templates, job: Job): string {
    ReplaceAll(t.jobRun, "{JOB}", job.name)
  }

  function CompletedLine(t: Templates, job: Job): string {
    ReplaceAll(t.jobCompleted, "{JOB}", job.name)
  }

  function ErrorLine(t: Templates, job: Job): string {
    ReplaceAll(t.jobError, "{JOB}", job.name)
  }

  function ScheduledLine(t: Templates, job: Job): string {
    ReplaceAll(ReplaceAll(t.jobScheduled, "{JOB}", job.name), "{SCHEDULE}", job.schedule)
  }

  /** What the journal records: a log line, an error log line with its error, or a run of a job. */
  datatype Event = Info(text: string) | Error(text: string, error: string) | Ran(job: string)

  /** The callback the scheduler holds: a schedule and the job it wraps. */
  datatype Registration = Registration(schedule: string, job: Job)

  /** The log and runs of one firing of `job`'s callback, given how its `run` ends. */
  function Firing(t: Templates, job: Job, run: Result<(), string>): seq<Event> {
    (if job.log then [Info(RunLine(t, job))] else [])
    + [Ran(job.name)]
    + match run
      case Ok(_) => if job.log then [Info(CompletedLine(t, job))] else []
      case Err(e) => [Error(ErrorLine(t, job), e)]
  }

  /**
   * One firing runs the job exactly once; logs "run" before it iff the job
   * is logged; logs "completed" after it iff the job is logged and the run
   * completed; and logs an error, whatever `log` says, iff the run threw.
   */
  lemma FiringShape(t: Templates, job: Job, run: Result<(), string>)
    ensures var f := Firing(t, job, run);
      var k := if job.log then 1 else 0;
      && k < |f| && f[k] == Ran(job.name)
      && (forall j :: 0 <= j < |f| && j != k ==> !f[j].Ran?)
      && (f[0] == Info(RunLine(t, job)) <==> job.log)
      && (f[|f| - 1] == Info(CompletedLine(t, job)) <==> job.log && run.Ok?)
      && (f[|f| - 1] == Error(ErrorLine(t, job), if run.Err? then run.error else "") <==> run.Err?)
      && |f| == k + 2 - (if run.Ok? && !job.log then 1 else 0)
  {
  }

  /** When the error template names the job, so does every error a failed firing logs. */
  lemma ErrorLineNamesJob(t: Templates, job: Job, i: nat)
    requires OccursAt(t.jobError, "{JOB}", i)
    ensures Contains(ErrorLine(t, job), job.name)
  {
    ReplaceAllInserts(t.jobError, "{JOB}", job.name, i);
  }

  // ---------------------------------------------------------------------------
  // The scheduler, the journal and the service
  // ---------------------------------------------------------------------------

  /** The scheduler's registration table: it only grows. */
  class Scheduler {
    var table: seq<Registration>

    constructor ()
      ensures table == []
    {
      table := [];
    }

    /** `schedule.scheduleJob(schedule, callback)`. */
    method ScheduleJob(schedule: string, job: Job)
      modifies this
      ensures table == old(table) + [Registration(schedule, job)]
    {
      table := table + [Registration(schedule, job)];
    }
  }

  /** The logger's output, and the job runs between the log lines. */
  class Journal {
    var events: seq<Event>

    constructor ()
      ensures events == []
    {
      events := [];
    }

    method Record(e: Event)
      modifies this
      ensures events == old(events) + [e]
    {
      events := events + [e];
    }
  }

  /** The registrations `start` makes for `jobs`: one per job, in order, under the job's own schedule. */
  function Registrations(jobs: seq<Job>): (r: seq<Registration>)
    ensures |r| == |jobs|
    ensures forall k :: 0 <= k < |r| ==> r[k] == Registration(jobs[k].schedule, jobs[k])
  {
    if jobs == [] then [] else [Registration(jobs[0].schedule, jobs[0])] + Registrations(jobs[1..])
  }

  /** The lines `start` logs for `jobs`: one "scheduled" line per job, in order. */
  function ScheduledLines(t: Templates, jobs: seq<Job>): (r: seq<Event>)
    ensures |r| == |jobs|
    ensures forall k :: 0 <= k < |r| ==> r[k] == Info(ScheduledLine(t, jobs[k]))
  {
    if jobs == [] then [] else [Info(ScheduledLine(t, jobs[0]))] + ScheduledLines(t, jobs[1..])
  }

  class JobService {
    const jobs: seq<Job>
    const templates: Templates
    const scheduler: Scheduler
    const journal: Journal

    constructor (jobs: seq<Job>, templates: Templates, scheduler: Scheduler, journal: Journal)
      ensures this.jobs == jobs && this.templates == templates
      ensures this.scheduler == scheduler && this.journal == journal
    {
      this.jobs := jobs;
      this.templates := templates;
      this.scheduler := scheduler;
      this.journal := journal;
    }

    /** Registers every job, in order, logging a "scheduled" line after each registration. */
    method Start()
      modifies scheduler, journal
      ensures scheduler.table == old(scheduler.table) + Registrations(jobs)
      ensures journal.events == old(journal.events) + ScheduledLines(templates, jobs)
    {
      var k := 0;
      while k < |jobs|
        invariant 0 <= k <= |jobs|
        invariant scheduler.table == old(scheduler.table) + Registrations(jobs[..k])
        invariant journal.events == old(journal.events) + ScheduledLines(templates, jobs[..k])
      {
        var job, done := jobs[k], jobs[..k];
        assert jobs[..k + 1] == done + [job];
        RegistrationsAppend(done, job);
        ScheduledLinesAppend(templates, done, job);
        scheduler.ScheduleJob(job.schedule, job);
        assert scheduler.table == old(scheduler.table) + Registrations(jobs[..k + 1]);
        journal.Record(Info(ScheduledLine(templates, job)));
        assert journal.events == old(journal.events) + ScheduledLines(templates, jobs[..k + 1]);
        k := k + 1;
      }
      assert jobs[..k] == jobs;
    }

    /**
     * One firing of the callback registered at `index`, whose `run` ends as
     * `run`. A throw from `run` is caught and logged: the callback itself
     * always completes, and the table is left as it was.
     */
    method Fire(index: nat, run: Result<(), string>)
      requires index < |scheduler.table|
      modifies journal
      ensures journal.events == old(journal.events) + Firing(templates, old(scheduler.table[index].job), run)
      ensures scheduler.table == old(scheduler.table)
    {
      var job := scheduler.table[index].job;
      if job.log {
        journal.Record(Info(RunLine(templates, job)));
      }
      journal.Record(Ran(job.name));
      match run {
        case Ok(_) =>
          if job.log {
            journal.Record(Info(CompletedLine(templates, job)));
          }
        case Err(e) =>
          journal.Record(Error(ErrorLine(templates, job), e));
      }
    }
  }

  lemma RegistrationsAppend(jobs: seq<Job>, job: Job)
    ensures Registrations(jobs + [job]) == Registrations(jobs) + [Registration(job.schedule, job)]
  {
  }

  lemma ScheduledLinesAppend(t: Templates, jobs: seq<Job>, job: Job)
    ensures ScheduledLines(t, jobs + [job]) == ScheduledLines(t, jobs) + [Info(ScheduledLine(t, job))]
  {
  }
}
