/**
 Sequential runs: the attempts table is the history of the messages consumed.
 Attempt `n` of a job records the clock readings of the `n`-th message that ran
 it, and the job row repeats those of the last.
 */
module ConsumptionHistory {
  import opened Domain
  import opened JobRules
  import opened Tables
  import opened UseCases
  import opened Requests

  /** The request takes a message of job `j` off the queue. */
  predicate Runs(w: World, r: Request, j: JobId) {
    r.Consume? && r.message in w.queue && r.message.jobId == Some(j)
  }

  /** The requests that ran job `j`, in order. */
  function RunsOf(rs: seq<Request>, j: JobId): seq<Request> {
    if rs == [] then []
    else RunsOf(rs[..|rs| - 1], j)
         + if Runs(ExecAll(rs[..|rs| - 1]), rs[|rs| - 1], j) then [rs[|rs| - 1]] else []
  }

  /** The row of attempt `n`, as the request that ran it leaves it. */
  predicate Records(row: AttemptRow, payload: Payload, n: nat, r: Request)
    requires r.Consume?
  {
    && row.startedAt == r.startedAt && row.finishedAt == Some(r.finishedAt)
    && row.durationMs == Some(r.finishedAt - r.startedAt)
    && row.status == (if EvaluateFailure(payload, n) then Unsuccessful else Succeeded)
    && row.errorMessage == (if EvaluateFailure(payload, n) then Some(FailedOnAttempt(n)) else None)
  }

  /** The job row between requests. */
  predicate RowFits(job: JobRow, runs: seq<Request>)
    requires forall k :: 0 <= k < |runs| ==> runs[k].Consume?
  {
    && job.attemptCount == |runs|
    && match job.status
       case Queued => job.startedAt == None && job.completedAt == None && job.lastError == None
       case Processing => false
       case _ =>
         && runs != [] && job.startedAt == Some(runs[|runs| - 1].startedAt)
         && job.completedAt == Some(runs[|runs| - 1].finishedAt)
         && job.status == (if EvaluateFailure(job.payload, |runs|) then JobStatus.Failed else Completed)
         && job.lastError == if job.status == Completed then None else Some(FailedOnAttempt(|runs|))
  }

  ghost predicate History(t: Tables, j: JobId, runs: seq<Request>) {
    && (forall k :: 0 <= k < |runs| ==> runs[k].Consume?)
    && (forall n: nat :: (j, n) in t.attempts <==> 1 <= n <= |runs|)
    && (j < |t.jobs| ==>
          && RowFits(t.jobs[j], runs)
          && forall n: nat :: 1 <= n <= |runs| ==> Records(t.attempts[(j, n)], t.jobs[j].payload, n, runs[n - 1]))
    && (j >= |t.jobs| ==> runs == [])
  }

  lemma RunAddsToHistory(t: Tables, t': Tables, j: JobId, runs: seq<Request>, r: Request)
    requires History(t, j, runs) && r.Consume? && Ran(t, j, r, t')
    ensures History(t', j, runs + [r])
  {
  }

  lemma OtherHistoryStays(t: Tables, t': Tables, j: JobId, runs: seq<Request>)
    requires History(t, j, runs) && |t.jobs| <= |t'.jobs|
    requires forall n: nat :: (j, n) in t'.attempts <==> (j, n) in t.attempts
    requires forall n: nat :: (j, n) in t.attempts ==> t'.attempts[(j, n)] == t.attempts[(j, n)]
    requires j < |t.jobs| ==> t'.jobs[j] == t.jobs[j] || t'.jobs[j] == Requeue(t.jobs[j])
    requires j < |t'.jobs| && j >= |t.jobs| ==> RowFits(t'.jobs[j], [])
    ensures History(t', j, runs)
  {
  }

  lemma ConsumeRuns(w: World, r: Request, w': World)
    requires RestInv(w) && w' == Exec(w, r) && r.Consume? && r.message in w.queue
    ensures r.message.jobId.Some? && Ran(w.tables, r.message.jobId.value, r, w'.tables)
  {
    ProcessKeepsRest(w, r);
    var m := r.message;
    ProcessWrites(w.tables, m.jobId.value, JobServices.ReasonOf(m), JobServices.RequesterOf(m),
                  r.startedAt, r.finishedAt);
  }

  /** The request ran job `id`. */
  predicate Ran(t: Tables, id: JobId, r: Request, t': Tables)
    requires r.Consume?
  {
    && id < |t.jobs|
    && var job := Begin(t.jobs[id], r.startedAt);
    && t'.jobs == t.jobs[id := Conclude(job, r.finishedAt)]
    && t'.attempts == t.attempts[(id, job.attemptCount) := CloseAttempt(job, r.startedAt, r.finishedAt)]
  }

  lemma RunKeepsHistory(t: Tables, t': Tables, id: JobId, r: Request, j: JobId, runs: seq<Request>)
    requires r.Consume? && Ran(t, id, r, t') && History(t, j, runs)
    ensures History(t', j, if id == j then runs + [r] else runs)
  {
    if id == j { RunAddsToHistory(t, t', j, runs, r); } else { OtherHistoryStays(t, t', j, runs); }
  }

  lemma ExecKeepsHistory(w: World, r: Request, w': World, j: JobId, runs: seq<Request>)
    requires RestInv(w) && w' == Exec(w, r) && History(w.tables, j, runs)
    ensures History(w'.tables, j, if Runs(w, r, j) then runs + [r] else runs)
  {
    if r.Consume? && r.message in w.queue {
      ConsumeRuns(w, r, w');
      RunKeepsHistory(w.tables, w'.tables, r.message.jobId.value, r, j, runs);
    } else {
      OtherHistoryStays(w.tables, w'.tables, j, runs);
    }
  }

  /**
   After any sequential run a job's attempt rows are 1, 2, ... up to its count,
   row `n` records the `n`-th run of the job and its duration, and the job row
   the last one.
   */
  lemma {:induction false} AttemptsAreTheRuns(rs: seq<Request>, j: JobId)
    ensures History(ExecAll(rs).tables, j, RunsOf(rs, j))
  {
    if rs != [] {
      var before := rs[..|rs| - 1];
      AttemptsAreTheRuns(before, j);
      RunsKeepRest(before);
      ExecKeepsHistory(ExecAll(before), rs[|rs| - 1], ExecAll(rs), j, RunsOf(before, j));
      assert RunsOf(before, j) + [] == RunsOf(before, j);
    }
  }
}
